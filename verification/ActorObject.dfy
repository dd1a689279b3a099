/**
 * The client's actor as the object it is: one set of fields that every operation
 * updates in place, and the loop that serves one input at a time until the
 * connection is dead and then tears everything down. Every method is tied to the
 * state function of the same operation, for which the properties are proved.
 */
module ActorObject {
  import opened Options
  import opened Chunks
  import opened Actor
  import Runs = ActorRuns
  import Download

  class Client {
    var pending: seq<Pending>
    var nextToken: nat
    var transfer: Option<Transfer>
    var nextGen: nat
    var abandoned: seq<Id>
    var blocking: Option<Blocking>
    var dead: bool
    var closing: bool
    var issued: nat
    var answers: seq<Answer>
    var out: seq<Out>

    ghost function Value(): State
      reads this
    {
      State(pending, nextToken, transfer, nextGen, abandoned, blocking, dead, closing, issued, answers, out)
    }

    constructor ()
      ensures Value() == Start
    {
      pending, nextToken, transfer, nextGen, abandoned, blocking := [], 0, None, 0, [], None;
      dead, closing, issued, answers, out := false, false, 0, [], [];
    }

    // ---- request and barrier plumbing ------------------------------------------------

    method PushPending(p: Pending)
      modifies this
      ensures Value() == Actor.PushPending(old(Value()), p)
    {
      if |pending| >= MAX_PENDING {
        dead := true;
      }
      pending := pending + [p];
    }

    method Send(message: Out)
      modifies this
      ensures Value() == old(Value()).(out := old(out) + [message])
    {
      out := out + [message];
    }

    method Respond(caller: Caller, how: How)
      modifies this
      ensures Value() == Answered(old(Value()), caller, how)
    {
      answers := answers + [Answer(caller, how)];
    }

    /** Write a Ping and queue the barrier it stands for. */
    method SendBarrier(quiet: Option<Quiet>)
      modifies this
      ensures var a := old(Value());
              Value() == Actor.PushPending(a.(nextToken := NextToken(a), out := a.out + [Ping(NextToken(a), ReplyOf(quiet))]),
                                           Barrier(NextToken(a), quiet))
    {
      nextToken := (nextToken + 1) % 0x1_0000_0000_0000_0000;
      Send(Ping(nextToken, ReplyOf(quiet)));
      PushPending(Barrier(nextToken, quiet));
    }

    method SendQuiet(kind: Kind, reply: Option<Caller>)
      modifies this
      ensures Value() == Actor.SendQuiet(old(Value()), kind, reply)
    {
      ghost var token := NextToken(Value());
      Send(Tell((nextToken + 1) % 0x1_0000_0000_0000_0000, kind));
      SendBarrier(Some(Quiet(kind, false, reply)));
      assert old(out) + [Tell(token, kind)] + [Ping(token, reply)] == old(out) + [Tell(token, kind), Ping(token, reply)];
    }

    method SendRequest(w: Waiter)
      modifies this
      ensures Value() == Actor.SendRequest(old(Value()), w)
    {
      Send(Ask(w));
      PushPending(Reply(w));
    }

    /** The head, if it is a request waiting for this type; the queue is left alone otherwise. */
    method TakeReply(t: ReplyType) returns (caller: Option<Caller>)
      modifies this
      ensures caller.Some? <==> HeadAsks(old(Value()), t)
      ensures caller.Some? ==> Value() == PopFront(old(Value())) && caller.value == old(pending)[0].waiter.caller
      ensures caller == None ==> Value() == old(Value())
    {
      if pending != [] && pending[0].Reply? && pending[0].waiter.Asks? && pending[0].waiter.expects == t {
        caller := Some(pending[0].waiter.caller);
        pending := pending[1..];
      } else {
        caller := None;
      }
    }

    method OnReply(t: ReplyType)
      modifies this
      ensures Value() == Actor.OnReply(old(Value()), t)
    {
      var caller := TakeReply(t);
      match caller
      case Some(c) => Respond(c, Fine);
      case None => dead := true;
    }

    method UploadChunkAcked(gen: nat, len: nat, index: nat, ok: bool)
      modifies this
      ensures Value() == Actor.UploadChunkAcked(old(Value()), gen, len, index, ok)
    {
      if transfer.Some? && transfer.value.gen == gen && transfer.value.job.Upload? {
        var u := transfer.value.job.up;
        u := u.(inFlight := if u.inFlight >= len then u.inFlight - len else 0);
        if ok && index < |u.done| {
          u := u.(done := u.done[index := true]);
        }
        transfer := Some(transfer.value.(job := Upload(u)));
      }
    }

    method OnPong()
      modifies this
      ensures Value() == Actor.OnPong(old(Value()))
    {
      if pending == [] {
        dead := true;
        return;
      }
      var head := pending[0];
      pending := pending[1..];
      match head
      case Reply(w) =>
        dead := true;
        if w.Asks? {
          Respond(w.caller, Gone);
        }
      case Barrier(_, None) =>
      case Barrier(_, Some(q)) =>
        if q.kind.UploadChunk? {
          UploadChunkAcked(q.kind.gen, q.kind.len, q.kind.index, !q.failed);
        }
        if q.reply.Some? {
          Respond(q.reply.value, if q.failed then ServerSaid else Fine);
        }
    }

    method OnError(fatal: bool)
      modifies this
      ensures Value() == Actor.OnError(old(Value()), fatal)
    {
      hide Keeps, Actor.FailTransfer;
      if pending == [] {
        return;
      }
      match pending[0]
      case Reply(w) =>
        pending := pending[1..];
        match w {
          case TransferStart(gen) =>
            if transfer.Some? && transfer.value.gen == gen {
              FailTransfer(ServerSaid, fatal);
            }
          case Asks(caller, _) => Respond(caller, ServerSaid);
        }
      case Barrier(token, Some(q)) =>
        if !q.failed {
          pending := pending[0 := Barrier(token, Some(q.(failed := true)))];
          if q.kind.UploadChunk? && transfer.Some? && transfer.value.gen == q.kind.gen {
            FailTransfer(ServerSaid, fatal);
          }
        }
      case Barrier(_, None) =>
    }

    // ---- transfers -------------------------------------------------------------------

    method SendAbort(id: Id, fatal: bool)
      modifies this
      ensures Value() == Actor.SendAbort(old(Value()), id, fatal)
    {
      if |abandoned| >= MAX_ABANDONED {
        abandoned := abandoned[1..];
      }
      abandoned := abandoned + [id];
      if closing {
        return;
      }
      if fatal {
        dead := true;
      } else {
        SendQuiet(Plain, None);
      }
    }

    method FailTransfer(how: How, fatal: bool)
      modifies this
      ensures Value() == Actor.FailTransfer(old(Value()), how, fatal)
    {
      hide Keeps, Actor.SendAbort;
      if transfer == None {
        return;
      }
      var t := transfer.value;
      transfer := None;
      blocking := None;
      match t.job
      case Upload(u) =>
        if t.stage == Running {
          SendAbort(u.id, fatal);
        }
        Respond(t.caller, how);
      case Fetch(d) =>
        if d.accepted && t.stage != Verifying {
          SendAbort(d.id, fatal);
        }
        Respond(t.caller, how);
    }

    method OnUploadAccept(acc: Download.Accept, fatal: bool)
      requires transfer.Some? && transfer.value.job.Upload?
      modifies this
      ensures Value() == Actor.OnUploadAccept(old(Value()), old(transfer).value, acc, fatal)
    {
      hide TransferWf, Actor.FailTransfer, GeometryProblem;
      var t := transfer.value;
      var u := t.job.up.(id := acc.id);
      if GeometryProblem(true, u.chunkSize, acc.chunkSize, acc.total, acc.size, acc.bitmapLen) != None || acc.size != u.size {
        transfer := Some(t.(stage := Running, job := Upload(u)));
        FailTransfer(Locally, fatal);
      } else {
        var skip := Resize(acc.haveBits, acc.total);
        u := u.(total := acc.total, done := skip, skip := skip, next := 0, inFlight := 0);
        transfer := Some(t.(stage := Running, job := Upload(u)));
      }
    }

    method OnDownloadAccept(acc: Download.Accept, canOpen: bool, fatal: bool)
      requires transfer.Some? && transfer.value.job.Fetch?
      modifies this
      ensures Value() == Actor.OnDownloadAccept(old(Value()), old(transfer).value, acc, canOpen, fatal)
    {
      hide TransferWf, Actor.FailTransfer, Actor.SendAbort, GeometryProblem, Download.ResumedBits, Download.AcceptProblem;
      var t := transfer.value;
      var acceptedBefore := t.job.down.accepted;
      match Download.OnAccept(t.job.down, acc)
      case FileChanged(e) =>
        transfer := Some(t.(stage := Running, job := Fetch(e)));
        FailTransfer(Locally, fatal);
      case BadGeometry(e) =>
        transfer := Some(t.(stage := Running, job := Fetch(e)));
        if !acceptedBefore {
          SendAbort(acc.id, fatal);
        }
        FailTransfer(Locally, fatal);
      case Started(e, _) =>
        if !acceptedBefore && !canOpen {
          FailTransfer(Locally, fatal);
        } else {
          transfer := Some(t.(stage := Running, job := Fetch(e)));
        }
    }

    method OnTransferAccept(acc: Download.Accept, canOpen: bool, fatal: bool)
      modifies this
      ensures Value() == OnAccept(old(Value()), acc, canOpen, fatal)
    {
      hide Keeps, Actor.SendAbort, Actor.OnUploadAccept, Actor.OnDownloadAccept;
      if pending == [] || !pending[0].Reply? || !pending[0].waiter.TransferStart? {
        dead := true;
        return;
      }
      var gen := pending[0].waiter.gen;
      pending := pending[1..];
      var awaiting := transfer.Some? && transfer.value.gen == gen && transfer.value.stage == AwaitingAccept;
      if !awaiting {
        SendAbort(acc.id, fatal);
      } else if transfer.value.job.Upload? {
        OnUploadAccept(acc, fatal);
      } else {
        OnDownloadAccept(acc, canOpen, fatal);
      }
    }

    method OnTransferData(h: Download.Hash, d: Download.Data, written: bool, fatal: bool)
      requires TransferWf(Value())
      modifies this
      ensures Value() == OnData(h, old(Value()), d, written, fatal)
    {
      hide Keeps, Actor.FailTransfer, Download.OnData;
      if transfer == None || transfer.value.stage != Running || !transfer.value.job.Fetch? {
        return;
      }
      var t := transfer.value;
      match Download.OnData(h, t.job.down, d)
      case Ignored =>
      case Malformed => FailTransfer(Locally, fatal);
      case HashMismatch => FailTransfer(Locally, fatal);
      case Store(_, j) =>
        if written {
          transfer := Some(t.(job := Fetch(j)));
        } else {
          FailTransfer(Locally, fatal);
        }
    }

    method DownloadEnded(verified: bool, flushed: bool, tooLarge: bool, fatal: bool)
      requires transfer.Some? && transfer.value.job.Fetch?
      modifies this
      ensures Value() == Actor.DownloadEnded(old(Value()), old(transfer).value, verified, flushed, tooLarge, fatal)
    {
      hide TransferWf, Actor.FailTransfer, Actor.SendRequest, Download.OnEnd;
      var t := transfer.value;
      if !verified || !flushed {
        transfer := Some(t.(stage := Verifying));
        FailTransfer(ServerSaid, fatal);
        return;
      }
      match Download.OnEnd(t.job.down)
      case GiveUp =>
        transfer := Some(t.(stage := Verifying));
        FailTransfer(ServerSaid, fatal);
      case Verify =>
        transfer := Some(t.(stage := Verifying));
        blocking := Some(Blocking.Verify(t.gen));
      case Again(d) =>
        transfer := Some(t.(stage := AwaitingAccept, job := Fetch(d)));
        SendTransferRequest(t.gen, tooLarge, fatal);
    }

    method SendTransferRequest(gen: nat, tooLarge: bool, fatal: bool)
      modifies this
      ensures Value() == if tooLarge then Actor.FailTransfer(old(Value()), Locally, fatal)
                         else if fatal then Dead(old(Value()))
                         else Actor.SendRequest(old(Value()), TransferStart(gen))
    {
      if tooLarge {
        FailTransfer(Locally, fatal);
      } else if fatal {
        dead := true;
      } else {
        SendRequest(TransferStart(gen));
      }
    }

    method OnTransferEnd(id: Id, verified: bool, flushed: bool, tooLarge: bool, fatal: bool)
      modifies this
      ensures Value() == Actor.OnTransferEnd(old(Value()), id, verified, flushed, tooLarge, fatal)
    {
      hide Keeps, Actor.FailTransfer, Actor.DownloadEnded, RemoveFirst;
      var known := Forget(id);
      if known || transfer == None {
        return;
      }
      var t := transfer.value;
      match t.stage
      case AwaitingAccept =>
        if pending != [] && pending[0] == Reply(TransferStart(t.gen)) {
          pending := pending[1..];
        }
        FailTransfer(ServerSaid, fatal);
      case Preparing =>
      case Verifying =>
      case Running =>
        if id == (if t.job.Upload? then t.job.up.id else t.job.down.id) {
          if t.job.Upload? {
            transfer := None;
            Respond(t.caller, if verified then Fine else ServerSaid);
          } else {
            DownloadEnded(verified, flushed, tooLarge, fatal);
          }
        }
    }

    /** Look the id up among the transfers given up, and drop it once found. */
    method Forget(id: Id) returns (known: bool)
      modifies this
      ensures known <==> id in old(abandoned)
      ensures Value() == if known then old(Value()).(abandoned := RemoveFirst(old(abandoned), id)) else old(Value())
    {
      var pos := 0;
      while pos < |abandoned| && abandoned[pos] != id
        invariant 0 <= pos <= |abandoned|
        invariant id !in abandoned[..pos]
      {
        pos := pos + 1;
      }
      known := pos < |abandoned|;
      if known {
        RemovedAt(abandoned, id, pos);
        abandoned := abandoned[..pos] + abandoned[pos + 1..];
      } else {
        assert abandoned[..pos] == abandoned;
      }
    }

    /** Skip what the server has, then send one chunk and its barrier. */
    method SendNextChunk(readable: bool, tooLarge: bool, fatal: bool)
      requires TransferWf(Value()) && UploadCanSend(Value())
      modifies this
      ensures Value() == Actor.SendNextChunk(old(Value()), readable, tooLarge, fatal)
    {
      hide Keeps, SendChunk, TotalChunks;
      var t := transfer.value;
      var u := t.job.up;
      var next := u.next;
      while next < u.total && u.skip[next]
        invariant u.next <= next <= u.total
        invariant NextMissing(u.skip, u.next) == NextMissing(u.skip, next)
      {
        next := next + 1;
      }
      if next >= u.total {
        transfer := Some(t.(job := Upload(u.(next := next))));
      } else {
        SendOne(next, readable, tooLarge, fatal);
      }
    }

    method SendOne(index: nat, readable: bool, tooLarge: bool, fatal: bool)
      requires transfer.Some? && transfer.value.stage == Running && transfer.value.job.Upload?
      requires index < transfer.value.job.up.total && transfer.value.job.up.chunkSize > 0
      requires var u := transfer.value.job.up; u.inFlight == 0 || u.inFlight + u.chunkSize <= UPLOAD_WINDOW_BYTES
      modifies this
      ensures Value() == SendChunk(old(Value()), old(transfer).value, index, readable, tooLarge, fatal)
    {
      hide Keeps, Actor.FailTransfer, Actor.SendQuiet, ChunkLen, TotalChunks;
      var t := transfer.value;
      var u := t.job.up.(next := index + 1);
      var len := ChunkLen(u.size, u.chunkSize, index, u.total);
      transfer := Some(t.(job := Upload(u)));
      if !readable {
        FailTransfer(Locally, fatal);
        return;
      }
      transfer := Some(t.(job := Upload(u.(inFlight := u.inFlight + len))));
      if tooLarge {
        FailTransfer(Locally, fatal);
      } else if fatal {
        dead := true;
      } else {
        SendQuiet(UploadChunk(t.gen, len, index), None);
      }
    }

    method OnBlockingDone(done: Done, tooLarge: bool, fatal: bool)
      modifies this
      ensures Value() == Actor.OnBlockingDone(old(Value()), done, tooLarge, fatal)
    {
      hide Keeps, TransferWf, Actor.FailTransfer, Actor.SendRequest, ChunkSizeFor, TotalChunks;
      if blocking == None {
        return;
      }
      var work := blocking.value;
      blocking := None;
      if transfer == None || transfer.value.gen != work.gen {
        return;
      }
      var t := transfer.value;
      if work.UploadPrep? && done.Prepared? {
        if t.job.Upload? {
          var chunk := ChooseChunkSize(done.size);
          transfer := Some(t.(stage := AwaitingAccept, job := Upload(t.job.up.(size := done.size, chunkSize := chunk))));
          SendTransferRequest(t.gen, tooLarge, fatal);
        }
      } else if work.Verify? && done.Hashed? {
        if t.job.Fetch? {
          if done.digest == t.job.down.sha256 {
            blocking := Some(Publish(work.gen));
          } else {
            FailTransfer(Locally, fatal);
          }
        }
      } else if work.Publish? && done.Moved? {
        if t.job.Fetch? {
          transfer := None;
          Respond(t.caller, Fine);
        }
      } else {
        FailTransfer(Locally, fatal);
      }
    }

    // ---- commands --------------------------------------------------------------------

    method HandleRequest(expects: ReplyType, tooLarge: bool, fatal: bool)
      modifies this
      ensures Value() == Request(old(Value()), expects, tooLarge, fatal)
    {
      var caller := issued;
      issued := issued + 1;
      if tooLarge {
        Respond(caller, Locally);
      } else if fatal {
        dead := true;
        Respond(caller, Gone);
      } else {
        SendRequest(Asks(caller, expects));
      }
    }

    method HandleCommand(wait: bool, tooLarge: bool, fatal: bool)
      modifies this
      ensures Value() == Command(old(Value()), wait, tooLarge, fatal)
    {
      var caller := issued;
      issued := issued + 1;
      if tooLarge {
        Respond(caller, Locally);
      } else if fatal {
        dead := true;
        Respond(caller, Gone);
      } else if wait {
        SendQuiet(Plain, Some(caller));
      } else {
        SendQuiet(Plain, None);
        Respond(caller, Fine);
      }
    }

    method Keepalive(fatal: bool)
      modifies this
      ensures Value() == Actor.Keepalive(old(Value()), fatal)
    {
      if fatal {
        dead := true;
      } else {
        SendBarrier(None);
      }
    }

    method StartUpload(valid: bool)
      modifies this
      ensures Value() == Actor.StartUpload(old(Value()), valid)
    {
      var caller := issued;
      issued := issued + 1;
      if transfer.Some? || !valid {
        Respond(caller, Locally);
        return;
      }
      nextGen := nextGen + 1;
      blocking := Some(UploadPrep(nextGen));
      transfer := Some(Transfer(nextGen, caller, Preparing, Upload(NewUpload)));
    }

    method StartDownload(valid: bool, job: Download.Job, tooLarge: bool, fatal: bool)
      requires !job.accepted && job.round == 0
      modifies this
      ensures Value() == Actor.StartDownload(old(Value()), valid, job, tooLarge, fatal)
    {
      hide Keeps, Actor.SendRequest;
      var caller := issued;
      issued := issued + 1;
      if transfer.Some? || !valid {
        Respond(caller, Locally);
        return;
      }
      nextGen := nextGen + 1;
      if tooLarge {
        Respond(caller, Locally);
      } else if fatal {
        dead := true;
        Respond(caller, Gone);
      } else {
        SendRequest(TransferStart(nextGen));
        transfer := Some(Transfer(nextGen, caller, AwaitingAccept, Fetch(job)));
      }
    }

    method Cancel(fatal: bool)
      modifies this
      ensures Value() == Actor.Cancel(old(Value()), fatal)
    {
      hide Keeps, Actor.FailTransfer;
      var caller := issued;
      issued := issued + 1;
      if transfer.Some? {
        FailTransfer(Locally, fatal);
      }
      Respond(caller, Fine);
    }

    // ---- the loop ----------------------------------------------------------------------

    method Turn(h: Download.Hash, t: Runs.Tick)
      requires TransferWf(Value())
      modifies this
      ensures Value() == Runs.Next(h, old(Value()), t)
    {
      hide TransferWf, Keeps, Actor.OnReply, OnAccept, Actor.OnError, Actor.OnPong, Actor.OnTransferEnd, OnData;
      hide Request, Command, Actor.Keepalive, Actor.StartUpload, Actor.StartDownload, Actor.Cancel;
      hide Actor.OnBlockingDone, Actor.SendNextChunk, AcceptTimedOut, UploadCanSend;
      match t.input
      case DoRequest(expects) => HandleRequest(expects, t.tooLarge, t.fatal);
      case DoCommand(wait) => HandleCommand(wait, t.tooLarge, t.fatal);
      case DoKeepalive => Keepalive(t.fatal);
      case DoUpload(valid) => StartUpload(valid);
      case DoDownload(valid, size, chunk, resume) =>
        StartDownload(valid, Download.NewJob(size, chunk, resume), t.tooLarge, t.fatal);
      case DoCancel => Cancel(t.fatal);
      case GotReply(ty) => OnReply(ty);
      case GotAccept(acc, canOpen) => OnTransferAccept(acc, canOpen, t.fatal);
      case GotError => OnError(t.fatal);
      case GotPong => OnPong();
      case GotData(d, written) => OnTransferData(h, d, written, t.fatal);
      case GotEnd(id, verified, flushed) => OnTransferEnd(id, verified, flushed, t.tooLarge, t.fatal);
      case GotEvent =>
      case WorkDone(done) =>
        if blocking.Some? {
          OnBlockingDone(done, t.tooLarge, t.fatal);
        }
      case ChunkTurn(readable) =>
        var ready := CanSend();
        if ready {
          SendNextChunk(readable, t.tooLarge, t.fatal);
        }
      case AcceptTimeout => OnAcceptTimeout(t.fatal);
    }

    method CanSend() returns (ready: bool)
      ensures ready == UploadCanSend(Value())
    {
      ready := false;
      if transfer.Some? && transfer.value.stage == Running && transfer.value.job.Upload? {
        var u := transfer.value.job.up;
        ready := u.next < u.total && (u.inFlight == 0 || u.inFlight + u.chunkSize <= UPLOAD_WINDOW_BYTES);
      }
    }

    method OnAcceptTimeout(fatal: bool)
      modifies this
      ensures Value() == if old(Value()).transfer.Some? && old(Value()).transfer.value.stage == AwaitingAccept
                         then AcceptTimedOut(old(Value()), fatal) else old(Value())
    {
      if transfer.Some? && transfer.value.stage == AwaitingAccept {
        FailTransfer(Locally, fatal);
      }
    }

    /** Everyone still waiting is told, then the transfer ends without another write. */
    method Close()
      modifies this
      ensures Value() == Teardown(old(Value()))
    {
      hide Actor.FailTransfer;
      closing := true;
      ghost var told := answers;
      while pending != []
        invariant Value() == old(Value()).(closing := true, pending := pending, answers := answers)
        invariant answers + Drained(pending) == told + Drained(old(pending))
        decreases |pending|
      {
        if CallerOf(pending[0]).Some? {
          Respond(CallerOf(pending[0]).value, Gone);
        }
        pending := pending[1..];
      }
      assert answers + [] == answers;
      FailTransfer(Gone, false);
    }

    /** The whole life of a connection, given what happens on it. */
    method Run(h: Download.Hash, ticks: seq<Runs.Tick>)
      requires TransferWf(Value())
      modifies this
      ensures Value() == Teardown(Runs.Run(h, old(Value()), ticks))
      ensures pending == [] && transfer == None
      ensures old(Value()) == Start ==> forall c: Caller :: Runs.AnsweredIn(answers, c) == if c < issued then 1 else 0
    {
      hide TransferWf, Runs.Next, Teardown, Runs.AnsweredIn;
      var k := 0;
      while k < |ticks| && !dead
        invariant 0 <= k <= |ticks| && TransferWf(Value())
        invariant Runs.Run(h, old(Value()), ticks) == Runs.Run(h, Value(), ticks[k..])
      {
        ghost var before := Value();
        Turn(h, ticks[k]);
        assert ticks[k..][1..] == ticks[k + 1..];
        k := k + 1;
      }
      Close();
      Runs.TeardownSettles(Runs.Run(h, old(Value()), ticks), 0);
      if old(Value()) == Start {
        forall c: Caller ensures Runs.AnsweredIn(answers, c) == if c < issued then 1 else 0 {
          Runs.EveryCallerAnsweredOnce(h, ticks, c);
        }
      }
    }
  }

  function ReplyOf(quiet: Option<Quiet>): Option<Caller> {
    if quiet.Some? then quiet.value.reply else None
  }

  lemma {:induction false} RemovedAt(ids: seq<Id>, id: Id, pos: nat)
    requires pos < |ids| && ids[pos] == id && id !in ids[..pos]
    ensures RemoveFirst(ids, id) == ids[..pos] + ids[pos + 1..]
    decreases pos
  {
    if pos > 0 {
      assert ids[0] == ids[..pos][0];
      assert ids[1..][..pos - 1] == ids[..pos][1..];
      assert ids[1..][pos..] == ids[pos + 1..];
      RemovedAt(ids[1..], id, pos - 1);
    }
  }
}
