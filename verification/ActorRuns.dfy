/**
 * What every run of the client's actor keeps, whatever the server sends: the queue
 * is bounded, and every caller is answered exactly once, including by a disconnect.
 */
module ActorRuns {
  import opened Options
  import opened Chunks
  import opened Actor
  import Download

  /** One turn of the loop with what the environment decided about it. */
  datatype Tick = Tick(input: Input, tooLarge: bool, fatal: bool)

  function Next(h: Download.Hash, a: State, t: Tick): (r: State)
    requires TransferWf(a)
    ensures TransferWf(r)
  {
    Turn(h, a, t.input, t.tooLarge, t.fatal)
  }

  /** The loop: it stops at the first turn that finds the connection dead. */
  function Run(h: Download.Hash, a: State, ticks: seq<Tick>): (r: State)
    requires TransferWf(a)
    ensures TransferWf(r)
    decreases |ticks|
  {
    if ticks == [] || a.dead then a else Run(h, Next(h, a, ticks[0]), ticks[1..])
  }

  // ---- the queue ------------------------------------------------------------------

  /** The queue once the input has been matched against its head. */
  function Consumed(a: State, i: Input): (ps: seq<Pending>)
    ensures |ps| <= |a.pending|
  {
    if a.pending == [] then []
    else
      match i
      case GotReply(t) => if HeadAsks(a, t) then a.pending[1..] else a.pending
      case GotAccept(_, _) => if HeadAwaitsAccept(a) then a.pending[1..] else a.pending
      case GotPong => a.pending[1..]
      case GotError => (
        match a.pending[0]
        case Reply(_) => a.pending[1..]
        case Barrier(_, None) => a.pending
        case Barrier(token, Some(q)) => a.pending[0 := Barrier(token, Some(q.(failed := true)))]
      )
      case GotEnd(id, _, _) => if EndPops(a, id) then a.pending[1..] else a.pending
      case _ => a.pending
  }

  /** When a TransferEnd is taken for the answer at the head of the queue. */
  predicate EndPops(a: State, id: Id) {
    && id !in a.abandoned && a.transfer.Some? && a.transfer.value.stage == AwaitingAccept
    && a.pending != [] && a.pending[0] == Reply(TransferStart(a.transfer.value.gen))
  }

  lemma AbortsAreOrdinary(a: State, r: State)
    requires AtMostAbort(a, r)
    ensures OrdinarySend(a, r)
  {
  }

  lemma Unsent(a: State, r: State)
    ensures NothingSent(a, r) ==> OrdinarySend(a, r)
  {
  }

  lemma ReplyQueue(a: State, t: ReplyType)
    ensures OrdinarySend(a.(pending := Consumed(a, GotReply(t))), OnReply(a, t))
  {
  }

  lemma AcceptQueue(a: State, acc: Download.Accept, canOpen: bool, fatal: bool)
    ensures OrdinarySend(a.(pending := Consumed(a, GotAccept(acc, canOpen))), OnAccept(a, acc, canOpen, fatal))
  {
    hide SendAbort, OnUploadAccept, OnDownloadAccept, Keeps;
  }

  lemma ErrorQueue(a: State, fatal: bool)
    ensures OrdinarySend(a.(pending := Consumed(a, GotError)), OnError(a, fatal))
  {
    hide FailTransfer, Keeps;
  }

  lemma PongQueue(a: State)
    ensures OrdinarySend(a.(pending := Consumed(a, GotPong)), OnPong(a))
  {
    hide Retire, Keeps;
  }

  lemma DownloadEndQueue(a: State, t: Transfer, verified: bool, flushed: bool, tooLarge: bool, fatal: bool)
    requires t.job.Fetch?
    ensures OrdinarySend(a, DownloadEnded(a, t, verified, flushed, tooLarge, fatal))
  {
    hide FailTransfer, SendRequest, Download.OnEnd, TransferWf;
  }

  lemma SendChunkQueue(a: State, t: Transfer, index: nat, readable: bool, tooLarge: bool, fatal: bool)
    requires a.transfer == Some(t) && t.stage == Running && t.job.Upload?
    requires index < t.job.up.total && t.job.up.chunkSize > 0
    requires t.job.up.inFlight == 0 || t.job.up.inFlight + t.job.up.chunkSize <= UPLOAD_WINDOW_BYTES
    ensures var r := SendChunk(a, t, index, readable, tooLarge, fatal); OrdinarySend(a, r) || SentOwnChunk(a, r)
  {
    hide FailTransfer, SendQuiet, ChunkLen, Passed, InFlight, Keeps;
  }

  lemma ChunkQueue(a: State, readable: bool, tooLarge: bool, fatal: bool)
    requires TransferWf(a) && UploadCanSend(a)
    ensures var r := SendNextChunk(a, readable, tooLarge, fatal); OrdinarySend(a, r) || SentOwnChunk(a, r)
  {
    hide SendChunk, TotalChunks, OrdinarySend, SentOwnChunk, Keeps;
    var t := a.transfer.value;
    var index := NextMissing(t.job.up.skip, t.job.up.next);
    if index < t.job.up.total {
      SendChunkQueue(a, t, index, readable, tooLarge, fatal);
    } else {
      Unsent(a, SendNextChunk(a, readable, tooLarge, fatal));
    }
  }

  lemma EndQueue(a: State, id: Id, verified: bool, flushed: bool, tooLarge: bool, fatal: bool)
    ensures OrdinarySend(a.(pending := Consumed(a, GotEnd(id, verified, flushed))), OnTransferEnd(a, id, verified, flushed, tooLarge, fatal))
  {
    hide FailTransfer, Keeps, DownloadEnded, RemoveFirst, HeadAsks, HeadAwaitsAccept, AtMostAbort, OrdinarySend, OneSent;
    var r := OnTransferEnd(a, id, verified, flushed, tooLarge, fatal);
    var b := a.(pending := Consumed(a, GotEnd(id, verified, flushed)));
    if id !in a.abandoned && a.transfer.Some? && a.transfer.value.stage == AwaitingAccept {
      assert DropWaiter(a, a.transfer.value.gen) == b;
      AbortsAreOrdinary(b, r);
    } else {
      Unsent(b, r);
      if a.transfer.Some? && a.transfer.value.job.Fetch? {
        DownloadEndQueue(a, a.transfer.value, verified, flushed, tooLarge, fatal);
      }
    }
  }

  lemma OneEntry(a: State, r: State)
    ensures OrdinarySend(a, r) || SentOwnChunk(a, r) ==> AtMostOne(a, r)
  {
  }

  lemma Idle(a: State)
    ensures OrdinarySend(a, a)
  {
  }

  /** Each turn settles at most the head of the queue, and then queues at most one entry
      together with its message. */
  lemma TurnQueue(h: Download.Hash, a: State, t: Tick)
    requires TransferWf(a)
    ensures var b := a.(pending := Consumed(a, t.input)); var r := Next(h, a, t);
            AtMostOne(b, r) && (OrdinarySend(b, r) || (t.input.ChunkTurn? && SentOwnChunk(b, r)))
  {
    hide TransferWf, Keeps, OnReply, OnAccept, OnError, OnPong, OnTransferEnd, OnData, EndPops, HeadAsks, UploadCanSend;
    hide Request, Command, Keepalive, StartUpload, StartDownload, Cancel, OnBlockingDone, SendNextChunk, AcceptTimedOut;
    hide AtMostOne, OrdinarySend, SentOwnChunk;
    OneEntry(a.(pending := Consumed(a, t.input)), Next(h, a, t));
    match t.input
    case GotReply(ty) => ReplyQueue(a, ty);
    case GotAccept(acc, canOpen) => AcceptQueue(a, acc, canOpen, t.fatal);
    case GotError => ErrorQueue(a, t.fatal);
    case GotPong => PongQueue(a);
    case GotEnd(id, verified, flushed) => EndQueue(a, id, verified, flushed, t.tooLarge, t.fatal);
    case ChunkTurn(readable) =>
      assert a.(pending := Consumed(a, t.input)) == a;
      Idle(a);
      if UploadCanSend(a) {
        ChunkQueue(a, readable, t.tooLarge, t.fatal);
      }
    case _ =>
      assert a.(pending := Consumed(a, t.input)) == a;
      Idle(a);
  }

  ghost predicate Bounded(a: State) {
    |a.pending| <= MAX_PENDING + 1 && (!a.dead ==> |a.pending| <= MAX_PENDING)
  }

  lemma {:induction false} QueueBounded(h: Download.Hash, a: State, ticks: seq<Tick>)
    requires TransferWf(a) && Bounded(a)
    ensures Bounded(Run(h, a, ticks))
    decreases |ticks|
  {
    hide Next, TransferWf, Consumed;
    if ticks != [] && !a.dead {
      TurnQueue(h, a, ticks[0]);
      QueueBounded(h, Next(h, a, ticks[0]), ticks[1..]);
    }
  }

  // ---- every caller is answered exactly once ------------------------------------------------

  function Is(x: Caller, c: Caller): nat {
    if x == c then 1 else 0
  }

  function Held(x: Option<Caller>, c: Caller): nat {
    if x == Some(c) then 1 else 0
  }

  /** How often caller `c` was answered. */
  function AnsweredIn(answers: seq<Answer>, c: Caller): nat {
    if answers == [] then 0
    else AnsweredIn(answers[..|answers| - 1], c) + Is(answers[|answers| - 1].caller, c)
  }

  function WaitingIn(ps: seq<Pending>, c: Caller): nat {
    if ps == [] then 0 else Held(CallerOf(ps[0]), c) + WaitingIn(ps[1..], c)
  }

  function Transferring(t: Option<Transfer>, c: Caller): nat {
    if t.Some? then Is(t.value.caller, c) else 0
  }

  /** How often caller `c` is held or was answered. */
  function Owned(a: State, c: Caller): nat {
    AnsweredIn(a.answers, c) + WaitingIn(a.pending, c) + Transferring(a.transfer, c)
  }

  lemma AnsweredOne(answers: seq<Answer>, x: Answer, c: Caller)
    ensures AnsweredIn(answers + [x], c) == AnsweredIn(answers, c) + Is(x.caller, c)
  {
    assert (answers + [x])[..|answers|] == answers;
  }

  lemma {:induction false} WaitingOne(ps: seq<Pending>, p: Pending, c: Caller)
    ensures WaitingIn(ps + [p], c) == WaitingIn(ps, c) + Held(CallerOf(p), c)
    decreases |ps|
  {
    if ps == [] {
      assert (ps + [p])[1..] == [];
    } else {
      assert (ps + [p])[1..] == ps[1..] + [p];
      WaitingOne(ps[1..], p, c);
    }
  }

  lemma SentOwned(a: State, r: State, c: Caller)
    requires AtMostOne(a, r)
    ensures WaitingIn(r.pending, c) ==
            WaitingIn(a.pending, c) + if r.pending == a.pending then 0 else Held(CallerOf(Last(r.pending)), c)
  {
    if r.pending != a.pending {
      WaitingOne(a.pending, Last(r.pending), c);
    }
  }

  lemma FailOwned(a: State, how: How, fatal: bool, c: Caller)
    ensures Owned(FailTransfer(a, how, fatal), c) == Owned(a, c)
  {
    hide AnsweredIn, WaitingIn, FailTransfer;
    SentOwned(a, FailTransfer(a, how, fatal), c);
    if a.transfer.Some? {
      AnsweredOne(a.answers, Answer(a.transfer.value.caller, how), c);
    }
  }

  lemma AnswerOwned(a: State, x: Caller, how: How, c: Caller)
    ensures Owned(Answered(a, x, how), c) == Owned(a, c) + Is(x, c)
  {
    hide AnsweredIn, WaitingIn;
    AnsweredOne(a.answers, Answer(x, how), c);
  }

  lemma PopOwned(a: State, c: Caller)
    requires a.pending != []
    ensures Owned(a, c) == Owned(PopFront(a), c) + Held(CallerOf(a.pending[0]), c)
  {
    hide AnsweredIn;
  }

  /** Callers are numbered by their commands. */
  function Newcomers(a: State, i: Input): nat {
    if i.DoRequest? || i.DoCommand? || i.DoUpload? || i.DoDownload? || i.DoCancel? then 1 else 0
  }

  ghost predicate Accounted(a: State) {
    forall c: Caller :: Owned(a, c) == if c < a.issued then 1 else 0
  }

  /** One newcomer, who is answered now or held. */
  predicate Joined(a: State, r: State, c: Caller) {
    r.issued == a.issued + 1 && Owned(r, c) == Owned(a, c) + Is(a.issued, c)
  }

  /** Nobody new, and nobody lost. */
  predicate Same(a: State, r: State, c: Caller) {
    r.issued == a.issued && Owned(r, c) == Owned(a, c)
  }

  lemma RequestOwned(a: State, expects: ReplyType, tooLarge: bool, fatal: bool, c: Caller)
    ensures Joined(a, Request(a, expects, tooLarge, fatal), c)
  {
    hide AnsweredIn, WaitingIn, SendRequest;
    SentOwned(a, Request(a, expects, tooLarge, fatal), c);
    AnsweredOne(a.answers, Answer(a.issued, if tooLarge then Locally else Gone), c);
  }

  lemma CommandOwned(a: State, wait: bool, tooLarge: bool, fatal: bool, c: Caller)
    ensures Joined(a, Command(a, wait, tooLarge, fatal), c)
  {
    hide AnsweredIn, WaitingIn, SendQuiet;
    SentOwned(a, Command(a, wait, tooLarge, fatal), c);
    AnsweredOne(a.answers, Answer(a.issued, if tooLarge then Locally else if fatal then Gone else Fine), c);
  }

  lemma UploadOwned(a: State, valid: bool, c: Caller)
    ensures Joined(a, StartUpload(a, valid), c)
  {
    hide AnsweredIn, WaitingIn;
    AnsweredOne(a.answers, Answer(a.issued, Locally), c);
  }

  lemma DownloadOwned(a: State, valid: bool, job: Download.Job, tooLarge: bool, fatal: bool, c: Caller)
    requires !job.accepted && job.round == 0
    ensures Joined(a, StartDownload(a, valid, job, tooLarge, fatal), c)
  {
    hide AnsweredIn, WaitingIn, SendRequest;
    SentOwned(a, StartDownload(a, valid, job, tooLarge, fatal), c);
    AnsweredOne(a.answers, Answer(a.issued, Locally), c);
    AnsweredOne(a.answers, Answer(a.issued, Gone), c);
  }

  lemma CancelOwned(a: State, fatal: bool, c: Caller)
    ensures Joined(a, Cancel(a, fatal), c)
  {
    hide Owned, FailTransfer;
    FailOwned(Issue(a), Locally, fatal, c);
    AnswerOwned(FailTransfer(Issue(a), Locally, fatal), a.issued, Fine, c);
    SameHolder(a, Issue(a), c);
  }

  /** The books show only the answers, the queue and the transfer's caller. */
  lemma SameHolder(a: State, b: State, c: Caller)
    ensures b.answers == a.answers && b.pending == a.pending && Transferring(b.transfer, c) == Transferring(a.transfer, c)
            ==> Owned(a, c) == Owned(b, c)
  {
  }

  lemma KeepaliveOwned(a: State, fatal: bool, c: Caller)
    ensures Same(a, Keepalive(a, fatal), c)
  {
    hide AnsweredIn, WaitingIn, SendBarrier;
    SentOwned(a, Keepalive(a, fatal), c);
  }

  lemma TimeoutOwned(a: State, fatal: bool, c: Caller)
    ensures Same(a, AcceptTimedOut(a, fatal), c)
  {
    hide Owned, FailTransfer;
    FailOwned(a, Locally, fatal, c);
  }

  lemma ReplyOwned(a: State, t: ReplyType, c: Caller)
    ensures Same(a, OnReply(a, t), c)
  {
    hide Owned;
    SameHolder(a, Dead(a), c);
    if HeadAsks(a, t) {
      PopOwned(a, c);
      AnswerOwned(PopFront(a), a.pending[0].waiter.caller, Fine, c);
    }
  }

  lemma AckOwned(a: State, gen: nat, len: nat, index: nat, ok: bool, c: Caller)
    ensures Same(a, UploadChunkAcked(a, gen, len, index, ok), c)
  {
    hide Owned;
    SameHolder(a, UploadChunkAcked(a, gen, len, index, ok), c);
  }

  lemma RetireOwned(a: State, q: Quiet, c: Caller)
    ensures Retire(a, q).issued == a.issued && Owned(Retire(a, q), c) == Owned(a, c) + Held(q.reply, c)
  {
    hide Owned, UploadChunkAcked;
    var b := if q.kind.UploadChunk? then UploadChunkAcked(a, q.kind.gen, q.kind.len, q.kind.index, !q.failed) else a;
    if q.kind.UploadChunk? {
      AckOwned(a, q.kind.gen, q.kind.len, q.kind.index, !q.failed, c);
    }
    if q.reply.Some? {
      AnswerOwned(b, q.reply.value, if q.failed then ServerSaid else Fine, c);
    }
  }

  lemma PongOwned(a: State, c: Caller)
    ensures Same(a, OnPong(a), c)
  {
    hide Owned, Retire;
    SameHolder(a, Dead(a), c);
    if a.pending != [] {
      var b := PopFront(a);
      PopOwned(a, c);
      SameHolder(b, Dead(b), c);
      match a.pending[0]
      case Reply(w) => if w.Asks? { AnswerOwned(Dead(b), w.caller, Gone, c); }
      case Barrier(_, None) =>
      case Barrier(_, Some(q)) => RetireOwned(b, q, c);
    }
  }

  lemma MarkedOwned(a: State, c: Caller)
    requires a.pending != [] && a.pending[0].Barrier? && a.pending[0].quiet.Some?
    ensures Owned(a.(pending := a.pending[0 := Barrier(a.pending[0].token, Some(a.pending[0].quiet.value.(failed := true)))]), c) == Owned(a, c)
  {
    hide AnsweredIn;
    assert a.pending[0 := Barrier(a.pending[0].token, Some(a.pending[0].quiet.value.(failed := true)))][1..] == a.pending[1..];
  }

  lemma ErrorOwned(a: State, fatal: bool, c: Caller)
    ensures Same(a, OnError(a, fatal), c)
  {
    hide Owned, FailTransfer;
    if a.pending != [] {
      var b := PopFront(a);
      PopOwned(a, c);
      match a.pending[0]
      case Reply(TransferStart(gen)) => FailOwned(b, ServerSaid, fatal, c);
      case Reply(Asks(caller, _)) => AnswerOwned(b, caller, ServerSaid, c);
      case Barrier(token, Some(q)) =>
        MarkedOwned(a, c);
        FailOwned(a.(pending := a.pending[0 := Barrier(token, Some(q.(failed := true)))]), ServerSaid, fatal, c);
      case Barrier(_, None) =>
    }
  }

  lemma AbortOwned(a: State, id: Id, fatal: bool, c: Caller)
    ensures Same(a, SendAbort(a, id, fatal), c)
  {
    hide AnsweredIn, WaitingIn, SendAbort;
    SentOwned(a, SendAbort(a, id, fatal), c);
  }

  lemma UploadAcceptOwned(a: State, t: Transfer, acc: Download.Accept, fatal: bool, c: Caller)
    requires a.transfer == Some(t) && t.job.Upload?
    ensures Same(a, OnUploadAccept(a, t, acc, fatal), c)
  {
    hide Owned, FailTransfer;
    var b := a.(transfer := Some(t.(stage := Running, job := Upload(t.job.up.(id := acc.id)))));
    FailOwned(b, Locally, fatal, c);
    SameHolder(a, b, c);
    SameHolder(a, OnUploadAccept(a, t, acc, fatal), c);
  }

  lemma RefusedOwned(a: State, t: Transfer, fatal: bool, c: Caller)
    requires a.transfer.Some? && a.transfer.value.caller == t.caller && t.job.Fetch? && t.stage == Running
    ensures Same(a, RefuseDownload(a, t, fatal), c)
  {
    hide Owned, FailTransfer, SendAbort;
    var b := a.(transfer := Some(t));
    SameHolder(a, b, c);
    AbortOwned(b, t.job.down.id, fatal, c);
    FailOwned(b, Locally, fatal, c);
    FailOwned(SendAbort(b, t.job.down.id, fatal), Locally, fatal, c);
  }

  lemma DownloadAcceptOwned(a: State, t: Transfer, acc: Download.Accept, canOpen: bool, fatal: bool, c: Caller)
    requires a.transfer == Some(t) && t.job.Fetch?
    ensures Same(a, OnDownloadAccept(a, t, acc, canOpen, fatal), c)
  {
    hide Owned, FailTransfer, RefuseDownload, Download.OnAccept;
    match Download.OnAccept(t.job.down, acc)
    case FileChanged(e) =>
      var b := a.(transfer := Some(t.(stage := Running, job := Fetch(e))));
      SameHolder(a, b, c);
      FailOwned(b, Locally, fatal, c);
    case BadGeometry(e) => RefusedOwned(a, t.(stage := Running, job := Fetch(e)), fatal, c);
    case Started(e, _) =>
      FailOwned(a, Locally, fatal, c);
      SameHolder(a, a.(transfer := Some(t.(stage := Running, job := Fetch(e)))), c);
  }

  lemma AcceptOwned(a: State, acc: Download.Accept, canOpen: bool, fatal: bool, c: Caller)
    ensures Same(a, OnAccept(a, acc, canOpen, fatal), c)
  {
    hide Owned, SendAbort, OnUploadAccept, OnDownloadAccept;
    SameHolder(a, Dead(a), c);
    if HeadAwaitsAccept(a) {
      var b := PopFront(a);
      PopOwned(a, c);
      AbortOwned(b, acc.id, fatal, c);
      if b.transfer.Some? {
        var t := b.transfer.value;
        if t.job.Upload? {
          UploadAcceptOwned(b, t, acc, fatal, c);
        } else {
          DownloadAcceptOwned(b, t, acc, canOpen, fatal, c);
        }
      }
    }
  }

  lemma DataOwned(h: Download.Hash, a: State, d: Download.Data, written: bool, fatal: bool, c: Caller)
    requires TransferWf(a)
    ensures Same(a, OnData(h, a, d, written, fatal), c)
  {
    hide Owned, FailTransfer, Download.OnData;
    FailOwned(a, Locally, fatal, c);
    SameHolder(a, OnData(h, a, d, written, fatal), c);
  }

  lemma SettledOwned(a: State, how: How, c: Caller)
    requires a.transfer.Some?
    ensures Same(a, Settled(a, how), c)
  {
    hide AnsweredIn, WaitingIn;
    AnsweredOne(a.answers, Answer(a.transfer.value.caller, how), c);
  }

  lemma SendRequestOwned(a: State, gen: nat, c: Caller)
    ensures Same(a, SendRequest(a, TransferStart(gen)), c)
  {
    hide AnsweredIn, WaitingIn, SendRequest;
    SentOwned(a, SendRequest(a, TransferStart(gen)), c);
  }

  lemma DownloadEndOwned(a: State, t: Transfer, verified: bool, flushed: bool, tooLarge: bool, fatal: bool, c: Caller)
    requires a.transfer == Some(t) && t.job.Fetch?
    ensures Same(a, DownloadEnded(a, t, verified, flushed, tooLarge, fatal), c)
  {
    hide Owned, FailTransfer, SendRequest, Download.OnEnd;
    var over := a.(transfer := Some(t.(stage := Verifying)));
    SameHolder(a, over, c);
    FailOwned(over, ServerSaid, fatal, c);
    match Download.OnEnd(t.job.down)
    case GiveUp =>
    case Verify => SameHolder(a, over.(blocking := Some(Blocking.Verify(t.gen))), c);
    case Again(d) =>
      var b := a.(transfer := Some(t.(stage := AwaitingAccept, job := Fetch(d))));
      SameHolder(a, b, c);
      SameHolder(a, Dead(b), c);
      FailOwned(b, Locally, fatal, c);
      SendRequestOwned(b, t.gen, c);
  }

  lemma EndOwned(a: State, id: Id, verified: bool, flushed: bool, tooLarge: bool, fatal: bool, c: Caller)
    ensures Same(a, OnTransferEnd(a, id, verified, flushed, tooLarge, fatal), c)
  {
    hide Owned, FailTransfer, DownloadEnded, Settled;
    SameHolder(a, a.(abandoned := RemoveFirst(a.abandoned, id)), c);
    if a.transfer.Some? {
      var t := a.transfer.value;
      FailOwned(a, ServerSaid, fatal, c);
      SettledOwned(a, if verified then Fine else ServerSaid, c);
      if a.pending != [] {
        PopOwned(a, c);
        FailOwned(PopFront(a), ServerSaid, fatal, c);
      }
      if t.job.Fetch? {
        DownloadEndOwned(a, t, verified, flushed, tooLarge, fatal, c);
      }
    }
  }

  lemma UploadRequestOwned(a: State, t: Transfer, size: nat, tooLarge: bool, fatal: bool, c: Caller)
    requires a.transfer == Some(t) && t.job.Upload?
    ensures Same(a, SendUploadRequest(a, t, size, tooLarge, fatal), c)
  {
    hide Owned, FailTransfer, SendRequest, ChunkSizeFor;
    var u := t.job.up.(size := size, chunkSize := ChunkSizeFor(size));
    var b := a.(transfer := Some(t.(stage := AwaitingAccept, job := Upload(u))));
    SameHolder(a, b, c);
    SameHolder(a, Dead(b), c);
    FailOwned(b, Locally, fatal, c);
    SendRequestOwned(b, t.gen, c);
  }

  lemma WorkOwned(a: State, done: Done, tooLarge: bool, fatal: bool, c: Caller)
    ensures Same(a, OnBlockingDone(a, done, tooLarge, fatal), c)
  {
    hide Owned, FailTransfer, SendUploadRequest, Settled;
    if a.blocking.Some? && a.transfer.Some? {
      var b := a.(blocking := None);
      FailOwned(b, Locally, fatal, c);
      SettledOwned(b, Fine, c);
      if done.Prepared? && a.transfer.value.job.Upload? {
        UploadRequestOwned(b, a.transfer.value, done.size, tooLarge, fatal, c);
      }
      SameHolder(a, b, c);
    }
    SameHolder(a, OnBlockingDone(a, done, tooLarge, fatal), c);
  }

  lemma SendChunkOwned(a: State, t: Transfer, index: nat, readable: bool, tooLarge: bool, fatal: bool, c: Caller)
    requires a.transfer == Some(t) && t.stage == Running && t.job.Upload?
    requires index < t.job.up.total && t.job.up.chunkSize > 0
    requires t.job.up.inFlight == 0 || t.job.up.inFlight + t.job.up.chunkSize <= UPLOAD_WINDOW_BYTES
    ensures Same(a, SendChunk(a, t, index, readable, tooLarge, fatal), c)
  {
    hide Owned, FailTransfer, SendQuiet, ChunkLen, Passed, InFlight, Keeps;
    var b := a.(transfer := Some(t.(job := Upload(Passed(t.job.up, index)))));
    var d := a.(transfer := Some(t.(job := Upload(InFlight(t.job.up, index)))));
    var len := ChunkLen(t.job.up.size, t.job.up.chunkSize, index, t.job.up.total);
    SameHolder(a, b, c);
    SameHolder(a, d, c);
    SameHolder(a, Dead(d), c);
    FailOwned(b, Locally, fatal, c);
    FailOwned(d, Locally, fatal, c);
    BarrierOwned(d, UploadChunk(t.gen, len, index), c);
  }

  lemma BarrierOwned(a: State, kind: Kind, c: Caller)
    ensures Same(a, SendQuiet(a, kind, None), c)
  {
    hide AnsweredIn, WaitingIn, SendQuiet;
    SentOwned(a, SendQuiet(a, kind, None), c);
  }

  lemma ChunkOwned(a: State, readable: bool, tooLarge: bool, fatal: bool, c: Caller)
    requires TransferWf(a) && UploadCanSend(a)
    ensures Same(a, SendNextChunk(a, readable, tooLarge, fatal), c)
  {
    hide Owned, SendChunk, TotalChunks, Keeps;
    var t := a.transfer.value;
    var index := NextMissing(t.job.up.skip, t.job.up.next);
    if index < t.job.up.total {
      SendChunkOwned(a, t, index, readable, tooLarge, fatal, c);
    } else {
      SameHolder(a, SendNextChunk(a, readable, tooLarge, fatal), c);
    }
  }

  lemma TurnOwned(h: Download.Hash, a: State, t: Tick, c: Caller)
    requires TransferWf(a)
    ensures if Newcomers(a, t.input) == 1 then Joined(a, Next(h, a, t), c) else Same(a, Next(h, a, t), c)
  {
    hide TransferWf, Keeps, Owned, OnReply, OnAccept, OnError, OnPong, OnTransferEnd, OnData, UploadCanSend;
    hide Request, Command, Keepalive, StartUpload, StartDownload, Cancel, OnBlockingDone, SendNextChunk, AcceptTimedOut;
    match t.input
    case DoRequest(expects) => RequestOwned(a, expects, t.tooLarge, t.fatal, c);
    case DoCommand(wait) => CommandOwned(a, wait, t.tooLarge, t.fatal, c);
    case DoKeepalive => KeepaliveOwned(a, t.fatal, c);
    case DoUpload(valid) => UploadOwned(a, valid, c);
    case DoDownload(valid, size, chunk, resume) => DownloadOwned(a, valid, Download.NewJob(size, chunk, resume), t.tooLarge, t.fatal, c);
    case DoCancel => CancelOwned(a, t.fatal, c);
    case GotReply(ty) => ReplyOwned(a, ty, c);
    case GotAccept(acc, canOpen) => AcceptOwned(a, acc, canOpen, t.fatal, c);
    case GotError => ErrorOwned(a, t.fatal, c);
    case GotPong => PongOwned(a, c);
    case GotData(d, written) => DataOwned(h, a, d, written, t.fatal, c);
    case GotEnd(id, verified, flushed) => EndOwned(a, id, verified, flushed, t.tooLarge, t.fatal, c);
    case GotEvent =>
    case WorkDone(done) => WorkOwned(a, done, t.tooLarge, t.fatal, c);
    case ChunkTurn(readable) => if UploadCanSend(a) { ChunkOwned(a, readable, t.tooLarge, t.fatal, c); }
    case AcceptTimeout => TimeoutOwned(a, t.fatal, c);
  }

  lemma {:induction false} RunAccounted(h: Download.Hash, a: State, ticks: seq<Tick>)
    requires TransferWf(a) && Accounted(a)
    ensures Accounted(Run(h, a, ticks))
    decreases |ticks|
  {
    hide Next, TransferWf, Owned;
    if ticks != [] && !a.dead {
      var b := Next(h, a, ticks[0]);
      forall c: Caller ensures Owned(b, c) == if c < b.issued then 1 else 0 {
        TurnOwned(h, a, ticks[0], c);
      }
      RunAccounted(h, b, ticks[1..]);
    }
  }

  lemma {:induction false} DrainedAll(answers: seq<Answer>, ps: seq<Pending>, c: Caller)
    ensures AnsweredIn(answers + Drained(ps), c) == AnsweredIn(answers, c) + WaitingIn(ps, c)
    decreases |ps|
  {
    if ps == [] {
      assert answers + [] == answers;
    } else if CallerOf(ps[0]).Some? {
      var x := Answer(CallerOf(ps[0]).value, Gone);
      assert answers + Drained(ps) == answers + [x] + Drained(ps[1..]);
      DrainedAll(answers + [x], ps[1..], c);
      AnsweredOne(answers, x, c);
    } else {
      assert Drained(ps) == Drained(ps[1..]);
      DrainedAll(answers, ps[1..], c);
    }
  }

  lemma TeardownSettles(a: State, c: Caller)
    ensures var r := Teardown(a);
            r.pending == [] && r.transfer == None && r.issued == a.issued && r.out == a.out && AnsweredIn(r.answers, c) == Owned(a, c)
  {
    hide AnsweredIn, FailTransfer;
    var b := a.(closing := true, pending := [], answers := a.answers + Drained(a.pending));
    DrainedAll(a.answers, a.pending, c);
    FailOwned(b, Gone, false, c);
    assert WaitingIn([], c) == 0;
  }

  /** Whatever happens on the connection and whenever it ends, every command's caller
      has been answered exactly once by then, and nobody else has. */
  lemma EveryCallerAnsweredOnce(h: Download.Hash, ticks: seq<Tick>, c: Caller)
    ensures TransferWf(Start)
    ensures var end := Teardown(Run(h, Start, ticks));
            AnsweredIn(end.answers, c) == if c < end.issued then 1 else 0
  {
    hide Run, Teardown;
    RunAccounted(h, Start, ticks);
    TeardownSettles(Run(h, Start, ticks), c);
  }

  // ---- answers are never taken back --------------------------------------------------------------

  lemma CommandsAnswer(a: State, i: Input, tooLarge: bool, fatal: bool)
    ensures a.answers <= Cancel(a, fatal).answers && a.answers <= AcceptTimedOut(a, fatal).answers
    ensures a.answers <= Keepalive(a, fatal).answers
    ensures i.DoRequest? ==> a.answers <= Request(a, i.expects, tooLarge, fatal).answers
    ensures i.DoCommand? ==> a.answers <= Command(a, i.wait, tooLarge, fatal).answers
    ensures i.DoUpload? ==> a.answers <= StartUpload(a, i.valid).answers
    ensures i.DoDownload? ==>
              a.answers <= StartDownload(a, i.valid, Download.NewJob(i.expectedSize, i.chunk, i.resume), tooLarge, fatal).answers
  {
    hide FailTransfer, SendRequest, SendQuiet, SendBarrier, Keeps;
  }

  lemma RepliesAnswer(a: State, t: ReplyType, fatal: bool)
    ensures a.answers <= OnReply(a, t).answers && a.answers <= OnError(a, fatal).answers && a.answers <= OnPong(a).answers
  {
    hide FailTransfer, Keeps;
  }

  lemma UploadAcceptAnswers(a: State, t: Transfer, acc: Download.Accept, fatal: bool)
    requires t.job.Upload?
    ensures a.answers <= OnUploadAccept(a, t, acc, fatal).answers
  {
    hide FailTransfer, TransferWf, GeometryProblem, Resize;
  }

  lemma DownloadAcceptAnswers(a: State, t: Transfer, acc: Download.Accept, canOpen: bool, fatal: bool)
    requires t.job.Fetch?
    ensures a.answers <= OnDownloadAccept(a, t, acc, canOpen, fatal).answers
  {
    hide FailTransfer, SendAbort, TransferWf, Download.OnAccept;
  }

  lemma AcceptsAnswer(a: State, acc: Download.Accept, canOpen: bool, fatal: bool)
    ensures a.answers <= OnAccept(a, acc, canOpen, fatal).answers
  {
    hide SendAbort, Keeps, OnUploadAccept, OnDownloadAccept;
    if HeadAwaitsAccept(a) && a.transfer.Some? {
      var t := a.transfer.value;
      if t.job.Upload? {
        UploadAcceptAnswers(PopFront(a), t, acc, fatal);
      } else {
        DownloadAcceptAnswers(PopFront(a), t, acc, canOpen, fatal);
      }
    }
  }

  lemma DataAnswers(h: Download.Hash, a: State, d: Download.Data, written: bool, fatal: bool)
    requires TransferWf(a)
    ensures a.answers <= OnData(h, a, d, written, fatal).answers
  {
    hide FailTransfer, Keeps, Download.OnData, TotalChunks;
  }

  lemma EndsAnswer(a: State, id: Id, verified: bool, flushed: bool, tooLarge: bool, fatal: bool)
    ensures a.answers <= OnTransferEnd(a, id, verified, flushed, tooLarge, fatal).answers
  {
    hide FailTransfer, SendRequest, Keeps, Download.OnEnd, RemoveFirst;
  }

  lemma WorkAnswers(a: State, done: Done, tooLarge: bool, fatal: bool)
    ensures a.answers <= OnBlockingDone(a, done, tooLarge, fatal).answers
  {
    hide FailTransfer, SendRequest, Keeps, ChunkSizeFor;
  }

  lemma ChunkAnswers(a: State, readable: bool, tooLarge: bool, fatal: bool)
    requires TransferWf(a)
    ensures UploadCanSend(a) ==> a.answers <= SendNextChunk(a, readable, tooLarge, fatal).answers
  {
    hide FailTransfer, SendQuiet, Keeps, ChunkLen, TotalChunks, Passed, InFlight;
  }

  lemma AnswersGrow(h: Download.Hash, a: State, t: Tick)
    requires TransferWf(a)
    ensures a.answers <= Next(h, a, t).answers
  {
    hide TransferWf, Keeps, OnReply, OnAccept, OnError, OnPong, OnTransferEnd, OnData, UploadCanSend;
    hide Request, Command, Keepalive, StartUpload, StartDownload, Cancel, OnBlockingDone, SendNextChunk, AcceptTimedOut;
    match t.input
    case GotReply(ty) => RepliesAnswer(a, ty, t.fatal);
    case GotError => RepliesAnswer(a, 0, t.fatal);
    case GotPong => RepliesAnswer(a, 0, t.fatal);
    case GotAccept(acc, canOpen) => AcceptsAnswer(a, acc, canOpen, t.fatal);
    case GotData(d, written) => DataAnswers(h, a, d, written, t.fatal);
    case GotEnd(id, verified, flushed) => EndsAnswer(a, id, verified, flushed, t.tooLarge, t.fatal);
    case WorkDone(done) => WorkAnswers(a, done, t.tooLarge, t.fatal);
    case ChunkTurn(readable) => ChunkAnswers(a, readable, t.tooLarge, t.fatal);
    case GotEvent =>
    case _ => CommandsAnswer(a, t.input, t.tooLarge, t.fatal);
  }
}
