/**
 * A download inside a client run. The actor's turns that concern one fetch
 * generation, whatever else happens between them, are the events of one download
 * as modelled on its own, with the same job and the matching phase. What is proved
 * of that download, its partial file and its destination therefore holds of every
 * run of the client and of the answer its caller gets.
 */
module ActorDownloads {
  import opened Options
  import opened Chunks
  import opened Actor
  import opened ActorRuns
  import opened ActorTransfers
  import Download

  // ---- the correspondence -----------------------------------------------------------------

  predicate Fetching(a: State, g: nat) {
    IsCurrent(a, g) && a.transfer.value.job.Fetch?
  }

  function PhaseOf(a: State): Download.Phase
    requires a.transfer.Some?
  {
    match a.transfer.value.stage
    case AwaitingAccept => Download.Awaiting
    case Running => Download.Phase.Running
    case Verifying => if a.blocking.Some? && a.blocking.value.Publish? then Download.Publishing else Download.Hashing
    case Preparing => Download.Failure
  }

  /** The current transfer is this download: equal job, matching phase. */
  predicate Mirrors(a: State, g: nat, s: Download.State) {
    && Fetching(a, g) && a.transfer.value.job.down == s.job && s.phase == PhaseOf(a)
    && a.transfer.value.stage != Preparing
    && (a.transfer.value.stage == Verifying ==> a.blocking.Some?)
  }

  /** An Error that ends the current transfer. */
  predicate ErrorHits(a: State, g: nat) {
    && a.pending != []
    && (a.pending[0] == Reply(TransferStart(g)) || (IsChunk(a.pending[0]) && !Failed(a.pending[0]) && GenOf(a.pending[0]) == Some(g)))
  }

  /** What one turn is to the download of generation `g`. */
  function EventsOf(a: State, t: Tick, g: nat): seq<Download.Event> {
    if !Fetching(a, g) then []
    else
      var tr := a.transfer.value;
      match t.input
      case GotAccept(acc, canOpen) =>
        if HeadAwaitsAccept(a) && a.pending[0].waiter.gen == g && tr.stage == AwaitingAccept then [Download.Accepted(acc, canOpen)] else []
      case GotData(d, written) => [Download.Received(d, written)]
      case GotEnd(id, verified, flushed) =>
        if id in a.abandoned then []
        else if tr.stage == AwaitingAccept || (t.tooLarge && AsksAgain(tr, id, verified, flushed)) then [Download.Event.Failed]
        else [Download.Ended(id, verified, flushed)]
      case WorkDone(done) =>
        if a.blocking == Some(Verify(g)) then [Download.Event.Hashed(done.Hashed?)]
        else if a.blocking == Some(Publish(g)) then [Download.Reported] else []
      case DoCancel => [Download.Event.Failed]
      case AcceptTimeout => if tr.stage == AwaitingAccept then [Download.Event.Failed] else []
      case GotError => if ErrorHits(a, g) then [Download.Event.Failed] else []
      case _ => []
  }

  /** The end of a round that leaves chunks to ask for. */
  predicate AsksAgain(tr: Transfer, id: Id, verified: bool, flushed: bool)
    requires tr.job.Fetch?
  {
    tr.stage == Running && id == tr.job.down.id && verified && flushed && Download.OnEnd(tr.job.down).Again?
  }

  /** What the background jobs report is so: the hash job the digest of the partial's first
      `size` bytes, and only if there are that many; the Publish job, once it is over,
      whether its move went through. */
  predicate Truthful(h: Download.Hash, a: State, t: Tick, g: nat, s: Download.State) {
    Fetching(a, g) && t.input.WorkDone? ==>
      && (a.blocking == Some(Verify(g)) && t.input.done.Hashed? ==>
            |s.disk| >= s.job.size && t.input.done.digest == h(s.disk[..s.job.size]))
      && (a.blocking == Some(Publish(g)) ==> s.mover == Download.Over(t.input.done.Moved?))
  }

  /** How often the transfer of generation `g` was asked for. */
  function StartsIn(out: seq<Out>, g: nat): nat {
    if out == [] then 0
    else StartsIn(out[..|out| - 1], g) + if out[|out| - 1] == Ask(TransferStart(g)) then 1 else 0
  }

  lemma StartsOne(out: seq<Out>, o: Out, g: nat)
    ensures StartsIn(out + [o], g) == StartsIn(out, g) + if o == Ask(TransferStart(g)) then 1 else 0
  {
    assert (out + [o])[..|out|] == out;
  }

  lemma StartsWritten(out: seq<Out>, p: Pending, g: nat)
    ensures StartsIn(out + Written(p), g) == StartsIn(out, g) + if p == Reply(TransferStart(g)) then 1 else 0
  {
    hide StartsIn;
    match p
    case Reply(w) => StartsOne(out, Ask(w), g);
    case Barrier(token, None) => StartsOne(out, Ping(token, None), g);
    case Barrier(token, Some(q)) =>
      StartsOne(out, Tell(token, q.kind), g);
      StartsOne(out + [Tell(token, q.kind)], Ping(token, q.reply), g);
      assert out + Written(p) == out + [Tell(token, q.kind)] + [Ping(token, q.reply)];
  }

  // ---- one turn -------------------------------------------------------------------------

  /** The download goes on in step, or the transfer is over, successfully if earned; and no
      request was written that the download does not count. */
  ghost predicate InStep(a: State, i: Input, r: State, g: nat, s: Download.State, s2: Download.State)
    requires a.transfer.Some?
  {
    && Download.Wf(s2)
    && (if r.transfer == None then s2.phase == Download.Finished(Earned(a, i)) else Mirrors(r, g, s2))
    && StartsIn(r.out, g) + s.requests <= StartsIn(a.out, g) + s2.requests
  }

  /** What the turn wrote, if anything, does not ask for a transfer. */
  predicate NoStart(out: seq<Out>, r: State) {
    r.out == out || (r.pending != [] && !IsStart(Last(r.pending)) && r.out == out + Written(Last(r.pending)))
  }

  lemma NoStartCounts(out: seq<Out>, r: State, g: nat)
    requires NoStart(out, r)
    ensures StartsIn(r.out, g) == StartsIn(out, g)
  {
    hide StartsIn;
    if r.out != out {
      StartsWritten(out, Last(r.pending), g);
    }
  }

  lemma Bystander(a: State, i: Input, r: State, g: nat, s: Download.State)
    requires Mirrors(a, g, s) && Download.Wf(s)
    requires r.transfer == a.transfer && r.blocking == a.blocking && NoStart(a.out, r)
    ensures InStep(a, i, r, g, s, s)
  {
    hide StartsIn, Download.Wf, Earned;
    NoStartCounts(a.out, r, g);
  }

  lemma Ends(h: Download.Hash, a: State, i: Input, r: State, g: nat, s: Download.State)
    requires Mirrors(a, g, s) && Download.Wf(s) && !Earned(a, i)
    requires r.transfer == None && NoStart(a.out, r)
    ensures InStep(a, i, r, g, s, Download.Step(h, s, Download.Event.Failed))
  {
    hide StartsIn, Earned;
    NoStartCounts(a.out, r, g);
    Download.StepWf(h, s, Download.Event.Failed);
  }

  lemma CommandSteps(a: State, i: Input, tooLarge: bool, fatal: bool, g: nat, s: Download.State)
    requires Mirrors(a, g, s) && Download.Wf(s)
    ensures i.DoRequest? ==> InStep(a, i, Request(a, i.expects, tooLarge, fatal), g, s, s)
    ensures i.DoCommand? ==> InStep(a, i, Command(a, i.wait, tooLarge, fatal), g, s, s)
    ensures i.DoKeepalive? ==> InStep(a, i, Keepalive(a, fatal), g, s, s)
    ensures i.DoUpload? ==> InStep(a, i, StartUpload(a, i.valid), g, s, s)
    ensures i.DoDownload? ==>
              InStep(a, i, StartDownload(a, i.valid, Download.NewJob(i.expectedSize, i.chunk, i.resume), tooLarge, fatal), g, s, s)
  {
    hide InStep, SendRequest, SendQuiet, SendBarrier, Keeps, Download.Wf, OrdinarySend, StartsIn;
    match i
    case DoRequest(expects) => Bystander(a, i, Request(a, expects, tooLarge, fatal), g, s);
    case DoCommand(wait) => Bystander(a, i, Command(a, wait, tooLarge, fatal), g, s);
    case DoKeepalive => Bystander(a, i, Keepalive(a, fatal), g, s);
    case DoUpload(valid) => Bystander(a, i, StartUpload(a, valid), g, s);
    case DoDownload(valid, size, chunk, resume) =>
      Bystander(a, i, StartDownload(a, valid, Download.NewJob(size, chunk, resume), tooLarge, fatal), g, s);
    case _ =>
  }

  lemma EndingSteps(h: Download.Hash, a: State, i: Input, fatal: bool, g: nat, s: Download.State)
    requires Mirrors(a, g, s) && Download.Wf(s)
    ensures i.DoCancel? ==> InStep(a, i, Cancel(a, fatal), g, s, Download.Step(h, s, Download.Event.Failed))
    ensures i.AcceptTimeout? ==> InStep(a, i, AcceptTimedOut(a, fatal), g, s, Download.Step(h, s, Download.Event.Failed))
  {
    hide InStep, FailTransfer, Keeps, Download.Wf, Download.Step, OrdinarySend, StartsIn;
    if i.DoCancel? {
      Ends(h, a, i, Cancel(a, fatal), g, s);
    } else if i.AcceptTimeout? {
      Ends(h, a, i, AcceptTimedOut(a, fatal), g, s);
    }
  }

  lemma PlainSteps(a: State, t: ReplyType, g: nat, s: Download.State)
    requires Mirrors(a, g, s) && Download.Wf(s)
    ensures InStep(a, GotReply(t), OnReply(a, t), g, s, s)
    ensures InStep(a, GotPong, OnPong(a), g, s, s)
  {
    hide InStep, Keeps, Download.Wf, StartsIn;
    Bystander(a, GotReply(t), OnReply(a, t), g, s);
    FetchPong(a);
    Bystander(a, GotPong, OnPong(a), g, s);
  }

  lemma FetchPong(a: State)
    requires a.transfer.Some? && a.transfer.value.job.Fetch?
    ensures OnPong(a).transfer == a.transfer && OnPong(a).blocking == a.blocking && OnPong(a).out == a.out
  {
    hide Keeps;
  }

  lemma ErrorSteps(h: Download.Hash, a: State, fatal: bool, g: nat, s: Download.State)
    requires Mirrors(a, g, s) && Download.Wf(s)
    ensures InStep(a, GotError, OnError(a, fatal), g, s, if ErrorHits(a, g) then Download.Step(h, s, Download.Event.Failed) else s)
  {
    hide InStep, FailTransfer, Keeps, Download.Wf, Download.Step, StartsIn;
    var r := OnError(a, fatal);
    if ErrorHits(a, g) {
      ErrorEnds(a, fatal, g);
      Ends(h, a, GotError, r, g, s);
    } else {
      ErrorPasses(a, fatal, g);
      Bystander(a, GotError, r, g, s);
    }
  }

  lemma ErrorEnds(a: State, fatal: bool, g: nat)
    requires Fetching(a, g) && ErrorHits(a, g)
    ensures OnError(a, fatal).transfer == None && NoStart(a.out, OnError(a, fatal))
  {
    hide FailTransfer, Keeps;
  }

  lemma ErrorPasses(a: State, fatal: bool, g: nat)
    requires Fetching(a, g) && !ErrorHits(a, g)
    ensures var r := OnError(a, fatal); r.transfer == a.transfer && r.blocking == a.blocking && r.out == a.out
  {
    hide FailTransfer, Keeps;
  }

  lemma DataSteps(h: Download.Hash, a: State, d: Download.Data, written: bool, fatal: bool, g: nat, s: Download.State)
    requires TransferWf(a) && Mirrors(a, g, s) && Download.Wf(s)
    ensures InStep(a, GotData(d, written), OnData(h, a, d, written, fatal), g, s, Download.Step(h, s, Download.Received(d, written)))
  {
    hide StartsIn, FailTransfer, Keeps, Download.OnData, Download.OnAccept, Download.OnEnd, Download.WriteAt, TotalChunks, ChunkLen, Download.AllSet;
    var r := OnData(h, a, d, written, fatal);
    Download.StepWf(h, s, Download.Received(d, written));
    DataSends(h, a, d, written, fatal);
    NoStartCounts(a.out, r, g);
  }

  lemma DataSends(h: Download.Hash, a: State, d: Download.Data, written: bool, fatal: bool)
    requires TransferWf(a)
    ensures NoStart(a.out, OnData(h, a, d, written, fatal))
  {
    hide FailTransfer, Keeps, Download.OnData, TotalChunks;
  }

  lemma AcceptSteps(h: Download.Hash, a: State, acc: Download.Accept, canOpen: bool, fatal: bool, g: nat, s: Download.State)
    requires Mirrors(a, g, s) && Download.Wf(s)
    requires HeadAwaitsAccept(a) && a.pending[0].waiter.gen == g && a.transfer.value.stage == AwaitingAccept
    ensures InStep(a, GotAccept(acc, canOpen), OnAccept(a, acc, canOpen, fatal), g, s, Download.Step(h, s, Download.Accepted(acc, canOpen)))
  {
    hide StartsIn, FailTransfer, RefuseDownload, Keeps, TransferWf, Download.OnAccept, Download.OnData, Download.OnEnd, Download.WriteAt, TotalChunks;
    var r := OnAccept(a, acc, canOpen, fatal);
    Download.StepWf(h, s, Download.Accepted(acc, canOpen));
    AcceptSends(a, acc, canOpen, fatal);
    NoStartCounts(a.out, r, g);
    AcceptedJob(s.job, acc);
  }

  lemma AcceptedJob(job: Download.Job, acc: Download.Accept)
    ensures Download.OnAccept(job, acc).Started? ==> Download.OnAccept(job, acc).job.accepted
  {
  }

  lemma AcceptSends(a: State, acc: Download.Accept, canOpen: bool, fatal: bool)
    ensures NoStart(a.out, OnAccept(a, acc, canOpen, fatal))
  {
    hide SendAbort, OnUploadAccept, OnDownloadAccept, Keeps;
  }

  lemma AcceptPasses(a: State, acc: Download.Accept, canOpen: bool, fatal: bool, g: nat, s: Download.State)
    requires Mirrors(a, g, s) && Download.Wf(s)
    requires !(HeadAwaitsAccept(a) && a.pending[0].waiter.gen == g && a.transfer.value.stage == AwaitingAccept)
    ensures InStep(a, GotAccept(acc, canOpen), OnAccept(a, acc, canOpen, fatal), g, s, s)
  {
    hide InStep, SendAbort, OnUploadAccept, OnDownloadAccept, Keeps, Download.Wf, StartsIn;
    AcceptSends(a, acc, canOpen, fatal);
    Bystander(a, GotAccept(acc, canOpen), OnAccept(a, acc, canOpen, fatal), g, s);
  }

  // ---- the server's end of a round --------------------------------------------------------

  /** Either nothing asks for a transfer, or this is the second round's one request. */
  lemma RoundEnds(h: Download.Hash, a: State, t: Transfer, id: Id, verified: bool, flushed: bool, tooLarge: bool, fatal: bool, g: nat, s: Download.State)
    requires Mirrors(a, g, s) && Download.Wf(s) && a.transfer == Some(t) && t.stage == Running && id == t.job.down.id
    requires a.blocking == None && !(tooLarge && AsksAgain(t, id, verified, flushed))
    ensures var r := DownloadEnded(a, t, verified, flushed, tooLarge, fatal); var s2 := Download.Step(h, s, Download.Ended(id, verified, flushed));
            && (if r.transfer == None then s2.phase == Download.Failure else Mirrors(r, g, s2))
            && StartsIn(r.out, g) + s.requests <= StartsIn(a.out, g) + s2.requests
  {
    hide StartsIn, FailTransfer, SendRequest, TransferWf, Download.OnAccept, Download.OnData, Download.WriteAt, Download.AllSet, TotalChunks, Geometry;
    var r := DownloadEnded(a, t, verified, flushed, tooLarge, fatal);
    RoundSends(a, t, verified, flushed, tooLarge, fatal);
    if r.out != a.out {
      StartsWritten(a.out, Last(r.pending), g);
    }
  }

  lemma RoundSends(a: State, t: Transfer, verified: bool, flushed: bool, tooLarge: bool, fatal: bool)
    requires t.job.Fetch?
    ensures var r := DownloadEnded(a, t, verified, flushed, tooLarge, fatal);
            r.out == a.out ||
            (r.pending != [] && r.out == a.out + Written(Last(r.pending)) &&
             (IsStart(Last(r.pending)) ==> verified && flushed && Download.OnEnd(t.job.down).Again?))
  {
    hide FailTransfer, SendRequest, TransferWf, Download.OnEnd;
  }

  lemma RoundFails(a: State, t: Transfer, id: Id, verified: bool, flushed: bool, fatal: bool)
    requires t.job.Fetch? && AsksAgain(t, id, verified, flushed)
    ensures var r := DownloadEnded(a, t, verified, flushed, true, fatal); r.transfer == None && NoStart(a.out, r)
  {
    hide FailTransfer, SendRequest, TransferWf, Download.OnEnd;
  }

  lemma EndSteps(h: Download.Hash, a: State, t: Tick, g: nat, s: Download.State)
    requires TransferWf(a) && Mirrors(a, g, s) && Download.Wf(s) && t.input.GotEnd?
    ensures var i := t.input; var es := EventsOf(a, t, g);
            InStep(a, i, OnTransferEnd(a, i.id, i.verified, i.flushed, t.tooLarge, t.fatal), g, s, if es == [] then s else Download.Step(h, s, es[0]))
  {
    hide InStep, FailTransfer, DownloadEnded, Keeps, RemoveFirst, Download.Step, Download.OnEnd, StartsIn, Geometry;
    var i := t.input;
    var tr := a.transfer.value;
    var r := OnTransferEnd(a, i.id, i.verified, i.flushed, t.tooLarge, t.fatal);
    if i.id in a.abandoned {
      Bystander(a, i, r, g, s);
    } else if tr.stage == AwaitingAccept {
      Ends(h, a, i, r, g, s);
    } else if tr.stage == Running && i.id == tr.job.down.id {
      if t.tooLarge && AsksAgain(tr, i.id, i.verified, i.flushed) {
        RoundFails(a, tr, i.id, i.verified, i.flushed, t.fatal);
        Ends(h, a, i, r, g, s);
      } else {
        RoundEnds(h, a, tr, i.id, i.verified, i.flushed, t.tooLarge, t.fatal, g, s);
        EndInStep(h, a, i, r, g, s);
      }
    } else {
      Bystander(a, i, r, g, s);
      LateEnd(h, s, i.id, i.verified, i.flushed);
    }
  }

  lemma EndInStep(h: Download.Hash, a: State, i: Input, r: State, g: nat, s: Download.State)
    requires Mirrors(a, g, s) && Download.Wf(s) && i.GotEnd?
    requires var s2 := Download.Step(h, s, Download.Ended(i.id, i.verified, i.flushed));
             && (if r.transfer == None then s2.phase == Download.Failure else Mirrors(r, g, s2))
             && StartsIn(r.out, g) + s.requests <= StartsIn(a.out, g) + s2.requests
    ensures InStep(a, i, r, g, s, Download.Step(h, s, Download.Ended(i.id, i.verified, i.flushed)))
  {
    hide StartsIn, Download.Step, Mirrors;
    Download.StepWf(h, s, Download.Ended(i.id, i.verified, i.flushed));
    FetchNotByEnd(a, i, g, s);
  }

  lemma FetchNotByEnd(a: State, i: Input, g: nat, s: Download.State)
    requires Mirrors(a, g, s) && i.GotEnd?
    ensures !Earned(a, i)
  {
  }

  /** An end of something else, or of a download already complete, is no event of this one. */
  lemma LateEnd(h: Download.Hash, s: Download.State, id: Id, verified: bool, flushed: bool)
    requires Download.Wf(s) && !s.phase.Finished? && (s.phase != Download.Phase.Running || id != s.job.id)
    ensures Download.Step(h, s, Download.Ended(id, verified, flushed)) == s
  {
    hide Download.OnAccept, Download.OnData, Download.OnEnd, Download.Wf;
  }

  // ---- background work -------------------------------------------------------------------

  lemma WorkSteps(h: Download.Hash, a: State, t: Tick, g: nat, s: Download.State)
    requires TransferWf(a) && Mirrors(a, g, s) && Download.Wf(s) && t.input.WorkDone? && a.blocking.Some? && Truthful(h, a, t, g, s)
    ensures var es := EventsOf(a, t, g);
            InStep(a, t.input, OnBlockingDone(a, t.input.done, t.tooLarge, t.fatal), g, s, if es == [] then s else Download.Step(h, s, es[0]))
  {
    hide InStep, FailTransfer, Keeps, Download.Wf, Download.Step, StartsIn, Geometry;
    var done := t.input.done;
    var r := OnBlockingDone(a, done, t.tooLarge, t.fatal);
    WorkSends(a, done, t.tooLarge, t.fatal, g);
    if a.blocking == Some(Verify(g)) {
      HashSteps(h, a, t, g, s, r);
    } else {
      MoveSteps(h, a, t, g, s, r);
    }
  }

  lemma WorkSends(a: State, done: Done, tooLarge: bool, fatal: bool, g: nat)
    requires Fetching(a, g)
    ensures NoStart(a.out, OnBlockingDone(a, done, tooLarge, fatal))
  {
    hide FailTransfer, SendUploadRequest, Keeps;
  }

  lemma HashSteps(h: Download.Hash, a: State, t: Tick, g: nat, s: Download.State, r: State)
    requires Mirrors(a, g, s) && Download.Wf(s) && t.input.WorkDone? && a.blocking == Some(Verify(g)) && Truthful(h, a, t, g, s)
    requires a.transfer.value.stage == Verifying
    requires r == OnBlockingDone(a, t.input.done, t.tooLarge, t.fatal) && NoStart(a.out, r)
    ensures InStep(a, t.input, r, g, s, Download.Step(h, s, Download.Event.Hashed(t.input.done.Hashed?)))
  {
    hide FailTransfer, Keeps, TransferWf, StartsIn, Download.OnAccept, Download.OnData, Download.OnEnd, Download.AllSet, TotalChunks, Geometry;
    NoStartCounts(a.out, r, g);
    Download.StepWf(h, s, Download.Event.Hashed(t.input.done.Hashed?));
  }

  lemma MoveSteps(h: Download.Hash, a: State, t: Tick, g: nat, s: Download.State, r: State)
    requires Mirrors(a, g, s) && Download.Wf(s) && t.input.WorkDone? && a.blocking == Some(Publish(g)) && Truthful(h, a, t, g, s)
    requires a.transfer.value.stage == Verifying
    requires r == OnBlockingDone(a, t.input.done, t.tooLarge, t.fatal) && NoStart(a.out, r)
    ensures InStep(a, t.input, r, g, s, Download.Step(h, s, Download.Reported))
  {
    hide FailTransfer, Keeps, TransferWf, StartsIn, Download.OnAccept, Download.OnData, Download.OnEnd, Download.AllSet, TotalChunks, Geometry;
    NoStartCounts(a.out, r, g);
    Download.StepWf(h, s, Download.Reported);
  }

  lemma RunShort(h: Download.Hash, s: Download.State, es: seq<Download.Event>)
    requires Download.Wf(s) && |es| <= 1
    ensures Download.Run(h, s, es) == if es == [] then s else Download.Step(h, s, es[0])
  {
    hide Download.Wf, Download.Step;
    if es != [] {
      Download.StepWf(h, s, es[0]);
      assert es[1..] == [];
    }
  }

  /** Every turn of the client, whatever it is for, keeps the download in step. */
  lemma FetchTurn(h: Download.Hash, a: State, t: Tick, g: nat, s: Download.State)
    requires TransferWf(a) && Mirrors(a, g, s) && Download.Wf(s) && Truthful(h, a, t, g, s)
    ensures InStep(a, t.input, Next(h, a, t), g, s, Download.Run(h, s, EventsOf(a, t, g)))
  {
    hide TransferWf, Keeps, InStep, Download.Wf, Download.Step, Earned, OnReply, OnAccept, OnError, OnPong, OnTransferEnd, OnData;
    hide Request, Command, Keepalive, StartUpload, StartDownload, Cancel, OnBlockingDone, SendNextChunk, AcceptTimedOut, StartsIn, Download.Run;
    RunShort(h, s, EventsOf(a, t, g));
    match t.input
    case GotReply(ty) => PlainSteps(a, ty, g, s);
    case GotPong => PlainSteps(a, 0, g, s);
    case GotError => ErrorSteps(h, a, t.fatal, g, s);
    case GotAccept(acc, canOpen) =>
      if HeadAwaitsAccept(a) && a.pending[0].waiter.gen == g && a.transfer.value.stage == AwaitingAccept {
        AcceptSteps(h, a, acc, canOpen, t.fatal, g, s);
      } else {
        AcceptPasses(a, acc, canOpen, t.fatal, g, s);
      }
    case GotData(d, written) => DataSteps(h, a, d, written, t.fatal, g, s);
    case GotEnd(_, _, _) => EndSteps(h, a, t, g, s);
    case GotEvent => Bystander(a, t.input, a, g, s);
    case ChunkTurn(_) => Bystander(a, t.input, a, g, s);
    case WorkDone(_) =>
      if a.blocking.Some? {
        WorkSteps(h, a, t, g, s);
      } else {
        Bystander(a, t.input, a, g, s);
      }
    case DoCancel => EndingSteps(h, a, t.input, t.fatal, g, s);
    case AcceptTimeout =>
      if a.transfer.value.stage == AwaitingAccept {
        EndingSteps(h, a, t.input, t.fatal, g, s);
      } else {
        Bystander(a, t.input, a, g, s);
      }
    case _ => CommandSteps(a, t.input, t.tooLarge, t.fatal, g, s);
  }

  // ---- the caller's answer ---------------------------------------------------------------

  /** The first answer a caller got, if any; there is never a second. */
  function Told(answers: seq<Answer>, c: Caller): Option<How> {
    if answers == [] then None
    else if answers[0].caller == c then Some(answers[0].how) else Told(answers[1..], c)
  }

  lemma {:induction false} ToldConcat(xs: seq<Answer>, ys: seq<Answer>, c: Caller)
    ensures Told(xs + ys, c) == if Told(xs, c).Some? then Told(xs, c) else Told(ys, c)
    decreases |xs|
  {
    if xs == [] {
      assert xs + ys == ys;
    } else {
      assert (xs + ys)[1..] == xs[1..] + ys;
      ToldConcat(xs[1..], ys, c);
    }
  }

  lemma ToldGrows(xs: seq<Answer>, ys: seq<Answer>, c: Caller)
    requires xs <= ys && Told(xs, c).Some?
    ensures Told(ys, c) == Told(xs, c)
  {
    ToldConcat(xs, ys[|xs|..], c);
    assert ys == xs + ys[|xs|..];
  }

  lemma ToldNext(xs: seq<Answer>, ys: seq<Answer>, c: Caller)
    requires |ys| > |xs| && ys[..|xs|] == xs && Told(xs, c) == None && ys[|xs|].caller == c
    ensures Told(ys, c) == Some(ys[|xs|].how)
  {
    ToldConcat(xs, ys[|xs|..], c);
    assert ys == xs + ys[|xs|..];
  }

  lemma {:induction false} NotTold(answers: seq<Answer>, c: Caller)
    requires AnsweredIn(answers, c) == 0
    ensures Told(answers, c) == None
    decreases |answers|
  {
    if answers != [] {
      var init, last := answers[..|answers| - 1], answers[|answers| - 1];
      NotTold(init, c);
      ToldConcat(init, [last], c);
      assert answers == init + [last];
      assert Told([last], c) == None;
    }
  }

  // ---- whole runs -------------------------------------------------------------------------

  /** A client state and a download in step: while the transfer is current they mirror each
      other, and once it is over its caller has been told how it went. */
  ghost predicate Along(a: State, g: nat, c: Caller, s: Download.State) {
    && TransferWf(a) && Accounted(a) && g <= a.nextGen && Download.Wf(s)
    && (if IsCurrent(a, g) then Mirrors(a, g, s) && a.transfer.value.caller == c else Over(a, c, s))
    && StartsIn(a.out, g) <= s.requests
  }

  predicate Over(a: State, c: Caller, s: Download.State) {
    && s.phase.Finished? && Told(a.answers, c).Some?
    && (Told(a.answers, c) == Some(Fine) <==> s.phase == Download.Finished(true))
  }

  lemma TurnAccounted(h: Download.Hash, a: State, t: Tick)
    requires TransferWf(a) && Accounted(a)
    ensures Accounted(Next(h, a, t))
  {
    hide Next, TransferWf, Owned;
    var b := Next(h, a, t);
    forall c: Caller ensures Owned(b, c) == if c < b.issued then 1 else 0 {
      TurnOwned(h, a, t, c);
    }
  }

  /** Nobody asks for an ended or a future transfer. */
  lemma OtherStarts(h: Download.Hash, a: State, t: Tick, g: nat)
    requires TransferWf(a) && !IsCurrent(Next(h, a, t), g)
    ensures StartsIn(Next(h, a, t).out, g) == StartsIn(a.out, g)
  {
    hide Next, TransferWf, StartsIn, Consumed;
    var r := Next(h, a, t);
    TurnQueue(h, a, t);
    if r.out != a.out {
      StartsWritten(a.out, Last(r.pending), g);
    }
  }

  lemma CurrentTurn(h: Download.Hash, a: State, t: Tick, g: nat, c: Caller, s: Download.State)
    requires Along(a, g, c, s) && IsCurrent(a, g) && Truthful(h, a, t, g, s)
    ensures Along(Next(h, a, t), g, c, Download.Run(h, s, EventsOf(a, t, g)))
  {
    hide Next, TransferWf, Download.Run, Download.Wf, StartsIn, Earned, EventsOf, AnsweredIn, WaitingIn, Told;
    var r := Next(h, a, t);
    FetchTurn(h, a, t, g, s);
    TurnAccounted(h, a, t);
    GenStep(h, a, t);
    SuccessIsEarned(h, a, t);
    assert Owned(a, c) <= 1;
    NotTold(a.answers, c);
    if r.transfer == None {
      ToldNext(a.answers, r.answers, c);
    }
  }

  lemma LaterTurn(h: Download.Hash, a: State, t: Tick, g: nat, c: Caller, s: Download.State)
    requires Along(a, g, c, s) && !IsCurrent(a, g)
    ensures EventsOf(a, t, g) == [] && Along(Next(h, a, t), g, c, s)
  {
    hide Next, TransferWf, Download.Wf, StartsIn, Told, Owned;
    TurnAccounted(h, a, t);
    GenStep(h, a, t);
    OtherStarts(h, a, t, g);
    AnswersGrow(h, a, t);
    ToldGrows(a.answers, Next(h, a, t).answers, c);
  }

  /** What happens to a download: a turn of the client, or the move of its Publish job,
      which waits for nobody and may come after the transfer, or the client, has ended. */
  datatype Happening = Turn(tick: Tick) | MoveLands(ok: bool)

  function Ticks(hs: seq<Happening>): seq<Tick> {
    if hs == [] then [] else (if hs[0].Turn? then [hs[0].tick] else []) + Ticks(hs[1..])
  }

  /** The events of one generation in a run, in order. */
  function EventsIn(h: Download.Hash, a: State, hs: seq<Happening>, g: nat): seq<Download.Event>
    requires TransferWf(a)
    decreases |hs|
  {
    if hs == [] then []
    else
      match hs[0]
      case MoveLands(ok) => [Download.Lands(ok)] + EventsIn(h, a, hs[1..], g)
      case Turn(t) =>
        if a.dead then EventsIn(h, a, hs[1..], g)
        else EventsOf(a, t, g) + EventsIn(h, Next(h, a, t), hs[1..], g)
  }

  ghost predicate TruthfulRun(h: Download.Hash, a: State, hs: seq<Happening>, g: nat, s: Download.State)
    requires TransferWf(a) && Download.Wf(s)
    decreases |hs|
  {
    hs != [] ==>
      match hs[0]
      case MoveLands(ok) => TruthfulRun(h, a, hs[1..], g, Download.Run(h, s, [Download.Lands(ok)]))
      case Turn(t) =>
        if a.dead then TruthfulRun(h, a, hs[1..], g, s)
        else Truthful(h, a, t, g, s) && TruthfulRun(h, Next(h, a, t), hs[1..], g, Download.Run(h, s, EventsOf(a, t, g)))
  }

  /** A turn that ends the transfer while its Publish job is out, otherwise than by that
      job's report: a cancel, a refusal, anything but the job itself. */
  predicate Abandons(h: Download.Hash, a: State, t: Tick, g: nat)
    requires TransferWf(a)
  {
    a.blocking == Some(Publish(g)) && !t.input.WorkDone? && Next(h, a, t).transfer == None
  }

  predicate AbandonedIn(h: Download.Hash, a: State, hs: seq<Happening>, g: nat)
    requires TransferWf(a)
    decreases |hs|
  {
    hs != [] &&
    match hs[0]
    case MoveLands(_) => AbandonedIn(h, a, hs[1..], g)
    case Turn(t) =>
      if a.dead then AbandonedIn(h, a, hs[1..], g)
      else Abandons(h, a, t, g) || AbandonedIn(h, Next(h, a, t), hs[1..], g)
  }

  /** The simulation: what happens to one fetch generation, in any run of the client, is a run
      of the download. */
  lemma {:induction false} RunFollows(h: Download.Hash, a: State, hs: seq<Happening>, g: nat, c: Caller, s: Download.State)
    requires Along(a, g, c, s) && TruthfulRun(h, a, hs, g, s)
    ensures var s2 := Download.Run(h, s, EventsIn(h, a, hs, g));
            && Along(Run(h, a, Ticks(hs)), g, c, s2)
            && (s2.left <==> s.left || AbandonedIn(h, a, hs, g))
    decreases |hs|
  {
    hide Next, Along, EventsOf, Truthful, Abandons;
    AlongWf(a, g, c, s);
    if hs == [] {
      RunShort(h, s, []);
    } else {
      match hs[0]
      case MoveLands(ok) =>
        var es := [Download.Lands(ok)];
        LandsAlong(h, a, g, c, s, ok);
        assert Ticks(hs) == Ticks(hs[1..]);
        RunFollows(h, a, hs[1..], g, c, Download.Run(h, s, es));
        Download.RunConcat(h, s, es, EventsIn(h, a, hs[1..], g));
      case Turn(t) =>
        assert Ticks(hs)[1..] == Ticks(hs[1..]);
        if a.dead {
          RunFollows(h, a, hs[1..], g, c, s);
        } else {
          var es := EventsOf(a, t, g);
          OneTick(h, a, t, g, c, s);
          RunFollows(h, Next(h, a, t), hs[1..], g, c, Download.Run(h, s, es));
          Download.RunConcat(h, s, es, EventsIn(h, Next(h, a, t), hs[1..], g));
        }
    }
  }

  lemma LandsAlong(h: Download.Hash, a: State, g: nat, c: Caller, s: Download.State, ok: bool)
    requires Along(a, g, c, s)
    ensures var s2 := Download.Run(h, s, [Download.Lands(ok)]);
            Along(a, g, c, s2) && s2.left == s.left
  {
    hide TransferWf, Download.Run, StartsIn, Told, Owned, Geometry, Download.AllSet;
    hide Download.OnAccept, Download.OnData, Download.OnEnd;
    RunShort(h, s, [Download.Lands(ok)]);
    Download.StepWf(h, s, Download.Lands(ok));
  }

  /** A turn marks the download as left behind exactly if it abandons it. */
  lemma LeftTurn(h: Download.Hash, a: State, t: Tick, g: nat, s: Download.State)
    requires TransferWf(a) && Mirrors(a, g, s) && Download.Wf(s) && Truthful(h, a, t, g, s)
    ensures Download.Run(h, s, EventsOf(a, t, g)).left <==> Abandons(h, a, t, g)
  {
    hide Next, StartsIn, Earned, Download.Run, Geometry, Download.AllSet, Download.OnAccept, Download.OnData, Download.OnEnd, Truthful;
    FetchTurn(h, a, t, g, s);
    RunShort(h, s, EventsOf(a, t, g));
  }

  lemma AlongWf(a: State, g: nat, c: Caller, s: Download.State)
    requires Along(a, g, c, s)
    ensures TransferWf(a) && Download.Wf(s)
  {
  }

  lemma OneTick(h: Download.Hash, a: State, t: Tick, g: nat, c: Caller, s: Download.State)
    requires Along(a, g, c, s) && Truthful(h, a, t, g, s)
    ensures TransferWf(a) && Download.Wf(s)
    ensures var s2 := Download.Run(h, s, EventsOf(a, t, g));
            Along(Next(h, a, t), g, c, s2) && (s2.left <==> s.left || Abandons(h, a, t, g))
  {
    hide Next, Download.Wf, StartsIn, Told, Owned, EventsOf, Truthful, Download.Run, UploadWf, FetchWf;
    if IsCurrent(a, g) {
      CurrentTurn(h, a, t, g, c, s);
      LeftTurn(h, a, t, g, s);
      NotLeftYet(a, g, s);
    } else {
      LaterTurn(h, a, t, g, c, s);
      RunShort(h, s, []);
    }
  }

  lemma NotLeftYet(a: State, g: nat, s: Download.State)
    requires Mirrors(a, g, s) && Download.Wf(s)
    ensures !s.left
  {
    hide Geometry, Download.AllSet;
  }

  // ---- from the start of the client -------------------------------------------------------

  lemma {:induction false} NoFutureStarts(h: Download.Hash, a: State, ticks: seq<Tick>, g: nat)
    requires TransferWf(a) && StartsIn(a.out, g) == 0 && g > Run(h, a, ticks).nextGen
    ensures StartsIn(Run(h, a, ticks).out, g) == 0
    decreases |ticks|
  {
    hide Next, TransferWf, StartsIn;
    if ticks != [] && !a.dead {
      var b := Next(h, a, ticks[0]);
      GensGrow(h, b, ticks[1..]);
      CurrentGen(b);
      OtherStarts(h, a, ticks[0], g);
      NoFutureStarts(h, b, ticks[1..], g);
    }
  }

  lemma {:induction false} GensGrow(h: Download.Hash, a: State, ticks: seq<Tick>)
    requires TransferWf(a)
    ensures a.nextGen <= Run(h, a, ticks).nextGen
    decreases |ticks|
  {
    hide Next, TransferWf;
    if ticks != [] && !a.dead {
      GenStep(h, a, ticks[0]);
      GensGrow(h, Next(h, a, ticks[0]), ticks[1..]);
    }
  }

  lemma {:induction false} RunSplits(h: Download.Hash, a: State, xs: seq<Tick>, ys: seq<Tick>)
    requires TransferWf(a)
    ensures Run(h, a, xs + ys) == Run(h, Run(h, a, xs), ys)
    decreases |xs|
  {
    hide Next, TransferWf;
    if xs == [] || a.dead {
      assert xs == [] ==> xs + ys == ys;
    } else {
      assert (xs + ys)[1..] == xs[1..] + ys;
      RunSplits(h, Next(h, a, xs[0]), xs[1..], ys);
    }
  }

  /** The turn that starts a download. */
  predicate StartsDownload(a: State, t: Tick) {
    !a.dead && a.transfer == None && t.input.DoDownload? && t.input.valid && !t.tooLarge && !t.fatal
  }

  function NewDownload(t: Tick, disk: Bytes): Download.State
    requires t.input.DoDownload?
  {
    Download.Initial(Download.NewJob(t.input.expectedSize, t.input.chunk, t.input.resume), disk)
  }

  lemma FirstTurn(h: Download.Hash, a: State, t: Tick, disk: Bytes)
    requires TransferWf(a) && Accounted(a) && StartsDownload(a, t) && StartsIn(a.out, a.nextGen + 1) == 0
    ensures var b := Next(h, a, t); b.nextGen == a.nextGen + 1 && Along(b, b.nextGen, a.issued, NewDownload(t, disk))
  {
    hide Owned, SendRequest, StartsIn, TotalChunks, Keeps;
    TurnAccounted(h, a, t);
    StartsWritten(a.out, Reply(TransferStart(a.nextGen + 1)), a.nextGen + 1);
  }

  /** A run of the client from its start: some ticks, the one that starts a download, and
      whatever happens then. */
  ghost predicate ClientRun(h: Download.Hash, before: seq<Tick>, t: Tick, after: seq<Happening>, disk: Bytes) {
    && TransferWf(Start) && var a := Run(h, Start, before);
    && StartsDownload(a, t)
    && var b := Next(h, a, t);
       TruthfulRun(h, b, after, b.nextGen, NewDownload(t, disk))
  }

  /** The client and the download at the end of that run. */
  ghost function TheClient(h: Download.Hash, before: seq<Tick>, t: Tick, after: seq<Happening>): State {
    Run(h, Start, before + [t] + Ticks(after))
  }

  ghost function TheDownload(h: Download.Hash, before: seq<Tick>, t: Tick, after: seq<Happening>, disk: Bytes): (s: Download.State)
    requires ClientRun(h, before, t, after, disk)
    ensures Download.Wf(s)
  {
    var b := Next(h, Run(h, Start, before), t);
    Download.Run(h, NewDownload(t, disk), EventsIn(h, b, after, b.nextGen))
  }

  /** The transfer was ended while its Publish job was out: by a turn, or by the disconnect. */
  ghost predicate EndedEarly(h: Download.Hash, before: seq<Tick>, t: Tick, after: seq<Happening>) {
    var b := Next(h, Run(h, Start, before), t);
    AbandonedIn(h, b, after, b.nextGen) || TheClient(h, before, t, after).blocking == Some(Publish(b.nextGen))
  }

  lemma RunReaches(h: Download.Hash, before: seq<Tick>, t: Tick, after: seq<Happening>, disk: Bytes)
    requires ClientRun(h, before, t, after, disk)
    ensures var a := Run(h, Start, before); var b := Next(h, a, t);
            var s := TheDownload(h, before, t, after, disk);
            && TheClient(h, before, t, after) == Run(h, b, Ticks(after))
            && Along(Run(h, b, Ticks(after)), b.nextGen, a.issued, s)
            && (s.left <==> AbandonedIn(h, b, after, b.nextGen))
  {
    hide Next, Along, StartsIn, AbandonedIn;
    var a := Run(h, Start, before);
    var b := Next(h, a, t);
    assert StartsIn(Start.out, a.nextGen + 1) == 0 by { NothingStarted(a.nextGen + 1); }
    NoFutureStarts(h, Start, before, a.nextGen + 1);
    RunAccounted(h, Start, before);
    FirstTurn(h, a, t, disk);
    RunFollows(h, b, after, b.nextGen, a.issued, NewDownload(t, disk));
    assert before + [t] + Ticks(after) == before + ([t] + Ticks(after));
    RunSplits(h, Start, before, [t] + Ticks(after));
    assert ([t] + Ticks(after))[1..] == Ticks(after);
  }

  lemma NothingStarted(g: nat)
    ensures StartsIn(Start.out, g) == 0
  {
  }

  /** Over every run of the client, its disconnect included: a download's caller is told
      success only if the file is at the destination; whatever is there had every chunk held
      and has the announced size and digest; and it is there without the caller being told
      exactly if the transfer was ended while its Publish job was out and that job's
      move went through all the same. At most two requests are ever written. */
  lemma DownloadSuccessIsVerified(h: Download.Hash, before: seq<Tick>, t: Tick, after: seq<Happening>, disk: Bytes)
    requires ClientRun(h, before, t, after, disk)
    ensures var end := TheClient(h, before, t, after);
            var c := Run(h, Start, before).issued;
            var s := TheDownload(h, before, t, after, disk);
            && (Told(end.answers, c) == Some(Fine) <==> s.phase == Download.Finished(true))
            && (Told(Teardown(end).answers, c) == Some(Fine) <==> s.phase == Download.Finished(true))
            && (s.phase == Download.Finished(true) ==> s.dest.Some?)
            && (s.dest.Some? ==> Download.AllSet(s.job.have) && |s.dest.value| == s.job.size && h(s.dest.value) == s.job.sha256)
            && (s.dest.Some? && Told(Teardown(end).answers, c) != Some(Fine) <==>
                  EndedEarly(h, before, t, after) && s.mover == Download.Over(true))
            && StartsIn(end.out, Run(h, Start, before).nextGen + 1) <= Download.MAX_DOWNLOAD_ROUNDS
  {
    hide Next, Run, StartsIn, Told, Download.Step, Owned, TransferWf, AbandonedIn, Teardown, Along, Download.Wf, Download.Published;
    var a := Run(h, Start, before);
    var b := Next(h, a, t);
    var end := TheClient(h, before, t, after);
    var s := TheDownload(h, before, t, after, disk);
    RunReaches(h, before, t, after, disk);
    StartGen(h, a, t);
    NewPublished(h, t, disk);
    Download.OnlyVerifiedIsPublished(h, NewDownload(t, disk), EventsIn(h, b, after, b.nextGen));
    TornDown(end, b.nextGen, a.issued, s);
    Outcome(h, end, b.nextGen, a.issued, s);
  }

  lemma NewPublished(h: Download.Hash, t: Tick, disk: Bytes)
    requires t.input.DoDownload?
    ensures Download.Wf(NewDownload(t, disk)) && Download.Published(h, NewDownload(t, disk))
  {
  }

  /** What the two together say once both are known. */
  lemma Outcome(h: Download.Hash, a: State, g: nat, c: Caller, s: Download.State)
    requires Along(a, g, c, s) && Download.Published(h, s)
    ensures s.phase == Download.Finished(true) ==> s.dest.Some?
    ensures s.dest.Some? ==> Download.AllSet(s.job.have) && |s.dest.value| == s.job.size && h(s.dest.value) == s.job.sha256
    ensures s.dest.Some? <==> s.mover == Download.Over(true)
    ensures s.dest.Some? ==> (s.phase != Download.Finished(true) <==> s.left || a.blocking == Some(Publish(g)))
    ensures StartsIn(a.out, g) <= Download.MAX_DOWNLOAD_ROUNDS
  {
    hide StartsIn, Told, Owned, Geometry, Download.AllSet, UploadWf, FetchWf;
  }

  lemma StartGen(h: Download.Hash, a: State, t: Tick)
    requires TransferWf(a) && StartsDownload(a, t)
    ensures Next(h, a, t).nextGen == a.nextGen + 1
  {
    hide SendRequest, TransferWf, Keeps;
  }

  lemma TornDown(a: State, g: nat, c: Caller, s: Download.State)
    requires Along(a, g, c, s)
    ensures Told(a.answers, c) == Some(Fine) <==> s.phase == Download.Finished(true)
    ensures Told(Teardown(a).answers, c) == Some(Fine) <==> s.phase == Download.Finished(true)
  {
    hide TransferWf, Told, AnsweredIn, WaitingIn, FailTransfer, Drained;
    assert Owned(a, c) <= 1;
    var b := a.(closing := true, pending := [], answers := a.answers + Drained(a.pending));
    if IsCurrent(a, g) {
      NotTold(a.answers, c);
      DrainedAll(a.answers, a.pending, c);
      NotTold(b.answers, c);
      ToldNext(b.answers, FailTransfer(b, Gone, false).answers, c);
    } else {
      ToldGrows(a.answers, FailTransfer(b, Gone, false).answers, c);
    }
  }

  /** And if the accepted chunks are slices of one file, what is published is that file. */
  lemma DownloadDeliversTheFile(h: Download.Hash, before: seq<Tick>, t: Tick, after: seq<Happening>, disk: Bytes, file: Bytes)
    requires ClientRun(h, before, t, after, disk)
    requires Download.ResumeHolds(t.input.resume, disk, file)
    requires var b := Next(h, Run(h, Start, before), t);
             Download.Faithful(h, NewDownload(t, disk), EventsIn(h, b, after, b.nextGen), file)
    ensures var s := TheDownload(h, before, t, after, disk);
            && (s.dest.Some? ==> s.dest == Some(file))
            && (Told(TheClient(h, before, t, after).answers, Run(h, Start, before).issued) == Some(Fine) ==> s.dest == Some(file))
  {
    hide Next, Run, StartsIn, Told, Download.Step, Owned, TransferWf, Download.ResumeHolds, Download.Faithful, EndedEarly;
    var b := Next(h, Run(h, Start, before), t);
    DownloadSuccessIsVerified(h, before, t, after, disk);
    Download.CompletePartialIsTheFile(h, NewDownload(t, disk), EventsIn(h, b, after, b.nextGen), file);
  }

  // ---- a run that publishes what it reports as failed -------------------------------------

  const AskForEmpty := Tick(DoDownload(true, None, DEFAULT_CHUNK_SIZE, None), false, false)

  function EmptyOffer(h: Download.Hash): Download.Accept {
    Download.Accept(7, DEFAULT_CHUNK_SIZE, 0, 0, h([]), [], 0)
  }

  function Plainly(i: Input): Happening {
    Happening.Turn(Tick(i, false, false))
  }

  /** An empty file is accepted, ended and hashed; the caller cancels while the Publish job is
      out; the move goes through. */
  function CancelledRun(h: Download.Hash): seq<Happening> {
    [Plainly(GotAccept(EmptyOffer(h), true)), Plainly(GotEnd(7, true, true)), Plainly(WorkDone(Hashed(h([])))),
     Plainly(DoCancel), MoveLands(true)]
  }

  function EmptyJob(h: Download.Hash): Download.Job {
    Download.NewJob(None, DEFAULT_CHUNK_SIZE, None).(accepted := true, id := 7, sha256 := h([]))
  }

  const EmptyAsked := Start.(nextGen := 1, issued := 1, pending := [Reply(TransferStart(1))], out := [Ask(TransferStart(1))],
                             transfer := Some(Transfer(1, 0, AwaitingAccept, Fetch(Download.NewJob(None, DEFAULT_CHUNK_SIZE, None)))))

  function EmptyAt(h: Download.Hash, stage: Stage, blocking: Option<Blocking>): State {
    EmptyAsked.(pending := [], transfer := Some(Transfer(1, 0, stage, Fetch(EmptyJob(h)))), blocking := blocking)
  }

  const EmptyCancelled := Start.(nextGen := 1, issued := 2, out := [Ask(TransferStart(1))],
                                 answers := [Answer(0, Locally), Answer(1, Fine)])

  function EmptyDownload(h: Download.Hash, phase: Download.Phase, mover: Download.Mover): Download.State {
    Download.State(EmptyJob(h), phase, [], if mover == Download.Over(true) then Some([]) else None, 1, mover, phase == Download.Failure)
  }

  /** These happenings take the client and the download from here to there. */
  ghost predicate Leads(h: Download.Hash, a: State, s: Download.State, hs: seq<Happening>, b: State, d: Download.State) {
    && TransferWf(a) && Download.Wf(s) && TruthfulRun(h, a, hs, 1, s)
    && Run(h, a, Ticks(hs)) == b && Download.Run(h, s, EventsIn(h, a, hs, 1)) == d
  }

  lemma TurnLeads(h: Download.Hash, a: State, s: Download.State, t: Tick, a2: State, s2: Download.State, hs: seq<Happening>, b: State, d: Download.State)
    requires TransferWf(a) && Download.Wf(s) && !a.dead && Truthful(h, a, t, 1, s)
    requires Next(h, a, t) == a2 && Download.Run(h, s, EventsOf(a, t, 1)) == s2 && Leads(h, a2, s2, hs, b, d)
    ensures Leads(h, a, s, [Happening.Turn(t)] + hs, b, d)
  {
    hide Next, Truthful, EventsOf, TransferWf, Download.Wf;
    var all := [Happening.Turn(t)] + hs;
    assert all[1..] == hs;
    assert Ticks(all) == [t] + Ticks(hs) && ([t] + Ticks(hs))[1..] == Ticks(hs);
    Download.RunConcat(h, s, EventsOf(a, t, 1), EventsIn(h, a2, hs, 1));
  }

  lemma EmptyAsks(h: Download.Hash, disk: Bytes)
    ensures TransferWf(Start) && Next(h, Start, AskForEmpty) == EmptyAsked
    ensures TransferWf(EmptyAsked) && Download.Wf(NewDownload(AskForEmpty, disk))
  {
  }

  lemma EmptyStarts(h: Download.Hash)
    ensures Download.OnAccept(Download.NewJob(None, DEFAULT_CHUNK_SIZE, None), EmptyOffer(h)) == Download.Started(EmptyJob(h), true)
  {
  }

  lemma EmptyAccepted(h: Download.Hash, disk: Bytes)
    ensures TransferWf(Start) && Next(h, Start, AskForEmpty) == EmptyAsked
    ensures TransferWf(EmptyAsked) && Download.Wf(NewDownload(AskForEmpty, disk))
    ensures var t := Plainly(GotAccept(EmptyOffer(h), true)).tick;
            && EventsOf(EmptyAsked, t, 1) == [Download.Accepted(EmptyOffer(h), true)]
            && Next(h, EmptyAsked, t) == EmptyAt(h, Running, None)
            && Download.Step(h, NewDownload(AskForEmpty, disk), Download.Accepted(EmptyOffer(h), true)) ==
               EmptyDownload(h, Download.Phase.Running, Download.Unsent)
  {
    hide TransferWf, Keeps, Download.OnAccept, Download.Wf, Download.OnData, Download.OnEnd;
    EmptyAsks(h, disk);
    EmptyStarts(h);
  }

  lemma EmptyEnded(h: Download.Hash)
    ensures TransferWf(EmptyAt(h, Running, None)) && Download.Wf(EmptyDownload(h, Download.Phase.Running, Download.Unsent))
    ensures var t := Plainly(GotEnd(7, true, true)).tick;
            && EventsOf(EmptyAt(h, Running, None), t, 1) == [Download.Ended(7, true, true)]
            && Next(h, EmptyAt(h, Running, None), t) == EmptyAt(h, Verifying, Some(Verify(1)))
            && Download.Step(h, EmptyDownload(h, Download.Phase.Running, Download.Unsent), Download.Ended(7, true, true)) ==
               EmptyDownload(h, Download.Hashing, Download.Unsent)
  {
  }

  lemma EmptyVerifies(h: Download.Hash)
    ensures TransferWf(EmptyAt(h, Verifying, Some(Verify(1)))) && Download.Wf(EmptyDownload(h, Download.Hashing, Download.Unsent))
  {
  }

  lemma EmptyHashed(h: Download.Hash)
    ensures TransferWf(EmptyAt(h, Verifying, Some(Verify(1)))) && Download.Wf(EmptyDownload(h, Download.Hashing, Download.Unsent))
    ensures var t := Plainly(WorkDone(Hashed(h([])))).tick;
            && EventsOf(EmptyAt(h, Verifying, Some(Verify(1))), t, 1) == [Download.Event.Hashed(true)]
            && Truthful(h, EmptyAt(h, Verifying, Some(Verify(1))), t, 1, EmptyDownload(h, Download.Hashing, Download.Unsent))
            && Next(h, EmptyAt(h, Verifying, Some(Verify(1))), t) == EmptyAt(h, Verifying, Some(Publish(1)))
            && Download.Step(h, EmptyDownload(h, Download.Hashing, Download.Unsent), Download.Event.Hashed(true)) ==
               EmptyDownload(h, Download.Publishing, Download.Out)
  {
    hide TransferWf, Keeps, Download.OnAccept, Download.Wf, Download.OnData, Download.OnEnd, FailTransfer;
    EmptyVerifies(h);
    var none: Bytes := [];
    assert none[..0] == [];
  }

  lemma EmptyGivenUp(h: Download.Hash)
    ensures TransferWf(EmptyAt(h, Verifying, Some(Publish(1)))) && Download.Wf(EmptyDownload(h, Download.Publishing, Download.Out))
    ensures var t := Plainly(DoCancel).tick;
            && EventsOf(EmptyAt(h, Verifying, Some(Publish(1))), t, 1) == [Download.Event.Failed]
            && Next(h, EmptyAt(h, Verifying, Some(Publish(1))), t) == EmptyCancelled
            && Download.Step(h, EmptyDownload(h, Download.Publishing, Download.Out), Download.Event.Failed) ==
               EmptyDownload(h, Download.Failure, Download.Out)
  {
  }

  lemma EmptyLands(h: Download.Hash)
    ensures Leads(h, EmptyCancelled, EmptyDownload(h, Download.Failure, Download.Out), [MoveLands(true)],
                  EmptyCancelled, EmptyDownload(h, Download.Failure, Download.Over(true)))
  {
    var es := [Download.Lands(true)];
    var s := EmptyDownload(h, Download.Failure, Download.Out);
    RunShort(h, s, es);
    assert [MoveLands(true)][1..] == [] && EventsIn(h, EmptyCancelled, [MoveLands(true)], 1) == es;
  }

  lemma CancelledLeads(h: Download.Hash, disk: Bytes)
    ensures Leads(h, EmptyAsked, NewDownload(AskForEmpty, disk), CancelledRun(h),
                  EmptyCancelled, EmptyDownload(h, Download.Failure, Download.Over(true)))
  {
    hide Next, EventsOf, TransferWf, Download.Wf, Download.Step, Download.Run, Leads, Run, TruthfulRun;
    var b, d := EmptyCancelled, EmptyDownload(h, Download.Failure, Download.Over(true));
    var hs := CancelledRun(h);
    EmptyLands(h);
    EmptyGivenUp(h);
    var s4 := EmptyDownload(h, Download.Publishing, Download.Out);
    RunShort(h, s4, [Download.Event.Failed]);
    TurnLeads(h, EmptyAt(h, Verifying, Some(Publish(1))), s4, hs[3].tick, b, EmptyDownload(h, Download.Failure, Download.Out), hs[4..], b, d);
    EmptyHashed(h);
    var s3 := EmptyDownload(h, Download.Hashing, Download.Unsent);
    RunShort(h, s3, [Download.Event.Hashed(true)]);
    assert [hs[3]] + hs[4..] == hs[3..];
    TurnLeads(h, EmptyAt(h, Verifying, Some(Verify(1))), s3, hs[2].tick, EmptyAt(h, Verifying, Some(Publish(1))), s4, hs[3..], b, d);
    EmptyEnded(h);
    var s2 := EmptyDownload(h, Download.Phase.Running, Download.Unsent);
    RunShort(h, s2, [Download.Ended(7, true, true)]);
    assert [hs[2]] + hs[3..] == hs[2..];
    TurnLeads(h, EmptyAt(h, Running, None), s2, hs[1].tick, EmptyAt(h, Verifying, Some(Verify(1))), s3, hs[2..], b, d);
    EmptyAccepted(h, disk);
    RunShort(h, NewDownload(AskForEmpty, disk), [Download.Accepted(EmptyOffer(h), true)]);
    assert [hs[1]] + hs[2..] == hs[1..];
    TurnLeads(h, EmptyAsked, NewDownload(AskForEmpty, disk), hs[0].tick, EmptyAt(h, Running, None), s2, hs[1..], b, d);
    assert [hs[0]] + hs[1..] == hs;
  }

  /** The caller is told that the download failed, and the file is at the destination. */
  lemma CancelledButPublished(h: Download.Hash, disk: Bytes)
    ensures ClientRun(h, [], AskForEmpty, CancelledRun(h), disk)
    ensures Told(TheClient(h, [], AskForEmpty, CancelledRun(h)).answers, 0) == Some(Locally)
    ensures TheDownload(h, [], AskForEmpty, CancelledRun(h), disk).dest == Some([])
  {
    hide Next, TransferWf, Download.Wf, Download.Run, Download.Step, EventsOf, TruthfulRun;
    EmptyAccepted(h, disk);
    CancelledLeads(h, disk);
    RunReaches(h, [], AskForEmpty, CancelledRun(h), disk);
  }
}
