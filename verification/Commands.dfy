/**
 * What becomes of a command and of its caller: which entry a command leaves in the queue,
 * and that a caller who waits is told what the server decided about that very command,
 * and not before the server has decided it.
 */
module Commands {
  import opened Options
  import opened Chunks
  import opened Actor
  import opened ActorRuns
  import opened Correlation
  import ActorDownloads
  import ServerContract
  import Uploads
  import Download

  // ---- one turn -----------------------------------------------------------------------------

  /** A command that can be written leaves one entry at the end of the queue. A request waits for
      exactly its reply type; a waiting command's caller is held by its barrier and told nothing
      yet; any other command's caller is told at once that it was written. */
  lemma CommandLeavesItsEntry(h: Download.Hash, a: State, t: Tick)
    requires TransferWf(a) && !t.tooLarge && !t.fatal
    ensures var r := Next(h, a, t); var token := (a.nextToken + 1) % 0x1_0000_0000_0000_0000;
            match t.input
            case DoRequest(expects) =>
              && r.answers == a.answers && r.issued == a.issued + 1
              && r.pending == a.pending + [Reply(Asks(a.issued, expects))]
              && r.out == a.out + [Ask(Asks(a.issued, expects))]
              && r.transfer == a.transfer && r.blocking == a.blocking && r.nextToken == a.nextToken
            case DoCommand(wait) =>
              && r.answers == (if wait then a.answers else a.answers + [Answer(a.issued, Fine)]) && r.issued == a.issued + 1
              && r.pending == a.pending + [Barrier(token, Some(Quiet(Plain, false, if wait then Some(a.issued) else None)))]
              && r.out == a.out + [Tell(token, Plain), Ping(token, if wait then Some(a.issued) else None)]
              && r.transfer == a.transfer && r.blocking == a.blocking && r.nextToken == token
            case DoKeepalive =>
              && r.answers == a.answers && r.issued == a.issued
              && r.pending == a.pending + [Barrier(token, None)] && r.out == a.out + [Ping(token, None)]
              && r.transfer == a.transfer && r.blocking == a.blocking && r.nextToken == token
            case _ => true
  {
    hide TransferWf, Keeps, OnReply, OnAccept, OnError, OnPong, OnTransferEnd, OnData, UploadCanSend;
    hide StartUpload, StartDownload, Cancel, OnBlockingDone, SendNextChunk, AcceptTimedOut;
  }

  /** One that cannot be written leaves none, and its caller is told so at once. */
  lemma UnwrittenCommandIsRefused(h: Download.Hash, a: State, t: Tick)
    requires TransferWf(a) && (t.tooLarge || t.fatal) && (t.input.DoRequest? || t.input.DoCommand?)
    ensures Next(h, a, t) ==
            a.(issued := a.issued + 1, dead := a.dead || !t.tooLarge,
               answers := a.answers + [Answer(a.issued, if t.tooLarge then Locally else Gone)])
  {
    hide TransferWf, Keeps, OnReply, OnAccept, OnError, OnPong, OnTransferEnd, OnData, UploadCanSend;
    hide StartUpload, StartDownload, Cancel, OnBlockingDone, SendNextChunk, AcceptTimedOut;
  }

  // ---- transfers ----------------------------------------------------------------------------

  /** A free client asks for the file under a new generation, which then awaits its accept. */
  lemma DownloadIsAskedFor(h: Download.Hash, a: State, t: Tick)
    requires TransferWf(a) && t.input.DoDownload? && !t.tooLarge && !t.fatal
    ensures var r := Next(h, a, t); var gen := a.nextGen + 1; var i := t.input;
            if a.transfer == None && i.valid then
              && r.transfer == Some(Transfer(gen, a.issued, AwaitingAccept, Fetch(Download.NewJob(i.expectedSize, i.chunk, i.resume))))
              && r.nextGen == gen && r.issued == a.issued + 1 && r.answers == a.answers && r.blocking == a.blocking
              && r.pending == a.pending + [Reply(TransferStart(gen))] && r.out == a.out + [Ask(TransferStart(gen))]
            else r == a.(issued := a.issued + 1, answers := a.answers + [Answer(a.issued, Locally)])
  {
    hide TransferWf, Keeps;
  }

  /** Told about this transfer when it is given up: one whose data may still be on its way. */
  predicate ServerHolds(t: Transfer) {
    if t.job.Upload? then t.stage == Running else t.job.down.accepted && t.stage != Verifying
  }

  function IdOf(t: Transfer): Id {
    if t.job.Upload? then t.job.up.id else t.job.down.id
  }

  /** Ending a transfer answers its caller and, while the connection is open, tells a server that
      holds it, whose late end of it is then known to be stale. */
  lemma GivingUpTellsTheServer(a: State, how: How, fatal: bool)
    requires a.transfer.Some?
    ensures var r := FailTransfer(a, how, fatal); var t := a.transfer.value; var token := NextToken(a);
            && r.transfer == None && r.blocking == None && r.answers == a.answers + [Answer(t.caller, how)]
            && (ServerHolds(t) ==> r.abandoned != [] && r.abandoned[|r.abandoned| - 1] == IdOf(t))
            && (!ServerHolds(t) ==> r.abandoned == a.abandoned && r.dead == a.dead)
            && (if ServerHolds(t) && !a.closing && !fatal
                then r.out == a.out + [Tell(token, Plain), Ping(token, None)]
                     && r.pending == a.pending + [Barrier(token, Some(Quiet(Plain, false, None)))]
                else r.out == a.out && r.pending == a.pending)
            && (ServerHolds(t) && !a.closing && fatal ==> r.dead)
  {
    hide TransferWf;
  }

  /** The sixteen latest ids given up are remembered, in order. */
  lemma LatestAreRemembered(ids: seq<Id>, id: Id)
    requires |ids| <= 16
    ensures var r := Remember(ids, id); var all := ids + [id];
            |r| == (if |all| <= 16 then |all| else 16) && r == all[|all| - |r|..]
  {
  }

  /** A cancel is itself answered, after the caller of the transfer it ends. */
  lemma CancelEndsTheTransfer(h: Download.Hash, a: State, t: Tick)
    requires TransferWf(a) && t.input.DoCancel?
    ensures var r := Next(h, a, t);
            && r.transfer == None && r.issued == a.issued + 1
            && r.answers == a.answers + (if a.transfer.Some? then [Answer(a.transfer.value.caller, Locally)] else []) + [Answer(a.issued, Fine)]
  {
    hide TransferWf, Keeps, OrdinarySend;
  }

  /** An accept of something given up is answered with an abort, and its end will be known. */
  lemma LateAcceptIsAborted(h: Download.Hash, a: State, t: Tick)
    requires TransferWf(a) && t.input.GotAccept? && HeadAwaitsAccept(a) && !t.fatal && !a.closing
    requires !(IsCurrent(a, a.pending[0].waiter.gen) && a.transfer.value.stage == AwaitingAccept)
    ensures var r := Next(h, a, t); var token := NextToken(a);
            && r.transfer == a.transfer && r.answers == a.answers
            && r.abandoned != [] && r.abandoned[|r.abandoned| - 1] == t.input.acc.id
            && r.out == a.out + [Tell(token, Plain), Ping(token, None)]
  {
    hide TransferWf, Keeps;
  }

  /** The accept at the head of the queue is for the transfer that awaits it. */
  predicate Awaited(a: State) {
    && a.transfer.Some? && a.transfer.value.stage == AwaitingAccept
    && a.pending != [] && a.pending[0] == Reply(TransferStart(a.transfer.value.gen))
  }

  /** What an awaited accept makes of a download: it runs; or its partial cannot be opened, which the server
      is not told; or the accept is refused, which it is told, once. */
  lemma AwaitedDownloadAccept(h: Download.Hash, a: State, t: Tick)
    requires TransferWf(a) && Awaited(a) && a.transfer.value.job.Fetch? && t.input.GotAccept? && !t.fatal && !a.closing
    ensures var r := Next(h, a, t); var tr := a.transfer.value; var token := NextToken(a);
            var taken := Download.OnAccept(tr.job.down, t.input.acc);
            if taken.Started? && (tr.job.down.accepted || t.input.canOpen) then
              r == a.(pending := a.pending[1..], transfer := Some(tr.(stage := Running, job := Fetch(taken.job))))
            else
              && r.transfer == None && r.answers == a.answers + [Answer(tr.caller, Locally)]
              && (taken.Started? ==> r.out == a.out && r.pending == a.pending[1..] && r.abandoned == a.abandoned)
              && (!taken.Started? ==>
                    && r.out == a.out + [Tell(token, Plain), Ping(token, None)]
                    && r.pending == a.pending[1..] + [Barrier(token, Some(Quiet(Plain, false, None)))]
                    && r.abandoned == Remember(a.abandoned, t.input.acc.id))
  {
    hide TransferWf, Keeps, Download.OnAccept, Remember, OnUploadAccept, OnDownloadAccept;
    NoWorkYet(a);
    DownloadAccepted(PopFront(a), a.transfer.value, t.input.acc, t.input.canOpen);
  }

  lemma NoWorkYet(a: State)
    requires TransferWf(a) && a.transfer.Some? && a.transfer.value.stage == AwaitingAccept
    ensures a.blocking == None
  {
    hide UploadWf, FetchWf;
  }

  lemma DownloadAccepted(b: State, tr: Transfer, acc: Download.Accept, canOpen: bool)
    requires b.transfer == Some(tr) && tr.job.Fetch? && tr.stage == AwaitingAccept && !b.closing && b.blocking == None
    ensures var r := OnDownloadAccept(b, tr, acc, canOpen, false); var token := NextToken(b);
            var taken := Download.OnAccept(tr.job.down, acc);
            if taken.Started? && (tr.job.down.accepted || canOpen) then
              r == b.(transfer := Some(tr.(stage := Running, job := Fetch(taken.job))))
            else
              && r.transfer == None && r.answers == b.answers + [Answer(tr.caller, Locally)]
              && (taken.Started? ==> r.out == b.out && r.pending == b.pending && r.abandoned == b.abandoned)
              && (!taken.Started? ==>
                    && r.out == b.out + [Tell(token, Plain), Ping(token, None)]
                    && r.pending == b.pending + [Barrier(token, Some(Quiet(Plain, false, None)))]
                    && r.abandoned == Remember(b.abandoned, acc.id))
  {
    hide TransferWf, Keeps, Download.OnAccept, Remember;
    AcceptIds(tr.job.down, acc);
  }

  lemma AcceptIds(job: Download.Job, acc: Download.Accept)
    ensures var r := Download.OnAccept(job, acc); r.job.id == acc.id && (!r.Started? ==> r.job.accepted == job.accepted) && (r.FileChanged? ==> job.accepted)
  {
  }

  /** And of an upload that it does not fit. */
  lemma RefusedUploadAccept(h: Download.Hash, a: State, t: Tick)
    requires TransferWf(a) && Awaited(a) && a.transfer.value.job.Upload? && t.input.GotAccept? && !t.fatal && !a.closing
    requires !Uploads.Acceptable(a.transfer.value.job.up, t.input.acc)
    ensures var r := Next(h, a, t); var token := NextToken(a);
            && r.transfer == None && r.answers == a.answers + [Answer(a.transfer.value.caller, Locally)]
            && r.out == a.out + [Tell(token, Plain), Ping(token, None)]
            && r.abandoned == Remember(a.abandoned, t.input.acc.id)
  {
    hide TransferWf, Keeps, Remember, OnDownloadAccept, GeometryProblem, Resize;
  }

  /** An end of something given up is forgotten, once, and does nothing else. */
  lemma LateEndIsForgotten(h: Download.Hash, a: State, t: Tick)
    requires TransferWf(a) && t.input.GotEnd? && t.input.id in a.abandoned
    ensures var r := Next(h, a, t);
            r == a.(abandoned := r.abandoned) && multiset(r.abandoned) == multiset(a.abandoned) - multiset{t.input.id}
  {
    hide TransferWf, Keeps, RemoveFirst, DownloadEnded, FailTransfer;
    OneForgotten(a.abandoned, t.input.id);
  }

  lemma {:induction false} OneForgotten(ids: seq<Id>, id: Id)
    ensures multiset(RemoveFirst(ids, id)) == multiset(ids) - multiset{id}
  {
    if ids != [] {
      assert ids == [ids[0]] + ids[1..];
      OneForgotten(ids[1..], id);
    }
  }

  // ---- waiting, and being told ----------------------------------------------------------------

  /** How a caller waits: for a reply of one type, or on a barrier. */
  datatype Want = ByReply(expects: ReplyType) | ByBarrier

  predicate HoldsFor(p: Pending, c: Caller, want: Want) {
    match want
    case ByReply(e) => p == Reply(Asks(c, e))
    case ByBarrier => p.Barrier? && p.quiet.Some? && p.quiet.value.reply == Some(c)
  }

  /** The server's decision about what this caller asked. */
  predicate VerdictFor(v: Verdict, c: Caller, want: Want, ok: bool) {
    match want
    case ByReply(e) => v == OfRequest(Asks(c, e), ok)
    case ByBarrier => v.OfBarrier? && v.reply == Some(c) && v.ok == ok
  }

  ghost predicate Waits(s: System, c: Caller, want: Want) {
    exists k :: 0 <= k < |s.client.pending| && HoldsFor(s.client.pending[k], c, want)
  }

  ghost predicate Heard(s: System, c: Caller, want: Want, ok: bool) {
    && Answer(c, HowOf(ok)) in s.client.answers
    && exists k :: 0 <= k < |s.heard| && VerdictFor(s.heard[k], c, want, ok)
  }

  /** The caller waits, or heard what the server decided. */
  ghost predicate Attended(s: System, c: Caller, want: Want) {
    Correlated(s) && Accounted(s.client) && (Waits(s, c, want) || Heard(s, c, want, true) || Heard(s, c, want, false))
  }

  /** More was queued, answered or heard, and nothing was taken. */
  lemma StaysAttended(s: System, t: System, c: Caller, want: Want)
    requires Correlated(t) && Accounted(t.client)
    requires s.client.answers <= t.client.answers && s.heard <= t.heard
    requires Waits(s, c, want) ==> Waits(t, c, want)
    requires Attended(s, c, want)
    ensures Attended(t, c, want)
  {
    hide Correlated, Accounted, VerdictFor;
    forall ok | Heard(s, c, want, ok) ensures Heard(t, c, want, ok) {
      var k :| 0 <= k < |s.heard| && VerdictFor(s.heard[k], c, want, ok);
      assert t.heard[k] == s.heard[k];
      assert Answer(c, HowOf(ok)) in t.client.answers;
    }
  }

  lemma KeptWaiting(s: System, t: System, c: Caller, want: Want)
    requires |s.client.pending| <= |t.client.pending|
    requires forall k :: 0 <= k < |s.client.pending| && HoldsFor(s.client.pending[k], c, want) ==> HoldsFor(t.client.pending[k], c, want)
    ensures Waits(s, c, want) ==> Waits(t, c, want)
  {
    if Waits(s, c, want) {
      var k :| 0 <= k < |s.client.pending| && HoldsFor(s.client.pending[k], c, want);
      assert HoldsFor(t.client.pending[k], c, want);
    }
  }

  lemma Appends(b: State, r: State)
    requires AtMostOne(b, r)
    ensures b.pending <= r.pending
  {
  }

  lemma ActKeeps(h: Download.Hash, s: System, i: Input, tooLarge: bool, fatal: bool, c: Caller, want: Want)
    requires Attended(s, c, want) && Legal(s, ClientActs(i, tooLarge, fatal))
    ensures TransferWf(s.client) && Attended(Advance(h, s, ClientActs(i, tooLarge, fatal)), c, want)
  {
    hide Correlated, Accounted, TransferWf, Next, HoldsFor, AtMostOne, OrdinarySend, Attended;
    AttendedParts(s, c, want);
    Wf(s);
    var step := ClientActs(i, tooLarge, fatal);
    var t := Advance(h, s, step);
    var tick := Tick(i, tooLarge, fatal);
    StepKeeps(h, s, step);
    ActorDownloads.TurnAccounted(h, s.client, tick);
    AnswersGrow(h, s.client, tick);
    TurnQueue(h, s.client, tick);
    Appends(s.client.(pending := Consumed(s.client, i)), t.client);
    KeptWaiting(s, t, c, want);
    StaysAttended(s, t, c, want);
  }

  lemma AttendedParts(s: System, c: Caller, want: Want)
    requires Attended(s, c, want)
    ensures Correlated(s) && Accounted(s.client)
  {
  }

  /** An answer for the head: if the caller waits there, that is what it is told. */
  lemma HeadHears(h: Download.Hash, s: System, local: bool, tooLarge: bool, fatal: bool, c: Caller, want: Want)
    requires Correlated(s) && s.toClient != [] && (s.toClient[0].Granted? || s.toClient[0].Refused? || s.toClient[0].Pong?)
    requires s.client.pending != [] && HoldsFor(s.client.pending[0], c, want)
    ensures TransferWf(s.client)
    ensures var t := ClientTurn(h, s, local, tooLarge, fatal); Heard(t, c, want, true) || Heard(t, c, want, false)
  {
    hide TransferWf, Next, Matches, Line, Verdicts, RemarkedAfter;
    Wf(s);
    LineHead(s);
    var i := InputOf(s.toClient[0], local);
    var t := ClientTurn(h, s, local, tooLarge, fatal);
    HeadTold(h, s.client, i, tooLarge, fatal);
    var v := Concludes(s.client.pending, i)[0];
    assert t.heard[|s.heard|] == v && VerdictFor(v, c, want, v.ok);
    assert t.client.answers[|s.client.answers|] == Answer(c, HowOf(v.ok));
  }

  lemma ReadKeeps(h: Download.Hash, s: System, local: bool, tooLarge: bool, fatal: bool, c: Caller, want: Want)
    requires Attended(s, c, want) && Legal(s, ClientReads(local, tooLarge, fatal))
    ensures TransferWf(s.client) && Attended(ClientTurn(h, s, local, tooLarge, fatal), c, want)
  {
    hide Correlated, Accounted, TransferWf, Next, AtMostOne, OrdinarySend, Attended, EndPops, Heard, Waits;
    AttendedParts(s, c, want);
    Wf(s);
    var i := InputOf(s.toClient[0], local);
    var tick := Tick(i, tooLarge, fatal);
    var t := ClientTurn(h, s, local, tooLarge, fatal);
    StepKeeps(h, s, ClientReads(local, tooLarge, fatal));
    ActorDownloads.TurnAccounted(h, s.client, tick);
    AnswersGrow(h, s.client, tick);
    TurnQueue(h, s.client, tick);
    Appends(s.client.(pending := Consumed(s.client, i)), t.client);
    LineHead(s);
    if (s.toClient[0].Granted? || s.toClient[0].Refused? || s.toClient[0].Pong?) && HoldsFor(s.client.pending[0], c, want) {
      HeadHears(h, s, local, tooLarge, fatal, c, want);
      NowAttended(t, c, want);
    } else {
      StillHeld(s, t, i, c, want);
      StaysAttended(s, t, c, want);
    }
  }

  lemma NowAttended(t: System, c: Caller, want: Want)
    requires Correlated(t) && Accounted(t.client) && (Heard(t, c, want, true) || Heard(t, c, want, false))
    ensures Attended(t, c, want)
  {
  }

  /** The head goes, or is marked, but the caller is not there or stays there. */
  lemma StillHeld(s: System, t: System, i: Input, c: Caller, want: Want)
    requires Consumed(s.client, i) <= t.client.pending
    requires s.client.pending != [] && Consumed(s.client, i) == s.client.pending[1..] ==> !HoldsFor(s.client.pending[0], c, want)
    requires i.GotError? && s.client.pending != [] ==> s.client.pending[0].Reply? ==> !HoldsFor(s.client.pending[0], c, want)
    ensures Waits(s, c, want) ==> Waits(t, c, want)
  {
    hide EndPops, HeadAsks, HeadAwaitsAccept;
    if Waits(s, c, want) {
      var k :| 0 <= k < |s.client.pending| && HoldsFor(s.client.pending[k], c, want);
      var kept := Consumed(s.client, i);
      var j := if kept == s.client.pending[1..] then k - 1 else k;
      assert HoldsFor(kept[j], c, want);
      assert t.client.pending[j] == kept[j];
    }
  }

  lemma StepAttends(h: Download.Hash, s: System, step: Step, c: Caller, want: Want)
    requires Attended(s, c, want) && Legal(s, step)
    ensures TransferWf(s.client) && Attended(Advance(h, s, step), c, want)
  {
    hide Correlated, Accounted, TransferWf, Next, Attended;
    AttendedParts(s, c, want);
    Wf(s);
    match step
    case ClientActs(i, tooLarge, fatal) => ActKeeps(h, s, i, tooLarge, fatal, c, want);
    case ClientReads(local, tooLarge, fatal) => ReadKeeps(h, s, local, tooLarge, fatal, c, want);
    case _ =>
      StepKeeps(h, s, step);
      StaysAttended(s, Advance(h, s, step), c, want);
  }

  lemma {:induction false} RunAttends(h: Download.Hash, s: System, steps: seq<Step>, c: Caller, want: Want)
    requires Attended(s, c, want) && TransferWf(s.client) && LegalRun(h, s, steps)
    ensures Attended(After(h, s, steps), c, want)
    decreases |steps|
  {
    hide Attended, Advance, Legal, TransferWf;
    if steps != [] {
      StepAttends(h, s, steps[0], c, want);
      RunAttends(h, Advance(h, s, steps[0]), steps[1..], c, want);
    }
  }

  // ---- told once, and by the server ------------------------------------------------------------

  lemma {:induction false} AnswerCounts(answers: seq<Answer>, x: Answer)
    requires x in answers
    ensures AnsweredIn(answers, x.caller) >= 1
    decreases |answers|
  {
    var init, last := answers[..|answers| - 1], answers[|answers| - 1];
    assert answers == init + [last];
    if last != x {
      AnswerCounts(init, x);
    }
  }

  lemma {:induction false} TwoAnswersCount(answers: seq<Answer>, x: Answer, y: Answer)
    requires x in answers && y in answers && x != y && x.caller == y.caller
    ensures AnsweredIn(answers, x.caller) >= 2
    decreases |answers|
  {
    var init, last := answers[..|answers| - 1], answers[|answers| - 1];
    assert answers == init + [last];
    if last == x {
      AnswerCounts(init, y);
    } else if last == y {
      AnswerCounts(init, x);
    } else {
      TwoAnswersCount(init, x, y);
    }
  }

  lemma {:induction false} WaitingCounts(ps: seq<Pending>, k: nat, c: Caller, want: Want)
    requires k < |ps| && HoldsFor(ps[k], c, want)
    ensures WaitingIn(ps, c) >= 1
    decreases k
  {
    if k > 0 {
      WaitingCounts(ps[1..], k - 1, c, want);
    }
  }

  /** Who is attended is told at most one thing, and only what the server decided. */
  lemma ToldByServer(s: System, c: Caller, want: Want, how: How)
    requires Attended(s, c, want) && Answer(c, how) in s.client.answers
    ensures how == Fine || how == ServerSaid
    ensures Heard(s, c, want, how == Fine)
  {
    hide Correlated, Heard;
    assert Owned(s.client, c) <= 1;
    AnswerCounts(s.client.answers, Answer(c, how));
    if Waits(s, c, want) {
      var k :| 0 <= k < |s.client.pending| && HoldsFor(s.client.pending[k], c, want);
      WaitingCounts(s.client.pending, k, c, want);
    }
    forall ok | Heard(s, c, want, ok) ensures how == HowOf(ok) {
      HeardAnswer(s, c, want, ok);
      if how != HowOf(ok) {
        TwoAnswersCount(s.client.answers, Answer(c, how), Answer(c, HowOf(ok)));
      }
    }
  }

  lemma HeardAnswer(s: System, c: Caller, want: Want, ok: bool)
    requires Heard(s, c, want, ok)
    ensures Answer(c, HowOf(ok)) in s.client.answers
  {
  }

  lemma {:induction false} RunsSplit(h: Download.Hash, s: System, xs: seq<Step>, ys: seq<Step>)
    requires TransferWf(s.client) && LegalRun(h, s, xs + ys)
    ensures LegalRun(h, s, xs) && LegalRun(h, After(h, s, xs), ys)
    ensures After(h, s, xs + ys) == After(h, After(h, s, xs), ys)
    decreases |xs|
  {
    hide Advance, Legal, TransferWf;
    if xs == [] {
      assert xs + ys == ys;
    } else {
      assert (xs + ys)[1..] == xs[1..] + ys;
      RunsSplit(h, Advance(h, s, xs[0]), xs[1..], ys);
    }
  }

  predicate Waiting(i: Input) {
    i.DoRequest? || i == DoCommand(true)
  }

  function WantOf(i: Input): Want {
    if i.DoRequest? then ByReply(i.expects) else ByBarrier
  }

  lemma CommandWaits(h: Download.Hash, s: System, i: Input)
    requires Correlated(s) && Accounted(s.client) && Waiting(i) && !s.client.dead
    ensures TransferWf(s.client)
    ensures Attended(Advance(h, s, ClientActs(i, false, false)), s.client.issued, WantOf(i))
  {
    hide Correlated, Accounted, TransferWf, Next;
    Wf(s);
    var t := Advance(h, s, ClientActs(i, false, false));
    StepKeeps(h, s, ClientActs(i, false, false));
    ActorDownloads.TurnAccounted(h, s.client, Tick(i, false, false));
    CommandLeavesItsEntry(h, s.client, Tick(i, false, false));
    assert HoldsFor(t.client.pending[|s.client.pending|], s.client.issued, WantOf(i));
  }

  lemma {:induction false} RunsAccount(h: Download.Hash, s: System, steps: seq<Step>)
    requires Correlated(s) && Accounted(s.client) && TransferWf(s.client) && LegalRun(h, s, steps)
    ensures Accounted(After(h, s, steps).client)
    decreases |steps|
  {
    hide Correlated, Accounted, TransferWf, Next, Legal;
    if steps != [] {
      Wf(s);
      StepKeeps(h, s, steps[0]);
      match steps[0] {
        case ClientActs(i, tooLarge, fatal) => ActorDownloads.TurnAccounted(h, s.client, Tick(i, tooLarge, fatal));
        case ClientReads(local, tooLarge, fatal) => ReadAccounts(h, s, local, tooLarge, fatal);
        case _ =>
      }
      RunsAccount(h, Advance(h, s, steps[0]), steps[1..]);
    }
  }

  lemma ReadAccounts(h: Download.Hash, s: System, local: bool, tooLarge: bool, fatal: bool)
    requires TransferWf(s.client) && Accounted(s.client) && Legal(s, ClientReads(local, tooLarge, fatal))
    ensures Accounted(ClientTurn(h, s, local, tooLarge, fatal).client)
  {
    hide Accounted, TransferWf, Next;
    ActorDownloads.TurnAccounted(h, s.client, Tick(InputOf(s.toClient[0], local), tooLarge, fatal));
  }

  /** Over every run of client and server, for every request and every command whose caller waits:
      the caller is told nothing but the server's decision about that very command, so success only
      if the server decided for it and refusal only if against; it is told once; and until it is
      told, its entry is in the queue. */
  lemma WaitingCallersHearOnlyTheServer(h: Download.Hash, before: seq<Step>, i: Input, after: seq<Step>, how: How)
    requires TransferWf(Connected.client) && LegalRun(h, Connected, before + ([ClientActs(i, false, false)] + after)) && Waiting(i)
    ensures LegalRun(h, Connected, before)
    ensures var c := After(h, Connected, before).client.issued;
            var s := After(h, Connected, before + ([ClientActs(i, false, false)] + after));
            && AnsweredIn(s.client.answers, c) <= 1
            && (Answer(c, how) in s.client.answers ==>
                  && (how == Fine || how == ServerSaid)
                  && exists k :: 0 <= k < |s.decided| && VerdictFor(s.decided[k], c, WantOf(i), how == Fine))
            && (AnsweredIn(s.client.answers, c) == 0 ==> Waits(s, c, WantOf(i)))
  {
    hide LegalRun, After, Next, TransferWf, Correlated, Attended, Accounted, AnsweredIn, Waits;
    var act := ClientActs(i, false, false);
    RunsSplit(h, Connected, before, [act] + after);
    var s0 := After(h, Connected, before);
    var c := s0.client.issued;
    assert Correlated(Connected) && Accounted(Connected.client) by { ConnectedAccounted(); }
    RunsStayCorrelated(h, Connected, before);
    RunsAccount(h, Connected, before);
    RunsSplit(h, s0, [act], after);
    assert LegalRun(h, s0, [act]) && Legal(s0, act) by { FirstLegal(h, s0, [act]); }
    ServerContract.OneStep(h, s0, act);
    CommandWaits(h, s0, i);
    var s1 := Advance(h, s0, act);
    RunAttends(h, s1, after, c, WantOf(i));
    var s := After(h, s1, after);
    Conclusion(s, c, WantOf(i), how);
  }

  lemma FirstLegal(h: Download.Hash, s: System, steps: seq<Step>)
    requires TransferWf(s.client) && LegalRun(h, s, steps) && steps != []
    ensures Legal(s, steps[0])
  {
  }

  lemma ConnectedAccounted()
    ensures Correlated(Connected) && Accounted(Connected.client)
  {
  }

  lemma Conclusion(s: System, c: Caller, want: Want, how: How)
    requires Attended(s, c, want)
    ensures AnsweredIn(s.client.answers, c) <= 1
    ensures Answer(c, how) in s.client.answers ==>
              && (how == Fine || how == ServerSaid)
              && exists k :: 0 <= k < |s.decided| && VerdictFor(s.decided[k], c, want, how == Fine)
    ensures AnsweredIn(s.client.answers, c) == 0 ==> Waits(s, c, want)
  {
    hide Waits, AnsweredIn, Matches, Line, Verdicts, RemarkedAfter, VerdictFor, TransferWf;
    assert Owned(s.client, c) <= 1;
    if Answer(c, how) in s.client.answers {
      ToldByServer(s, c, want, how);
      var k :| 0 <= k < |s.heard| && VerdictFor(s.heard[k], c, want, how == Fine);
      assert s.decided[k] == s.heard[k];
    }
    forall ok | Heard(s, c, want, ok) ensures AnsweredIn(s.client.answers, c) >= 1 {
      AnswerCounts(s.client.answers, Answer(c, HowOf(ok)));
    }
  }
}
