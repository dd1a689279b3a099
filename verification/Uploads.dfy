/**
 * An upload from its preparation to its end: what the accept makes the client skip, what is
 * sent by the time nothing is left to send, that the sender is never stuck, and exactly
 * which turns end an upload.
 */
module Uploads {
  import opened Options
  import opened Chunks
  import opened Actor
  import opened ActorRuns
  import opened ActorTransfers
  import ActorDownloads
  import Download

  // ---- from the command to the request ---------------------------------------------------------

  /** A free client takes an upload on: a new generation, whose file is prepared off the loop. */
  lemma UploadStarts(h: Download.Hash, a: State, t: Tick)
    requires TransferWf(a) && t.input.DoUpload?
    ensures Next(h, a, t) ==
            if a.transfer == None && t.input.valid then
              a.(issued := a.issued + 1, nextGen := a.nextGen + 1, blocking := Some(UploadPrep(a.nextGen + 1)),
                 transfer := Some(Transfer(a.nextGen + 1, a.issued, Preparing, Upload(NewUpload))))
            else a.(issued := a.issued + 1, answers := a.answers + [Answer(a.issued, Locally)])
  {
    hide TransferWf, Keeps;
  }

  /** The prepared upload is asked for, with its size and a chunk size that suits it. */
  lemma PreparedUploadIsAskedFor(h: Download.Hash, a: State, t: Tick)
    requires TransferWf(a) && a.transfer.Some? && a.transfer.value.job.Upload? && a.blocking.Some?
    requires t.input.WorkDone? && t.input.done.Prepared? && !t.tooLarge && !t.fatal
    ensures var r := Next(h, a, t); var tr := a.transfer.value; var size := t.input.done.size;
            && r.pending == a.pending + [Reply(TransferStart(tr.gen))] && r.out == a.out + [Ask(TransferStart(tr.gen))]
            && r.answers == a.answers && r.blocking == None
            && r.transfer == Some(Transfer(tr.gen, tr.caller, AwaitingAccept, Upload(tr.job.up.(size := size, chunkSize := ChunkSizeFor(size)))))
  {
    hide UploadWf, FetchWf, Keeps, ChunkSizeFor, OrdinarySend;
  }

  // ---- the accept ------------------------------------------------------------------------------

  /** The accept at the head of the queue is for the upload that awaits it. */
  predicate AwaitsAccept(a: State) {
    && a.transfer.Some? && a.transfer.value.job.Upload? && a.transfer.value.stage == AwaitingAccept
    && a.pending != [] && a.pending[0] == Reply(TransferStart(a.transfer.value.gen))
  }

  predicate Acceptable(u: UploadJob, acc: Download.Accept) {
    GeometryProblem(true, u.chunkSize, acc.chunkSize, acc.total, acc.size, acc.bitmapLen) == None && acc.size == u.size
  }

  predicate BitSet(bits: seq<bool>, i: nat) {
    i < |bits| && bits[i]
  }

  /** The upload starts at its first chunk with an empty window, and skips exactly the chunks whose bit
      the server set. */
  predicate StartsFrom(u: UploadJob, v: UploadJob, acc: Download.Accept) {
    && v.id == acc.id && v.total == acc.total && v.size == u.size && v.chunkSize == u.chunkSize
    && v.next == 0 && v.inFlight == 0
    && |v.skip| == |v.done| == acc.total as int
    && forall i: nat :: i < acc.total as int ==> (v.skip[i] <==> BitSet(acc.haveBits, i)) && (v.done[i] <==> BitSet(acc.haveBits, i))
  }

  lemma AcceptedUploadSkipsWhatTheServerHas(h: Download.Hash, a: State, t: Tick)
    requires TransferWf(a) && AwaitsAccept(a) && t.input.GotAccept? && Acceptable(a.transfer.value.job.up, t.input.acc)
    ensures var r := Next(h, a, t); var tr := a.transfer.value;
            && r.transfer.Some? && r.transfer.value.job.Upload?
            && r == a.(pending := a.pending[1..], transfer := Some(tr.(stage := Running, job := r.transfer.value.job)))
            && StartsFrom(tr.job.up, r.transfer.value.job.up, t.input.acc)
  {
    hide UploadWf, FetchWf, Keeps, GeometryProblem, Download.Falses;
    ResizedBits(t.input.acc.haveBits, t.input.acc.total);
  }

  lemma ResizedBits(bits: seq<bool>, n: nat)
    ensures |Resize(bits, n)| == n && forall i :: 0 <= i < n ==> (Resize(bits, n)[i] <==> BitSet(bits, i))
  {
  }

  // ---- the plan does not change ----------------------------------------------------------------

  predicate SamePlan(u: UploadJob, v: UploadJob) {
    v.id == u.id && v.size == u.size && v.chunkSize == u.chunkSize && v.total == u.total && v.skip == u.skip && v.next >= u.next
  }

  /** The running upload is still the same one, or over. */
  predicate GoesOnSame(a: State, r: State)
    requires a.transfer.Some? && a.transfer.value.job.Upload?
  {
    r.transfer.Some? ==>
      && r.transfer.value.gen == a.transfer.value.gen && Uploading(r.transfer.value)
      && SamePlan(a.transfer.value.job.up, r.transfer.value.job.up)
  }

  lemma RunningStays(h: Download.Hash, a: State, t: Tick)
    requires TransferWf(a) && a.transfer.Some? && Uploading(a.transfer.value)
    ensures GoesOnSame(a, Next(h, a, t))
  {
    hide TransferWf, Next, OnPong, SendNextChunk, UploadCanSend, NextMissing;
    match t.input
    case GotPong => NextPong(h, a, t); PongSamePlan(a);
    case ChunkTurn(readable) =>
      NextChunkTurn(h, a, t);
      if UploadCanSend(a) {
        SenderTurns(a, readable, t.tooLarge, t.fatal);
        SentSamePlan(a, readable, t.tooLarge, t.fatal);
      }
    case _ => TurnEvolves(h, a, t);
  }

  lemma PongSamePlan(a: State)
    requires a.transfer.Some? && Uploading(a.transfer.value)
    ensures GoesOnSame(a, OnPong(a))
  {
    hide Keeps;
  }

  lemma SentSamePlan(a: State, readable: bool, tooLarge: bool, fatal: bool)
    requires TransferWf(a) && UploadCanSend(a)
    ensures GoesOnSame(a, SendNextChunk(a, readable, tooLarge, fatal))
  {
    hide FailTransfer, SendQuiet, ChunkLen, Keeps, TotalChunks;
  }

  lemma {:induction false} PlanStays(h: Download.Hash, a: State, ticks: seq<Tick>)
    requires TransferWf(a) && a.transfer.Some? && Uploading(a.transfer.value) && a.transfer.value.gen <= a.nextGen
    ensures var r := Run(h, a, ticks); var g := a.transfer.value.gen;
            IsCurrent(r, g) ==> Uploading(r.transfer.value) && SamePlan(a.transfer.value.job.up, r.transfer.value.job.up)
    decreases |ticks|
  {
    hide Next, TransferWf;
    if ticks != [] && !a.dead {
      var b := Next(h, a, ticks[0]);
      RunningStays(h, a, ticks[0]);
      GenStep(h, a, ticks[0]);
      if IsCurrent(b, a.transfer.value.gen) {
        PlanStays(h, b, ticks[1..]);
      } else {
        EndedStaysEnded(h, b, ticks[1..], a.transfer.value.gen);
      }
    }
  }

  // ---- what is sent -------------------------------------------------------------------------------

  predicate IsChunkOf(p: Piece, size: nat, chunkSize: nat, total: nat)
    requires chunkSize > 0
  {
    p == Piece(p.index, ChunkLen(size, chunkSize, p.index, total), false)
  }

  /** Some client run in which an upload is accepted and later has nothing left to send. */
  ghost predicate SentAll(h: Download.Hash, before: seq<Tick>, t: Tick, after: seq<Tick>) {
    && TransferWf(Start) && var a := Run(h, Start, before);
    && !a.dead && AwaitsAccept(a) && t.input.GotAccept? && Acceptable(a.transfer.value.job.up, t.input.acc)
    && var end := Run(h, Start, before + ([t] + after)); var g := a.transfer.value.gen;
    && !end.dead && IsCurrent(end, g) && end.transfer.value.job.Upload?
    && end.transfer.value.job.up.next == end.transfer.value.job.up.total
  }

  lemma EndOfUpload(h: Download.Hash, before: seq<Tick>, t: Tick, after: seq<Tick>)
    requires SentAll(h, before, t, after)
    ensures var a := Run(h, Start, before); var end := Run(h, Start, before + ([t] + after));
            var u, v := a.transfer.value.job.up, end.transfer.value.job.up;
            && Uploading(end.transfer.value) && v.size == u.size && v.chunkSize == u.chunkSize && v.total == t.input.acc.total
            && Geometry(u.size, u.chunkSize, v.total)
            && |v.skip| == v.total && forall i: nat :: i < v.total ==> (v.skip[i] <==> BitSet(t.input.acc.haveBits, i))
  {
    hide Next, TransferWf, Run, StartsFrom, GeometryProblem;
    var a := Run(h, Start, before);
    var b := Next(h, a, t);
    AcceptedUploadSkipsWhatTheServerHas(h, a, t);
    ActorDownloads.RunSplits(h, Start, before, [t] + after);
    assert ([t] + after)[1..] == after;
    RunOne(h, a, t, after);
    CurrentGen(b);
    assert Uploading(b.transfer.value);
    PlanStays(h, b, after);
    Started(a.transfer.value.job.up, b.transfer.value.job.up, t.input.acc);
    RunningWf(Run(h, b, after));
  }

  lemma RunOne(h: Download.Hash, a: State, t: Tick, after: seq<Tick>)
    requires TransferWf(a) && !a.dead
    ensures Run(h, a, [t] + after) == Run(h, Next(h, a, t), after)
  {
    hide Next, TransferWf;
    assert ([t] + after)[1..] == after;
  }

  lemma Started(u: UploadJob, v: UploadJob, acc: Download.Accept)
    requires StartsFrom(u, v, acc)
    ensures v.size == u.size && v.chunkSize == u.chunkSize && v.total == acc.total && |v.skip| == v.total
    ensures forall i: nat :: i < v.total ==> (v.skip[i] <==> BitSet(acc.haveBits, i))
  {
  }

  lemma RunningWf(a: State)
    requires TransferWf(a)
    ensures a.transfer.Some? && Uploading(a.transfer.value) ==>
              Geometry(a.transfer.value.job.up.size, a.transfer.value.job.up.chunkSize, a.transfer.value.job.up.total)
  {
    hide Geometry;
  }

  /** When nothing is left to send, what was sent is exactly the chunks whose bit the accept left
      clear, each whole, and in increasing order, so each once. */
  lemma UploadSendsExactlyWhatIsMissing(h: Download.Hash, before: seq<Tick>, t: Tick, after: seq<Tick>, p: Piece, j: nat, k: nat)
    requires SentAll(h, before, t, after)
    ensures var a := Run(h, Start, before); var u := a.transfer.value.job.up;
            var sent := SentIn(Run(h, Start, before + ([t] + after)).out, a.transfer.value.gen);
            && u.chunkSize > 0
            && (p in sent <==> p.index < t.input.acc.total as int && !BitSet(t.input.acc.haveBits, p.index)
                               && IsChunkOf(p, u.size, u.chunkSize, t.input.acc.total))
            && (j < k < |sent| ==> sent[j].index < sent[k].index)
  {
    hide Run, Next, TransferWf, Missing, SentIn, Queued, ChunkLen, GeometryProblem, TotalChunks;
    var end := Run(h, Start, before + ([t] + after));
    EndOfUpload(h, before, t, after);
    UploadWindowAndCoverage(h, before + ([t] + after));
    var v := end.transfer.value.job.up;
    var lo :| LedgerAt(end.pending, end.out, end.transfer.value.gen, v, lo);
    MissingIsComplement(PlanOf(v), 0, v.total, p);
    MissingIncreases(PlanOf(v), 0, v.total, j, k);
  }

  /** In particular, if the server had nothing, every byte of the file was sent. */
  lemma FreshUploadSendsEveryByte(h: Download.Hash, before: seq<Tick>, t: Tick, after: seq<Tick>, pos: nat)
    requires SentAll(h, before, t, after)
    requires forall i: nat :: !BitSet(t.input.acc.haveBits, i)
    requires pos < Run(h, Start, before).transfer.value.job.up.size
    ensures var a := Run(h, Start, before); var u := a.transfer.value.job.up;
            exists p :: p in SentIn(Run(h, Start, before + ([t] + after)).out, a.transfer.value.gen) &&
                        p.index * u.chunkSize <= pos < p.index * u.chunkSize + p.len
  {
    hide Run, Next, TransferWf, SentIn, GeometryProblem, ChunkLen, TotalChunks, Cell;
    var u := Run(h, Start, before).transfer.value.job.up;
    var total := t.input.acc.total;
    EndOfUpload(h, before, t, after);
    var c := Cell(pos, u.chunkSize);
    ChunksTile(u.size, u.chunkSize, total, pos, c);
    var p := Piece(c, ChunkLen(u.size, u.chunkSize, c, total), false);
    UploadSendsExactlyWhatIsMissing(h, before, t, after, p, 0, 0);
  }

  // ---- the sender ------------------------------------------------------------------------------------

  /** A sender's turn with a readable file sends the next missing chunk whole, with its barrier, or
      finds that nothing is missing any more. */
  lemma SenderSends(h: Download.Hash, a: State, t: Tick)
    requires TransferWf(a) && UploadCanSend(a) && t.input == ChunkTurn(true) && !t.tooLarge && !t.fatal
    ensures var r := Next(h, a, t); var tr := a.transfer.value; var u := tr.job.up; var token := NextToken(a);
            && r.transfer.Some? && r.transfer.value.job.Upload? && r.answers == a.answers
            && var v := r.transfer.value.job.up;
            && r.transfer == Some(tr.(job := Upload(u.(next := v.next, inFlight := v.inFlight))))
            && u.next <= v.next <= u.total
            && (if forall i :: u.next <= i < u.total ==> u.skip[i]
                then r.out == a.out && r.pending == a.pending && v.next == u.total && v.inFlight == u.inFlight
                else
                  && v.next > u.next && !u.skip[v.next - 1] && (forall i :: u.next <= i < v.next - 1 ==> u.skip[i])
                  && var kind := UploadChunk(tr.gen, ChunkLen(u.size, u.chunkSize, v.next - 1, u.total), v.next - 1);
                  && r.out == a.out + [Tell(token, kind), Ping(token, None)]
                  && r.pending == a.pending + [Barrier(token, Some(Quiet(kind, false, None)))]
                  && v.inFlight == u.inFlight + kind.len)
  {
    hide Next, TransferWf, ChunkLen, SendNextChunk, SendQuiet, NextMissing;
    NextChunkTurn(h, a, t);
    ChunkWritten(a);
    var u := a.transfer.value.job.up;
    var index := NextMissing(u.skip, u.next);
    assert index < u.total ==> !u.skip[index];
  }

  lemma ChunkWritten(a: State)
    requires TransferWf(a) && UploadCanSend(a)
    ensures var r := SendNextChunk(a, true, false, false); var tr := a.transfer.value; var u := tr.job.up;
            && u.chunkSize > 0 && u.next <= u.total == |u.skip|
            && var index := NextMissing(u.skip, u.next);
            r == if index >= u.total then a.(transfer := Some(tr.(job := Upload(u.(next := index)))))
                 else
                   var len := ChunkLen(u.size, u.chunkSize, index, u.total);
                   SendQuiet(a.(transfer := Some(tr.(job := Upload(u.(next := index + 1, inFlight := u.inFlight + len))))),
                             UploadChunk(tr.gen, len, index), None)
  {
    hide FailTransfer, SendQuiet, ChunkLen, Keeps, TotalChunks, FetchWf, NextMissing;
  }

  /** The sender is never stuck: with something left and nothing of this upload on its way, it may
      send; and it sends only if one more chunk fits the window beside what is on its way. */
  lemma SenderIsNeverStuck(h: Download.Hash, ticks: seq<Tick>)
    ensures TransferWf(Start)
    ensures var a := Run(h, Start, ticks);
            !a.dead && a.transfer.Some? && Uploading(a.transfer.value) ==>
              var g, u := a.transfer.value.gen, a.transfer.value.job.up;
              && (u.next < u.total && Queued(a.pending, g) == [] ==> UploadCanSend(a))
              && (u.next < u.total && Total(Queued(a.pending, g)) + u.chunkSize <= 4 * 1024 * 1024 ==> UploadCanSend(a))
              && (UploadCanSend(a) ==> u.next < u.total && (Total(Queued(a.pending, g)) == 0 || Total(Queued(a.pending, g)) + u.chunkSize <= 4 * 1024 * 1024))
  {
    hide Run, LedgerAt, Queued;
    UploadWindowAndCoverage(h, ticks);
  }

  // ---- how an upload ends ----------------------------------------------------------------------------

  /** Exactly what ends the current upload in a turn. */
  predicate EndsUpload(a: State, t: Tick)
    requires a.transfer.Some? && a.transfer.value.job.Upload?
  {
    var tr := a.transfer.value;
    var u := tr.job.up;
    match t.input
    case DoCancel => true
    case AcceptTimeout => tr.stage == AwaitingAccept
    case GotError => ActorDownloads.ErrorHits(a, tr.gen)
    case GotAccept(acc, _) => AwaitsAccept(a) && !Acceptable(u, acc)
    case GotEnd(id, _, _) => id !in a.abandoned && (tr.stage == AwaitingAccept || (tr.stage == Running && id == u.id))
    case WorkDone(done) => a.blocking.Some? && (!done.Prepared? || t.tooLarge)
    case ChunkTurn(readable) =>
      tr.stage == Running && UploadCanSend(a) && (!readable || t.tooLarge) && exists i :: u.next <= i < |u.skip| && !u.skip[i]
    case _ => false
  }

  /** It ends, or is still there. */
  predicate Decides(a: State, t: Tick, r: State)
    requires a.transfer.Some? && a.transfer.value.job.Upload?
  {
    && (r.transfer == None <==> EndsUpload(a, t))
    && (r.transfer.Some? ==> r.transfer.value.job.Upload? && r.transfer.value.gen == a.transfer.value.gen && r.transfer.value.caller == a.transfer.value.caller)
  }

  lemma PlainDecides(a: State, t: Tick, r: State)
    requires a.transfer.Some? && a.transfer.value.job.Upload? && r.transfer == a.transfer && !EndsUpload(a, t)
    ensures Decides(a, t, r)
  {
  }

  lemma ErrorDecides(a: State, t: Tick)
    requires TransferWf(a) && a.transfer.Some? && a.transfer.value.job.Upload? && t.input.GotError?
    ensures Decides(a, t, OnError(a, t.fatal))
  {
    hide FailTransfer, Keeps, UploadWf, FetchWf;
  }

  lemma PongDecides(a: State, t: Tick)
    requires a.transfer.Some? && a.transfer.value.job.Upload? && t.input.GotPong?
    ensures Decides(a, t, OnPong(a))
  {
    hide Keeps;
  }

  lemma AcceptDecides(a: State, t: Tick)
    requires a.transfer.Some? && a.transfer.value.job.Upload? && t.input.GotAccept?
    ensures Decides(a, t, OnAccept(a, t.input.acc, t.input.canOpen, t.fatal))
  {
    hide FailTransfer, SendAbort, Keeps, GeometryProblem, Resize, TransferWf;
  }

  lemma EndDecides(a: State, t: Tick)
    requires TransferWf(a) && a.transfer.Some? && a.transfer.value.job.Upload? && t.input.GotEnd?
    ensures Decides(a, t, OnTransferEnd(a, t.input.id, t.input.verified, t.input.flushed, t.tooLarge, t.fatal))
  {
    hide FailTransfer, DownloadEnded, Keeps, RemoveFirst, UploadWf, FetchWf;
  }

  lemma WorkDecides(a: State, t: Tick)
    requires TransferWf(a) && a.transfer.Some? && a.transfer.value.job.Upload? && t.input.WorkDone? && a.blocking.Some?
    ensures Decides(a, t, OnBlockingDone(a, t.input.done, t.tooLarge, t.fatal))
  {
    hide FailTransfer, SendRequest, Keeps, UploadWf, FetchWf, ChunkSizeFor, OrdinarySend;
  }

  lemma ChunkDecides(a: State, t: Tick)
    requires TransferWf(a) && UploadCanSend(a) && t.input.ChunkTurn?
    ensures Decides(a, t, SendNextChunk(a, t.input.readable, t.tooLarge, t.fatal))
  {
    hide FailTransfer, SendQuiet, ChunkLen, Keeps, TotalChunks, FetchWf;
  }

  lemma CommandDecides(a: State, t: Tick)
    requires TransferWf(a) && a.transfer.Some? && a.transfer.value.job.Upload?
    ensures t.input.DoCancel? ==> Decides(a, t, Cancel(a, t.fatal))
    ensures t.input.AcceptTimeout? && a.transfer.value.stage == AwaitingAccept ==> Decides(a, t, AcceptTimedOut(a, t.fatal))
  {
    hide FailTransfer, Keeps, TransferWf;
  }

  /** In every turn, whatever the server sends: an upload ends exactly if one of these happens, and
      otherwise it goes on, the same upload for the same caller. */
  lemma UploadEndsIff(h: Download.Hash, a: State, t: Tick)
    requires TransferWf(a) && a.transfer.Some? && a.transfer.value.job.Upload?
    ensures Decides(a, t, Next(h, a, t))
  {
    hide TransferWf, Keeps, Decides, OnReply, OnAccept, OnError, OnPong, OnTransferEnd, OnData, UploadCanSend;
    hide Request, Command, Keepalive, StartUpload, StartDownload, Cancel, OnBlockingDone, SendNextChunk, AcceptTimedOut;
    var r := Next(h, a, t);
    match t.input
    case GotError => ErrorDecides(a, t);
    case GotPong => PongDecides(a, t);
    case GotAccept(_, _) => AcceptDecides(a, t);
    case GotEnd(_, _, _) => EndDecides(a, t);
    case WorkDone(_) =>
      if a.blocking.Some? {
        WorkDecides(a, t);
      } else {
        PlainDecides(a, t, r);
      }
    case ChunkTurn(_) =>
      if UploadCanSend(a) {
        ChunkDecides(a, t);
      } else {
        PlainDecides(a, t, r);
      }
    case DoCancel => CommandDecides(a, t);
    case AcceptTimeout =>
      if a.transfer.value.stage == AwaitingAccept {
        CommandDecides(a, t);
      } else {
        PlainDecides(a, t, r);
      }
    case GotReply(ty) => ReplyConcludes(a, ty); PlainDecides(a, t, r);
    case GotData(_, _) => NoDownload(h, a, t); PlainDecides(a, t, r);
    case GotEvent => PlainDecides(a, t, r);
    case _ => CommandConcludes(a, t.input, t.tooLarge, t.fatal); PlainDecides(a, t, r);
  }

  lemma NoDownload(h: Download.Hash, a: State, t: Tick)
    requires TransferWf(a) && a.transfer.Some? && a.transfer.value.job.Upload? && t.input.GotData?
    ensures Next(h, a, t) == a
  {
    hide UploadWf, FetchWf;
  }
}
