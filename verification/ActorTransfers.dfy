/**
 * What holds of transfers in every run, whatever the server sends. The upload
 * window is exactly what the queued chunk barriers of the current generation
 * carry, and chunks go out in increasing order, each missing one once. Answers
 * and background work of an ended transfer never touch a later one.
 */
module ActorTransfers {
  import opened Options
  import opened Chunks
  import opened Actor
  import opened ActorRuns
  import Download

  /** One chunk in flight; `refused` once an Error was charged to it. */
  datatype Piece = Piece(index: nat, len: nat, refused: bool)

  datatype Plan = Plan(size: nat, chunkSize: nat, skip: seq<bool>)

  function PlanOf(u: UploadJob): Plan {
    Plan(u.size, u.chunkSize, u.skip)
  }

  // ---- what is queued, what was sent, what is missing -------------------------------

  function PieceOf(p: Pending, gen: nat): seq<Piece> {
    if IsChunk(p) && p.quiet.value.kind.gen == gen
    then [Piece(p.quiet.value.kind.index, p.quiet.value.kind.len, p.quiet.value.failed)] else []
  }

  /** The chunk barriers of one generation, oldest first. */
  function Queued(ps: seq<Pending>, gen: nat): seq<Piece> {
    if ps == [] then [] else PieceOf(ps[0], gen) + Queued(ps[1..], gen)
  }

  function PieceSent(o: Out, gen: nat): seq<Piece> {
    if o.Tell? && o.kind.UploadChunk? && o.kind.gen == gen then [Piece(o.kind.index, o.kind.len, false)] else []
  }

  /** The chunks of one generation ever written, in order. */
  function SentIn(out: seq<Out>, gen: nat): seq<Piece> {
    if out == [] then [] else SentIn(out[..|out| - 1], gen) + PieceSent(out[|out| - 1], gen)
  }

  /** The chunks of [lo, hi) the server did not have at the start. */
  function Missing(plan: Plan, lo: nat, hi: nat): seq<Piece>
    requires hi <= |plan.skip| && plan.chunkSize > 0
    decreases hi - lo
  {
    if lo >= hi then []
    else (if plan.skip[lo] then [] else [Piece(lo, ChunkLen(plan.size, plan.chunkSize, lo, |plan.skip|), false)])
         + Missing(plan, lo + 1, hi)
  }

  function Total(pieces: seq<Piece>): nat {
    if pieces == [] then 0 else pieces[0].len + Total(pieces[1..])
  }

  lemma {:induction false} TotalSnoc(pieces: seq<Piece>, p: Piece)
    ensures Total(pieces + [p]) == Total(pieces) + p.len
    decreases |pieces|
  {
    if pieces == [] {
      assert (pieces + [p])[1..] == [];
    } else {
      assert (pieces + [p])[1..] == pieces[1..] + [p];
      TotalSnoc(pieces[1..], p);
    }
  }

  lemma {:induction false} QueuedSnoc(ps: seq<Pending>, p: Pending, gen: nat)
    ensures Queued(ps + [p], gen) == Queued(ps, gen) + PieceOf(p, gen)
    decreases |ps|
  {
    if ps == [] {
      assert (ps + [p])[1..] == [];
    } else {
      assert (ps + [p])[1..] == ps[1..] + [p];
      QueuedSnoc(ps[1..], p, gen);
    }
  }

  lemma SentOne(out: seq<Out>, o: Out, gen: nat)
    ensures SentIn(out + [o], gen) == SentIn(out, gen) + PieceSent(o, gen)
  {
    assert (out + [o])[..|out|] == out;
  }

  lemma SentSnoc(out: seq<Out>, p: Pending, gen: nat)
    requires !Failed(p)
    ensures SentIn(out + Written(p), gen) == SentIn(out, gen) + PieceOf(p, gen)
  {
    match p
    case Reply(w) => SentOne(out, Ask(w), gen);
    case Barrier(token, None) => SentOne(out, Ping(token, None), gen);
    case Barrier(token, Some(q)) =>
      SentOne(out, Tell(token, q.kind), gen);
      SentOne(out + [Tell(token, q.kind)], Ping(token, q.reply), gen);
      assert out + Written(p) == out + [Tell(token, q.kind)] + [Ping(token, q.reply)];
  }

  lemma {:induction false} MissingSnoc(plan: Plan, lo: nat, hi: nat)
    requires hi < |plan.skip| && plan.chunkSize > 0 && lo <= hi
    ensures Missing(plan, lo, hi + 1) == Missing(plan, lo, hi) +
            if plan.skip[hi] then [] else [Piece(hi, ChunkLen(plan.size, plan.chunkSize, hi, |plan.skip|), false)]
    decreases hi - lo
  {
    hide ChunkLen;
    if lo < hi {
      MissingSnoc(plan, lo + 1, hi);
      assert Missing(plan, lo, hi + 1) == (if plan.skip[lo] then [] else [Chunk(plan, lo)]) + Missing(plan, lo + 1, hi + 1);
    } else {
      assert Missing(plan, hi + 1, hi + 1) == [];
    }
  }

  lemma {:induction false} MissingSkips(plan: Plan, lo: nat, mid: nat, hi: nat)
    requires lo <= mid <= hi <= |plan.skip| && plan.chunkSize > 0
    requires forall k :: mid <= k < hi ==> plan.skip[k]
    ensures Missing(plan, lo, hi) == Missing(plan, lo, mid)
    decreases hi - mid
  {
    if mid < hi {
      MissingSkips(plan, lo, mid, hi - 1);
      MissingSnoc(plan, lo, hi - 1);
    }
  }

  lemma {:induction false} MissingHead(plan: Plan, lo: nat, hi: nat)
    requires hi <= |plan.skip| && plan.chunkSize > 0 && Missing(plan, lo, hi) != []
    ensures var p := Missing(plan, lo, hi)[0];
            && lo <= p.index < hi && !plan.skip[p.index] && !p.refused
            && (forall k :: lo <= k < p.index ==> plan.skip[k])
            && Missing(plan, lo, hi)[1..] == Missing(plan, p.index + 1, hi)
    decreases hi - lo
  {
    hide ChunkLen;
    if plan.skip[lo] {
      assert Missing(plan, lo, hi) == Missing(plan, lo + 1, hi);
      MissingHead(plan, lo + 1, hi);
    }
  }

  function Chunk(plan: Plan, i: nat): Piece
    requires plan.chunkSize > 0
  {
    Piece(i, ChunkLen(plan.size, plan.chunkSize, i, |plan.skip|), false)
  }

  /** The plan is what coverage means: exactly the chunks outside `skip`, whole ... */
  lemma {:induction false} MissingIsComplement(plan: Plan, lo: nat, hi: nat, p: Piece)
    requires hi <= |plan.skip| && plan.chunkSize > 0
    ensures p in Missing(plan, lo, hi) <==> lo <= p.index < hi && !plan.skip[p.index] && p == Chunk(plan, p.index)
    decreases hi - lo
  {
    hide ChunkLen;
    if lo < hi {
      MissingIsComplement(plan, lo + 1, hi, p);
    }
  }

  /** ... in increasing order, so each once. */
  lemma {:induction false} MissingIncreases(plan: Plan, lo: nat, hi: nat, j: nat, k: nat)
    requires hi <= |plan.skip| && plan.chunkSize > 0
    ensures j < k < |Missing(plan, lo, hi)| ==> Missing(plan, lo, hi)[j].index < Missing(plan, lo, hi)[k].index
    decreases hi - lo
  {
    hide ChunkLen;
    if lo < hi && j < k < |Missing(plan, lo, hi)| {
      var rest := Missing(plan, lo + 1, hi);
      if plan.skip[lo] {
        assert Missing(plan, lo, hi) == rest;
        MissingIncreases(plan, lo + 1, hi, j, k);
      } else {
        assert Missing(plan, lo, hi)[k] == rest[k - 1];
        MissingIsComplement(plan, lo + 1, hi, rest[k - 1]);
        if j > 0 {
          MissingIncreases(plan, lo + 1, hi, j - 1, k - 1);
        }
      }
    }
  }

  // ---- the invariant -------------------------------------------------------------------

  /** No chunk of generation `g` is queued or was ever sent. */
  predicate Clean(a: State, g: nat) {
    Queued(a.pending, g) == [] && SentIn(a.out, g) == []
  }

  predicate Uploading(t: Transfer) {
    t.job.Upload? && t.stage == Running
  }

  /** Everything below `lo` is acknowledged; the rest of what was sent is queued. */
  predicate LedgerAt(pending: seq<Pending>, out: seq<Out>, gen: nat, u: UploadJob, lo: nat) {
    && u.chunkSize > 0 && lo <= u.next <= u.total && |u.skip| == |u.done| == u.total
    && Queued(pending, gen) == Missing(PlanOf(u), lo, u.next)
    && SentIn(out, gen) == Missing(PlanOf(u), 0, u.next)
    && u.inFlight == Total(Queued(pending, gen))
    && forall i :: 0 <= i < u.total ==> (u.done[i] <==> u.skip[i] || i < lo)
  }

  ghost predicate Ledger(a: State) {
    && (forall g :: g > a.nextGen ==> Clean(a, g))
    && (a.transfer.Some? ==>
          var t := a.transfer.value;
          if Uploading(t) then exists lo :: LedgerAt(a.pending, a.out, t.gen, t.job.up, lo) else Clean(a, t.gen))
  }

  // ---- one turn --------------------------------------------------------------------------

  lemma HeadPieces(ps: seq<Pending>, p: Pending, g: nat)
    requires ps != []
    ensures Queued(ps, g) == PieceOf(ps[0], g) + Queued(ps[1..], g)
    ensures Queued(ps[0 := p], g) == PieceOf(p, g) + Queued(ps[1..], g)
  {
    hide PieceOf;
    assert ps[0 := p][0] == p && ps[0 := p][1..] == ps[1..];
  }

  lemma ConsumedPieces(a: State, i: Input, g: nat)
    ensures Queued(a.pending, g) == [] ==> Queued(Consumed(a, i), g) == []
    ensures !i.GotPong? && (i.GotError? && a.pending != [] ==> PieceOf(a.pending[0], g) == []) ==>
              Queued(Consumed(a, i), g) == Queued(a.pending, g)
  {
    hide Queued;
    if a.pending != [] {
      var head := a.pending[0];
      if i.GotError? && head.Barrier? && head.quiet.Some? {
        HeadPieces(a.pending, Barrier(head.token, Some(head.quiet.value.(failed := true))), g);
      } else {
        HeadPieces(a.pending, head, g);
      }
    }
  }

  /** What a turn that sends no chunk of generation `g` does to that generation. */
  lemma SendKeepsPieces(b: State, r: State, g: nat)
    requires OrdinarySend(b, r) || (SentOwnChunk(b, r) && b.transfer.value.gen != g)
    ensures Queued(r.pending, g) == Queued(b.pending, g) && SentIn(r.out, g) == SentIn(b.out, g)
  {
    hide Queued, SentIn;
    if OneSent(b, r) {
      QueuedSnoc(b.pending, Last(r.pending), g);
      SentSnoc(b.out, Last(r.pending), g);
    }
  }

  lemma TurnKeepsClean(h: Download.Hash, a: State, t: Tick, g: nat)
    requires TransferWf(a) && Clean(a, g)
    requires !t.input.ChunkTurn? || a.transfer == None || a.transfer.value.gen != g
    ensures Clean(Next(h, a, t), g)
  {
    hide Next, TransferWf, Queued, SentIn, Consumed;
    TurnQueue(h, a, t);
    ConsumedPieces(a, t.input, g);
    SendKeepsPieces(a.(pending := Consumed(a, t.input)), Next(h, a, t), g);
  }

  /** The start of an accepted upload's ledger. */
  predicate Opens(u: UploadJob) {
    u.chunkSize > 0 && u.next == 0 && u.inFlight == 0 && u.done == u.skip && |u.skip| == u.total
  }

  /** How the transfer may change in a turn that is neither a Pong nor a chunk's. */
  predicate Evolves(a: State, r: State) {
    || (r.transfer == None && r.nextGen >= a.nextGen)
    || (r.transfer == a.transfer && r.nextGen == a.nextGen)
    || (a.transfer == None && r.transfer.Some? && !Uploading(r.transfer.value) && r.transfer.value.gen == r.nextGen == a.nextGen + 1)
    || SameTransfer(a, r)
  }

  predicate SameTransfer(a: State, r: State) {
    && r.nextGen == a.nextGen && a.transfer.Some? && r.transfer.Some? && r.transfer.value.gen == a.transfer.value.gen
    && !Uploading(a.transfer.value) && (Uploading(r.transfer.value) ==> Opens(r.transfer.value.job.up))
  }

  lemma Stays(a: State, r: State)
    ensures r.transfer == a.transfer && r.nextGen == a.nextGen ==> Evolves(a, r)
  {
  }

  lemma UploadAcceptEvolves(a: State, t: Transfer, acc: Download.Accept, fatal: bool)
    requires a.transfer == Some(t) && t.job.Upload? && t.stage == AwaitingAccept
    ensures Evolves(a, OnUploadAccept(a, t, acc, fatal))
  {
    hide FailTransfer, TotalChunks, TransferWf;
  }

  lemma DownloadAcceptEvolves(a: State, t: Transfer, acc: Download.Accept, canOpen: bool, fatal: bool)
    requires a.transfer == Some(t) && t.job.Fetch? && t.stage == AwaitingAccept
    ensures Evolves(a, OnDownloadAccept(a, t, acc, canOpen, fatal))
  {
    hide FailTransfer, RefuseDownload, Download.OnAccept, TransferWf;
  }

  lemma AcceptEvolves(a: State, acc: Download.Accept, canOpen: bool, fatal: bool)
    ensures Evolves(a, OnAccept(a, acc, canOpen, fatal))
  {
    hide SendAbort, OnUploadAccept, OnDownloadAccept, TransferWf, Opens;
    if HeadAwaitsAccept(a) && IsCurrent(a, a.pending[0].waiter.gen) && a.transfer.value.stage == AwaitingAccept {
      var t := a.transfer.value;
      if t.job.Upload? {
        UploadAcceptEvolves(PopFront(a), t, acc, fatal);
      } else {
        DownloadAcceptEvolves(PopFront(a), t, acc, canOpen, fatal);
      }
    }
  }

  lemma ErrorEvolves(a: State, fatal: bool)
    ensures Evolves(a, OnError(a, fatal))
  {
    hide FailTransfer, Keeps;
  }

  lemma DownloadEndEvolves(a: State, t: Transfer, verified: bool, flushed: bool, tooLarge: bool, fatal: bool)
    requires a.transfer == Some(t) && t.job.Fetch?
    ensures Evolves(a, DownloadEnded(a, t, verified, flushed, tooLarge, fatal))
  {
    hide FailTransfer, SendRequest, Download.OnEnd;
  }

  lemma EndEvolves(a: State, id: Id, verified: bool, flushed: bool, tooLarge: bool, fatal: bool)
    ensures Evolves(a, OnTransferEnd(a, id, verified, flushed, tooLarge, fatal))
  {
    hide FailTransfer, DownloadEnded, Keeps, RemoveFirst;
    if a.transfer.Some? && a.transfer.value.job.Fetch? {
      DownloadEndEvolves(a, a.transfer.value, verified, flushed, tooLarge, fatal);
    }
  }

  lemma DataEvolves(h: Download.Hash, a: State, d: Download.Data, written: bool, fatal: bool)
    requires TransferWf(a)
    ensures Evolves(a, OnData(h, a, d, written, fatal))
  {
    hide FailTransfer, Download.OnData, Keeps, TotalChunks;
  }

  lemma WorkEvolves(a: State, done: Done, tooLarge: bool, fatal: bool)
    requires TransferWf(a)
    ensures Evolves(a, OnBlockingDone(a, done, tooLarge, fatal))
  {
    hide FailTransfer, SendRequest, ChunkSizeFor, Keeps, TotalChunks;
  }

  lemma CommandsEvolve(a: State, i: Input, tooLarge: bool, fatal: bool)
    ensures Evolves(a, Cancel(a, fatal))
    ensures Evolves(a, AcceptTimedOut(a, fatal))
    ensures Evolves(a, Keepalive(a, fatal))
    ensures i.DoRequest? ==> Evolves(a, Request(a, i.expects, tooLarge, fatal))
    ensures i.DoCommand? ==> Evolves(a, Command(a, i.wait, tooLarge, fatal))
    ensures i.DoUpload? ==> Evolves(a, StartUpload(a, i.valid))
    ensures i.DoDownload? ==>
              Evolves(a, StartDownload(a, i.valid, Download.NewJob(i.expectedSize, i.chunk, i.resume), tooLarge, fatal))
  {
    hide FailTransfer, SendRequest, SendQuiet, SendBarrier, Keeps;
  }

  lemma TurnEvolves(h: Download.Hash, a: State, t: Tick)
    requires TransferWf(a) && !t.input.GotPong? && !t.input.ChunkTurn?
    ensures Evolves(a, Next(h, a, t))
  {
    hide TransferWf, Keeps, OnAccept, OnError, OnPong, OnTransferEnd, OnData, UploadCanSend, Evolves;
    hide Request, Command, Keepalive, StartUpload, StartDownload, Cancel, OnBlockingDone, SendNextChunk, AcceptTimedOut;
    Stays(a, Next(h, a, t));
    match t.input
    case GotAccept(acc, canOpen) => AcceptEvolves(a, acc, canOpen, t.fatal);
    case GotError => ErrorEvolves(a, t.fatal);
    case GotData(d, written) => DataEvolves(h, a, d, written, t.fatal);
    case GotEnd(id, verified, flushed) => EndEvolves(a, id, verified, flushed, t.tooLarge, t.fatal);
    case WorkDone(done) => WorkEvolves(a, done, t.tooLarge, t.fatal);
    case _ => CommandsEvolve(a, t.input, t.tooLarge, t.fatal);
  }

  /** A turn that leaves the upload alone leaves its ledger alone. */
  lemma BystanderLedger(h: Download.Hash, a: State, t: Tick)
    requires TransferWf(a) && Ledger(a) && a.transfer.Some? && Uploading(a.transfer.value)
    requires Next(h, a, t).transfer == a.transfer && !t.input.ChunkTurn?
    requires !t.input.GotPong? || a.pending == [] || PieceOf(a.pending[0], a.transfer.value.gen) == []
    ensures var r := Next(h, a, t); exists lo :: LedgerAt(r.pending, r.out, r.transfer.value.gen, r.transfer.value.job.up, lo)
  {
    hide Next, TransferWf, Missing, Consumed, SentIn;
    var r := Next(h, a, t);
    var gen, u := a.transfer.value.gen, a.transfer.value.job.up;
    var lo :| LedgerAt(a.pending, a.out, gen, u, lo);
    TurnQueue(h, a, t);
    if t.input.GotError? {
      RefusalEndsUpload(a, t.fatal, lo);
      NextError(h, a, t);
    }
    ConsumedPieces(a, t.input, gen);
    PongSkips(a, gen);
    SendKeepsPieces(a.(pending := Consumed(a, t.input)), r, gen);
    assert LedgerAt(r.pending, r.out, gen, u, lo);
  }

  lemma NextError(h: Download.Hash, a: State, t: Tick)
    requires TransferWf(a) && t.input.GotError?
    ensures Next(h, a, t) == OnError(a, t.fatal)
  {
  }

  lemma PongSkips(a: State, g: nat)
    ensures a.pending == [] || PieceOf(a.pending[0], g) == [] ==> Queued(Consumed(a, GotPong), g) == Queued(a.pending, g)
  {
  }

  /** An Error charged to a chunk of the current upload ends that upload. */
  lemma RefusalEndsUpload(a: State, fatal: bool, lo: nat)
    requires a.transfer.Some? && Uploading(a.transfer.value)
    requires LedgerAt(a.pending, a.out, a.transfer.value.gen, a.transfer.value.job.up, lo)
    ensures a.pending != [] && PieceOf(a.pending[0], a.transfer.value.gen) != [] ==> OnError(a, fatal).transfer == None
  {
    hide FailTransfer, Keeps, SentIn;
    var gen, u := a.transfer.value.gen, a.transfer.value.job.up;
    if a.pending != [] && PieceOf(a.pending[0], gen) != [] {
      assert Queued(a.pending, gen)[0] == PieceOf(a.pending[0], gen)[0];
      MissingHead(PlanOf(u), lo, u.next);
    }
  }

  function Acked(u: UploadJob, c: Kind): UploadJob
    requires c.UploadChunk? && u.inFlight >= c.len && c.index < |u.done|
  {
    u.(inFlight := u.inFlight - c.len, done := u.done[c.index := true])
  }

  /** An acknowledged chunk: the subtraction is exact, and the frontier moves past it. */
  lemma FrontierMoves(pending: seq<Pending>, out: seq<Out>, gen: nat, u: UploadJob, lo: nat)
    requires LedgerAt(pending, out, gen, u, lo) && pending != [] && PieceOf(pending[0], gen) != []
    ensures var c := pending[0].quiet.value.kind;
            && !Failed(pending[0]) && u.inFlight >= c.len && c.index < |u.done|
            && LedgerAt(pending[1..], out, gen, Acked(u, c), c.index + 1)
  {
    hide SentIn, ChunkLen;
    var m := Missing(PlanOf(u), lo, u.next);
    assert m[0] == PieceOf(pending[0], gen)[0];
    assert m[1..] == Queued(pending[1..], gen);
    MissingHead(PlanOf(u), lo, u.next);
  }

  lemma AckLedger(a: State, lo: nat)
    requires a.transfer.Some? && Uploading(a.transfer.value)
    requires LedgerAt(a.pending, a.out, a.transfer.value.gen, a.transfer.value.job.up, lo)
    requires a.pending != [] && PieceOf(a.pending[0], a.transfer.value.gen) != []
    ensures Uploaded(a, OnPong(a))
  {
    hide Keeps, LedgerAt;
    FrontierMoves(a.pending, a.out, a.transfer.value.gen, a.transfer.value.job.up, lo);
    assert LedgerAt(OnPong(a).pending, OnPong(a).out, a.transfer.value.gen, OnPong(a).transfer.value.job.up, a.pending[0].quiet.value.kind.index + 1);
  }

  /** The same upload goes on, with its ledger in order. */
  ghost predicate Uploaded(a: State, r: State) {
    && a.transfer.Some? && r.transfer.Some? && r.transfer.value.gen == a.transfer.value.gen && Uploading(r.transfer.value)
    && r.nextGen == a.nextGen
    && exists lo :: LedgerAt(r.pending, r.out, r.transfer.value.gen, r.transfer.value.job.up, lo)
  }

  /** A Pong that is not for a chunk of the current transfer leaves it alone. */
  lemma PongStale(a: State)
    requires a.pending != [] && a.transfer.Some? ==> PieceOf(a.pending[0], a.transfer.value.gen) == []
    ensures OnPong(a).transfer == a.transfer && OnPong(a).nextGen == a.nextGen
  {
    hide Keeps;
  }

  lemma ChunkGoesOut(pending: seq<Pending>, out: seq<Out>, gen: nat, u: UploadJob, lo: nat, p: Pending)
    requires LedgerAt(pending, out, gen, u, lo) && u.next < u.total && !Failed(p)
    requires var index := NextMissing(u.skip, u.next); index < u.total && PieceOf(p, gen) == [Chunk(PlanOf(u), index)]
    ensures var index := NextMissing(u.skip, u.next);
            LedgerAt(pending + [p], out + Written(p), gen, u.(next := index + 1, inFlight := u.inFlight + Chunk(PlanOf(u), index).len), lo)
  {
    hide SentIn, Queued, ChunkLen, Missing, NextMissing;
    var index := NextMissing(u.skip, u.next);
    var plan := PlanOf(u);
    QueuedSnoc(pending, p, gen);
    SentSnoc(out, p, gen);
    TotalSnoc(Queued(pending, gen), Chunk(plan, index));
    MissingSkips(plan, lo, u.next, index);
    MissingSkips(plan, 0, u.next, index);
    MissingSnoc(plan, lo, index);
    MissingSnoc(plan, 0, index);
  }

  lemma NothingLeft(pending: seq<Pending>, out: seq<Out>, gen: nat, u: UploadJob, lo: nat)
    requires LedgerAt(pending, out, gen, u, lo) && u.next < u.total
    ensures var index := NextMissing(u.skip, u.next); index >= u.total ==> LedgerAt(pending, out, gen, u.(next := index), lo)
  {
    hide SentIn, Queued, ChunkLen, Missing, NextMissing;
    MissingSkips(PlanOf(u), lo, u.next, NextMissing(u.skip, u.next));
    MissingSkips(PlanOf(u), 0, u.next, NextMissing(u.skip, u.next));
  }

  /** What one turn of the sender leaves behind. */
  predicate ChunkTurned(a: State, r: State, fatal: bool)
    requires a.transfer.Some? && a.transfer.value.job.Upload?
  {
    var t := a.transfer.value;
    var u := t.job.up;
    && u.chunkSize > 0 && u.next < u.total == |u.skip|
    && r.nextGen == a.nextGen
    && var index := NextMissing(u.skip, u.next);
       || r.transfer == None
       || (r.dead && fatal)
       || (index >= u.total && NothingSent(a, r) && r.transfer == Some(t.(job := Upload(u.(next := index)))))
       || (index < u.total && OneSent(a, r) && PieceOf(Last(r.pending), t.gen) == [Chunk(PlanOf(u), index)] &&
           r.transfer == Some(t.(job := Upload(u.(next := index + 1, inFlight := u.inFlight + Chunk(PlanOf(u), index).len)))))
  }

  lemma SenderTurns(a: State, readable: bool, tooLarge: bool, fatal: bool)
    requires TransferWf(a) && UploadCanSend(a)
    ensures ChunkTurned(a, SendNextChunk(a, readable, tooLarge, fatal), fatal)
  {
    hide FailTransfer, SendQuiet, ChunkLen, Keeps, TotalChunks;
  }

  /** One turn of the sender: the transfer ends, the connection is dead, or the ledger
      is in order with less left to send. */
  lemma ChunkLedger(a: State, readable: bool, tooLarge: bool, fatal: bool)
    requires TransferWf(a) && Ledger(a) && UploadCanSend(a)
    ensures var r := SendNextChunk(a, readable, tooLarge, fatal);
            && r.nextGen == a.nextGen
            && (r.transfer == None || (r.dead && fatal) ||
                (Uploaded(a, r) && r.transfer.value.job.up.next > a.transfer.value.job.up.next))
  {
    hide LedgerAt, SendNextChunk, TransferWf, ChunkLen, PieceOf;
    SenderTurns(a, readable, tooLarge, fatal);
    TurnedLedger(a, SendNextChunk(a, readable, tooLarge, fatal), fatal);
  }

  lemma TurnedLedger(a: State, r: State, fatal: bool)
    requires Ledger(a) && a.transfer.Some? && Uploading(a.transfer.value) && ChunkTurned(a, r, fatal)
    ensures r.transfer == None || (r.dead && fatal) ||
            (Uploaded(a, r) && r.transfer.value.job.up.next > a.transfer.value.job.up.next)
  {
    hide LedgerAt, ChunkLen, PieceOf;
    var t := a.transfer.value;
    var u := t.job.up;
    var lo :| LedgerAt(a.pending, a.out, t.gen, u, lo);
    if r.transfer.Some? && !(r.dead && fatal) {
      if NextMissing(u.skip, u.next) >= u.total {
        NothingLeft(a.pending, a.out, t.gen, u, lo);
      } else {
        ChunkGoesOut(a.pending, a.out, t.gen, u, lo, Last(r.pending));
      }
      assert LedgerAt(r.pending, r.out, t.gen, r.transfer.value.job.up, lo);
    }
  }

  lemma NextChunkTurn(h: Download.Hash, a: State, t: Tick)
    requires TransferWf(a) && t.input.ChunkTurn?
    ensures Next(h, a, t) == if UploadCanSend(a) then SendNextChunk(a, t.input.readable, t.tooLarge, t.fatal) else a
  {
  }

  lemma NextPong(h: Download.Hash, a: State, t: Tick)
    requires TransferWf(a) && t.input.GotPong?
    ensures Next(h, a, t) == OnPong(a)
  {
  }

  lemma CurrentGen(a: State)
    requires TransferWf(a)
    ensures a.transfer.Some? ==> a.transfer.value.gen <= a.nextGen
  {
  }

  lemma NewGensClean(h: Download.Hash, a: State, t: Tick)
    requires TransferWf(a) && Ledger(a)
    ensures forall g :: g > a.nextGen ==> Clean(Next(h, a, t), g)
  {
    hide TransferWf, Clean, LedgerAt, Next;
    CurrentGen(a);
    forall g | g > a.nextGen ensures Clean(Next(h, a, t), g) {
      TurnKeepsClean(h, a, t, g);
    }
  }

  lemma CleanOpens(r: State, u: UploadJob, gen: nat)
    requires Clean(r, gen) && Opens(u)
    ensures LedgerAt(r.pending, r.out, gen, u, 0)
  {
  }

  lemma PongTurn(h: Download.Hash, a: State, t: Tick)
    requires TransferWf(a) && Ledger(a) && t.input.GotPong?
    ensures Ledger(Next(h, a, t))
  {
    hide TransferWf, LedgerAt, Next, OnPong, SentIn;
    NextPong(h, a, t);
    NewGensClean(h, a, t);
    if a.transfer.Some? && Uploading(a.transfer.value) && a.pending != [] && PieceOf(a.pending[0], a.transfer.value.gen) != [] {
      var lo :| LedgerAt(a.pending, a.out, a.transfer.value.gen, a.transfer.value.job.up, lo);
      AckLedger(a, lo);
    } else {
      PongStale(a);
      if a.transfer.Some? {
        if Uploading(a.transfer.value) {
          BystanderLedger(h, a, t);
        } else {
          TurnKeepsClean(h, a, t, a.transfer.value.gen);
        }
      }
    }
  }

  lemma ChunkTurns(h: Download.Hash, a: State, t: Tick)
    requires TransferWf(a) && Ledger(a) && t.input.ChunkTurn?
    ensures Next(h, a, t).dead || Ledger(Next(h, a, t))
  {
    hide TransferWf, LedgerAt, Next, SendNextChunk, Clean, UploadCanSend;
    NextChunkTurn(h, a, t);
    NewGensClean(h, a, t);
    if UploadCanSend(a) {
      ChunkLedger(a, t.input.readable, t.tooLarge, t.fatal);
    }
  }

  lemma TurnLedger(h: Download.Hash, a: State, t: Tick)
    requires TransferWf(a) && Ledger(a)
    ensures Next(h, a, t).dead || Ledger(Next(h, a, t))
  {
    hide TransferWf, Clean, LedgerAt, Next, Opens;
    var r := Next(h, a, t);
    if t.input.ChunkTurn? {
      ChunkTurns(h, a, t);
    } else if t.input.GotPong? {
      PongTurn(h, a, t);
    } else {
      NewGensClean(h, a, t);
      TurnEvolves(h, a, t);
      if a.transfer.Some? && Uploading(a.transfer.value) {
        if r.transfer == a.transfer {
          BystanderLedger(h, a, t);
        }
      } else if a.transfer.Some? {
        TurnKeepsClean(h, a, t, a.transfer.value.gen);
        if SameTransfer(a, r) && Uploading(r.transfer.value) {
          CleanOpens(r, r.transfer.value.job.up, r.transfer.value.gen);
        }
      }
    }
  }

  lemma {:induction false} RunLedger(h: Download.Hash, a: State, ticks: seq<Tick>)
    requires TransferWf(a) && (a.dead || Ledger(a))
    ensures Run(h, a, ticks).dead || Ledger(Run(h, a, ticks))
    decreases |ticks|
  {
    hide Next, TransferWf, Ledger;
    if ticks != [] && !a.dead {
      TurnLedger(h, a, ticks[0]);
      RunLedger(h, Next(h, a, ticks[0]), ticks[1..]);
    }
  }

  /** The window and the coverage, in every reachable live state of any run. */
  lemma UploadWindowAndCoverage(h: Download.Hash, ticks: seq<Tick>)
    ensures TransferWf(Start)
    ensures var a := Run(h, Start, ticks);
            !a.dead && a.transfer.Some? && Uploading(a.transfer.value) ==>
              var gen, u := a.transfer.value.gen, a.transfer.value.job.up;
              && u.inFlight == Total(Queued(a.pending, gen)) <= UPLOAD_WINDOW_BYTES
              && exists lo :: LedgerAt(a.pending, a.out, gen, u, lo)
  {
    hide Run, LedgerAt;
    assert Ledger(Start) by {
      assert forall g :: Clean(Start, g);
    }
    RunLedger(h, Start, ticks);
    var a := Run(h, Start, ticks);
    if !a.dead && a.transfer.Some? && Uploading(a.transfer.value) {
      var lo :| LedgerAt(a.pending, a.out, a.transfer.value.gen, a.transfer.value.job.up, lo);
      WindowExact(a.pending, a.out, a.transfer.value.gen, a.transfer.value.job.up, lo);
    }
  }

  lemma WindowExact(pending: seq<Pending>, out: seq<Out>, gen: nat, u: UploadJob, lo: nat)
    requires LedgerAt(pending, out, gen, u, lo)
    ensures u.inFlight == Total(Queued(pending, gen))
  {
  }

  // ---- isolation -----------------------------------------------------------------------------

  /** The transfer an entry of the queue is about, if any. */
  function GenOf(p: Pending): Option<nat> {
    match p
    case Reply(TransferStart(gen)) => Some(gen)
    case Barrier(_, Some(Quiet(UploadChunk(gen, _, _), _, _))) => Some(gen)
    case _ => None
  }

  /** A late accept, error or acknowledgement of an ended transfer. */
  lemma StaleAnswerIsInert(h: Download.Hash, a: State, t: Tick)
    requires TransferWf(a) && a.pending != [] && GenOf(a.pending[0]).Some? && !IsCurrent(a, GenOf(a.pending[0]).value)
    requires t.input.GotAccept? || t.input.GotError? || t.input.GotPong?
    ensures var r := Next(h, a, t); r.transfer == a.transfer && r.blocking == a.blocking && r.nextGen == a.nextGen
  {
    hide TransferWf, Keeps, OnUploadAccept, OnDownloadAccept, FailTransfer, SendAbort;
    match t.input
    case GotPong => NextPong(h, a, t); PongStale(a);
    case _ =>
  }

  lemma GenStep(h: Download.Hash, a: State, t: Tick)
    requires TransferWf(a)
    ensures var r := Next(h, a, t);
            && a.nextGen <= r.nextGen
            && (r.transfer.Some? ==> r.transfer.value.gen == a.nextGen + 1 || IsCurrent(a, r.transfer.value.gen))
  {
    hide TransferWf, Keeps, Next, OnPong, SendNextChunk;
    match t.input
    case GotPong => NextPong(h, a, t); PongGen(a);
    case ChunkTurn(readable) => NextChunkTurn(h, a, t); ChunkGen(a, t.fatal, t.tooLarge, readable);
    case _ => TurnEvolves(h, a, t);
  }

  lemma PongGen(a: State)
    ensures OnPong(a).nextGen == a.nextGen && (OnPong(a).transfer.Some? ==> IsCurrent(a, OnPong(a).transfer.value.gen))
  {
    hide Keeps;
  }

  lemma ChunkGen(a: State, fatal: bool, tooLarge: bool, readable: bool)
    requires TransferWf(a)
    ensures UploadCanSend(a) ==>
              var r := SendNextChunk(a, readable, tooLarge, fatal);
              r.nextGen == a.nextGen && (r.transfer.Some? ==> IsCurrent(a, r.transfer.value.gen))
  {
    hide Keeps, FailTransfer, SendQuiet, ChunkLen, TotalChunks;
  }

  /** Generations are not reused: once ended, a transfer is never current again, so
      whatever is still queued or running for it stays inert. */
  lemma {:induction false} EndedStaysEnded(h: Download.Hash, a: State, ticks: seq<Tick>, g: nat)
    requires TransferWf(a) && g <= a.nextGen && !IsCurrent(a, g)
    ensures !IsCurrent(Run(h, a, ticks), g) && g <= Run(h, a, ticks).nextGen
    decreases |ticks|
  {
    hide TransferWf, Next;
    if ticks != [] && !a.dead {
      GenStep(h, a, ticks[0]);
      EndedStaysEnded(h, Next(h, a, ticks[0]), ticks[1..], g);
    }
  }

  // ---- what a transfer's caller is told --------------------------------------------------------

  /** The only two ways to success: the server's verified end of a running upload, and the
      move of a checked file to its destination. */
  predicate Earned(a: State, i: Input)
    requires a.transfer.Some?
  {
    var t := a.transfer.value;
    if t.job.Upload? then t.stage == Running && i.GotEnd? && i.id == t.job.up.id && i.id !in a.abandoned && i.verified
    else a.blocking == Some(Publish(t.gen)) && i == WorkDone(Moved)
  }

  /** The transfer is over, and the first answer of the turn is its caller's. */
  predicate Concludes(a: State, i: Input, r: State)
    requires a.transfer.Some?
  {
    && r.transfer == None
    && |r.answers| > |a.answers|
    && r.answers[..|a.answers|] == a.answers
    && r.answers[|a.answers|].caller == a.transfer.value.caller
    && (r.answers[|a.answers|].how == Fine <==> Earned(a, i))
  }

  /** A transfer of the same caller is still active. */
  predicate GoesOn(a: State, r: State)
    requires a.transfer.Some?
  {
    r.transfer.Some? && r.transfer.value.caller == a.transfer.value.caller
  }

  lemma FailConcludes(a: State, b: State, i: Input, how: How, fatal: bool)
    requires a.transfer.Some? && b.transfer.Some? && b.transfer.value.caller == a.transfer.value.caller && b.answers == a.answers
    requires !Earned(a, i) && how != Fine
    ensures Concludes(a, i, FailTransfer(b, how, fatal))
  {
    hide FailTransfer, Earned;
  }

  lemma CommandConcludes(a: State, i: Input, tooLarge: bool, fatal: bool)
    requires a.transfer.Some?
    ensures i.DoCancel? ==> Concludes(a, i, Cancel(a, fatal))
    ensures i.AcceptTimeout? ==> Concludes(a, i, AcceptTimedOut(a, fatal))
    ensures i.DoRequest? ==> Request(a, i.expects, tooLarge, fatal).transfer == a.transfer
    ensures i.DoCommand? ==> Command(a, i.wait, tooLarge, fatal).transfer == a.transfer
    ensures Keepalive(a, fatal).transfer == a.transfer
    ensures i.DoUpload? ==> StartUpload(a, i.valid).transfer == a.transfer
    ensures i.DoDownload? ==>
              StartDownload(a, i.valid, Download.NewJob(i.expectedSize, i.chunk, i.resume), tooLarge, fatal).transfer == a.transfer
  {
    hide FailTransfer, SendRequest, SendQuiet, SendBarrier, Keeps;
    if i.DoCancel? {
      FailConcludes(a, Issue(a), i, Locally, fatal);
    } else if i.AcceptTimeout? {
      FailConcludes(a, a, i, Locally, fatal);
    }
  }

  lemma ReplyConcludes(a: State, t: ReplyType)
    ensures OnReply(a, t).transfer == a.transfer
  {
  }

  lemma ErrorConcludes(a: State, fatal: bool)
    requires a.transfer.Some?
    ensures OnError(a, fatal).transfer == a.transfer || Concludes(a, GotError, OnError(a, fatal))
  {
    hide FailTransfer, Keeps, Concludes;
    if a.pending != [] {
      FailConcludes(a, PopFront(a), GotError, ServerSaid, fatal);
      if a.pending[0].Barrier? && a.pending[0].quiet.Some? {
        var p := Barrier(a.pending[0].token, Some(a.pending[0].quiet.value.(failed := true)));
        FailConcludes(a, a.(pending := a.pending[0 := p]), GotError, ServerSaid, fatal);
      }
    }
  }

  lemma PongConcludes(a: State)
    requires a.transfer.Some?
    ensures GoesOn(a, OnPong(a))
  {
    hide Keeps;
  }

  lemma AcceptConcludes(a: State, acc: Download.Accept, canOpen: bool, fatal: bool)
    requires a.transfer.Some?
    ensures var r := OnAccept(a, acc, canOpen, fatal); GoesOn(a, r) || Concludes(a, GotAccept(acc, canOpen), r)
  {
    hide FailTransfer, SendAbort, Keeps, TransferWf, Concludes, Earned, OnUploadAccept, OnDownloadAccept;
    var i := GotAccept(acc, canOpen);
    NotEarned(a, i);
    if HeadAwaitsAccept(a) && IsCurrent(a, a.pending[0].waiter.gen) && a.transfer.value.stage == AwaitingAccept {
      if a.transfer.value.job.Upload? {
        UploadAcceptConcludes(a, PopFront(a), a.transfer.value, acc, i, fatal);
      } else {
        DownloadAcceptConcludes(a, PopFront(a), a.transfer.value, acc, canOpen, i, fatal);
      }
    }
  }

  lemma NotEarned(a: State, i: Input)
    requires a.transfer.Some? && !i.GotEnd? && i != WorkDone(Moved)
    ensures !Earned(a, i)
  {
  }

  lemma UploadAcceptConcludes(a: State, b: State, t: Transfer, acc: Download.Accept, i: Input, fatal: bool)
    requires a.transfer == Some(t) == b.transfer && b.answers == a.answers && t.job.Upload? && !Earned(a, i)
    ensures var r := OnUploadAccept(b, t, acc, fatal); GoesOn(a, r) || Concludes(a, i, r)
  {
    hide FailTransfer, GeometryProblem, TransferWf, Concludes, Earned;
    FailConcludes(a, b.(transfer := Some(t.(stage := Running, job := Upload(t.job.up.(id := acc.id))))), i, Locally, fatal);
  }

  lemma DownloadAcceptConcludes(a: State, b: State, t: Transfer, acc: Download.Accept, canOpen: bool, i: Input, fatal: bool)
    requires a.transfer == Some(t) == b.transfer && b.answers == a.answers && t.job.Fetch? && !Earned(a, i)
    ensures var r := OnDownloadAccept(b, t, acc, canOpen, fatal); GoesOn(a, r) || Concludes(a, i, r)
  {
    hide FailTransfer, SendAbort, Download.OnAccept, TransferWf, Concludes, Earned;
    match Download.OnAccept(t.job.down, acc)
    case FileChanged(e) => FailConcludes(a, b.(transfer := Some(t.(stage := Running, job := Fetch(e)))), i, Locally, fatal);
    case BadGeometry(e) =>
      var c := b.(transfer := Some(t.(stage := Running, job := Fetch(e))));
      FailConcludes(a, c, i, Locally, fatal);
      FailConcludes(a, SendAbort(c, e.id, fatal), i, Locally, fatal);
    case Started(e, _) => FailConcludes(a, b, i, Locally, fatal);
  }

  lemma DataConcludes(h: Download.Hash, a: State, d: Download.Data, written: bool, fatal: bool)
    requires TransferWf(a) && a.transfer.Some?
    ensures var r := OnData(h, a, d, written, fatal); GoesOn(a, r) || Concludes(a, GotData(d, written), r)
  {
    hide FailTransfer, Keeps, Download.OnData, TotalChunks, Concludes, Earned;
    NotEarned(a, GotData(d, written));
    FailConcludes(a, a, GotData(d, written), Locally, fatal);
  }

  lemma DownloadEndConcludes(a: State, t: Transfer, i: Input, verified: bool, flushed: bool, tooLarge: bool, fatal: bool)
    requires a.transfer == Some(t) && t.job.Fetch? && !Earned(a, i)
    ensures var r := DownloadEnded(a, t, verified, flushed, tooLarge, fatal); GoesOn(a, r) || Concludes(a, i, r)
  {
    hide FailTransfer, SendRequest, Download.OnEnd, TransferWf, Concludes, Earned;
    FailConcludes(a, a.(transfer := Some(t.(stage := Verifying))), i, ServerSaid, fatal);
    if Download.OnEnd(t.job.down).Again? {
      var b := a.(transfer := Some(t.(stage := AwaitingAccept, job := Fetch(Download.OnEnd(t.job.down).job))));
      FailConcludes(a, b, i, Locally, fatal);
    }
  }

  lemma EndConcludes(a: State, id: Id, verified: bool, flushed: bool, tooLarge: bool, fatal: bool)
    requires a.transfer.Some?
    ensures var r := OnTransferEnd(a, id, verified, flushed, tooLarge, fatal); GoesOn(a, r) || Concludes(a, GotEnd(id, verified, flushed), r)
  {
    hide FailTransfer, DownloadEnded, Keeps, RemoveFirst;
    var i := GotEnd(id, verified, flushed);
    var t := a.transfer.value;
    if t.stage == AwaitingAccept {
      FailConcludes(a, DropWaiter(a, t.gen), i, ServerSaid, fatal);
    } else if t.job.Fetch? {
      DownloadEndConcludes(a, t, i, verified, flushed, tooLarge, fatal);
    }
  }

  lemma WorkConcludes(a: State, done: Done, tooLarge: bool, fatal: bool)
    requires TransferWf(a) && a.transfer.Some?
    ensures var r := OnBlockingDone(a, done, tooLarge, fatal); GoesOn(a, r) || Concludes(a, WorkDone(done), r)
  {
    hide FailTransfer, SendRequest, Keeps, ChunkSizeFor, TotalChunks;
    if a.blocking.Some? {
      var b := a.(blocking := None);
      var t := a.transfer.value;
      if !Earned(a, WorkDone(done)) {
        FailConcludes(a, b, WorkDone(done), Locally, fatal);
        if done.Prepared? && t.job.Upload? {
          var u := t.job.up.(size := done.size, chunkSize := ChunkSizeFor(done.size));
          FailConcludes(a, b.(transfer := Some(t.(stage := AwaitingAccept, job := Upload(u)))), WorkDone(done), Locally, fatal);
        }
      }
    }
  }

  lemma ChunkConcludes(a: State, readable: bool, tooLarge: bool, fatal: bool)
    requires TransferWf(a) && UploadCanSend(a)
    ensures var r := SendNextChunk(a, readable, tooLarge, fatal); GoesOn(a, r) || Concludes(a, ChunkTurn(readable), r)
  {
    hide FailTransfer, SendQuiet, ChunkLen, Keeps, TotalChunks, Passed, InFlight, Concludes, Earned;
    var t := a.transfer.value;
    var u := t.job.up;
    var index := NextMissing(u.skip, u.next);
    NotEarned(a, ChunkTurn(readable));
    if index < u.total {
      FailConcludes(a, a.(transfer := Some(t.(job := Upload(Passed(u, index))))), ChunkTurn(readable), Locally, fatal);
      FailConcludes(a, a.(transfer := Some(t.(job := Upload(InFlight(u, index))))), ChunkTurn(readable), Locally, fatal);
    }
  }

  /** Whatever the server sends, in every turn: the transfer goes on, or it ends and its
      caller is answered, and the answer is success exactly when it was earned. */
  lemma SuccessIsEarned(h: Download.Hash, a: State, t: Tick)
    requires TransferWf(a) && a.transfer.Some?
    ensures GoesOn(a, Next(h, a, t)) || Concludes(a, t.input, Next(h, a, t))
  {
    hide TransferWf, Keeps, Concludes, OnReply, OnAccept, OnError, OnPong, OnTransferEnd, OnData, UploadCanSend;
    hide Request, Command, Keepalive, StartUpload, StartDownload, Cancel, OnBlockingDone, SendNextChunk, AcceptTimedOut;
    match t.input
    case GotReply(ty) => ReplyConcludes(a, ty);
    case GotAccept(acc, canOpen) => AcceptConcludes(a, acc, canOpen, t.fatal);
    case GotError => ErrorConcludes(a, t.fatal);
    case GotPong => PongConcludes(a);
    case GotData(d, written) => DataConcludes(h, a, d, written, t.fatal);
    case GotEnd(id, verified, flushed) => EndConcludes(a, id, verified, flushed, t.tooLarge, t.fatal);
    case GotEvent =>
    case WorkDone(done) => WorkConcludes(a, done, t.tooLarge, t.fatal);
    case ChunkTurn(readable) => if UploadCanSend(a) { ChunkConcludes(a, readable, t.tooLarge, t.fatal); }
    case _ => CommandConcludes(a, t.input, t.tooLarge, t.fatal);
  }

  /** How background work follows from background work: hashing starts at the server's end
      of a download that holds every chunk, and publishing at a matching hash. */
  predicate WorkFollows(a: State, i: Input, r: State) {
    match r.blocking
    case None => true
    case Some(UploadPrep(gen)) => r.blocking == a.blocking || (i.DoUpload? && gen == a.nextGen + 1)
    case Some(Verify(gen)) =>
      r.blocking == a.blocking ||
      (IsCurrent(a, gen) && a.transfer.value.stage == Running && a.transfer.value.job.Fetch?
       && i.GotEnd? && i.id == a.transfer.value.job.down.id && i.verified && Download.AllSet(a.transfer.value.job.down.have))
    case Some(Publish(gen)) =>
      r.blocking == a.blocking ||
      (a.blocking == Some(Verify(gen)) && IsCurrent(a, gen) && a.transfer.value.job.Fetch?
       && i == WorkDone(Hashed(a.transfer.value.job.down.sha256)))
  }

  lemma SameWork(a: State, i: Input, r: State)
    ensures r.blocking == a.blocking || r.blocking == None ==> WorkFollows(a, i, r)
  {
  }

  lemma CommandWork(a: State, i: Input, tooLarge: bool, fatal: bool)
    ensures Cancel(a, fatal).blocking in {a.blocking, None} && AcceptTimedOut(a, fatal).blocking in {a.blocking, None}
    ensures Keepalive(a, fatal).blocking == a.blocking
    ensures i.DoRequest? ==> Request(a, i.expects, tooLarge, fatal).blocking == a.blocking
    ensures i.DoCommand? ==> Command(a, i.wait, tooLarge, fatal).blocking == a.blocking
    ensures i.DoUpload? ==> WorkFollows(a, i, StartUpload(a, i.valid))
    ensures i.DoDownload? ==>
              StartDownload(a, i.valid, Download.NewJob(i.expectedSize, i.chunk, i.resume), tooLarge, fatal).blocking == a.blocking
  {
    hide FailTransfer, SendRequest, SendQuiet, SendBarrier, Keeps;
  }

  lemma AnswerWork(a: State, t: ReplyType, fatal: bool)
    ensures OnReply(a, t).blocking == a.blocking && OnPong(a).blocking == a.blocking
    ensures OnError(a, fatal).blocking in {a.blocking, None}
  {
    hide FailTransfer, Keeps;
  }

  predicate WorkKept(a: State, r: State) {
    r.blocking == a.blocking || r.blocking == None
  }

  lemma UploadAcceptWork(a: State, t: Transfer, acc: Download.Accept, fatal: bool)
    requires t.job.Upload?
    ensures WorkKept(a, OnUploadAccept(a, t, acc, fatal))
  {
    hide FailTransfer, TransferWf, GeometryProblem, Resize;
  }

  lemma DownloadAcceptWork(a: State, t: Transfer, acc: Download.Accept, canOpen: bool, fatal: bool)
    requires t.job.Fetch?
    ensures WorkKept(a, OnDownloadAccept(a, t, acc, canOpen, fatal))
  {
    hide FailTransfer, SendAbort, TransferWf, Download.OnAccept;
  }

  lemma AcceptWork(a: State, acc: Download.Accept, canOpen: bool, fatal: bool)
    ensures WorkKept(a, OnAccept(a, acc, canOpen, fatal))
  {
    hide SendAbort, Keeps, OnUploadAccept, OnDownloadAccept;
    if HeadAwaitsAccept(a) && a.transfer.Some? {
      var t := a.transfer.value;
      if t.job.Upload? {
        UploadAcceptWork(PopFront(a), t, acc, fatal);
      } else {
        DownloadAcceptWork(PopFront(a), t, acc, canOpen, fatal);
      }
    }
  }

  lemma DataWork(h: Download.Hash, a: State, d: Download.Data, written: bool, fatal: bool)
    requires TransferWf(a)
    ensures OnData(h, a, d, written, fatal).blocking in {a.blocking, None}
  {
    hide FailTransfer, Keeps, Download.OnData, TotalChunks;
  }

  lemma DownloadEndWork(a: State, t: Transfer, verified: bool, flushed: bool, tooLarge: bool, fatal: bool)
    requires a.transfer == Some(t) && t.job.Fetch?
    ensures var r := DownloadEnded(a, t, verified, flushed, tooLarge, fatal);
            r.blocking in {a.blocking, None} || (r.blocking == Some(Verify(t.gen)) && verified && Download.AllSet(t.job.down.have))
  {
    hide FailTransfer, SendRequest, TransferWf, Download.AllSet;
  }

  lemma EndWork(a: State, id: Id, verified: bool, flushed: bool, tooLarge: bool, fatal: bool)
    ensures WorkFollows(a, GotEnd(id, verified, flushed), OnTransferEnd(a, id, verified, flushed, tooLarge, fatal))
  {
    hide FailTransfer, DownloadEnded, Keeps, RemoveFirst, Download.AllSet;
    if a.transfer.Some? && a.transfer.value.job.Fetch? {
      DownloadEndWork(a, a.transfer.value, verified, flushed, tooLarge, fatal);
    }
  }

  lemma UploadRequestWork(a: State, t: Transfer, size: nat, tooLarge: bool, fatal: bool)
    requires t.job.Upload?
    ensures WorkKept(a, SendUploadRequest(a, t, size, tooLarge, fatal))
  {
    hide FailTransfer, SendRequest, ChunkSizeFor, TransferWf;
  }

  lemma FailWork(a: State, how: How, fatal: bool)
    requires a.blocking == None
    ensures FailTransfer(a, how, fatal).blocking == None
  {
    hide SendAbort;
  }

  /** Background work over, one report at a time. */
  lemma DoneWork(a: State, done: Done, tooLarge: bool, fatal: bool)
    ensures WorkFollows(a, WorkDone(done), OnBlockingDone(a, done, tooLarge, fatal))
  {
    hide FailTransfer, SendUploadRequest, Settled, Keeps, TransferWf, AtMostAbort, OrdinarySend;
    if a.blocking.Some? && IsCurrent(a, a.blocking.value.gen) {
      var b := a.(blocking := None);
      FailWork(b, Locally, fatal);
      SettledWork(b, Fine);
      match done
      case Prepared(size) =>
        if a.transfer.value.job.Upload? {
          UploadRequestWork(b, a.transfer.value, size, tooLarge, fatal);
        }
      case Hashed(_) =>
      case Moved =>
      case WorkFailed =>
    }
  }

  lemma SettledWork(a: State, how: How)
    requires a.transfer.Some?
    ensures Settled(a, how).blocking == a.blocking
  {
  }

  lemma ChunkWork(a: State, readable: bool, tooLarge: bool, fatal: bool)
    requires TransferWf(a)
    ensures UploadCanSend(a) ==> SendNextChunk(a, readable, tooLarge, fatal).blocking in {a.blocking, None}
  {
    hide FailTransfer, SendQuiet, Keeps, ChunkLen, TotalChunks, Passed, InFlight;
  }

  lemma WorkIsEarned(h: Download.Hash, a: State, t: Tick)
    requires TransferWf(a)
    ensures WorkFollows(a, t.input, Next(h, a, t))
  {
    hide TransferWf, Keeps, WorkFollows, OnReply, OnAccept, OnError, OnPong, OnTransferEnd, OnData, UploadCanSend;
    hide Request, Command, Keepalive, StartUpload, StartDownload, Cancel, OnBlockingDone, SendNextChunk, AcceptTimedOut;
    SameWork(a, t.input, Next(h, a, t));
    match t.input
    case GotReply(ty) => AnswerWork(a, ty, t.fatal);
    case GotError => AnswerWork(a, 0, t.fatal);
    case GotPong => AnswerWork(a, 0, t.fatal);
    case GotAccept(acc, canOpen) => AcceptWork(a, acc, canOpen, t.fatal);
    case GotData(d, written) => DataWork(h, a, d, written, t.fatal);
    case GotEnd(id, verified, flushed) => EndWork(a, id, verified, flushed, t.tooLarge, t.fatal);
    case GotEvent =>
    case WorkDone(done) => DoneWork(a, done, t.tooLarge, t.fatal);
    case ChunkTurn(readable) => ChunkWork(a, readable, t.tooLarge, t.fatal);
    case _ => CommandWork(a, t.input, t.tooLarge, t.fatal);
  }
}
