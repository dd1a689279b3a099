/**
 * What a download is for: if the server sends the file it announced, the file arrives.
 * Chunks may come in any order and more than once, in one round or two, on top of what an
 * earlier attempt left behind. Beside that, exactly which accepts, chunks and ends a
 * download takes.
 */
module HonestDownloads {
  import opened Options
  import opened Chunks
  import opened Download

  // ---- what is taken, and what is refused ----------------------------------------------------

  predicate Usable(job: Job, a: Accept) {
    && GeometryProblem(false, job.requestedChunk, a.chunkSize, a.total, a.size, a.bitmapLen) == None
    && (job.expectedSize.Some? ==> job.expectedSize.value == a.size)
  }

  predicate SameFile(job: Job, a: Accept) {
    a.size == job.size && a.sha256 == job.sha256 && a.chunkSize == job.chunkSize
  }

  /** Chunk `i` is on disk already, as far as trusted resume state says. */
  predicate Resumed(resume: Option<Sidecar>, a: Accept, i: nat) {
    && resume.Some?
    && resume.value.size == a.size && resume.value.sha256 == a.sha256 && resume.value.chunkSize == a.chunkSize
    && |resume.value.bitmap| == 8 * BitmapBytes(a.total) && i < |resume.value.bitmap| && resume.value.bitmap[i]
  }

  /** A first accept is taken if it fits the request, and then resumes exactly what it may. */
  lemma FirstAccept(job: Job, a: Accept)
    requires !job.accepted
    ensures var r := OnAccept(job, a);
            && (r.Started? <==> Usable(job, a)) && (r.BadGeometry? <==> !Usable(job, a))
            && (r.Started? ==>
                  && r.job == job.(id := a.id, size := a.size, chunkSize := a.chunkSize, total := a.total, sha256 := a.sha256,
                                   resume := None, have := r.job.have, accepted := true)
                  && |r.job.have| == a.total as int
                  && (forall i: nat :: i < a.total as int ==> (r.job.have[i] <==> Resumed(job.resume, a, i)))
                  && (r.blank <==> forall i: nat :: i < a.total as int ==> !Resumed(job.resume, a, i)))
  {
    hide GeometryProblem;
  }

  /** A later one only if it is still the same file; what is held stays held. */
  lemma NextAccept(job: Job, a: Accept)
    requires job.accepted
    ensures var r := OnAccept(job, a);
            && (r.Started? <==> Usable(job, a) && SameFile(job, a))
            && (r.FileChanged? <==> Usable(job, a) && !SameFile(job, a))
            && (r.Started? ==> r.job == job.(id := a.id) && !r.blank)
  {
    hide GeometryProblem, ResumedBits;
  }

  /** A chunk is stored exactly if it is one of this transfer, whole, and has its announced hash. */
  lemma DataIsStoredIff(h: Hash, job: Job, d: Data)
    requires job.chunkSize > 0 && |job.have| == job.total
    ensures var r := OnData(h, job, d);
            && (r.Ignored? <==> d.id != job.id)
            && (r.Store? <==>
                  && d.id == job.id && d.index < job.total
                  && |d.data| == ChunkLen(job.size, job.chunkSize, d.index, job.total) && h(d.data) == d.chunkHash)
            && (r.HashMismatch? ==> h(d.data) != d.chunkHash)
            && (r.Store? ==>
                  && r.offset == d.index * job.chunkSize
                  && r.job == job.(have := r.job.have) && |r.job.have| == |job.have|
                  && forall i :: 0 <= i < |job.have| ==> (r.job.have[i] <==> job.have[i] || i == d.index))
  {
    hide ChunkLen;
  }

  /** Missing chunks are asked for once more, and only once. */
  lemma EndOfRound(job: Job)
    ensures var r := OnEnd(job); var all := forall i :: 0 <= i < |job.have| ==> job.have[i];
            && (r.Verify? <==> all)
            && (r.Again? <==> !all && job.round == 0)
            && (r.GiveUp? <==> !all && job.round > 0)
            && (r.Again? ==> r.job == job.(round := 1, requestedChunk := r.job.requestedChunk) && (job.chunkSize < 0x1_0000_0000 ==> r.job.requestedChunk == job.chunkSize))
  {
  }

  // ---- an honest round ---------------------------------------------------------------------------

  /** The chunk is the matching slice of the file, whole and correctly announced. */
  ghost predicate HonestData(h: Hash, job: Job, d: Data, file: Bytes) {
    && job.chunkSize > 0 && d.id == job.id && d.index < job.total && |d.data| == ChunkLen(job.size, job.chunkSize, d.index, job.total)
    && SliceOf(job, d, file) && d.chunkHash == h(d.data)
  }

  function Arrive(ds: seq<Data>): seq<Event> {
    if ds == [] then [] else [Received(ds[0], true)] + Arrive(ds[1..])
  }

  predicate Brought(ds: seq<Data>, i: nat) {
    exists k :: 0 <= k < |ds| && ds[k].index == i
  }

  /** A download receiving chunks of `file`, all it holds so far being the file's. */
  ghost predicate Receiving(s: State, file: Bytes) {
    && Wf(s) && s.phase == Phase.Running && Holds(s.job, s.disk, file)
  }

  /** Nothing but the chunks held and the bytes on disk has changed. */
  predicate OnlyMore(s: State, t: State) {
    t == s.(job := s.job.(have := t.job.have), disk := t.disk)
  }

  lemma OneArrives(h: Hash, s: State, d: Data, file: Bytes)
    requires Receiving(s, file) && HonestData(h, s.job, d, file)
    ensures var t := Step(h, s, Received(d, true));
            && Receiving(t, file) && OnlyMore(s, t) && |t.job.have| == |s.job.have|
            && forall i :: 0 <= i < |s.job.have| ==> (t.job.have[i] <==> s.job.have[i] || i == d.index)
  {
    hide TotalChunks, ChunkLen, WriteAt, Holds, SliceOf;
    DataIsStoredIff(h, s.job, d);
    StepWf(h, s, Received(d, true));
    StoreHolds(h, s.job, s.disk, file, d);
  }

  lemma {:induction false} RoundArrives(h: Hash, s: State, ds: seq<Data>, file: Bytes)
    requires Receiving(s, file) && forall k :: 0 <= k < |ds| ==> HonestData(h, s.job, ds[k], file)
    ensures var t := Run(h, s, Arrive(ds));
            && Receiving(t, file) && OnlyMore(s, t) && |t.job.have| == |s.job.have|
            && forall i :: 0 <= i < |s.job.have| ==> (t.job.have[i] <==> s.job.have[i] || Brought(ds, i))
    decreases |ds|
  {
    hide Step, Wf, Holds, ChunkLen, SliceOf;
    if ds != [] {
      OneArrives(h, s, ds[0], file);
      var s1 := Step(h, s, Received(ds[0], true));
      assert forall k :: 0 <= k < |ds[1..]| ==> HonestData(h, s1.job, ds[1..][k], file) by { SameSlices(h, s, s1, ds, file); }
      RoundArrives(h, s1, ds[1..], file);
      forall i | 0 <= i < |s.job.have| ensures Brought(ds, i) <==> ds[0].index == i || Brought(ds[1..], i) {
        BroughtFirst(ds, i);
      }
      assert Arrive(ds)[1..] == Arrive(ds[1..]);
    }
  }

  lemma BroughtFirst(ds: seq<Data>, i: nat)
    requires ds != []
    ensures Brought(ds, i) <==> ds[0].index == i || Brought(ds[1..], i)
  {
    if Brought(ds, i) && ds[0].index != i {
      var k :| 0 <= k < |ds| && ds[k].index == i;
      assert ds[1..][k - 1] == ds[k];
    }
    if Brought(ds[1..], i) {
      var k :| 0 <= k < |ds[1..]| && ds[1..][k].index == i;
      assert ds[k + 1] == ds[1..][k];
    }
  }

  lemma SameSlices(h: Hash, s: State, t: State, ds: seq<Data>, file: Bytes)
    requires OnlyMore(s, t) && ds != []
    requires forall k :: 0 <= k < |ds| ==> HonestData(h, s.job, ds[k], file)
    ensures forall k :: 0 <= k < |ds[1..]| ==> HonestData(h, t.job, ds[1..][k], file)
  {
    forall k | 0 <= k < |ds[1..]| ensures HonestData(h, t.job, ds[1..][k], file) {
      assert HonestData(h, s.job, ds[k + 1], file);
      SameSlice(s.job, t.job, ds[k + 1], file);
    }
  }

  lemma SameSlice(job: Job, other: Job, d: Data, file: Bytes)
    requires SliceOf(job, d, file) && other.chunkSize == job.chunkSize
    ensures SliceOf(other, d, file)
  {
    assert d.index * other.chunkSize == d.index * job.chunkSize;
  }

  // ---- the end of it --------------------------------------------------------------------------------

  function Closing(id: Id): seq<Event> {
    [Ended(id, true, true), Event.Hashed(true), Lands(true), Reported]
  }

  /** With every chunk held, the end, the hash and the move make it the file at the destination. */
  lemma CompleteArrives(h: Hash, s: State, file: Bytes)
    requires Receiving(s, file) && AllSet(s.job.have) && s.job.sha256 == h(file)
    ensures var t := Run(h, s, Closing(s.job.id));
            t.phase == Finished(true) && t.dest == Some(file) && t.requests == s.requests
  {
    hide TotalChunks, ChunkLen, Holds, OnAccept, OnData;
    CompleteIsFile(s.job, s.disk, file);
    HoldsSize(s.job, s.disk, file);
    var es := Closing(s.job.id);
    var s1 := Step(h, s, es[0]);
    StepWf(h, s, es[0]);
    assert s1 == s.(phase := Hashing);
    var s2 := Step(h, s1, es[1]);
    StepWf(h, s1, es[1]);
    assert s2 == s1.(disk := file, phase := Publishing, mover := Out);
    var s3 := Step(h, s2, es[2]);
    StepWf(h, s2, es[2]);
    Four(h, s, es, s1, s2, s3);
  }

  lemma Four(h: Hash, s: State, es: seq<Event>, s1: State, s2: State, s3: State)
    requires |es| == 4 && Wf(s) && Wf(s1) && Wf(s2) && Wf(s3)
    requires s1 == Step(h, s, es[0]) && s2 == Step(h, s1, es[1]) && s3 == Step(h, s2, es[2])
    ensures Run(h, s, es) == Step(h, s3, es[3])
  {
    hide Step, Wf;
    RunOne(h, s3, es[3]);
    assert es[3..] == [es[3]];
    assert es[2..][1..] == es[3..] && Run(h, s2, es[2..]) == Run(h, s3, es[3..]);
    assert es[1..][1..] == es[2..] && Run(h, s1, es[1..]) == Run(h, s2, es[2..]);
  }

  /** The server announces this file. */
  ghost predicate Announces(h: Hash, a: Accept, file: Bytes) {
    a.size == |file| && a.sha256 == h(file)
  }

  function Taken(job: Job, a: Accept): Job {
    OnAccept(job, a).job
  }

  /** The first accept of an honest server, on a partial that holds what resume state claims. */
  lemma FirstAcceptReceives(h: Hash, job: Job, disk: Bytes, a: Accept, file: Bytes)
    requires !job.accepted && job.round == 0 && Usable(job, a) && Announces(h, a, file) && ResumeHolds(job.resume, disk, file)
    ensures Wf(Initial(job, disk))
    ensures var s := Step(h, Initial(job, disk), Accepted(a, true));
            && Receiving(s, file) && s.job == Taken(job, a) && s.requests == 1 && s.job.round == 0 && s.dest == None && s.job.sha256 == h(file)
  {
    hide TotalChunks, Holds, ResumeHolds, GeometryProblem, ResumedBits;
    FirstAccept(job, a);
    StepWf(h, Initial(job, disk), Accepted(a, true));
    AcceptHolds(job, a, disk, file);
  }

  /** One round: every chunk that is not resumed arrives. Then the download succeeds. */
  lemma HonestDownloadSucceeds(h: Hash, job: Job, disk: Bytes, a: Accept, ds: seq<Data>, file: Bytes)
    requires !job.accepted && job.round == 0 && Usable(job, a) && Announces(h, a, file) && ResumeHolds(job.resume, disk, file)
    requires forall k :: 0 <= k < |ds| ==> HonestData(h, Taken(job, a), ds[k], file)
    requires forall i: nat :: i < a.total as int ==> Resumed(job.resume, a, i) || Brought(ds, i)
    ensures var t := Run(h, Initial(job, disk), [Accepted(a, true)] + Arrive(ds) + Closing(a.id));
            t.phase == Finished(true) && t.dest == Some(file) && t.requests == 1
  {
    hide Step, Wf, Holds, HonestData, Closing, Usable, Resumed, Brought, ResumeHolds;
    var s0 := Initial(job, disk);
    FirstAcceptReceives(h, job, disk, a, file);
    TakenIs(job, a);
    var s1 := Step(h, s0, Accepted(a, true));
    RunOne(h, s0, Accepted(a, true));
    RoundArrives(h, s1, ds, file);
    var s2 := Run(h, s1, Arrive(ds));
    CompleteArrives(h, s2, file);
    RunConcat(h, s0, [Accepted(a, true)], Arrive(ds));
    RunConcat(h, s0, [Accepted(a, true)] + Arrive(ds), Closing(a.id));
  }

  lemma TakenIs(job: Job, a: Accept)
    requires !job.accepted && Usable(job, a)
    ensures var j := Taken(job, a); j.id == a.id && j.total == a.total as int && |j.have| == a.total as int && j.chunkSize == a.chunkSize as int
    ensures forall i: nat :: i < a.total as int ==> (Taken(job, a).have[i] <==> Resumed(job.resume, a, i))
  {
    FirstAccept(job, a);
  }

  lemma RunOne(h: Hash, s: State, e: Event)
    requires Wf(s)
    ensures Run(h, s, [e]) == Step(h, s, e)
  {
    hide Step, Wf;
    StepWf(h, s, e);
    assert [e][1..] == [];
  }

  /** Two rounds: what the first left out arrives in the second, under the id of its own accept. */
  lemma SecondRoundSucceeds(h: Hash, job: Job, disk: Bytes, a: Accept, ds: seq<Data>, b: Accept, es: seq<Data>, file: Bytes)
    requires !job.accepted && job.round == 0 && Usable(job, a) && Announces(h, a, file) && ResumeHolds(job.resume, disk, file)
    requires forall k :: 0 <= k < |ds| ==> HonestData(h, Taken(job, a), ds[k], file)
    requires exists i: nat :: i < a.total as int && !Resumed(job.resume, a, i) && !Brought(ds, i)
    requires b.size == a.size && b.sha256 == a.sha256 && b.chunkSize == a.chunkSize && b.total == a.total && b.bitmapLen <= BitmapBytes(a.total)
    requires forall k :: 0 <= k < |es| ==> HonestData(h, Taken(job, a).(id := b.id), es[k], file)
    requires forall i: nat :: i < a.total as int ==> Resumed(job.resume, a, i) || Brought(ds, i) || Brought(es, i)
    ensures var first := [Accepted(a, true)] + Arrive(ds) + [Ended(a.id, true, true)];
            var t := Run(h, Initial(job, disk), first + ([Accepted(b, true)] + Arrive(es) + Closing(b.id)));
            t.phase == Finished(true) && t.dest == Some(file) && t.requests == 2
  {
    hide Step, Wf, Holds, HonestData, Closing, Usable, Resumed, Brought, ResumeHolds;
    var s0 := Initial(job, disk);
    FirstAcceptReceives(h, job, disk, a, file);
    TakenIs(job, a);
    var s1 := Step(h, s0, Accepted(a, true));
    RunOne(h, s0, Accepted(a, true));
    RoundArrives(h, s1, ds, file);
    var s2 := Run(h, s1, Arrive(ds));
    RunConcat(h, s0, [Accepted(a, true)], Arrive(ds));
    var i: nat :| i < a.total as int && !Resumed(job.resume, a, i) && !Brought(ds, i);
    assert !s2.job.have[i];
    AsksAgain(h, s2, b, file, job, a);
    var s3 := Step(h, s2, Ended(a.id, true, true));
    var s4 := Step(h, s3, Accepted(b, true));
    RunOne(h, s2, Ended(a.id, true, true));
    RunConcat(h, s0, [Accepted(a, true)] + Arrive(ds), [Ended(a.id, true, true)]);
    RunOne(h, s3, Accepted(b, true));
    SameForAll(h, s1, s4, b.id, es, file);
    RoundArrives(h, s4, es, file);
    var s5 := Run(h, s4, Arrive(es));
    CompleteArrives(h, s5, file);
    RunConcat(h, s3, [Accepted(b, true)], Arrive(es));
    RunConcat(h, s3, [Accepted(b, true)] + Arrive(es), Closing(b.id));
    var first := [Accepted(a, true)] + Arrive(ds) + [Ended(a.id, true, true)];
    RunConcat(h, s0, first, [Accepted(b, true)] + Arrive(es) + Closing(b.id));
  }

  lemma SameForAll(h: Hash, s: State, t: State, id: Id, es: seq<Data>, file: Bytes)
    requires t.job.id == id
    requires t.job.size == s.job.size && t.job.chunkSize == s.job.chunkSize && t.job.total == s.job.total
    requires forall k :: 0 <= k < |es| ==> HonestData(h, s.job.(id := id), es[k], file)
    ensures forall k :: 0 <= k < |es| ==> HonestData(h, t.job, es[k], file)
  {
    hide ChunkLen;
    forall k | 0 <= k < |es| ensures HonestData(h, t.job, es[k], file) {
      assert HonestData(h, s.job.(id := id), es[k], file);
      SameSlice(s.job.(id := id), t.job, es[k], file);
    }
  }

  /** The first round's end with a chunk missing, and the accept of the second. */
  lemma AsksAgain(h: Hash, s: State, b: Accept, file: Bytes, job: Job, a: Accept)
    requires Receiving(s, file) && !AllSet(s.job.have) && s.job.round == 0 && s.job.id == a.id
    requires !job.accepted && Usable(job, a)
    requires s.job == Taken(job, a).(have := s.job.have)
    requires b.size == a.size && b.sha256 == a.sha256 && b.chunkSize == a.chunkSize && b.total == a.total && b.bitmapLen <= BitmapBytes(a.total)
    ensures var t := Step(h, s, Ended(a.id, true, true));
            && Wf(t) && t.requests == s.requests + 1
            && var u := Step(h, t, Accepted(b, true));
               && Receiving(u, file) && u.job.have == s.job.have && u.job.id == b.id && u.job.sha256 == s.job.sha256 && u.requests == t.requests
               && u.job.size == s.job.size && u.job.chunkSize == s.job.chunkSize && u.job.total == s.job.total
  {
    hide TotalChunks, Holds, ResumedBits, OnData, BitmapBytes;
    FirstAccept(job, a);
    var t := Step(h, s, Ended(a.id, true, true));
    StepWf(h, s, Ended(a.id, true, true));
    NextAccept(t.job, b);
    StepWf(h, t, Accepted(b, true));
    var u := Step(h, t, Accepted(b, true));
    SameHolds(s.job, u.job, s.disk, file);
  }
}
