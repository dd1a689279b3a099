/**
 * One download, from its request to the published file: the accepted geometry,
 * chunks written at their offsets in any order, one follow-up round for chunks
 * the server skipped, the whole-file hash, and the move to the destination.
 * The hash function is a parameter; the partial file is a byte sequence.
 *
 * The move is the work of a background job. It goes through or not at a time of its
 * own, its report comes later, and a download that is given up meanwhile does not
 * stop it.
 */
module Download {
  import opened Options
  import opened Chunks

  type Digest = nat
  type Hash = Bytes -> Digest
  type Id = nat

  const MAX_DOWNLOAD_ROUNDS := 2

  /** Resume state that matched this server, path and destination. */
  datatype Sidecar = Sidecar(size: nat, chunkSize: nat, sha256: Digest, bitmap: seq<bool>)

  datatype Accept = Accept(id: Id, chunkSize: U32, total: U32, size: nat, sha256: Digest, haveBits: seq<bool>, bitmapLen: nat)

  datatype Data = Data(id: Id, index: nat, chunkHash: Digest, data: Bytes)

  datatype Job = Job(
    expectedSize: Option<nat>,
    requestedChunk: U32,
    resume: Option<Sidecar>,
    accepted: bool,
    round: nat,
    id: Id,
    size: nat,
    chunkSize: nat,
    total: nat,
    sha256: Digest,
    have: seq<bool>)

  function NewJob(expectedSize: Option<nat>, requestedChunk: U32, resume: Option<Sidecar>): Job {
    Job(expectedSize, requestedChunk, resume, false, 0, 0, 0, requestedChunk, 0, 0, [])
  }

  // ---- the accept -----------------------------------------------------------------

  datatype AcceptResult =
    | Started(job: Job, blank: bool)
    | BadGeometry(job: Job)
    | FileChanged(job: Job)

  function Falses(n: nat): (b: seq<bool>)
    ensures |b| == n
  {
    seq(n, _ => false)
  }

  /** The chunks local resume state vouches for, if it describes this exact file. */
  function ResumedBits(resume: Option<Sidecar>, a: Accept): (b: seq<bool>)
    ensures |b| == a.total
  {
    match resume
    case Some(sc) =>
      if sc.size == a.size && sc.sha256 == a.sha256 && sc.chunkSize == a.chunkSize
         && |sc.bitmap| == 8 * BitmapBytes(a.total)
      then sc.bitmap[..a.total] else Falses(a.total)
    case None => Falses(a.total)
  }

  predicate NoneSet(bits: seq<bool>) {
    forall i :: 0 <= i < |bits| ==> !bits[i]
  }

  predicate AllSet(bits: seq<bool>) {
    forall i :: 0 <= i < |bits| ==> bits[i]
  }

  predicate AcceptProblem(job: Job, a: Accept) {
    || GeometryProblem(false, job.requestedChunk, a.chunkSize, a.total, a.size, a.bitmapLen) != None
    || (job.expectedSize.Some? && job.expectedSize.value != a.size)
  }

  function OnAccept(job: Job, a: Accept): AcceptResult {
    var same := a.size == job.size && a.sha256 == job.sha256 && a.chunkSize == job.chunkSize;
    if AcceptProblem(job, a) then BadGeometry(job.(id := a.id))
    else if job.accepted && !same then FileChanged(job.(id := a.id))
    else if job.accepted then Started(job.(id := a.id), false)
    else
      var have := ResumedBits(job.resume, a);
      Started(job.(id := a.id, size := a.size, chunkSize := a.chunkSize, total := a.total, sha256 := a.sha256,
                   resume := None, have := have, accepted := true),
              NoneSet(have))
  }

  // ---- data -------------------------------------------------------------------------

  datatype DataResult = Ignored | Malformed | HashMismatch | Store(offset: nat, job: Job)

  function OnData(h: Hash, job: Job, d: Data): DataResult
    requires job.chunkSize > 0 && |job.have| == job.total
  {
    if d.id != job.id then Ignored
    else if d.index >= job.total || |d.data| != ChunkLen(job.size, job.chunkSize, d.index, job.total) then Malformed
    else if h(d.data) != d.chunkHash then HashMismatch
    else Store(d.index * job.chunkSize, job.(have := job.have[d.index := true]))
  }

  /** Write at an offset; a gap past the old end reads as zeros. */
  function WriteAt(disk: Bytes, offset: nat, data: Bytes): (r: Bytes)
    ensures forall p :: 0 <= p < |data| ==> offset + p < |r| && r[offset + p] == data[p]
    ensures forall p :: 0 <= p < |disk| && !(offset <= p < offset + |data|) ==> p < |r| && r[p] == disk[p]
  {
    var end := offset + |data|;
    seq(if end > |disk| then end else |disk|, p requires p >= 0 =>
      if offset <= p < end then data[p - offset] else if p < |disk| then disk[p] else 0)
  }

  // ---- the server's end ----------------------------------------------------------------

  datatype EndResult = Again(job: Job) | GiveUp | Verify

  function OnEnd(job: Job): EndResult {
    if AllSet(job.have) then Verify
    else if job.round + 1 < MAX_DOWNLOAD_ROUNDS then Again(job.(round := job.round + 1, requestedChunk := job.chunkSize % 0x1_0000_0000))
    else GiveUp
  }

  // ---- the whole download -----------------------------------------------------------------

  datatype Phase = Awaiting | Running | Hashing | Publishing | Finished(ok: bool)

  /** The Publish job: not started, out, or over with its move done or not. */
  datatype Mover = Unsent | Out | Over(ok: bool)

  datatype State = State(
    job: Job, phase: Phase, disk: Bytes, dest: Option<Bytes>, requests: nat,
    mover: Mover,
    left: bool)      // ended otherwise than by the report of the Publish job, once that was started

  datatype Event =
    | Accepted(accept: Accept, canOpen: bool)
    | Received(data: Data, written: bool)
    | Ended(id: Id, verified: bool, flushed: bool)
    | Hashed(readable: bool)
    | Lands(ok: bool)
    | Reported
    | Failed

  const Failure := Finished(false)

  function Step(h: Hash, s: State, e: Event): State
    requires Wf(s)
  {
    match (s.phase, e)
    case (_, Lands(ok)) =>
      if s.mover != Out then s
      else s.(mover := Over(ok), dest := if ok then Some(s.disk) else s.dest)
    case (Finished(_), _) => s
    case (_, Failed) => s.(phase := Failure, left := s.phase == Publishing)
    case (Awaiting, Accepted(a, canOpen)) => (
      match OnAccept(s.job, a)
      case BadGeometry(job) => s.(job := job, phase := Failure)
      case FileChanged(job) => s.(job := job, phase := Failure)
      case Started(job, blank) =>
        if !s.job.accepted && !canOpen then s.(phase := Failure)
        else s.(job := job, phase := Running, disk := if blank && !s.job.accepted then [] else s.disk)
    )
    case (Running, Received(d, written)) => (
      match OnData(h, s.job, d)
      case Ignored => s
      case Malformed => s.(phase := Failure)
      case HashMismatch => s.(phase := Failure)
      case Store(offset, job) =>
        if !written then s.(phase := Failure)
        else s.(job := job, disk := WriteAt(s.disk, offset, d.data))
    )
    case (Running, Ended(id, verified, flushed)) =>
      if id != s.job.id then s
      else if !verified || !flushed then s.(phase := Failure)
      else (
        match OnEnd(s.job)
        case Again(job) => s.(job := job, phase := Awaiting, requests := s.requests + 1)
        case GiveUp => s.(phase := Failure)
        case Verify => s.(phase := Hashing)
      )
    case (Hashing, Hashed(readable)) =>
      if !readable || |s.disk| < s.job.size then s.(phase := Failure)
      else if h(s.disk[..s.job.size]) != s.job.sha256 then s.(disk := s.disk[..s.job.size], phase := Failure)
      else s.(disk := s.disk[..s.job.size], phase := Publishing, mover := Out)
    case (Publishing, Reported) =>
      // A job reports when it is over.
      if s.mover == Out then s else s.(phase := Finished(s.mover.ok))
    case _ => s
  }

  function Run(h: Hash, s: State, es: seq<Event>): (r: State)
    requires Wf(s)
    ensures Wf(r)
    decreases |es|
  {
    if es == [] then s
    else
      StepWf(h, s, es[0]);
      Run(h, Step(h, s, es[0]), es[1..])
  }

  /** Once accepted, the geometry is a valid one and the bitmap is as long as it. */
  predicate Wf(s: State) {
    && (s.job.accepted ==> Geometry(s.job.size, s.job.chunkSize, s.job.total) && |s.job.have| == s.job.total)
    && (s.phase in {Running, Hashing, Publishing} || s.mover == Out ==> s.job.accepted)
    && (s.phase == Hashing || s.phase == Publishing || s.mover == Out ==> AllSet(s.job.have))
    && (s.phase == Publishing || s.mover == Out ==> |s.disk| == s.job.size)
    && (s.phase in {Awaiting, Running, Hashing} ==> s.mover == Unsent && !s.left)
    && (s.phase == Publishing ==> s.mover != Unsent && !s.left)
    && s.requests == s.job.round + 1 <= MAX_DOWNLOAD_ROUNDS
  }

  function Initial(job: Job, disk: Bytes): State
    requires !job.accepted && job.round == 0
  {
    State(job, Awaiting, disk, None, 1, Unsent, false)
  }

  lemma StepWf(h: Hash, s: State, e: Event)
    requires Wf(s)
    ensures Wf(Step(h, s, e))
  {
    hide TotalChunks, ChunkLen;
  }

  // ---- progress only ever grows ------------------------------------------------------------

  predicate Grows(a: seq<bool>, b: seq<bool>) {
    |a| <= |b| && forall i :: 0 <= i < |a| && a[i] ==> b[i]
  }

  /** What holds of the job from one state to a later one. */
  predicate Progresses(s: State, t: State) {
    && s.requests <= t.requests <= MAX_DOWNLOAD_ROUNDS
    && (s.job.accepted ==>
          && Grows(s.job.have, t.job.have)
          && t.job.accepted && t.job.size == s.job.size && t.job.chunkSize == s.job.chunkSize
          && t.job.total == s.job.total && t.job.sha256 == s.job.sha256)
  }

  lemma StepProgresses(h: Hash, s: State, e: Event)
    requires Wf(s)
    ensures Progresses(s, Step(h, s, e))
  {
    hide TotalChunks, ChunkLen, WriteAt, AllSet;
    StepWf(h, s, e);
  }

  lemma {:induction false} ProgressGrows(h: Hash, s: State, es: seq<Event>)
    requires Wf(s)
    ensures Progresses(s, Run(h, s, es))
    decreases |es|
  {
    hide Step, Geometry;
    if es != [] {
      StepWf(h, s, es[0]);
      StepProgresses(h, s, es[0]);
      ProgressGrows(h, Step(h, s, es[0]), es[1..]);
    }
  }

  // ---- the published file is a verified one ---------------------------------------------------

  /** Whatever the server sends: a file is at the destination exactly if the Publish job's
      move went through, which is only ever started once every chunk was held and the
      hash matched; what it moved has exactly `size` bytes with the announced digest. */
  ghost predicate Published(h: Hash, s: State) {
    && (s.dest.Some? <==> s.mover == Over(true))
    && (s.mover != Unsent ==> s.job.accepted && AllSet(s.job.have))
    && (s.mover == Out ==> h(s.disk) == s.job.sha256)
    && (s.dest.Some? ==> |s.dest.value| == s.job.size && h(s.dest.value) == s.job.sha256)
    && (s.phase == Finished(true) ==> s.dest.Some?)
    && (s.left ==> s.phase == Failure)
    && (s.phase == Failure && s.mover != Unsent && s.mover != Over(false) ==> s.left)
  }

  lemma {:induction false} OnlyVerifiedIsPublished(h: Hash, s: State, es: seq<Event>)
    requires Wf(s) && Published(h, s)
    ensures Published(h, Run(h, s, es))
    decreases |es|
  {
    hide Step, Wf, Published;
    if es != [] {
      StepWf(h, s, es[0]);
      PublishedStep(h, s, es[0]);
      OnlyVerifiedIsPublished(h, Step(h, s, es[0]), es[1..]);
    }
  }

  lemma PublishedStep(h: Hash, s: State, e: Event)
    requires Wf(s) && Published(h, s)
    ensures Published(h, Step(h, s, e))
  {
    hide TotalChunks, ChunkLen, WriteAt, AllSet;
  }

  /** A file is at the destination of a failed download exactly if the download was given up
      after its Publish job was started, and that job's move went through all the same. */
  lemma PublishedWithoutSuccessIff(h: Hash, s: State, es: seq<Event>)
    requires Wf(s) && Published(h, s)
    ensures var t := Run(h, s, es);
            t.dest.Some? && t.phase == Failure <==> t.left && t.mover == Over(true)
  {
    OnlyVerifiedIsPublished(h, s, es);
  }

  // ---- contents ----------------------------------------------------------------------------------

  /** Every position of a chunk marked as held carries the file's byte. */
  ghost predicate Holds(job: Job, disk: Bytes, file: Bytes)
    requires Geometry(job.size, job.chunkSize, job.total) && |job.have| == job.total
  {
    && |file| == job.size
    && forall p :: 0 <= p < job.size ==> HeldAt(job, p) ==> p < |disk| && disk[p] == file[p]
  }

  predicate HeldAt(job: Job, p: nat)
    requires job.chunkSize > 0
  {
    var c := Cell(p, job.chunkSize);
    c < |job.have| && job.have[c]
  }

  /** A chunk that is the matching slice of one file. */
  ghost predicate SliceOf(job: Job, d: Data, file: Bytes) {
    forall k :: 0 <= k < |d.data| ==>
      d.index * job.chunkSize + k < |file| && d.data[k] == file[d.index * job.chunkSize + k]
  }

  lemma StoreHolds(h: Hash, job: Job, disk: Bytes, file: Bytes, d: Data)
    requires Geometry(job.size, job.chunkSize, job.total) && |job.have| == job.total
    requires Holds(job, disk, file)
    requires OnData(h, job, d).Store? && SliceOf(job, d, file)
    ensures var r := OnData(h, job, d); Holds(r.job, WriteAt(disk, r.offset, d.data), file)
  {
    hide TotalChunks, ChunkLen, WriteAt, Cell;
    var r := OnData(h, job, d);
    var offset := d.index * job.chunkSize;
    var after := WriteAt(disk, offset, d.data);
    forall p | 0 <= p < job.size && HeldAt(r.job, p)
      ensures p < |after| && after[p] == file[p]
    {
      ChunksTile(job.size, job.chunkSize, job.total, p, d.index);
      StoredByte(job, disk, after, file, d, offset, p);
    }
  }

  lemma StoredByte(job: Job, disk: Bytes, after: Bytes, file: Bytes, d: Data, offset: nat, p: nat)
    requires job.chunkSize > 0 && p < |file| && d.index < |job.have|
    requires offset == d.index * job.chunkSize && after == WriteAt(disk, offset, d.data)
    requires SliceOf(job, d, file)
    requires offset <= p < offset + |d.data| <==> d.index == Cell(p, job.chunkSize)
    requires HeldAt(job.(have := job.have[d.index := true]), p)
    requires HeldAt(job, p) ==> p < |disk| && disk[p] == file[p]
    ensures p < |after| && after[p] == file[p]
  {
    hide WriteAt, Cell;
    if offset <= p < offset + |d.data| {
      var k := p - offset;
      assert after[offset + k] == d.data[k];
      assert d.data[k] == file[d.index * job.chunkSize + k];
    } else {
      assert HeldAt(job, p);
    }
  }

  lemma HeldByte(job: Job, disk: Bytes, file: Bytes, p: nat)
    requires Geometry(job.size, job.chunkSize, job.total) && |job.have| == job.total
    requires Holds(job, disk, file) && AllSet(job.have) && p < job.size
    ensures p < |disk| && disk[p] == file[p]
  {
    hide TotalChunks, ChunkLen, Cell;
    ChunksTile(job.size, job.chunkSize, job.total, p, Cell(p, job.chunkSize));
    assert HeldAt(job, p);
  }

  lemma CompleteIsFile(job: Job, disk: Bytes, file: Bytes)
    requires Geometry(job.size, job.chunkSize, job.total) && |job.have| == job.total
    requires Holds(job, disk, file) && AllSet(job.have)
    ensures |disk| >= job.size && disk[..job.size] == file
  {
    hide TotalChunks, ChunkLen, Cell, AllSet, HeldAt;
    if job.size > 0 {
      HeldByte(job, disk, file, job.size - 1);
    }
    forall p | 0 <= p < job.size
      ensures disk[p] == file[p]
    {
      HeldByte(job, disk, file, p);
    }
  }

  /** The assumption on a run: data accepted for this download is the matching slice
      of `file`, and the announced size is the file's. */
  ghost predicate Faithful(h: Hash, s: State, es: seq<Event>, file: Bytes)
    requires Wf(s)
    decreases |es|
  {
    es != [] ==>
      var e := es[0];
      && (s.phase == Running && e.Received? && OnData(h, s.job, e.data).Store? ==> SliceOf(s.job, e.data, file))
      && (s.phase == Awaiting && e.Accepted? && OnAccept(s.job, e.accept).Started? ==> e.accept.size == |file|)
      && (StepWf(h, s, e); Faithful(h, Step(h, s, e), es[1..], file))
  }

  ghost predicate Contents(s: State, file: Bytes)
    requires Wf(s)
  {
    if s.job.accepted then (s.phase.Finished? && s.mover != Out) || Holds(s.job, s.disk, file)
    else ResumeHolds(s.job.resume, s.disk, file)
  }

  /** Resume state is trusted only if the partial really holds what it claims. */
  ghost predicate ResumeHolds(resume: Option<Sidecar>, disk: Bytes, file: Bytes) {
    forall p: nat :: p < |file| && ClaimedAt(resume, |file|, p) ==> p < |disk| && disk[p] == file[p]
  }

  predicate ClaimedAt(resume: Option<Sidecar>, size: nat, p: nat) {
    && resume.Some? && resume.value.size == size && resume.value.chunkSize > 0
    && Cell(p, resume.value.chunkSize) < |resume.value.bitmap|
    && resume.value.bitmap[Cell(p, resume.value.chunkSize)]
  }

  lemma ContentsOnData(h: Hash, s: State, e: Event, file: Bytes)
    requires Wf(s) && Contents(s, file) && s.phase == Running && e.Received?
    requires OnData(h, s.job, e.data).Store? ==> SliceOf(s.job, e.data, file)
    ensures Wf(Step(h, s, e)) && Contents(Step(h, s, e), file)
  {
    hide TotalChunks, ChunkLen, WriteAt, Holds, Cell;
    StepWf(h, s, e);
    if OnData(h, s.job, e.data).Store? {
      StoreHolds(h, s.job, s.disk, file, e.data);
    }
  }

  lemma ContentsOnAccept(h: Hash, s: State, e: Event, file: Bytes)
    requires Wf(s) && Contents(s, file) && s.phase == Awaiting && e.Accepted?
    requires OnAccept(s.job, e.accept).Started? ==> e.accept.size == |file|
    ensures Wf(Step(h, s, e)) && Contents(Step(h, s, e), file)
  {
    hide TotalChunks, ChunkLen, Holds, ResumeHolds, ResumedBits, NoneSet;
    StepWf(h, s, e);
    if OnAccept(s.job, e.accept).Started? {
      if s.job.accepted {
        SameHolds(s.job, s.job.(id := e.accept.id), s.disk, file);
      } else {
        AcceptHolds(s.job, e.accept, s.disk, file);
      }
    }
  }

  /** What the partial holds depends on nothing but geometry and bitmap. */
  lemma SameHolds(job: Job, other: Job, disk: Bytes, file: Bytes)
    requires Geometry(job.size, job.chunkSize, job.total) && |job.have| == job.total
    requires other.size == job.size && other.chunkSize == job.chunkSize && other.total == job.total && other.have == job.have
    requires Holds(job, disk, file)
    ensures Holds(other, disk, file)
  {
    hide TotalChunks, Cell;
    assert forall p :: 0 <= p < job.size ==> HeldAt(other, p) == HeldAt(job, p);
  }

  lemma ContentsOtherwise(h: Hash, s: State, e: Event, file: Bytes)
    requires Wf(s) && Contents(s, file)
    requires !(s.phase == Running && e.Received?) && !(s.phase == Awaiting && e.Accepted?)
    ensures Wf(Step(h, s, e)) && Contents(Step(h, s, e), file)
  {
    hide TotalChunks, ChunkLen, OnAccept, OnData, Holds, ResumeHolds, AllSet;
    StepWf(h, s, e);
    if s.phase == Hashing && e.Hashed? {
      CompleteIsFile(s.job, s.disk, file);
      TrimmedHolds(s.job, s.disk, file);
    } else if s.phase == Running && e.Ended? && OnEnd(s.job).Again? {
      SameHolds(s.job, OnEnd(s.job).job, s.disk, file);
    }
  }

  lemma TrimmedHolds(job: Job, disk: Bytes, file: Bytes)
    requires Geometry(job.size, job.chunkSize, job.total) && |job.have| == job.total
    requires Holds(job, disk, file) && |disk| >= job.size
    ensures Holds(job, disk[..job.size], file)
  {
    hide TotalChunks, Cell;
  }

  lemma ContentsStep(h: Hash, s: State, e: Event, file: Bytes)
    requires Wf(s) && Contents(s, file)
    requires s.phase == Running && e.Received? && OnData(h, s.job, e.data).Store? ==> SliceOf(s.job, e.data, file)
    requires s.phase == Awaiting && e.Accepted? && OnAccept(s.job, e.accept).Started? ==> e.accept.size == |file|
    ensures Wf(Step(h, s, e)) && Contents(Step(h, s, e), file)
  {
    hide Step, Contents, OnAccept, OnData;
    if s.phase == Running && e.Received? {
      ContentsOnData(h, s, e, file);
    } else if s.phase == Awaiting && e.Accepted? {
      ContentsOnAccept(h, s, e, file);
    } else {
      ContentsOtherwise(h, s, e, file);
    }
  }

  lemma AcceptHolds(job: Job, a: Accept, disk: Bytes, file: Bytes)
    requires !job.accepted && OnAccept(job, a).Started? && a.size == |file|
    requires ResumeHolds(job.resume, disk, file)
    ensures var r := OnAccept(job, a);
            Holds(r.job, if r.blank then [] else disk, file)
  {
    hide TotalChunks, ChunkLen;
    var r := OnAccept(job, a);
    var after := if r.blank then [] else disk;
    forall p | 0 <= p < r.job.size && HeldAt(r.job, p)
      ensures p < |after| && after[p] == file[p]
    {
      var c := Cell(p, a.chunkSize);
      assert r.job.have[c] && job.resume.Some?;
      var sc := job.resume.value;
      assert sc.bitmap[c];
      assert ClaimedAt(job.resume, |file|, p);
    }
  }

  /** Any order, repeats, one round or two: once every chunk is held the partial is
      exactly the file, so its hash decides nothing but the announced digest. */
  lemma {:induction false} CompletePartialIsTheFile(h: Hash, s: State, es: seq<Event>, file: Bytes)
    requires Wf(s) && Contents(s, file) && Faithful(h, s, es, file)
    requires s.dest.Some? ==> s.dest.value == file
    ensures var t := Run(h, s, es);
            && Wf(t) && Contents(t, file)
            && (t.phase == Hashing ==> |t.disk| >= |file| && t.disk[..|file|] == file)
            && (t.phase == Publishing ==> t.disk == file)
            && (t.dest.Some? ==> t.dest.value == file)
    decreases |es|
  {
    hide TotalChunks, ChunkLen, Contents, Holds, Step, AllSet;
    if es == [] {
      CompleteNow(s, file);
    } else {
      ContentsStep(h, s, es[0], file);
      PublishesTheFile(h, s, es[0], file);
      CompletePartialIsTheFile(h, Step(h, s, es[0]), es[1..], file);
    }
  }

  lemma CompleteNow(s: State, file: Bytes)
    requires Wf(s) && Contents(s, file)
    ensures s.phase == Hashing ==> |s.disk| >= |file| && s.disk[..|file|] == file
    ensures s.phase == Publishing || s.mover == Out ==> s.disk == file
  {
    hide TotalChunks, ChunkLen, Holds;
    if s.phase == Hashing || s.phase == Publishing || s.mover == Out {
      HoldsSize(s.job, s.disk, file);
      CompleteIsFile(s.job, s.disk, file);
    }
  }

  lemma HoldsSize(job: Job, disk: Bytes, file: Bytes)
    requires Geometry(job.size, job.chunkSize, job.total) && |job.have| == job.total && Holds(job, disk, file)
    ensures |file| == job.size
  {
  }

  lemma PublishesTheFile(h: Hash, s: State, e: Event, file: Bytes)
    requires Wf(s) && Contents(s, file) && (s.dest.Some? ==> s.dest.value == file)
    ensures var t := Step(h, s, e); t.dest.Some? ==> t.dest.value == file
  {
    hide TotalChunks, ChunkLen, Contents, OnAccept, OnData, OnEnd, AllSet, WriteAt;
    CompleteNow(s, file);
  }

  lemma {:induction false} RunConcat(h: Hash, s: State, es: seq<Event>, fs: seq<Event>)
    requires Wf(s)
    ensures Run(h, s, es + fs) == Run(h, Run(h, s, es), fs)
    decreases |es|
  {
    hide Step, Wf;
    if es == [] {
      assert es + fs == fs;
    } else {
      StepWf(h, s, es[0]);
      assert (es + fs)[1..] == es[1..] + fs;
      RunConcat(h, Step(h, s, es[0]), es[1..], fs);
    }
  }
}
