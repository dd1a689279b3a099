/**
 * The partial file that all downloads of one remote file to one place share, with the
 * background jobs that work on it. A job belongs to a transfer but outlives it: giving up a
 * transfer drops the actor's handle on its job, and the job still trims the partial or
 * moves it to the destination, whatever the next download has made of it meanwhile.
 *
 * Shown here: as long as no download of this file starts while an earlier one's job is
 * still out, whatever reaches the destination is a verified file; and a run that
 * breaks this rule and publishes bytes nobody announced.
 */
module Partials {
  import opened Options
  import opened Chunks
  import opened Actor
  import opened ActorRuns
  import opened ActorTransfers
  import ActorDownloads
  import Download

  // ---- the shared state ------------------------------------------------------------------

  /** A background job on the partial, with the size and digest its transfer was promised. */
  datatype Errand = Errand(gen: nat, moves: bool, size: nat, sha256: Download.Digest)

  /** What a job put at the destination. */
  datatype Landed = Landed(bytes: Bytes, of: Errand)

  datatype Site = Site(
    client: State,
    mine: set<nat>,              // the generations that download this file to this place
    disk: Option<Bytes>,         // the partial
    dest: Option<Landed>,        // the destination, once a job has moved a file there
    follows: bool,               // the open handle's file has been moved to the destination
    out: set<Errand>,            // jobs not over yet
    reports: map<Errand, Done>)  // what the others have to report

  datatype Event =
    | Turn(tick: Tick, here: bool, keep: bool)
    | Trims(job: Errand)
    | Ends(job: Errand, ok: bool)

  predicate Own(s: Site) {
    s.client.transfer.Some? && s.client.transfer.value.job.Fetch? && s.client.transfer.value.gen in s.mine
  }

  /** The current download's background job, if it has one. */
  function JobOf(a: State): Option<Errand> {
    if a.transfer.None? || !a.transfer.value.job.Fetch? || a.blocking.None? || a.blocking.value.UploadPrep? then None
    else
      var d := a.transfer.value.job.down;
      Some(Errand(a.transfer.value.gen, a.blocking.value.Publish?, d.size, d.sha256))
  }

  // ---- what a turn does to the partial -----------------------------------------------------

  function Old(disk: Option<Bytes>): Bytes {
    if disk.Some? then disk.value else []
  }

  datatype Change = Same | Open(blank: bool) | Write(offset: nat, data: Bytes) | Remove

  /** What the actor does to the partial of its current download in one turn. `keep` tells the
      failures of a job after which the partial is kept from the others. */
  function Touch(h: Download.Hash, a: State, i: Input, keep: bool): Change
    requires TransferWf(a) && a.transfer.Some? && a.transfer.value.job.Fetch?
  {
    var t := a.transfer.value;
    var d := t.job.down;
    match i
    case GotAccept(acc, canOpen) =>
      if !HeadAwaitsAccept(a) || a.pending[0].waiter.gen != t.gen || t.stage != AwaitingAccept then Same
      else (
        match Download.OnAccept(d, acc)
        case Started(_, blank) => if canOpen && !d.accepted then Open(blank) else Same
        case FileChanged(_) => Remove
        case BadGeometry(_) => Same)
    case GotData(x, written) =>
      if t.stage != Running then Same
      else (
        match Download.OnData(h, d, x)
        case Store(offset, _) => if written then Write(offset, x.data) else Same
        case _ => Same)
    case GotEnd(id, verified, flushed) =>
      if id in a.abandoned || t.stage != Running || id != d.id || !verified || !flushed then Same
      else if Download.OnEnd(d).GiveUp? then Remove else Same
    case WorkDone(done) =>
      if a.blocking.None? then Same
      else if a.blocking.value.Verify? && done.Hashed? then (if done.digest == d.sha256 then Same else Remove)
      else if a.blocking.value.Publish? && done.Moved? then Same
      else if keep then Same else Remove
    case _ => Same
  }

  function Changed(s: Site, c: Change): Site {
    match c
    case Same => s
    case Open(blank) => s.(disk := Some(if blank then [] else Old(s.disk)), follows := false)
    case Write(offset, data) =>
      if s.follows && s.dest.Some? then s.(dest := Some(s.dest.value.(bytes := Download.WriteAt(s.dest.value.bytes, offset, data))))
      else s.(disk := Some(Download.WriteAt(Old(s.disk), offset, data)))
    case Remove => s.(disk := None)
  }

  /** A job the turn started; it has nothing to report yet. */
  function Spawned(s: Site, job: Option<Errand>): Site {
    if job.Some? then s.(out := s.out + {job.value}, reports := s.reports - {job.value}) else s
  }

  function Turned(h: Download.Hash, s: Site, t: Tick, here: bool, keep: bool): Site
    requires TransferWf(s.client)
  {
    if s.client.dead then s
    else
      var b := Next(h, s.client, t);
      var r := (if Own(s) then Changed(s, Touch(h, s.client, t.input, keep)) else s).(client := b);
      var job := JobOf(b);
      var u := if Own(r) && job != JobOf(s.client) then Spawned(r, job) else r;
      if t.input.DoDownload? && here && b.nextGen != s.client.nextGen then u.(mine := u.mine + {b.nextGen}) else u
  }

  // ---- what a job does to it ----------------------------------------------------------------

  function Trimmed(disk: Option<Bytes>, size: nat): Option<Bytes> {
    if disk.Some? && |disk.value| >= size then Some(disk.value[..size]) else disk
  }

  /** A download with the partial open. */
  predicate HandleOpen(s: Site) {
    Own(s) && s.client.transfer.value.job.down.accepted && s.client.transfer.value.stage != Verifying
  }

  function Ended(h: Download.Hash, s: Site, job: Errand, ok: bool): Site {
    var r := s.(out := s.out - {job});
    if !ok || s.disk.None? || (!job.moves && |s.disk.value| < job.size) then r.(reports := r.reports[job := WorkFailed])
    else if job.moves then
      r.(dest := Some(Landed(s.disk.value, job)), disk := None, follows := HandleOpen(s), reports := r.reports[job := Moved])
    else
      r.(disk := Trimmed(s.disk, job.size), reports := r.reports[job := Hashed(h(s.disk.value[..job.size]))])
  }

  function Step(h: Download.Hash, s: Site, e: Event): (r: Site)
    requires TransferWf(s.client)
    ensures TransferWf(r.client)
  {
    match e
    case Turn(t, here, keep) => Turned(h, s, t, here, keep)
    case Trims(job) => if job in s.out && !job.moves then s.(disk := Trimmed(s.disk, job.size)) else s
    case Ends(job, ok) => if job in s.out then Ended(h, s, job, ok) else s
  }

  /** The actor hears of a job what that job has to report, once it is over. */
  predicate Honest(s: Site, e: Event) {
    e.Turn? && e.tick.input.WorkDone? && Own(s) && JobOf(s.client).Some? ==>
      JobOf(s.client).value in s.reports && s.reports[JobOf(s.client).value] == e.tick.input.done
  }

  /** No download of this file starts while a job is still out on its partial. */
  predicate Careful(s: Site, e: Event) {
    e.Turn? && e.here && e.tick.input.DoDownload? && s.client.transfer == None ==> s.out == {}
  }

  ghost predicate HonestRun(h: Download.Hash, s: Site, es: seq<Event>)
    requires TransferWf(s.client)
    decreases |es|
  {
    es != [] ==> Honest(s, es[0]) && HonestRun(h, Step(h, s, es[0]), es[1..])
  }

  ghost predicate CarefulRun(h: Download.Hash, s: Site, es: seq<Event>)
    requires TransferWf(s.client)
    decreases |es|
  {
    es != [] ==> Careful(s, es[0]) && CarefulRun(h, Step(h, s, es[0]), es[1..])
  }

  function Run(h: Download.Hash, s: Site, es: seq<Event>): (r: Site)
    requires TransferWf(s.client)
    ensures TransferWf(r.client)
    decreases |es|
  {
    if es == [] then s else Run(h, Step(h, s, es[0]), es[1..])
  }

  function AtStart(disk: Option<Bytes>): Site {
    Site(Start, {}, disk, None, false, {}, map[])
  }

  // ---- the invariant --------------------------------------------------------------------------

  ghost predicate Is(h: Download.Hash, disk: Option<Bytes>, size: nat, digest: Download.Digest) {
    disk.Some? && |disk.value| == size && h(disk.value) == digest
  }

  /** The destination is what the job that filled it was promised. */
  ghost predicate Verified(h: Download.Hash, s: Site) {
    s.dest.Some? ==> |s.dest.value.bytes| == s.dest.value.of.size && h(s.dest.value.bytes) == s.dest.value.of.sha256
  }

  /** At most one job is out; if a download of this file is current, the job is its own, so
      nobody writes to the partial while it is out. */
  predicate Alone(s: Site) {
    && (forall e, f :: e in s.out && f in s.out ==> e == f)
    && (Own(s) ==> forall e :: e in s.out ==> JobOf(s.client) == Some(e))
    && (forall e :: e in s.out ==> e !in s.reports)
    && (forall g :: g in s.mine ==> g <= s.client.nextGen)
  }

  /** A move that is out finds the verified bytes; a digest to be reported is the partial's. */
  ghost predicate Sound(h: Download.Hash, s: Site) {
    && (forall e :: e in s.out && e.moves ==> Is(h, s.disk, e.size, e.sha256))
    && (Own(s) && JobOf(s.client).Some? && !JobOf(s.client).value.moves && JobOf(s.client).value in s.reports ==>
          var e := JobOf(s.client).value;
          s.reports[e].Hashed? ==> Is(h, s.disk, e.size, s.reports[e].digest))
    && !s.follows
    && Verified(h, s)
  }

  ghost predicate Guarded(h: Download.Hash, s: Site) {
    TransferWf(s.client) && Alone(s) && Sound(h, s)
  }

  // ---- jobs keep it ---------------------------------------------------------------------------

  lemma TrimsKeeps(h: Download.Hash, s: Site, job: Errand)
    requires Guarded(h, s) && job in s.out && !job.moves
    ensures Guarded(h, s.(disk := Trimmed(s.disk, job.size)))
  {
    hide TransferWf, JobOf;
  }

  /** A current download whose job is out does not have the partial open. */
  lemma JobVerifies(a: State)
    requires TransferWf(a) && JobOf(a).Some?
    ensures a.transfer.value.stage == Verifying
  {
    hide UploadWf, FetchWf;
  }

  lemma EndsKeeps(h: Download.Hash, s: Site, job: Errand, ok: bool)
    requires Guarded(h, s) && job in s.out
    ensures Guarded(h, Ended(h, s, job, ok))
  {
    hide TransferWf, JobOf;
    if JobOf(s.client).Some? {
      JobVerifies(s.client);
    }
    assert s.disk.Some? && job.moves ==> s.disk.value[..job.size] == s.disk.value;
  }

  // ---- turns keep it ----------------------------------------------------------------------------

  predicate IsFetch(a: State) {
    a.transfer.Some? && a.transfer.value.job.Fetch?
  }

  /** How a turn may change the current download and its job: a new download has none, one
      that is not being verified gets at most a hash job, and one that is keeps its
      job until that reports, and goes on then only to be moved. */
  predicate Goes(a: State, i: Input, r: State) {
    && a.nextGen <= r.nextGen && (a.transfer.Some? ==> r.nextGen == a.nextGen)
    && (IsFetch(r) ==>
          if a.transfer.None? then i.DoDownload? && r.transfer.value.gen == r.nextGen > a.nextGen && r.blocking == None
          else
            var g := a.transfer.value.gen;
            && IsFetch(a) && r.transfer.value.gen == g
            && (if a.transfer.value.stage != Verifying then r.blocking == None || r.blocking == Some(Verify(g))
                else
                  && r.transfer == a.transfer
                  && (if i.WorkDone? && a.blocking.Some?
                      then a.blocking == Some(Verify(g)) && i == WorkDone(Hashed(a.transfer.value.job.down.sha256)) && r.blocking == Some(Publish(g))
                      else r.blocking == a.blocking)))
  }

  /** Nothing happened to the transfer, or it is over. */
  predicate KeptOrOver(a: State, r: State) {
    r.nextGen == a.nextGen && ((r.transfer == a.transfer && r.blocking == a.blocking) || r.transfer == None)
  }

  lemma KeptGoes(a: State, i: Input, r: State)
    requires TransferWf(a) && KeptOrOver(a, r) && (i.WorkDone? ==> a.blocking == None)
    ensures Goes(a, i, r)
  {
    hide UploadWf, FetchWf;
  }

  lemma CommandGoes(a: State, i: Input, tooLarge: bool, fatal: bool)
    requires TransferWf(a)
    ensures i.DoCancel? ==> KeptOrOver(a, Cancel(a, fatal))
    ensures i.AcceptTimeout? ==> KeptOrOver(a, AcceptTimedOut(a, fatal))
    ensures i.DoRequest? ==> KeptOrOver(a, Request(a, i.expects, tooLarge, fatal))
    ensures i.DoCommand? ==> KeptOrOver(a, Command(a, i.wait, tooLarge, fatal))
    ensures KeptOrOver(a, Keepalive(a, fatal))
  {
    hide FailTransfer, SendRequest, SendQuiet, SendBarrier, Keeps, TransferWf;
  }

  lemma StartGoes(a: State, i: Input, tooLarge: bool, fatal: bool)
    requires TransferWf(a)
    ensures i.DoUpload? ==> Goes(a, i, StartUpload(a, i.valid))
    ensures i.DoDownload? ==>
              Goes(a, i, StartDownload(a, i.valid, Download.NewJob(i.expectedSize, i.chunk, i.resume), tooLarge, fatal))
  {
    hide SendRequest, Keeps, UploadWf, FetchWf;
  }

  lemma ReplyGoes(a: State, t: ReplyType)
    ensures KeptOrOver(a, OnReply(a, t))
  {
    hide Keeps;
  }

  lemma ErrorGoes(a: State, fatal: bool)
    ensures KeptOrOver(a, OnError(a, fatal))
  {
    hide FailTransfer, Keeps;
  }

  /** Only an upload's job changes with a Pong. */
  lemma PongGoes(a: State)
    requires TransferWf(a)
    ensures Goes(a, GotPong, OnPong(a))
  {
    hide Keeps, UploadWf, FetchWf;
    PongGen(a);
    if !IsFetch(a) {
      PongUploads(a);
    } else {
      PongFetches(a);
    }
  }

  lemma PongUploads(a: State)
    requires !IsFetch(a)
    ensures !IsFetch(OnPong(a))
  {
    hide Keeps;
  }

  lemma PongFetches(a: State)
    requires IsFetch(a)
    ensures OnPong(a).transfer == a.transfer && OnPong(a).blocking == a.blocking
  {
    hide Keeps;
  }

  lemma DownloadAcceptGoes(a: State, t: Transfer, acc: Download.Accept, canOpen: bool, fatal: bool)
    requires TransferWf(a) && a.transfer == Some(t) && t.job.Fetch? && t.stage == AwaitingAccept
    ensures var r := OnDownloadAccept(a, t, acc, canOpen, fatal);
            r.nextGen == a.nextGen && (r.transfer.Some? ==> r.transfer.value.gen == t.gen && r.blocking == None)
  {
    hide FailTransfer, RefuseDownload, Download.OnAccept, UploadWf, FetchWf;
  }

  lemma UploadAcceptGoes(a: State, t: Transfer, acc: Download.Accept, fatal: bool)
    requires a.transfer == Some(t) && t.job.Upload?
    ensures var r := OnUploadAccept(a, t, acc, fatal); r.nextGen == a.nextGen && !IsFetch(r)
  {
    hide FailTransfer, TransferWf, GeometryProblem, Resize;
  }

  lemma AcceptGoes(a: State, acc: Download.Accept, canOpen: bool, fatal: bool)
    requires TransferWf(a)
    ensures Goes(a, GotAccept(acc, canOpen), OnAccept(a, acc, canOpen, fatal))
  {
    hide SendAbort, OnUploadAccept, OnDownloadAccept, Keeps, UploadWf, FetchWf;
    if HeadAwaitsAccept(a) && IsCurrent(a, a.pending[0].waiter.gen) && a.transfer.value.stage == AwaitingAccept {
      var t := a.transfer.value;
      if t.job.Upload? {
        UploadAcceptGoes(PopFront(a), t, acc, fatal);
      } else {
        DownloadAcceptGoes(PopFront(a), t, acc, canOpen, fatal);
      }
    }
  }

  lemma DataGoes(h: Download.Hash, a: State, d: Download.Data, written: bool, fatal: bool)
    requires TransferWf(a)
    ensures Goes(a, GotData(d, written), OnData(h, a, d, written, fatal))
  {
    hide FailTransfer, Download.OnData, Keeps, UploadWf, TotalChunks;
  }

  lemma DownloadEndGoes(a: State, t: Transfer, verified: bool, flushed: bool, tooLarge: bool, fatal: bool)
    requires a.transfer == Some(t) && t.job.Fetch? && a.blocking == None
    ensures var r := DownloadEnded(a, t, verified, flushed, tooLarge, fatal);
            && r.nextGen == a.nextGen
            && (r.transfer.Some? ==> r.transfer.value.gen == t.gen && (r.blocking == None || r.blocking == Some(Verify(t.gen))))
  {
    hide FailTransfer, SendRequest, Download.OnEnd, TransferWf;
  }

  lemma EndGoes(a: State, id: Id, verified: bool, flushed: bool, tooLarge: bool, fatal: bool)
    requires TransferWf(a)
    ensures Goes(a, GotEnd(id, verified, flushed), OnTransferEnd(a, id, verified, flushed, tooLarge, fatal))
  {
    hide FailTransfer, DownloadEnded, Keeps, RemoveFirst, UploadWf, FetchWf;
    if IsFetch(a) && a.blocking == None {
      DownloadEndGoes(a, a.transfer.value, verified, flushed, tooLarge, fatal);
    }
  }

  lemma FetchWorkGoes(a: State, t: Transfer, work: Blocking, done: Done, tooLarge: bool, fatal: bool)
    requires a.transfer == Some(t) && t.job.Fetch? && work.gen == t.gen && !work.UploadPrep?
    ensures var r := WorkFinished(a, t, work, done, tooLarge, fatal);
            && r.nextGen == a.nextGen
            && (IsFetch(r) ==>
                  && work == Verify(t.gen) && done == Hashed(t.job.down.sha256)
                  && r.transfer == a.transfer && r.blocking == Some(Publish(t.gen)))
  {
    hide FailTransfer, TransferWf, OrdinarySend;
  }

  lemma UploadWorkGoes(a: State, t: Transfer, work: Blocking, done: Done, tooLarge: bool, fatal: bool)
    requires a.transfer == Some(t) && t.job.Upload?
    ensures var r := WorkFinished(a, t, work, done, tooLarge, fatal); r.nextGen == a.nextGen && !IsFetch(r)
  {
    hide FailTransfer, SendUploadRequest, TransferWf, OrdinarySend;
    if done.Prepared? {
      PreparedGoes(a, t, done.size, tooLarge, fatal);
    }
  }

  lemma WorkGoes(a: State, done: Done, tooLarge: bool, fatal: bool)
    requires TransferWf(a)
    ensures Goes(a, WorkDone(done), OnBlockingDone(a, done, tooLarge, fatal))
  {
    hide WorkFinished, Keeps, UploadWf, FetchWf, OrdinarySend;
    if a.blocking.Some? {
      var b, t := a.(blocking := None), a.transfer.value;
      if t.job.Upload? {
        UploadWorkGoes(b, t, a.blocking.value, done, tooLarge, fatal);
      } else {
        FetchWorkGoes(b, t, a.blocking.value, done, tooLarge, fatal);
      }
    }
  }

  lemma PreparedGoes(a: State, t: Transfer, size: nat, tooLarge: bool, fatal: bool)
    requires t.job.Upload?
    ensures var r := SendUploadRequest(a, t, size, tooLarge, fatal); r.nextGen == a.nextGen && !IsFetch(r)
  {
    hide FailTransfer, SendRequest, ChunkSizeFor, TransferWf;
  }

  lemma ChunkGoes(a: State, readable: bool, tooLarge: bool, fatal: bool)
    requires TransferWf(a)
    ensures UploadCanSend(a) ==>
              var r := SendNextChunk(a, readable, tooLarge, fatal);
              r.nextGen == a.nextGen && !IsFetch(r)
  {
    hide Keeps, FailTransfer, SendQuiet, ChunkLen, TotalChunks, Passed, InFlight;
  }

  lemma TurnGoes(h: Download.Hash, a: State, t: Tick)
    requires TransferWf(a)
    ensures Goes(a, t.input, Next(h, a, t))
  {
    hide TransferWf, Keeps, OnReply, OnAccept, OnError, OnPong, OnTransferEnd, OnData, UploadCanSend, Goes, KeptOrOver;
    hide Request, Command, Keepalive, StartUpload, StartDownload, Cancel, OnBlockingDone, SendNextChunk, AcceptTimedOut;
    var r := Next(h, a, t);
    match t.input
    case GotReply(ty) => ReplyGoes(a, ty); KeptGoes(a, t.input, r);
    case GotError => ErrorGoes(a, t.fatal); KeptGoes(a, t.input, r);
    case GotPong => PongGoes(a);
    case GotAccept(acc, canOpen) => AcceptGoes(a, acc, canOpen, t.fatal);
    case GotData(d, written) => DataGoes(h, a, d, written, t.fatal);
    case GotEnd(id, verified, flushed) => EndGoes(a, id, verified, flushed, t.tooLarge, t.fatal);
    case WorkDone(done) =>
      if a.blocking.Some? {
        WorkGoes(a, done, t.tooLarge, t.fatal);
      } else {
        Unmoved(a, t.input);
      }
    case ChunkTurn(readable) =>
      if UploadCanSend(a) {
        ChunkGoes(a, readable, t.tooLarge, t.fatal);
        UploadGoes(a, t.input, r);
      } else {
        Unmoved(a, t.input);
      }
    case GotEvent => Unmoved(a, t.input);
    case DoUpload(_) => StartGoes(a, t.input, t.tooLarge, t.fatal);
    case DoDownload(_, _, _, _) => StartGoes(a, t.input, t.tooLarge, t.fatal);
    case _ =>
      CommandGoes(a, t.input, t.tooLarge, t.fatal);
      Unmoved(a, t.input);
      if Enabled(a, t.input) {
        KeptGoes(a, t.input, r);
      }
  }

  lemma Unmoved(a: State, i: Input)
    requires TransferWf(a) && (i.WorkDone? ==> a.blocking == None)
    ensures Goes(a, i, a)
  {
    hide UploadWf, FetchWf;
  }

  lemma UploadGoes(a: State, i: Input, r: State)
    requires r.nextGen == a.nextGen && !IsFetch(r)
    ensures Goes(a, i, r)
  {
  }

  // ---- the invariant over turns -------------------------------------------------------------------

  /** The partial is left alone while the current download's job is out. */
  lemma TouchesNothing(h: Download.Hash, a: State, i: Input, keep: bool)
    requires TransferWf(a) && JobOf(a).Some? && !i.WorkDone?
    ensures Touch(h, a, i, keep) == Same
  {
    hide UploadWf, FetchWf, Download.OnAccept, Download.OnData, Download.OnEnd;
  }

  lemma NobodyOut(s: Site)
    requires Alone(s) && Own(s) && (JobOf(s.client) == None || JobOf(s.client).value in s.reports)
    ensures s.out == {}
  {
    hide JobOf;
    assert forall e :: e in s.out ==> JobOf(s.client) == Some(e);
  }

  /** The hash job reports the digest that was announced. */
  predicate Matched(a: State, i: Input) {
    && IsFetch(a) && a.blocking == Some(Verify(a.transfer.value.gen))
    && i == WorkDone(Hashed(a.transfer.value.job.down.sha256))
  }

  lemma MatchKeeps(h: Download.Hash, a: State, i: Input, keep: bool)
    requires TransferWf(a) && Matched(a, i)
    ensures Touch(h, a, i, keep) == Same
  {
    hide TransferWf;
  }

  /** The actor's own write: nothing happens to the partial unless no job is out. */
  lemma ChangeIsSafe(h: Download.Hash, s: Site, i: Input, keep: bool)
    requires Guarded(h, s) && Own(s)
    requires i.WorkDone? && JobOf(s.client).Some? ==> JobOf(s.client).value in s.reports && s.reports[JobOf(s.client).value] == i.done
    ensures var r := Changed(s, Touch(h, s.client, i, keep));
            && r == s.(disk := r.disk) && (r.disk == s.disk || s.out == {})
            && (JobOf(s.client).Some? && (!i.WorkDone? || Matched(s.client, i)) ==> r == s)
  {
    hide TransferWf, JobOf, Touch, Download.WriteAt;
    if JobOf(s.client).Some? && !i.WorkDone? {
      TouchesNothing(h, s.client, i, keep);
    } else {
      NobodyOut(s);
      if Matched(s.client, i) {
        MatchKeeps(h, s.client, i, keep);
      }
    }
  }

  lemma OwnTurn(h: Download.Hash, s: Site, t: Tick, here: bool, keep: bool)
    requires Guarded(h, s) && Own(s) && !s.client.dead && Honest(s, Turn(t, here, keep))
    ensures Guarded(h, Turned(h, s, t, here, keep))
  {
    hide UploadWf, FetchWf, Next, Touch, Changed, Is;
    var a := s.client;
    TurnGoes(h, a, t);
    ChangeIsSafe(h, s, t.input, keep);
    if JobOf(a) == None || t.input.WorkDone? {
      NobodyOut(s);
    }
    var u := Turned(h, s, t, here, keep);
    assert u.mine == s.mine && u.dest == s.dest && (u.disk == s.disk || s.out == {});
    assert Alone(u);
  }

  lemma OtherTurn(h: Download.Hash, s: Site, t: Tick, here: bool, keep: bool)
    requires Guarded(h, s) && !Own(s) && !s.client.dead && Careful(s, Turn(t, here, keep))
    ensures Guarded(h, Turned(h, s, t, here, keep))
  {
    hide UploadWf, FetchWf, Next, Touch, Changed, Is;
    TurnGoes(h, s.client, t);
    var u := Turned(h, s, t, here, keep);
    assert u == s.(client := u.client, mine := u.mine);
    assert Alone(u);
  }

  lemma StepKeeps(h: Download.Hash, s: Site, e: Event)
    requires Guarded(h, s) && Honest(s, e) && Careful(s, e)
    ensures Guarded(h, Step(h, s, e))
  {
    hide TransferWf, Turned, Ended, Trimmed, Alone, Sound, Own, JobOf;
    match e
    case Turn(t, here, keep) =>
      if s.client.dead {
        Stopped(h, s, t, here, keep);
      } else if Own(s) {
        OwnTurn(h, s, t, here, keep);
      } else {
        OtherTurn(h, s, t, here, keep);
      }
    case Trims(job) => if job in s.out && !job.moves { TrimsKeeps(h, s, job); }
    case Ends(job, ok) => if job in s.out { EndsKeeps(h, s, job, ok); }
  }

  lemma Stopped(h: Download.Hash, s: Site, t: Tick, here: bool, keep: bool)
    requires TransferWf(s.client) && s.client.dead
    ensures Turned(h, s, t, here, keep) == s
  {
    hide TransferWf, Next;
  }

  lemma {:induction false} StaysGuarded(h: Download.Hash, s: Site, es: seq<Event>)
    requires Guarded(h, s) && TransferWf(s.client) && HonestRun(h, s, es) && CarefulRun(h, s, es)
    ensures Guarded(h, Run(h, s, es))
    decreases |es|
  {
    hide Guarded, Step, TransferWf, Honest, Careful;
    if es != [] {
      StepKeeps(h, s, es[0]);
      StaysGuarded(h, Step(h, s, es[0]), es[1..]);
    }
  }

  /** Downloads of one file to one place, one after the other, given up or not, in any run of
      the client and of the jobs it leaves behind: if none of them starts while an earlier
      one's job is still out, whatever is at the destination has the size and digest
      announced to the download that put it there. */
  lemma CarefulStartsPublishOnlyVerified(h: Download.Hash, disk: Option<Bytes>, es: seq<Event>)
    requires TransferWf(Start) && HonestRun(h, AtStart(disk), es) && CarefulRun(h, AtStart(disk), es)
    ensures Verified(h, Run(h, AtStart(disk), es))
  {
    StaysGuarded(h, AtStart(disk), es);
  }

  // ---- a run that is not careful -----------------------------------------------------------------

  /** The first download, of an empty file, is cancelled while its Publish job is out. */
  function FirstHash(h: Download.Hash): Errand {
    Errand(1, false, 0, h([]))
  }

  function FirstMove(h: Download.Hash): Errand {
    Errand(1, true, 0, h([]))
  }

  /** The second finds a file of one byte, announced with a digest that its one chunk,
      itself received intact, does not have. */
  function LongerOffer(h: Download.Hash): Download.Accept {
    Download.Accept(8, DEFAULT_CHUNK_SIZE, 1, 1, h([7]) + 1, [], 0)
  }

  function OnlyChunk(h: Download.Hash): Download.Data {
    Download.Data(8, 0, h([7]), [7])
  }

  function Now(i: Input): Event {
    Event.Turn(Tick(i, false, false), true, true)
  }

  const Ask := ActorDownloads.AskForEmpty.input

  function CarelessRun(h: Download.Hash): seq<Event> {
    [Now(Ask), Now(GotAccept(ActorDownloads.EmptyOffer(h), true)), Now(GotEnd(7, true, true)), Ends(FirstHash(h), true),
     Now(WorkDone(Hashed(h([])))), Now(DoCancel),
     Now(Ask), Now(GotAccept(LongerOffer(h), true)), Now(GotData(OnlyChunk(h), true)), Ends(FirstMove(h), true)]
  }

  const AskedAnew := ActorDownloads.EmptyCancelled.(
    nextGen := 2, issued := 3, pending := [Reply(TransferStart(2))], out := [Actor.Ask(TransferStart(1)), Actor.Ask(TransferStart(2))],
    transfer := Some(Transfer(2, 2, AwaitingAccept, Fetch(Download.NewJob(None, DEFAULT_CHUNK_SIZE, None)))))

  function LongerJob(h: Download.Hash, held: bool): Download.Job {
    Download.NewJob(None, DEFAULT_CHUNK_SIZE, None).(accepted := true, id := 8, size := 1, total := 1, sha256 := h([7]) + 1, have := [held])
  }

  function LongerAt(h: Download.Hash, held: bool): State {
    AskedAnew.(pending := [], transfer := Some(Transfer(2, 2, Running, Fetch(LongerJob(h, held)))))
  }

  lemma OneChunk()
    ensures TotalChunks(1, DEFAULT_CHUNK_SIZE) == 1 && ChunkLen(1, DEFAULT_CHUNK_SIZE, 0, 1) == 1
  {
    QuotRem(1 + DEFAULT_CHUNK_SIZE - 1, DEFAULT_CHUNK_SIZE);
    DivModUnique(DEFAULT_CHUNK_SIZE, DEFAULT_CHUNK_SIZE, 1, 0);
  }

  lemma SecondAsked(h: Download.Hash)
    ensures TransferWf(ActorDownloads.EmptyCancelled) && TransferWf(AskedAnew)
    ensures Next(h, ActorDownloads.EmptyCancelled, Tick(Ask, false, false)) == AskedAnew
  {
  }

  lemma SecondAccepted(h: Download.Hash)
    ensures TransferWf(AskedAnew) && Next(h, AskedAnew, Tick(GotAccept(LongerOffer(h), true), false, false)) == LongerAt(h, false)
    ensures Touch(h, AskedAnew, GotAccept(LongerOffer(h), true), true) == Open(true)
  {
    hide TotalChunks;
    OneChunk();
    var job := Download.NewJob(None, DEFAULT_CHUNK_SIZE, None);
    assert Download.Falses(1) == [false];
    assert Download.OnAccept(job, LongerOffer(h)) == Download.Started(LongerJob(h, false), true);
  }

  lemma SecondStores(h: Download.Hash)
    ensures TransferWf(LongerAt(h, false)) && Next(h, LongerAt(h, false), Tick(GotData(OnlyChunk(h), true), false, false)) == LongerAt(h, true)
    ensures Touch(h, LongerAt(h, false), GotData(OnlyChunk(h), true), true) == Write(0, [7])
  {
    hide TotalChunks, ChunkLen;
    OneChunk();
    assert [false][0 := true] == [true];
    assert Download.OnData(h, LongerJob(h, false), OnlyChunk(h)) == Download.Store(0, LongerJob(h, true));
  }

  lemma FirstTouches(h: Download.Hash)
    ensures TransferWf(ActorDownloads.EmptyAsked) && Touch(h, ActorDownloads.EmptyAsked, GotAccept(ActorDownloads.EmptyOffer(h), true), true) == Open(true)
    ensures TransferWf(ActorDownloads.EmptyAt(h, Running, None)) && Touch(h, ActorDownloads.EmptyAt(h, Running, None), GotEnd(7, true, true), true) == Same
  {
    hide Download.OnAccept, Download.OnData;
    ActorDownloads.EmptyStarts(h);
  }

  lemma FirstLeaves(h: Download.Hash)
    ensures var a := ActorDownloads.EmptyAt(h, Verifying, Some(Verify(1)));
            TransferWf(a) && Touch(h, a, WorkDone(Hashed(h([]))), true) == Same
    ensures var a := ActorDownloads.EmptyAt(h, Verifying, Some(Publish(1)));
            TransferWf(a) && Touch(h, a, DoCancel, true) == Same
  {
    hide Download.OnAccept, Download.OnData, Download.OnEnd;
  }

  /** The site along that run, before anything reached the destination. */
  function SiteAt(client: State, mine: set<nat>, disk: Option<Bytes>, out: set<Errand>, reports: map<Errand, Done>): Site {
    Site(client, mine, disk, None, false, out, reports)
  }

  /** These events take the site from here to there. */
  ghost predicate Leads(h: Download.Hash, s: Site, es: seq<Event>, t: Site) {
    TransferWf(s.client) && HonestRun(h, s, es) && Run(h, s, es) == t
  }

  lemma LeadsOn(h: Download.Hash, s: Site, e: Event, s2: Site, es: seq<Event>, t: Site)
    requires TransferWf(s.client) && Honest(s, e) && Step(h, s, e) == s2 && Leads(h, s2, es, t)
    ensures Leads(h, s, [e] + es, t)
  {
    hide TransferWf, Step, Honest;
    assert ([e] + es)[1..] == es;
  }

  lemma FirstSteps(h: Download.Hash, disk: Option<Bytes>)
    ensures TransferWf(Start)
    ensures Step(h, AtStart(disk), Now(Ask)) == SiteAt(ActorDownloads.EmptyAsked, {1}, disk, {}, map[])
    ensures TransferWf(ActorDownloads.EmptyAsked)
    ensures Step(h, SiteAt(ActorDownloads.EmptyAsked, {1}, disk, {}, map[]), Now(GotAccept(ActorDownloads.EmptyOffer(h), true))) ==
            SiteAt(ActorDownloads.EmptyAt(h, Running, None), {1}, Some([]), {}, map[])
  {
    hide TransferWf, Next, Touch;
    ActorDownloads.EmptyAccepted(h, []);
    FirstTouches(h);
  }

  lemma HashSteps(h: Download.Hash)
    ensures var a := ActorDownloads.EmptyAt(h, Running, None); var b := ActorDownloads.EmptyAt(h, Verifying, Some(Verify(1)));
            && TransferWf(a)
            && Step(h, SiteAt(a, {1}, Some([]), {}, map[]), Now(GotEnd(7, true, true))) == SiteAt(b, {1}, Some([]), {FirstHash(h)}, map[])
            && TransferWf(b)
            && Step(h, SiteAt(b, {1}, Some([]), {FirstHash(h)}, map[]), Ends(FirstHash(h), true)) ==
               SiteAt(b, {1}, Some([]), {}, map[FirstHash(h) := Hashed(h([]))])
  {
    hide TransferWf, Next, Touch;
    ActorDownloads.EmptyEnded(h);
    ActorDownloads.EmptyHashed(h);
    FirstTouches(h);
    var none: Bytes := [];
    assert none[..0] == [];
  }

  lemma MoveSteps(h: Download.Hash)
    ensures var b := ActorDownloads.EmptyAt(h, Verifying, Some(Verify(1))); var c := ActorDownloads.EmptyAt(h, Verifying, Some(Publish(1)));
            var reports := map[FirstHash(h) := Hashed(h([]))];
            && TransferWf(b)
            && Honest(SiteAt(b, {1}, Some([]), {}, reports), Now(WorkDone(Hashed(h([])))))
            && Step(h, SiteAt(b, {1}, Some([]), {}, reports), Now(WorkDone(Hashed(h([]))))) == SiteAt(c, {1}, Some([]), {FirstMove(h)}, reports)
            && TransferWf(c)
            && Step(h, SiteAt(c, {1}, Some([]), {FirstMove(h)}, reports), Now(DoCancel)) ==
               SiteAt(ActorDownloads.EmptyCancelled, {1}, Some([]), {FirstMove(h)}, reports)
  {
    hide TransferWf, Next, Touch;
    ActorDownloads.EmptyHashed(h);
    ActorDownloads.EmptyGivenUp(h);
    FirstLeaves(h);
  }

  lemma SecondSteps(h: Download.Hash, out: set<Errand>, reports: map<Errand, Done>)
    ensures var e := ActorDownloads.EmptyCancelled;
            && TransferWf(e) && TransferWf(AskedAnew)
            && Step(h, SiteAt(e, {1}, Some([]), out, reports), Now(Ask)) == SiteAt(AskedAnew, {1, 2}, Some([]), out, reports)
            && Step(h, SiteAt(AskedAnew, {1, 2}, Some([]), out, reports), Now(GotAccept(LongerOffer(h), true))) ==
               SiteAt(LongerAt(h, false), {1, 2}, Some([]), out, reports)
            && TransferWf(LongerAt(h, false))
            && Step(h, SiteAt(LongerAt(h, false), {1, 2}, Some([]), out, reports), Now(GotData(OnlyChunk(h), true))) ==
               SiteAt(LongerAt(h, true), {1, 2}, Some([7]), out, reports)
            && TransferWf(LongerAt(h, true))
  {
    hide TransferWf, Next, Touch;
    SecondAsked(h);
    SecondAccepted(h);
    SecondStores(h);
    assert Download.WriteAt([], 0, [7]) == [7];
  }

  lemma FirstLands(h: Download.Hash, reports: map<Errand, Done>)
    requires TransferWf(LongerAt(h, true))
    ensures var s := SiteAt(LongerAt(h, true), {1, 2}, Some([7]), {FirstMove(h)}, reports);
            Step(h, s, Ends(FirstMove(h), true)).dest == Some(Landed([7], FirstMove(h)))
  {
    hide TransferWf;
  }

  /** The run but for its last event, in two halves. */
  lemma FirstHalf(h: Download.Hash, disk: Option<Bytes>, es: seq<Event>, t: Site)
    requires Leads(h, SiteAt(ActorDownloads.EmptyCancelled, {1}, Some([]), {FirstMove(h)}, map[FirstHash(h) := Hashed(h([]))]), es, t)
    ensures Leads(h, AtStart(disk), CarelessRun(h)[..6] + es, t)
  {
    hide TransferWf, Step, Leads;
    FirstSteps(h, disk);
    HashSteps(h);
    MoveSteps(h);
    var all := CarelessRun(h);
    var reports := map[FirstHash(h) := Hashed(h([]))];
    var a := ActorDownloads.EmptyAt(h, Running, None);
    var b, c := ActorDownloads.EmptyAt(h, Verifying, Some(Verify(1))), ActorDownloads.EmptyAt(h, Verifying, Some(Publish(1)));
    var s5 := SiteAt(c, {1}, Some([]), {FirstMove(h)}, reports);
    LeadsOn(h, s5, all[5], SiteAt(ActorDownloads.EmptyCancelled, {1}, Some([]), {FirstMove(h)}, reports), es, t);
    var s4 := SiteAt(b, {1}, Some([]), {}, reports);
    LeadsOn(h, s4, all[4], s5, [all[5]] + es, t);
    var s3 := SiteAt(b, {1}, Some([]), {FirstHash(h)}, map[]);
    LeadsOn(h, s3, all[3], s4, [all[4]] + ([all[5]] + es), t);
    var s2 := SiteAt(a, {1}, Some([]), {}, map[]);
    LeadsOn(h, s2, all[2], s3, [all[3]] + ([all[4]] + ([all[5]] + es)), t);
    var s1 := SiteAt(ActorDownloads.EmptyAsked, {1}, disk, {}, map[]);
    LeadsOn(h, s1, all[1], s2, [all[2]] + ([all[3]] + ([all[4]] + ([all[5]] + es))), t);
    LeadsOn(h, AtStart(disk), all[0], s1, [all[1]] + ([all[2]] + ([all[3]] + ([all[4]] + ([all[5]] + es)))), t);
    assert all[..6] + es == [all[0]] + ([all[1]] + ([all[2]] + ([all[3]] + ([all[4]] + ([all[5]] + es)))));
  }

  lemma SecondHalf(h: Download.Hash, reports: map<Errand, Done>)
    requires TransferWf(LongerAt(h, true))
    ensures var out := {FirstMove(h)};
            Leads(h, SiteAt(ActorDownloads.EmptyCancelled, {1}, Some([]), out, reports), CarelessRun(h)[6..],
                  Step(h, SiteAt(LongerAt(h, true), {1, 2}, Some([7]), out, reports), Ends(FirstMove(h), true)))
  {
    hide TransferWf, Step, Leads;
    var out := {FirstMove(h)};
    SecondSteps(h, out, reports);
    var all := CarelessRun(h);
    var s9 := SiteAt(LongerAt(h, true), {1, 2}, Some([7]), out, reports);
    var t := Step(h, s9, all[9]);
    Arrived(h, t);
    LeadsOn(h, s9, all[9], t, [], t);
    var s8 := SiteAt(LongerAt(h, false), {1, 2}, Some([]), out, reports);
    LeadsOn(h, s8, all[8], s9, [all[9]] + [], t);
    var s7 := SiteAt(AskedAnew, {1, 2}, Some([]), out, reports);
    LeadsOn(h, s7, all[7], s8, [all[8]] + ([all[9]] + []), t);
    LeadsOn(h, SiteAt(ActorDownloads.EmptyCancelled, {1}, Some([]), out, reports), all[6], s7, [all[7]] + ([all[8]] + ([all[9]] + [])), t);
    assert all[6..] == [all[6]] + ([all[7]] + ([all[8]] + ([all[9]] + [])));
  }

  lemma Arrived(h: Download.Hash, t: Site)
    requires TransferWf(t.client)
    ensures Leads(h, t, [], t)
  {
    hide TransferWf, Step;
  }

  /** The second download truncates the partial and stores its chunk, and then the first one's
      job moves that to the destination: it is neither the file the first download
      verified nor the one the second was promised. */
  lemma DetachedMovePublishesUnverified(h: Download.Hash, disk: Option<Bytes>)
    ensures TransferWf(Start) && HonestRun(h, AtStart(disk), CarelessRun(h))
    ensures var s := Run(h, AtStart(disk), CarelessRun(h));
            && s.dest == Some(Landed([7], FirstMove(h))) && !Verified(h, s)
            && s.client == LongerAt(h, true) && h(s.dest.value.bytes) != LongerJob(h, true).sha256
  {
    hide TransferWf, HonestRun, Run;
    var reports := map[FirstHash(h) := Hashed(h([]))];
    SecondSteps(h, {FirstMove(h)}, reports);
    FirstLands(h, reports);
    SecondHalf(h, reports);
    var t := Step(h, SiteAt(LongerAt(h, true), {1, 2}, Some([7]), {FirstMove(h)}, reports), Ends(FirstMove(h), true));
    FirstHalf(h, disk, CarelessRun(h)[6..], t);
    assert CarelessRun(h) == CarelessRun(h)[..6] + CarelessRun(h)[6..];
  }
}
