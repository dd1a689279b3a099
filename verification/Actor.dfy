/**
 * The client's connection actor: the one queue of owed answers, the barriers
 * behind commands that may get no answer, and the single active transfer with
 * its generation, byte window and blocking job.
 *
 * Each operation is a function from state to state; the class in
 * ActorObject.dfy runs the same operations on mutable fields. Nothing here
 * assumes anything of the server: every statement in this module holds for any
 * sequence of inputs. Writes are part of the state (`out`), and so is the record
 * of which callers have been answered.
 */
module Actor {
  import opened Options
  import opened Chunks
  import Download

  const MAX_PENDING: nat := 4096
  const MAX_ABANDONED: nat := 16
  const UPLOAD_WINDOW_BYTES: nat := 4 * 1024 * 1024

  /** One oneshot reply channel, numbered in the order commands arrive. */
  type Caller = nat
  type Id = nat

  /** The packet type of a reply other than a transfer accept, which answers
      TransferStart and nothing else. */
  type ReplyType = nat

  datatype Waiter = Asks(caller: Caller, expects: ReplyType) | TransferStart(gen: nat)

  datatype Kind = Plain | UploadChunk(gen: nat, len: nat, index: nat)

  datatype Quiet = Quiet(kind: Kind, failed: bool, reply: Option<Caller>)

  /** Something the server owes us, in send order. */
  datatype Pending = Reply(waiter: Waiter) | Barrier(token: nat, quiet: Option<Quiet>)

  /** A message on its way to the server. A Ping is listed with the caller waiting on its
      barrier, for the record only: what is written is the token. */
  datatype Out = Ask(waiter: Waiter) | Tell(token: nat, kind: Kind) | Ping(token: nat, reply: Option<Caller>)

  datatype How = Fine | ServerSaid | Locally | Gone

  datatype Answer = Answer(caller: Caller, how: How)

  datatype Stage = Preparing | AwaitingAccept | Running | Verifying

  datatype UploadJob = UploadJob(
    size: nat, chunkSize: U32, total: nat, id: Id,
    skip: seq<bool>, done: seq<bool>, next: nat, inFlight: nat)

  datatype Job = Upload(up: UploadJob) | Fetch(down: Download.Job)

  datatype Transfer = Transfer(gen: nat, caller: Caller, stage: Stage, job: Job)

  datatype Blocking = UploadPrep(gen: nat) | Verify(gen: nat) | Publish(gen: nat)

  datatype State = State(
    pending: seq<Pending>,
    nextToken: nat,
    transfer: Option<Transfer>,
    nextGen: nat,
    abandoned: seq<Id>,
    blocking: Option<Blocking>,
    dead: bool,
    closing: bool,
    issued: nat,
    answers: seq<Answer>,
    out: seq<Out>)

  const Start := State([], 0, None, 0, [], None, false, false, 0, [], [])

  // ---- request and barrier plumbing ----------------------------------------------

  function PushPending(a: State, p: Pending): State {
    a.(pending := a.pending + [p], dead := a.dead || |a.pending| >= MAX_PENDING)
  }

  function NextToken(a: State): nat {
    (a.nextToken + 1) % 0x1_0000_0000_0000_0000
  }

  /** What goes on the wire when an entry is queued: the command, if any, then its Ping. */
  function Written(p: Pending): seq<Out> {
    match p
    case Reply(w) => [Ask(w)]
    case Barrier(token, None) => [Ping(token, None)]
    case Barrier(token, Some(q)) => [Tell(token, q.kind), Ping(token, q.reply)]
  }

  predicate Failed(p: Pending) {
    p.Barrier? && p.quiet.Some? && p.quiet.value.failed
  }

  function Last(ps: seq<Pending>): Pending
    requires ps != []
  {
    ps[|ps| - 1]
  }

  /** One new entry was queued together with its message. */
  predicate OneSent(a: State, r: State) {
    && r.pending != [] && r.pending == a.pending + [Last(r.pending)]
    && !Failed(Last(r.pending)) && r.out == a.out + Written(Last(r.pending))
    && (r.dead <==> a.dead || |a.pending| >= MAX_PENDING)
  }

  predicate NothingSent(a: State, r: State) {
    r.pending == a.pending && r.out == a.out && (a.dead ==> r.dead)
  }

  predicate AtMostOne(a: State, r: State) {
    NothingSent(a, r) || OneSent(a, r)
  }

  predicate IsChunk(p: Pending) {
    p.Barrier? && p.quiet.Some? && p.quiet.value.kind.UploadChunk?
  }

  /** At most one entry, no chunk, and a transfer is asked for only by the current one. */
  predicate OrdinarySend(a: State, r: State) {
    || NothingSent(a, r)
    || (OneSent(a, r) && !IsChunk(Last(r.pending)) && (IsStart(Last(r.pending)) ==> IsCurrent(r, Last(r.pending).waiter.gen)))
  }

  predicate IsStart(p: Pending) {
    p.Reply? && p.waiter.TransferStart?
  }

  /** Nothing but the queue, the token counter and the writes may differ. */
  predicate OnlyQueueDiffers(a: State, r: State) {
    r == a.(pending := r.pending, nextToken := r.nextToken, dead := r.dead, out := r.out)
  }

  function Enqueue(a: State, p: Pending): (r: State)
    requires !Failed(p)
    ensures OnlyQueueDiffers(a, r) && OneSent(a, r) && Last(r.pending) == p && r.nextToken == a.nextToken
  {
    PushPending(a.(out := a.out + Written(p)), p)
  }

  function SendBarrier(a: State, quiet: Option<Quiet>): (r: State)
    requires quiet.Some? ==> !quiet.value.failed
    ensures OnlyQueueDiffers(a, r) && OneSent(a, r) && Last(r.pending) == Barrier(NextToken(a), quiet)
  {
    Enqueue(a.(nextToken := NextToken(a)), Barrier(NextToken(a), quiet))
  }

  /** A fire-and-forget command followed by its barrier. */
  function SendQuiet(a: State, kind: Kind, reply: Option<Caller>): (r: State)
    ensures OnlyQueueDiffers(a, r) && OneSent(a, r)
    ensures Last(r.pending) == Barrier(NextToken(a), Some(Quiet(kind, false, reply)))
  {
    SendBarrier(a, Some(Quiet(kind, false, reply)))
  }

  function SendRequest(a: State, w: Waiter): (r: State)
    ensures OnlyQueueDiffers(a, r) && OneSent(a, r) && Last(r.pending) == Reply(w) && r.nextToken == a.nextToken
  {
    Enqueue(a, Reply(w))
  }

  function Answered(a: State, caller: Caller, how: How): State {
    a.(answers := a.answers + [Answer(caller, how)])
  }

  function Dead(a: State): State {
    a.(dead := true)
  }

  predicate HeadAsks(a: State, t: ReplyType) {
    a.pending != [] && a.pending[0].Reply? && a.pending[0].waiter.Asks? && a.pending[0].waiter.expects == t
  }

  predicate HeadAwaitsAccept(a: State) {
    a.pending != [] && a.pending[0].Reply? && a.pending[0].waiter.TransferStart?
  }

  function PopFront(a: State): State
    requires a.pending != []
  {
    a.(pending := a.pending[1..])
  }

  // ---- ending a transfer ------------------------------------------------------------

  predicate IsCurrent(a: State, gen: nat) {
    a.transfer.Some? && a.transfer.value.gen == gen
  }

  function Remember(abandoned: seq<Id>, id: Id): seq<Id> {
    (if |abandoned| >= MAX_ABANDONED then abandoned[1..] else abandoned) + [id]
  }

  /** The abort of a transfer, if any, is the only thing sent. */
  predicate AtMostAbort(a: State, r: State) {
    || NothingSent(a, r)
    || (OneSent(a, r) && Last(r.pending) == Barrier(NextToken(a), Some(Quiet(Plain, false, None))))
  }

  function SendAbort(a: State, id: Id, fatal: bool): (r: State)
    ensures OnlyQueueDiffers(a.(abandoned := r.abandoned), r)
    ensures AtMostAbort(a, r) && (a.closing ==> NothingSent(a, r))
  {
    var b := a.(abandoned := Remember(a.abandoned, id));
    if a.closing then b
    else if fatal then Dead(b)
    else SendQuiet(b, Plain, None)
  }

  /** The server holds a transfer of ours that it must be told about. */
  function HeldByServer(t: Transfer): Option<Id> {
    match t.job
    case Upload(u) => if t.stage == Running then Some(u.id) else None
    case Fetch(d) => if d.accepted && t.stage != Verifying then Some(d.id) else None
  }

  function FailTransfer(a: State, how: How, fatal: bool): (r: State)
    ensures r.transfer == None
    ensures a.transfer == None ==> r == a
    ensures a.transfer.Some? ==>
      && OnlyQueueDiffers(a.(transfer := None, blocking := None, abandoned := r.abandoned, answers := r.answers), r)
      && r.answers == a.answers + [Answer(a.transfer.value.caller, how)]
    ensures a.transfer.Some? && HeldByServer(a.transfer.value) == None ==> NothingSent(a, r)
    ensures AtMostAbort(a, r) && (a.closing ==> NothingSent(a, r))
  {
    match a.transfer
    case None => a
    case Some(t) =>
      var b := a.(transfer := None, blocking := None);
      var c := if HeldByServer(t).Some? then SendAbort(b, HeldByServer(t).value, fatal) else b;
      Answered(c, t.caller, how)
  }

  // ---- inbound answers ------------------------------------------------------------------

  /** A reply other than a transfer accept. */
  function OnReply(a: State, t: ReplyType): (r: State)
    ensures Keeps(a, r)
  {
    if !HeadAsks(a, t) then Dead(a)
    else Answered(PopFront(a), a.pending[0].waiter.caller, Fine)
  }

  function UploadChunkAcked(a: State, gen: nat, len: nat, index: nat, ok: bool): (r: State)
    ensures Keeps(a, r)
  {
    if !IsCurrent(a, gen) || !a.transfer.value.job.Upload? then a
    else
      var t := a.transfer.value;
      var u := t.job.up;
      var rest := if u.inFlight >= len then u.inFlight - len else 0;
      var done := if ok && index < |u.done| then u.done[index := true] else u.done;
      a.(transfer := Some(t.(job := Upload(u.(inFlight := rest, done := done)))))
  }

  function Retire(a: State, q: Quiet): (r: State)
    ensures Keeps(a, r) && NothingSent(a, r)
  {
    var b := if q.kind.UploadChunk? then UploadChunkAcked(a, q.kind.gen, q.kind.len, q.kind.index, !q.failed) else a;
    if q.reply.Some? then Answered(b, q.reply.value, if q.failed then ServerSaid else Fine) else b
  }

  function OnPong(a: State): (r: State)
    ensures Keeps(a, r)
  {
    hide UploadWf, FetchWf;
    if a.pending == [] then Dead(a)
    else
      var b := PopFront(a);
      match a.pending[0]
      // The popped waiter is dropped with its reply channel.
      case Reply(w) => if w.Asks? then Answered(Dead(b), w.caller, Gone) else Dead(b)
      case Barrier(_, None) => b
      case Barrier(_, Some(q)) => Retire(b, q)
  }

  function OnError(a: State, fatal: bool): (r: State)
    ensures Keeps(a, r)
  {
    hide UploadWf, FetchWf;
    if a.pending == [] then a
    else
      match a.pending[0]
      case Reply(TransferStart(gen)) =>
        if IsCurrent(a, gen) then FailTransfer(PopFront(a), ServerSaid, fatal) else PopFront(a)
      case Reply(Asks(caller, _)) => Answered(PopFront(a), caller, ServerSaid)
      case Barrier(token, Some(q)) =>
        if q.failed then a
        else
          var b := a.(pending := a.pending[0 := Barrier(token, Some(q.(failed := true)))]);
          if q.kind.UploadChunk? && IsCurrent(a, q.kind.gen) then FailTransfer(b, ServerSaid, fatal) else b
      case Barrier(_, None) => a
  }

  function Resize(bits: seq<bool>, n: nat): (r: seq<bool>)
    ensures |r| == n
  {
    if |bits| >= n then bits[..n] else bits + Download.Falses(n - |bits|)
  }

  function OnUploadAccept(a: State, t: Transfer, acc: Download.Accept, fatal: bool): (r: State)
    requires t.job.Upload?
    ensures t.gen <= a.nextGen && a.blocking == None ==> TransferWf(r) && r.nextGen == a.nextGen
    ensures AtMostAbort(a, r)
  {
    var u := t.job.up;
    if GeometryProblem(true, u.chunkSize, acc.chunkSize, acc.total, acc.size, acc.bitmapLen) != None || acc.size != u.size then
      // Recorded as running so that the failure tells the server.
      FailTransfer(a.(transfer := Some(t.(stage := Running, job := Upload(u.(id := acc.id))))), Locally, fatal)
    else
      var skip := Resize(acc.haveBits, acc.total);
      var v := u.(id := acc.id, total := acc.total, skip := skip, done := skip, next := 0, inFlight := 0);
      a.(transfer := Some(t.(stage := Running, job := Upload(v))))
  }

  /** An unacceptable accept: one abort, by whichever of the two paths applies. */
  function RefuseDownload(a: State, t: Transfer, fatal: bool): (r: State)
    requires t.job.Fetch? && t.stage == Running
    ensures AtMostAbort(a, r) && r.transfer == None && r.nextGen == a.nextGen
    ensures a.blocking == None ==> r.blocking == None
  {
    var b := a.(transfer := Some(t));
    FailTransfer(if t.job.down.accepted then b else SendAbort(b, t.job.down.id, fatal), Locally, fatal)
  }

  function OnDownloadAccept(a: State, t: Transfer, acc: Download.Accept, canOpen: bool, fatal: bool): (r: State)
    requires t.job.Fetch?
    ensures t.gen <= a.nextGen && a.blocking == None && FetchWf(t.stage, t.job.down) ==> TransferWf(r) && r.nextGen == a.nextGen
    ensures AtMostAbort(a, r)
  {
    hide UploadWf, TotalChunks;
    var d := t.job.down;
    match Download.OnAccept(d, acc)
    case FileChanged(e) => FailTransfer(a.(transfer := Some(t.(stage := Running, job := Fetch(e)))), Locally, fatal)
    case BadGeometry(e) => RefuseDownload(a, t.(stage := Running, job := Fetch(e)), fatal)
    case Started(e, _) =>
      // A partial that cannot be opened ends the transfer without telling the server.
      if !d.accepted && !canOpen then FailTransfer(a, Locally, fatal)
      else a.(transfer := Some(t.(stage := Running, job := Fetch(e))))
  }

  function OnAccept(a: State, acc: Download.Accept, canOpen: bool, fatal: bool): (r: State)
    ensures Keeps(a, r)
  {
    hide UploadWf, FetchWf;
    if !HeadAwaitsAccept(a) then Dead(a)
    else
      var gen := a.pending[0].waiter.gen;
      var b := PopFront(a);
      if !(IsCurrent(a, gen) && a.transfer.value.stage == AwaitingAccept) then SendAbort(b, acc.id, fatal)
      else if a.transfer.value.job.Upload? then OnUploadAccept(b, a.transfer.value, acc, fatal)
      else OnDownloadAccept(b, a.transfer.value, acc, canOpen, fatal)
  }

  function OnData(h: Download.Hash, a: State, d: Download.Data, written: bool, fatal: bool): (r: State)
    requires a.transfer.Some? && a.transfer.value.stage == Running && a.transfer.value.job.Fetch? ==>
               var j := a.transfer.value.job.down; j.chunkSize > 0 && |j.have| == j.total
    ensures Keeps(a, r) && OrdinarySend(a, r)
  {
    if !a.transfer.Some? || a.transfer.value.stage != Running || !a.transfer.value.job.Fetch? then a
    else
      var t := a.transfer.value;
      match Download.OnData(h, t.job.down, d)
      case Ignored => a
      case Malformed => FailTransfer(a, Locally, fatal)
      case HashMismatch => FailTransfer(a, Locally, fatal)
      case Store(_, j) =>
        if written then a.(transfer := Some(t.(job := Fetch(j)))) else FailTransfer(a, Locally, fatal)
  }

  function RemoveFirst(ids: seq<Id>, id: Id): seq<Id> {
    if ids == [] then [] else if ids[0] == id then ids[1..] else [ids[0]] + RemoveFirst(ids[1..], id)
  }

  function Settled(a: State, how: How): State
    requires a.transfer.Some?
  {
    Answered(a.(transfer := None), a.transfer.value.caller, how)
  }

  function DownloadEnded(a: State, t: Transfer, verified: bool, flushed: bool, tooLarge: bool, fatal: bool): (r: State)
    requires t.job.Fetch?
    ensures t.gen <= a.nextGen && a.blocking == None && FetchWf(Running, t.job.down) ==> TransferWf(r) && r.nextGen == a.nextGen
  {
    hide UploadWf, Geometry, FailTransfer, SendRequest;
    var over := a.(transfer := Some(t.(stage := Verifying)));
    if !verified || !flushed then FailTransfer(over, ServerSaid, fatal)
    else
      match Download.OnEnd(t.job.down)
      case GiveUp => FailTransfer(over, ServerSaid, fatal)
      case Verify => over.(blocking := Some(Blocking.Verify(t.gen)))
      case Again(d) =>
        var b := a.(transfer := Some(t.(stage := AwaitingAccept, job := Fetch(d))));
        if tooLarge then FailTransfer(b, Locally, fatal)
        else if fatal then Dead(b)
        else SendRequest(b, TransferStart(t.gen))
  }

  function DropWaiter(a: State, gen: nat): (r: State)
    ensures Keeps(a, r)
  {
    if a.pending != [] && a.pending[0] == Reply(TransferStart(gen)) then PopFront(a) else a
  }

  function OnTransferEnd(a: State, id: Id, verified: bool, flushed: bool, tooLarge: bool, fatal: bool): (r: State)
    ensures Keeps(a, r)
  {
    hide UploadWf, FetchWf;
    if id in a.abandoned then a.(abandoned := RemoveFirst(a.abandoned, id))
    else
      match a.transfer
      case None => a
      case Some(t) =>
        match t.stage
        case AwaitingAccept =>
          // Taken for the server's (malformed) answer to our request.
          FailTransfer(DropWaiter(a, t.gen), ServerSaid, fatal)
        case Preparing => a
        case Verifying => a
        case Running =>
          if id != (if t.job.Upload? then t.job.up.id else t.job.down.id) then a
          else if t.job.Upload? then Settled(a, if verified then Fine else ServerSaid)
          else DownloadEnded(a, t, verified, flushed, tooLarge, fatal)
  }

  // ---- commands ------------------------------------------------------------------------

  function Issue(a: State): State {
    a.(issued := a.issued + 1)
  }

  function Request(a: State, expects: ReplyType, tooLarge: bool, fatal: bool): (r: State)
    ensures Keeps(a, r) && OrdinarySend(a, r)
  {
    var b := Issue(a);
    if tooLarge then Answered(b, a.issued, Locally)
    else if fatal then Answered(Dead(b), a.issued, Gone)
    else SendRequest(b, Asks(a.issued, expects))
  }

  /** A command resolved once written; with `wait`, when its barrier returns. */
  function Command(a: State, wait: bool, tooLarge: bool, fatal: bool): (r: State)
    ensures Keeps(a, r) && OrdinarySend(a, r)
  {
    var b := Issue(a);
    if tooLarge then Answered(b, a.issued, Locally)
    else if fatal then Answered(Dead(b), a.issued, Gone)
    else if wait then SendQuiet(b, Plain, Some(a.issued))
    else Answered(SendQuiet(b, Plain, None), a.issued, Fine)
  }

  function Keepalive(a: State, fatal: bool): (r: State)
    ensures Keeps(a, r) && OrdinarySend(a, r)
  {
    if fatal then Dead(a) else SendBarrier(a, None)
  }

  const NewUpload := UploadJob(0, DEFAULT_CHUNK_SIZE, 0, 0, [], [], 0, 0)

  function StartUpload(a: State, valid: bool): (r: State)
    ensures Keeps(a, r) && OrdinarySend(a, r)
  {
    var b := Issue(a);
    if a.transfer.Some? || !valid then Answered(b, a.issued, Locally)
    else
      var gen := a.nextGen + 1;
      b.(nextGen := gen, blocking := Some(UploadPrep(gen)),
         transfer := Some(Transfer(gen, a.issued, Preparing, Upload(NewUpload))))
  }

  function StartDownload(a: State, valid: bool, job: Download.Job, tooLarge: bool, fatal: bool): (r: State)
    requires !job.accepted && job.round == 0
    ensures Keeps(a, r) && OrdinarySend(a, r)
  {
    var b := Issue(a);
    if a.transfer.Some? || !valid then Answered(b, a.issued, Locally)
    else
      var gen := a.nextGen + 1;
      var c := b.(nextGen := gen);
      if tooLarge then Answered(c, a.issued, Locally)
      else if fatal then Answered(Dead(c), a.issued, Gone)
      else SendRequest(c, TransferStart(gen)).(transfer := Some(Transfer(gen, a.issued, AwaitingAccept, Fetch(job))))
  }

  function Cancel(a: State, fatal: bool): (r: State)
    ensures Keeps(a, r) && OrdinarySend(a, r)
  {
    var b := Issue(a);
    Answered(FailTransfer(b, Locally, fatal), a.issued, Fine)
  }

  // ---- background work -----------------------------------------------------------------

  function SendUploadRequest(a: State, t: Transfer, size: nat, tooLarge: bool, fatal: bool): (r: State)
    requires t.job.Upload?
    ensures t.gen <= a.nextGen && a.blocking == None && UploadWf(Preparing, t.job.up) ==> TransferWf(r) && r.nextGen == a.nextGen
    ensures OrdinarySend(a, r)
  {
    var u := t.job.up.(size := size, chunkSize := ChunkSizeFor(size));
    var b := a.(transfer := Some(t.(stage := AwaitingAccept, job := Upload(u))));
    if tooLarge then FailTransfer(b, Locally, fatal)
    else if fatal then Dead(b)
    else SendRequest(b, TransferStart(t.gen))
  }

  /** What a background job reports; the hash job reports the digest it computed. */
  datatype Done = Prepared(size: nat) | Hashed(digest: Download.Digest) | Moved | WorkFailed

  /** The current transfer's job is over. */
  function WorkFinished(a: State, t: Transfer, work: Blocking, done: Done, tooLarge: bool, fatal: bool): (r: State)
    requires a.transfer == Some(t)
    ensures TransferWf(a.(blocking := Some(work))) && a.blocking == None ==> TransferWf(r) && r.nextGen == a.nextGen
    ensures OrdinarySend(a, r)
  {
    hide FetchWf, Geometry;
    match (work, done)
    case (UploadPrep(_), Prepared(size)) =>
      if t.job.Upload? then SendUploadRequest(a, t, size, tooLarge, fatal) else a
    case (Verify(gen), Hashed(digest)) =>
      if !t.job.Fetch? then a
      else if digest == t.job.down.sha256 then a.(blocking := Some(Publish(gen)))
      else FailTransfer(a, Locally, fatal)
    case (Publish(_), Moved) => if t.job.Fetch? then Settled(a, Fine) else a
    case (_, _) => FailTransfer(a, Locally, fatal)
  }

  function OnBlockingDone(a: State, done: Done, tooLarge: bool, fatal: bool): (r: State)
    ensures Keeps(a, r) && OrdinarySend(a, r)
  {
    hide UploadWf, FetchWf;
    match a.blocking
    case None => a
    case Some(work) =>
      var b := a.(blocking := None);
      if !IsCurrent(a, work.gen) then b
      else
        assert b.(blocking := Some(work)) == a;
        WorkFinished(b, a.transfer.value, work, done, tooLarge, fatal)
  }

  predicate UploadCanSend(a: State) {
    && a.transfer.Some? && a.transfer.value.stage == Running && a.transfer.value.job.Upload?
    && var u := a.transfer.value.job.up;
       u.next < u.total && (u.inFlight == 0 || u.inFlight + u.chunkSize <= UPLOAD_WINDOW_BYTES)
  }

  /** The first index from `i` on that the server does not have yet. */
  function NextMissing(skip: seq<bool>, i: nat): (r: nat)
    requires i <= |skip|
    ensures i <= r <= |skip| && (forall k :: i <= k < r ==> skip[k]) && (r < |skip| ==> !skip[r])
    decreases |skip| - i
  {
    if i < |skip| && skip[i] then NextMissing(skip, i + 1) else i
  }

  /** A chunk of the current transfer went out. */
  predicate SentOwnChunk(a: State, r: State) {
    && OneSent(a, r) && IsChunk(Last(r.pending))
    && a.transfer.Some? && Last(r.pending).quiet.value.kind.gen == a.transfer.value.gen
  }

  function SendNextChunk(a: State, readable: bool, tooLarge: bool, fatal: bool): (r: State)
    requires UploadCanSend(a)
    requires var u := a.transfer.value.job.up; |u.skip| == u.total && u.chunkSize > 0
    ensures Keeps(a, r)
  {
    hide FetchWf, TotalChunks, ChunkLen, NextMissing;
    var t := a.transfer.value;
    var u := t.job.up;
    var index := NextMissing(u.skip, u.next);
    if index >= u.total then a.(transfer := Some(t.(job := Upload(u.(next := index)))))
    else SendChunk(a, t, index, readable, tooLarge, fatal)
  }

  lemma ChunkFits(u: UploadJob, index: nat)
    requires index < u.total && u.chunkSize > 0
    ensures Geometry(u.size, u.chunkSize, u.total) ==> ChunkLen(u.size, u.chunkSize, index, u.total) <= u.chunkSize
  {
    if Geometry(u.size, u.chunkSize, u.total) {
      ChunkRange(u.size, u.chunkSize, u.total, index);
    }
  }

  /** The job once chunk `index` is read, and once it also counts against the window. */
  function Passed(u: UploadJob, index: nat): (r: UploadJob)
    requires index < u.total
    ensures UploadWf(Running, u) ==> UploadWf(Running, r)
  {
    u.(next := index + 1)
  }

  function InFlight(u: UploadJob, index: nat): (r: UploadJob)
    requires index < u.total && u.chunkSize > 0
    requires u.inFlight == 0 || u.inFlight + u.chunkSize <= UPLOAD_WINDOW_BYTES
    ensures UploadWf(Running, u) ==> UploadWf(Running, r)
  {
    ChunkFits(u, index);
    Passed(u, index).(inFlight := u.inFlight + ChunkLen(u.size, u.chunkSize, index, u.total))
  }

  function SendChunk(a: State, t: Transfer, index: nat, readable: bool, tooLarge: bool, fatal: bool): (r: State)
    requires a.transfer == Some(t) && t.stage == Running && t.job.Upload?
    requires index < t.job.up.total && t.job.up.chunkSize > 0
    requires t.job.up.inFlight == 0 || t.job.up.inFlight + t.job.up.chunkSize <= UPLOAD_WINDOW_BYTES
    ensures Keeps(a, r)
  {
    hide FetchWf, UploadWf, ChunkLen, Passed, InFlight;
    var u := t.job.up;
    if !readable then FailTransfer(a.(transfer := Some(t.(job := Upload(Passed(u, index))))), Locally, fatal)
    else
      var b := a.(transfer := Some(t.(job := Upload(InFlight(u, index)))));
      if tooLarge then FailTransfer(b, Locally, fatal)
      else if fatal then Dead(b)
      else SendQuiet(b, UploadChunk(t.gen, ChunkLen(u.size, u.chunkSize, index, u.total), index), None)
  }

  function AcceptTimedOut(a: State, fatal: bool): (r: State)
    ensures Keeps(a, r) && OrdinarySend(a, r)
  {
    FailTransfer(a, Locally, fatal)
  }

  // ---- teardown ----------------------------------------------------------------------

  /** The caller an entry of the queue still holds, if any. */
  function CallerOf(p: Pending): Option<Caller> {
    match p
    case Reply(Asks(caller, _)) => Some(caller)
    case Barrier(_, Some(q)) => q.reply
    case _ => None
  }

  /** Everyone still waiting in the queue is told that the connection is gone. */
  function Drained(ps: seq<Pending>): seq<Answer> {
    if ps == [] then []
    else (if CallerOf(ps[0]).Some? then [Answer(CallerOf(ps[0]).value, Gone)] else []) + Drained(ps[1..])
  }

  function Teardown(a: State): State {
    FailTransfer(a.(closing := true, pending := [], answers := a.answers + Drained(a.pending)), Gone, false)
  }

  // ---- one turn of the loop --------------------------------------------------------------

  datatype Input =
    | DoRequest(expects: ReplyType)
    | DoCommand(wait: bool)
    | DoKeepalive
    | DoUpload(valid: bool)
    | DoDownload(valid: bool, expectedSize: Option<nat>, chunk: U32, resume: Option<Download.Sidecar>)
    | DoCancel
    | GotReply(replyType: ReplyType)
    | GotAccept(acc: Download.Accept, canOpen: bool)
    | GotError
    | GotPong
    | GotData(data: Download.Data, written: bool)
    | GotEnd(id: Id, verified: bool, flushed: bool)
    | GotEvent
    | WorkDone(done: Done)
    | ChunkTurn(readable: bool)
    | AcceptTimeout

  /** Whether the loop offers this branch at all. */
  predicate Enabled(a: State, i: Input) {
    match i
    case ChunkTurn(_) => UploadCanSend(a)
    case AcceptTimeout => a.transfer.Some? && a.transfer.value.stage == AwaitingAccept
    case WorkDone(_) => a.blocking.Some?
    case _ => true
  }

  function Turn(h: Download.Hash, a: State, i: Input, tooLarge: bool, fatal: bool): (r: State)
    requires TransferWf(a)
    ensures Keeps(a, r)
  {
    hide TotalChunks;
    if !Enabled(a, i) then a else
    match i
    case DoRequest(expects) => Request(a, expects, tooLarge, fatal)
    case DoCommand(wait) => Command(a, wait, tooLarge, fatal)
    case DoKeepalive => Keepalive(a, fatal)
    case DoUpload(valid) => StartUpload(a, valid)
    case DoDownload(valid, size, chunk, resume) => StartDownload(a, valid, Download.NewJob(size, chunk, resume), tooLarge, fatal)
    case DoCancel => Cancel(a, fatal)
    case GotReply(t) => OnReply(a, t)
    case GotAccept(acc, canOpen) => OnAccept(a, acc, canOpen, fatal)
    case GotError => OnError(a, fatal)
    case GotPong => OnPong(a)
    case GotData(d, written) => OnData(h, a, d, written, fatal)
    case GotEnd(id, verified, flushed) => OnTransferEnd(a, id, verified, flushed, tooLarge, fatal)
    case GotEvent => a
    case WorkDone(done) => OnBlockingDone(a, done, tooLarge, fatal)
    case ChunkTurn(readable) => SendNextChunk(a, readable, tooLarge, fatal)
    case AcceptTimeout => AcceptTimedOut(a, fatal)
  }

  // ---- the shape of a transfer ---------------------------------------------------------------

  /** Which stage goes with which job, and that a pending blocking job always belongs
      to the current transfer. */
  predicate TransferWf(a: State) {
    && (a.transfer.Some? ==>
          var t := a.transfer.value;
          && t.gen <= a.nextGen
          && (t.stage == Preparing ==> t.job.Upload?)
          && (t.stage == Verifying ==> t.job.Fetch?)
          && (t.job.Upload? ==> UploadWf(t.stage, t.job.up))
          && (t.job.Fetch? ==> FetchWf(t.stage, t.job.down)))
    && (a.blocking.Some? ==>
          && a.transfer.Some? && a.blocking.value.gen == a.transfer.value.gen
          && (a.blocking.value.UploadPrep? ==> a.transfer.value.stage == Preparing)
          && (!a.blocking.value.UploadPrep? ==> a.transfer.value.stage == Verifying))
  }

  /** The transfer's shape survives, and generations never go back. */
  predicate Keeps(a: State, r: State) {
    TransferWf(a) ==> TransferWf(r) && a.nextGen <= r.nextGen
  }

  predicate UploadWf(stage: Stage, u: UploadJob) {
    if stage == Running then
      && Geometry(u.size, u.chunkSize, u.total)
      && |u.skip| == |u.done| == u.total && u.next <= u.total
      && u.inFlight <= UPLOAD_WINDOW_BYTES
    else u.inFlight == 0
  }

  predicate FetchWf(stage: Stage, d: Download.Job) {
    && (d.accepted ==> Geometry(d.size, d.chunkSize, d.total) && |d.have| == d.total)
    && (stage == Running || stage == Verifying ==> d.accepted)
    && d.round < Download.MAX_DOWNLOAD_ROUNDS
  }
}
