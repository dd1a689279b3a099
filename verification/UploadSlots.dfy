/**
 * The server's side of one connection: the dispatch loop, the three places an
 * upload can be in, and the order in which frames are read and answers written.
 * What the loop waits for arrives as an event; handlers that only answer are
 * reduced to the answer they give.
 */
module UploadSlots {
  import opened Options

  type Id = nat

  /** One accepted attempt; a resume may reuse the id of an earlier one. */
  datatype Active = Active(id: Id, serial: nat)

  datatype Frame =
    | Ping(token: nat)
    | Request
    | Command
    | UploadStart
    | UploadData(id: Id)
    | TransferEnd(id: Id)
    | Goodbye

  datatype Answer = Pong(token: nat) | Granted | Error

  /** What happened on the connection, in order. */
  datatype Entry =
    | Read(frame: Frame)
    | Wrote(answer: Answer)
    | Ended(serial: nat)      // the server's TransferEnd
    | Released(serial: nat)   // the client's
    | Dropped(serial: nat)    // with the connection

  datatype State = State(
    upload: Option<Active>, chunkWrite: Option<Active>, finishing: Option<Active>, endedUpload: Option<Id>,
    accepted: nat, log: seq<Entry>, closed: bool)

  const Fresh := State(None, None, None, None, 0, [], false)

  datatype ChunkResult = More | AllIn | BadChunk | StorageFailed

  /** What the loop wakes up for, with what the rest of the server decided.
      `sent` is false when a write fails, which ends the connection. */
  datatype Event =
    | GotFrame(frame: Frame, granted: bool, newId: Id, complete: bool, ownDownload: bool, sent: bool)
    | ChunkWritten(result: ChunkResult, sent: bool)
    | Finished(sent: bool)
    | Outbound(sent: bool)
    | Stops

  // ---- the loop body ---------------------------------------------------------------------

  function Note(s: State, e: Entry): State {
    s.(log := s.log + [e])
  }

  /** An answer goes out, or the connection ends. */
  function Say(s: State, answer: Answer, sent: bool): State {
    if sent then Note(s, Wrote(answer)) else s.(closed := true)
  }

  function Conclude(s: State, serial: nat, sent: bool): State {
    if sent then Note(s, Ended(serial)) else Note(s.(closed := true), Dropped(serial))
  }

  function OnChunkWritten(s: State, result: ChunkResult, sent: bool): State
    requires s.chunkWrite.Some?
  {
    var active := s.chunkWrite.value;
    var r := s.(chunkWrite := None);
    match result
    case More => r.(upload := Some(active))
    case AllIn => r.(finishing := Some(active))
    case BadChunk => Say(r.(upload := Some(active)), Error, sent)
    case StorageFailed => Conclude(r.(endedUpload := Some(active.id)), active.serial, sent)
  }

  function OnFinished(s: State, sent: bool): State
    requires s.finishing.Some?
  {
    Conclude(s.(finishing := None, endedUpload := Some(s.finishing.value.id)), s.finishing.value.serial, sent)
  }

  function OnUploadStart(s: State, granted: bool, newId: Id, complete: bool, sent: bool): State {
    if s.upload.Some? || s.finishing.Some? || !granted then Say(s, Error, sent)
    else
      var active := Active(newId, s.accepted);
      var r := s.(accepted := s.accepted + 1);
      if !sent then Note(r.(closed := true), Dropped(active.serial))
      else
        var t := Note(r, Wrote(Granted));
        if complete then t.(finishing := Some(active)) else t.(upload := Some(active))
  }

  predicate ServerEnded(s: State, id: Id) {
    s.endedUpload == Some(id) || (s.finishing.Some? && s.finishing.value.id == id)
  }

  function OnUploadData(s: State, id: Id, sent: bool): State {
    if s.upload.Some? && s.upload.value.id == id then s.(upload := None, chunkWrite := s.upload)
    else if ServerEnded(s, id) then s
    else Say(s, Error, sent)
  }

  function OnTransferEnd(s: State, id: Id, ownDownload: bool, sent: bool): State {
    if s.upload.Some? && s.upload.value.id == id then Note(s.(upload := None), Released(s.upload.value.serial))
    else if ownDownload || ServerEnded(s, id) then s
    else Say(s, Error, sent)
  }

  function OnFrame(s: State, e: Event): State
    requires e.GotFrame?
  {
    var r := Note(s, Read(e.frame));
    match e.frame
    case Ping(token) => Say(r, Pong(token), e.sent)
    case Request => Say(r, if e.granted then Granted else Error, e.sent)
    case Command => if e.granted then r else Say(r, Error, e.sent)
    case UploadStart => OnUploadStart(r, e.granted, e.newId, e.complete, e.sent)
    case UploadData(id) => OnUploadData(r, id, e.sent)
    case TransferEnd(id) => OnTransferEnd(r, id, e.ownDownload, e.sent)
    case Goodbye => r.(closed := true)
  }

  /** One turn; frames are read only while no chunk is being settled. */
  function Step(s: State, e: Event): State {
    if s.closed then s
    else
      match e
      case GotFrame(_, _, _, _, _, _) => if s.chunkWrite == None then OnFrame(s, e) else s
      case ChunkWritten(result, sent) => if s.chunkWrite.Some? then OnChunkWritten(s, result, sent) else s
      case Finished(sent) => if s.finishing.Some? then OnFinished(s, sent) else s
      case Outbound(sent) => s.(closed := !sent)
      case Stops => s.(closed := true)
  }

  function Run(s: State, events: seq<Event>): State
    decreases |events|
  {
    if events == [] then s else Run(Step(s, events[0]), events[1..])
  }

  /** The connection's end drops whatever is still in a slot. */
  function Close(s: State): State {
    var r := s.(upload := None, chunkWrite := None, finishing := None, closed := true);
    if s.upload.Some? then Note(r, Dropped(s.upload.value.serial))
    else if s.chunkWrite.Some? then Note(r, Dropped(s.chunkWrite.value.serial))
    else if s.finishing.Some? then Note(r, Dropped(s.finishing.value.serial))
    else r
  }

  // ---- at most one slot, and each attempt concluded once ------------------------------------

  function Occupied(s: State): nat {
    (if s.upload.Some? then 1 else 0) + (if s.chunkWrite.Some? then 1 else 0) + (if s.finishing.Some? then 1 else 0)
  }

  predicate HoldsOnly(slot: Option<Active>, serial: nat) {
    slot.Some? ==> slot.value.serial == serial
  }

  /** The attempts concluded so far, in the order of their conclusions. */
  function Concluded(log: seq<Entry>): seq<nat> {
    if log == [] then []
    else
      var e := log[|log| - 1];
      Concluded(log[..|log| - 1]) + if e.Ended? || e.Released? || e.Dropped? then [e.serial] else []
  }

  function Serials(n: nat): seq<nat> {
    if n == 0 then [] else Serials(n - 1) + [n - 1]
  }

  lemma ConcludedNote(log: seq<Entry>, e: Entry)
    ensures Concluded(log + [e]) == Concluded(log) + if e.Ended? || e.Released? || e.Dropped? then [e.serial] else []
  {
    assert (log + [e])[..|log|] == log;
  }

  /** At most one slot is taken, by the latest attempt; all others are concluded, once. */
  ghost predicate OneAtATime(s: State) {
    && Occupied(s) <= 1 && Occupied(s) <= s.accepted
    && (s.accepted > 0 ==> HoldsOnly(s.upload, s.accepted - 1) && HoldsOnly(s.chunkWrite, s.accepted - 1) && HoldsOnly(s.finishing, s.accepted - 1))
    && Concluded(s.log) == Serials(s.accepted - Occupied(s))
  }

  // ---- the order of reading and answering ------------------------------------------------------

  function LastRead(log: seq<Entry>): Option<Frame> {
    if log == [] then None
    else if log[|log| - 1].Read? then Some(log[|log| - 1].frame) else LastRead(log[..|log| - 1])
  }

  /** The answers written since the last frame was read. */
  function Since(log: seq<Entry>): seq<Answer> {
    if log == [] || log[|log| - 1].Read? then []
    else Since(log[..|log| - 1]) + if log[|log| - 1].Wrote? then [log[|log| - 1].answer] else []
  }

  /** All the answers a frame may get. */
  predicate Fits(f: Frame, answers: seq<Answer>) {
    match f
    case Ping(token) => answers == [Pong(token)]
    case Request => answers == [Granted] || answers == [Error]
    case UploadStart => answers == [Granted] || answers == [Error]
    case Goodbye => answers == []
    case _ => answers == [] || answers == [Error]
  }

  predicate Answered(log: seq<Entry>) {
    match LastRead(log)
    case None => Since(log) == []
    case Some(f) => Fits(f, Since(log))
  }

  /** Whether an entry may come next: a frame is read once the last one has all its
      answers, and an answer is written only to a frame that has none and may get it. */
  predicate MayFollow(before: seq<Entry>, e: Entry) {
    match e
    case Read(_) => Answered(before)
    case Wrote(answer) => LastRead(before).Some? && Since(before) == [] && Fits(LastRead(before).value, [answer])
    case _ => true
  }

  /** Every frame is given the answers it may get, all of them before the next is read. */
  predicate InOrder(log: seq<Entry>) {
    if log == [] then true
    else InOrder(log[..|log| - 1]) && MayFollow(log[..|log| - 1], log[|log| - 1])
  }

  lemma OrderNote(log: seq<Entry>, e: Entry)
    ensures InOrder(log + [e]) <==> InOrder(log) && MayFollow(log, e)
    ensures LastRead(log + [e]) == if e.Read? then Some(e.frame) else LastRead(log)
    ensures Since(log + [e]) == if e.Read? then [] else Since(log) + if e.Wrote? then [e.answer] else []
  {
    assert (log + [e])[..|log|] == log;
  }

  /** A chunk being settled is the last frame read, still unanswered; otherwise the last
      frame has its answers. */
  predicate Orderly(s: State) {
    && InOrder(s.log)
    && (s.chunkWrite.Some? ==> LastRead(s.log).Some? && LastRead(s.log).value.UploadData? && Since(s.log) == [])
    && (s.chunkWrite == None && !s.closed ==> Answered(s.log))
  }

  // ---- preservation --------------------------------------------------------------------------

  lemma NoteFacts(s: State, e: Entry)
    ensures Concluded(Note(s, e).log) == Concluded(s.log) + if e.Ended? || e.Released? || e.Dropped? then [e.serial] else []
    ensures InOrder(Note(s, e).log) <==> InOrder(s.log) && MayFollow(s.log, e)
    ensures LastRead(Note(s, e).log) == if e.Read? then Some(e.frame) else LastRead(s.log)
    ensures Since(Note(s, e).log) == if e.Read? then [] else Since(s.log) + if e.Wrote? then [e.answer] else []
  {
    ConcludedNote(s.log, e);
    OrderNote(s.log, e);
  }

  lemma ChunkWrittenKeeps(s: State, result: ChunkResult, sent: bool)
    requires OneAtATime(s) && Orderly(s) && !s.closed && s.chunkWrite.Some?
    ensures OneAtATime(OnChunkWritten(s, result, sent)) && Orderly(OnChunkWritten(s, result, sent))
  {
    hide Concluded, InOrder, LastRead, Since, Serials;
    NoteFacts(s, Wrote(Error));
    NoteFacts(s, Ended(s.chunkWrite.value.serial));
    NoteFacts(s, Dropped(s.chunkWrite.value.serial));
    SerialsStep(s.accepted);
  }

  lemma FinishedKeeps(s: State, sent: bool)
    requires OneAtATime(s) && Orderly(s) && !s.closed && s.finishing.Some?
    ensures OneAtATime(OnFinished(s, sent)) && Orderly(OnFinished(s, sent))
  {
    hide Concluded, InOrder, LastRead, Since, Serials;
    NoteFacts(s, Ended(s.finishing.value.serial));
    NoteFacts(s, Dropped(s.finishing.value.serial));
    SerialsStep(s.accepted);
  }

  /** Just after a frame was read: nothing is answered yet. */
  ghost predicate JustRead(r: State, f: Frame) {
    && OneAtATime(r) && r.chunkWrite == None && !r.closed
    && InOrder(r.log) && LastRead(r.log) == Some(f) && Since(r.log) == []
  }

  lemma SayKeeps(r: State, f: Frame, answer: Answer, sent: bool)
    requires JustRead(r, f) && Fits(f, [answer])
    ensures OneAtATime(Say(r, answer, sent)) && Orderly(Say(r, answer, sent))
  {
    hide Concluded, InOrder, LastRead, Since;
    NoteFacts(r, Wrote(answer));
  }

  lemma UploadStartKeeps(r: State, granted: bool, newId: Id, complete: bool, sent: bool)
    requires JustRead(r, UploadStart)
    ensures var t := OnUploadStart(r, granted, newId, complete, sent); OneAtATime(t) && Orderly(t)
  {
    hide Concluded, InOrder, LastRead, Since;
    SayKeeps(r, UploadStart, Error, sent);
    NoteFacts(r, Wrote(Granted));
    NoteFacts(r, Dropped(r.accepted));
  }

  lemma UploadDataKeeps(r: State, id: Id, sent: bool)
    requires JustRead(r, UploadData(id))
    ensures OneAtATime(OnUploadData(r, id, sent)) && Orderly(OnUploadData(r, id, sent))
  {
    hide Concluded, InOrder, LastRead, Since, Say;
    SayKeeps(r, UploadData(id), Error, sent);
  }

  lemma TransferEndKeeps(r: State, id: Id, ownDownload: bool, sent: bool)
    requires JustRead(r, TransferEnd(id))
    ensures OneAtATime(OnTransferEnd(r, id, ownDownload, sent)) && Orderly(OnTransferEnd(r, id, ownDownload, sent))
  {
    hide Concluded, InOrder, LastRead, Since, Say;
    SayKeeps(r, TransferEnd(id), Error, sent);
    if r.upload.Some? {
      NoteFacts(r, Released(r.upload.value.serial));
    }
  }

  lemma FrameKeeps(s: State, e: Event)
    requires OneAtATime(s) && Orderly(s) && !s.closed && e.GotFrame? && s.chunkWrite == None
    ensures OneAtATime(OnFrame(s, e)) && Orderly(OnFrame(s, e))
  {
    hide Concluded, InOrder, LastRead, Since, Say, OnUploadStart, OnUploadData, OnTransferEnd;
    var r := Note(s, Read(e.frame));
    NoteFacts(s, Read(e.frame));
    assert JustRead(r, e.frame);
    match e.frame
    case Ping(token) => SayKeeps(r, e.frame, Pong(token), e.sent);
    case Request => SayKeeps(r, e.frame, if e.granted then Granted else Error, e.sent);
    case Command => SayKeeps(r, e.frame, Error, e.sent);
    case UploadStart => UploadStartKeeps(r, e.granted, e.newId, e.complete, e.sent);
    case UploadData(id) => UploadDataKeeps(r, id, e.sent);
    case TransferEnd(id) => TransferEndKeeps(r, id, e.ownDownload, e.sent);
    case Goodbye =>
  }

  lemma StepKeeps(s: State, e: Event)
    requires OneAtATime(s) && Orderly(s)
    ensures OneAtATime(Step(s, e)) && Orderly(Step(s, e))
  {
    hide Concluded, InOrder, LastRead, Since, OnFrame, OnChunkWritten, OnFinished;
    if !s.closed {
      if e.ChunkWritten? && s.chunkWrite.Some? {
        ChunkWrittenKeeps(s, e.result, e.sent);
      } else if e.Finished? && s.finishing.Some? {
        FinishedKeeps(s, e.sent);
      } else if e.GotFrame? && s.chunkWrite == None {
        FrameKeeps(s, e);
      }
    }
  }

  lemma {:induction false} RunKeeps(s: State, events: seq<Event>)
    requires OneAtATime(s) && Orderly(s)
    ensures OneAtATime(Run(s, events)) && Orderly(Run(s, events))
    decreases |events|
  {
    hide Step, OneAtATime, Orderly;
    if events != [] {
      StepKeeps(s, events[0]);
      RunKeeps(Step(s, events[0]), events[1..]);
    }
  }

  /** In every run: at most one slot is occupied, every frame's answers are written before
      the next frame is read, and when the connection ends every upload it accepted has
      been concluded exactly once, in the order they were accepted. */
  lemma UploadsConcludedOnce(events: seq<Event>)
    ensures var s := Run(Fresh, events);
            && Occupied(s) <= 1 && InOrder(s.log)
            && InOrder(Close(s).log) && EachOnce(Concluded(Close(s).log), s.accepted)
  {
    hide Run, OneAtATime, Orderly, Concluded, InOrder;
    FreshKeeps();
    RunKeeps(Fresh, events);
    CloseConcludes(Run(Fresh, events));
    AllSerials(Run(Fresh, events).accepted);
  }

  /** Attempts 0 .. n - 1, each once and in order. */
  predicate EachOnce(serials: seq<nat>, n: nat) {
    |serials| == n && forall k :: 0 <= k < n ==> serials[k] == k
  }

  lemma AllSerials(n: nat)
    ensures EachOnce(Serials(n), n)
  {
    forall k: nat | k < n ensures |Serials(n)| == n && Serials(n)[k] == k {
      SerialsEachOnce(n, k);
    }
    SerialsEachOnce(n, 0);
  }

  lemma FreshKeeps()
    ensures OneAtATime(Fresh) && Orderly(Fresh)
  {
  }

  lemma CloseConcludes(s: State)
    requires OneAtATime(s) && Orderly(s)
    ensures Occupied(s) <= 1 && InOrder(s.log)
    ensures InOrder(Close(s).log) && Concluded(Close(s).log) == Serials(s.accepted)
  {
    hide Concluded, InOrder, LastRead, Since, Serials;
    if Occupied(s) == 1 {
      NoteFacts(s, Dropped(s.accepted - 1));
      SerialsStep(s.accepted);
    }
  }

  lemma SerialsStep(n: nat)
    requires n > 0
    ensures Serials(n) == Serials(n - 1) + [n - 1]
  {
  }

  lemma {:induction false} SerialsEachOnce(n: nat, k: nat)
    ensures |Serials(n)| == n && (k < n ==> Serials(n)[k] == k)
  {
    if n > 0 {
      SerialsEachOnce(n - 1, k);
    }
  }

  // ---- where a settled chunk leaves the upload -------------------------------------------------

  predicate Concerns(e: Event, id: Id) {
    e.GotFrame? && (e.frame == UploadData(id) || e.frame == TransferEnd(id))
  }

  lemma {:induction false} RunConcat(s: State, es: seq<Event>, fs: seq<Event>)
    ensures Run(s, es + fs) == Run(Run(s, es), fs)
    decreases |es|
  {
    hide Step;
    if es == [] {
      assert es + fs == fs;
    } else {
      assert (es + fs)[1..] == es[1..] + fs;
      RunConcat(Step(s, es[0]), es[1..], fs);
    }
  }

  lemma RunSnoc(s: State, es: seq<Event>, e: Event)
    ensures Run(s, es + [e]) == Step(Run(s, es), e)
  {
    hide Step;
    RunConcat(s, es, [e]);
    assert Run(Run(s, es), [e]) == Run(Step(Run(s, es), e), [e][1..]);
  }

  /** Attempt `k` is beyond the client: it is in neither of the slots its frames reach, and
      they have not released it. */
  predicate BeyondClient(s: State, k: nat) {
    && k < s.accepted
    && (s.upload.Some? ==> s.upload.value.serial != k) && (s.chunkWrite.Some? ==> s.chunkWrite.value.serial != k)
    && Released(k) !in s.log
  }

  /** It is being finished, or its end was written, or the connection is over. */
  predicate Finishes(s: State, a: Active) {
    s.closed || (s.finishing == Some(a) && s.upload == None && s.chunkWrite == None) || Ended(a.serial) in s.log
  }

  lemma BeyondStep(s: State, e: Event, a: Active)
    requires BeyondClient(s, a.serial) && Finishes(s, a)
    ensures BeyondClient(Step(s, e), a.serial) && Finishes(Step(s, e), a)
  {
    if !s.closed && e.GotFrame? && s.chunkWrite == None {
      BeyondFrame(s, e, a);
    }
  }

  lemma BeyondFrame(s: State, e: Event, a: Active)
    requires BeyondClient(s, a.serial) && Finishes(s, a) && e.GotFrame? && !s.closed && s.chunkWrite == None
    ensures BeyondClient(OnFrame(s, e), a.serial) && Finishes(OnFrame(s, e), a)
  {
    match e.frame
    case UploadStart =>
    case UploadData(_) =>
    case TransferEnd(_) =>
    case _ =>
  }

  lemma {:induction false} StaysBeyond(s: State, es: seq<Event>, a: Active)
    requires BeyondClient(s, a.serial) && Finishes(s, a)
    ensures BeyondClient(Run(s, es), a.serial) && Finishes(Run(s, es), a)
    decreases |es|
  {
    hide Step, BeyondClient, Finishes;
    if es != [] {
      BeyondStep(s, es[0], a);
      StaysBeyond(Step(s, es[0]), es[1..], a);
    }
  }

  /** Once the last chunk of an attempt is stored: whatever follows, no frame of the client
      releases it or is taken as its chunk; and as long as the connection lives, its end
      is written, or is the very next thing that a finished upload writes. */
  lemma CompleteUploadIsEnded(before: seq<Event>, stored: Event, after: seq<Event>)
    requires stored.ChunkWritten? && stored.result == AllIn
    requires !Run(Fresh, before).closed && Run(Fresh, before).chunkWrite.Some?
    ensures var a := Run(Fresh, before).chunkWrite.value; var t := Run(Fresh, before + [stored] + after);
            && Released(a.serial) !in t.log && t.upload != Some(a) && t.chunkWrite != Some(a)
            && (!t.closed && Ended(a.serial) !in t.log ==> Step(t, Finished(true)).log == t.log + [Ended(a.serial)])
  {
    hide Run, OneAtATime, Orderly;
    FreshKeeps();
    RunKeeps(Fresh, before);
    var s := Run(Fresh, before);
    var a := s.chunkWrite.value;
    RunSnoc(Fresh, before, stored);
    RunConcat(Fresh, before + [stored], after);
    NotReleasedYet(s, a);
    LatestIs(s, a);
    StaysBeyond(Step(s, stored), after, a);
  }

  lemma LatestIs(s: State, a: Active)
    requires OneAtATime(s) && s.chunkWrite == Some(a)
    ensures s.accepted == a.serial + 1 && s.upload == None && s.finishing == None
  {
    hide Concluded;
  }

  lemma {:induction false} ConcludedIn(log: seq<Entry>, k: nat)
    requires Released(k) in log || Ended(k) in log || Dropped(k) in log
    ensures k in Concluded(log)
    decreases |log|
  {
    var init, last := log[..|log| - 1], log[|log| - 1];
    assert log == init + [last];
    if last != Released(k) && last != Ended(k) && last != Dropped(k) {
      ConcludedIn(init, k);
    }
  }

  /** An attempt in a slot is not concluded yet. */
  lemma NotReleasedYet(s: State, a: Active)
    requires OneAtATime(s) && s.chunkWrite == Some(a)
    ensures Released(a.serial) !in s.log && Ended(a.serial) !in s.log && Dropped(a.serial) !in s.log
  {
    hide Concluded, Serials;
    AllSerials(s.accepted - 1);
    assert a.serial !in Concluded(s.log);
    if Released(a.serial) in s.log || Ended(a.serial) in s.log || Dropped(a.serial) in s.log {
      ConcludedIn(s.log, a.serial);
    }
  }

  /** Nothing of attempt `a` is read or settled; it is still waiting for its next chunk. */
  lemma WaitsStep(s: State, e: Event, a: Active)
    requires s.upload == Some(a) && s.chunkWrite == None && !Concerns(e, a.id)
    requires s.finishing == None
    ensures var t := Step(s, e); t.upload == Some(a) && t.chunkWrite == None && t.finishing == None
  {
  }

  lemma {:induction false} Waits(s: State, es: seq<Event>, a: Active)
    requires s.upload == Some(a) && s.chunkWrite == None && s.finishing == None
    requires forall i :: 0 <= i < |es| ==> !Concerns(es[i], a.id)
    ensures var t := Run(s, es); t.upload == Some(a) && t.chunkWrite == None
    decreases |es|
  {
    hide Step, Concerns;
    if es != [] {
      WaitsStep(s, es[0], a);
      Waits(Step(s, es[0]), es[1..], a);
    }
  }

  /** After a chunk that was not the last, or that was bad and answered so: whatever happens
      meanwhile, the next chunk of that upload is taken as one, without an Error. */
  lemma NextChunkIsTaken(before: seq<Event>, settled: Event, after: seq<Event>, next: Event)
    requires settled.ChunkWritten? && settled.result in {More, BadChunk}
    requires !Run(Fresh, before).closed && Run(Fresh, before).chunkWrite.Some?
    requires var id := Run(Fresh, before).chunkWrite.value.id;
             && (forall i :: 0 <= i < |after| ==> !Concerns(after[i], id))
             && next.GotFrame? && next.frame == UploadData(id)
    ensures var a := Run(Fresh, before).chunkWrite.value; var t := Run(Fresh, before + [settled] + after);
            && (settled.result == BadChunk && settled.sent ==>
                  Run(Fresh, before + [settled]).log == Run(Fresh, before).log + [Wrote(Error)])
            && (settled.result == More ==> Run(Fresh, before + [settled]).log == Run(Fresh, before).log)
            && (!t.closed ==> Step(t, next) == t.(upload := None, chunkWrite := Some(a), log := t.log + [Read(next.frame)]))
  {
    hide Run, OneAtATime, Orderly;
    FreshKeeps();
    RunKeeps(Fresh, before);
    var s := Run(Fresh, before);
    RunSnoc(Fresh, before, settled);
    RunConcat(Fresh, before + [settled], after);
    LatestIs(s, s.chunkWrite.value);
    Waits(Step(s, settled), after, s.chunkWrite.value);
  }

  /** What ended an attempt is no error to hear of again: late chunks and ends of it are
      ignored without an answer. */
  lemma LateFramesAreIgnored(s: State, over: Event, a: Active, late: Event)
    requires !s.closed && Concerns(late, a.id) && !Step(s, over).closed
    requires (over.Finished? && s.finishing == Some(a)) || (over.ChunkWritten? && s.chunkWrite == Some(a) && over.result in {AllIn, StorageFailed})
    requires Occupied(s) <= 1
    ensures var t := Step(s, over); Step(t, late) == Note(t, Read(late.frame))
  {
  }

  /** What a frame read on a live connection is answered, and what becomes of the slots. */
  lemma EachFrameGetsItsAnswer(s: State, e: Event)
    requires !s.closed && s.chunkWrite == None && e.GotFrame? && e.sent
    ensures var t := Step(s, e); var got := s.log + [Read(e.frame)]; var refused := got + [Wrote(Error)];
            match e.frame
            case Ping(token) => t == s.(log := got + [Wrote(Pong(token))])
            case Request => t == s.(log := if e.granted then got + [Wrote(Granted)] else refused)
            case Command => t == s.(log := if e.granted then got else refused)
            case Goodbye => t == s.(log := got, closed := true)
            case UploadStart =>
              var a := Active(e.newId, s.accepted);
              if e.granted && s.upload == None && s.finishing == None then
                t == s.(log := got + [Wrote(Granted)], accepted := s.accepted + 1,
                        upload := if e.complete then None else Some(a), finishing := if e.complete then Some(a) else None)
              else t == s.(log := refused)
            case UploadData(id) =>
              if exists k :: s.upload == Some(Active(id, k)) then t == s.(log := got, upload := None, chunkWrite := s.upload)
              else if s.endedUpload == Some(id) || (exists k :: s.finishing == Some(Active(id, k))) then t == s.(log := got)
              else t == s.(log := refused)
            case TransferEnd(id) =>
              if s.upload.Some? && s.upload.value.id == id then t == s.(log := got + [Released(s.upload.value.serial)], upload := None)
              else if e.ownDownload || s.endedUpload == Some(id) || (s.finishing.Some? && s.finishing.value.id == id) then t == s.(log := got)
              else t == s.(log := refused)
  {
    match e.frame
    case UploadData(id) =>
      assert s.upload.Some? ==> s.upload == Some(Active(s.upload.value.id, s.upload.value.serial));
      assert s.finishing.Some? ==> s.finishing == Some(Active(s.finishing.value.id, s.finishing.value.serial));
    case _ =>
  }

  /** The connection ends with a write that fails, a Goodbye or a stop, and with nothing else; an answer that
      could not be written is not in the log. */
  lemma ConnectionEndsIff(s: State, e: Event)
    requires !s.closed
    ensures var t := Step(s, e);
            match e
            case Stops => t.closed
            case Outbound(sent) => t.closed <==> !sent
            case Finished(sent) => t.closed <==> !sent && s.finishing.Some?
            case ChunkWritten(result, sent) => t.closed <==> !sent && s.chunkWrite.Some? && result in {BadChunk, StorageFailed}
            case GotFrame(frame, _, _, _, _, sent) =>
              && (sent ==> (t.closed <==> frame == Goodbye && s.chunkWrite == None))
              && (!sent ==> forall answer :: Wrote(answer) in t.log ==> Wrote(answer) in s.log)
              && (!sent && (frame.Ping? || frame.Request? || frame.UploadStart?) && s.chunkWrite == None ==> t.closed)
  {
    if e.GotFrame? && s.chunkWrite == None {
      match e.frame
      case UploadStart =>
      case _ =>
    }
  }

  // ---- why an attempt was concluded --------------------------------------------------------------

  /** What entitles the server to end an attempt: an accept that was complete already, a last
      chunk stored, or a chunk that could not be stored. */
  predicate Entitles(s: State, e: Event, a: Active) {
    !s.closed &&
    match e
    case GotFrame(frame, granted, newId, complete, _, sent) =>
      && frame == UploadStart && granted && complete && sent
      && s.upload == None && s.chunkWrite == None && s.finishing == None && a == Active(newId, s.accepted)
    case ChunkWritten(result, _) => s.chunkWrite == Some(a) && result in {AllIn, StorageFailed}
    case _ => false
  }

  /** The client gave it up: its TransferEnd for the upload in the slot. */
  predicate GivesUp(s: State, e: Event, a: Active) {
    !s.closed && s.upload == Some(a) && s.chunkWrite == None && e.GotFrame? && e.frame == TransferEnd(a.id)
  }

  ghost predicate EntitledIn(es: seq<Event>, a: Active) {
    exists i :: 0 <= i < |es| && Entitles(Run(Fresh, es[..i]), es[i], a)
  }

  ghost predicate GivenUpIn(es: seq<Event>, a: Active) {
    exists i :: 0 <= i < |es| && GivesUp(Run(Fresh, es[..i]), es[i], a)
  }

  ghost predicate Explained(es: seq<Event>) {
    var s := Run(Fresh, es);
    && (s.finishing.Some? ==> EntitledIn(es, s.finishing.value))
    && (forall k :: Ended(k) in s.log ==> exists a: Active :: a.serial == k && EntitledIn(es, a))
    && (forall k :: Released(k) in s.log ==> exists a: Active :: a.serial == k && GivenUpIn(es, a))
    && (forall k :: Dropped(k) in s.log ==> s.closed)
  }

  lemma Earlier(es: seq<Event>, e: Event, a: Active)
    ensures EntitledIn(es, a) || Entitles(Run(Fresh, es), e, a) ==> EntitledIn(es + [e], a)
    ensures GivenUpIn(es, a) || GivesUp(Run(Fresh, es), e, a) ==> GivenUpIn(es + [e], a)
  {
    hide Run, Entitles, GivesUp;
    var more := es + [e];
    assert more[..|es|] == es && more[|es|] == e;
    if EntitledIn(es, a) {
      var i :| 0 <= i < |es| && Entitles(Run(Fresh, es[..i]), es[i], a);
      assert more[..i] == es[..i] && more[i] == es[i];
    }
    if GivenUpIn(es, a) {
      var i :| 0 <= i < |es| && GivesUp(Run(Fresh, es[..i]), es[i], a);
      assert more[..i] == es[..i] && more[i] == es[i];
    }
  }

  /** One step: a slot or an entry that is new has its reason in that step. */
  lemma StepExplains(s: State, e: Event, k: nat)
    ensures var t := Step(s, e);
            && (t.finishing.Some? ==> t.finishing == s.finishing || Entitles(s, e, t.finishing.value))
            && (Ended(k) in t.log ==> Ended(k) in s.log || (s.finishing.Some? && s.finishing.value.serial == k)
                                      || (s.chunkWrite.Some? && s.chunkWrite.value.serial == k && Entitles(s, e, s.chunkWrite.value)))
            && (Released(k) in t.log ==> Released(k) in s.log || (s.upload.Some? && s.upload.value.serial == k && GivesUp(s, e, s.upload.value)))
            && (Dropped(k) in t.log ==> Dropped(k) in s.log || t.closed) && (s.closed ==> t.closed)
  {
    if !s.closed && e.GotFrame? && s.chunkWrite == None {
      FrameExplains(s, e, k);
    }
  }

  lemma FrameExplains(s: State, e: Event, k: nat)
    requires e.GotFrame? && !s.closed && s.chunkWrite == None
    ensures var t := OnFrame(s, e);
            && (t.finishing.Some? ==> t.finishing == s.finishing || Entitles(s, e, t.finishing.value))
            && (Ended(k) in t.log ==> Ended(k) in s.log)
            && (Released(k) in t.log ==> Released(k) in s.log || (s.upload.Some? && s.upload.value.serial == k && GivesUp(s, e, s.upload.value)))
            && (Dropped(k) in t.log ==> Dropped(k) in s.log || t.closed)
  {
    match e.frame
    case UploadStart =>
    case UploadData(_) =>
    case TransferEnd(_) =>
    case _ =>
  }

  lemma ExplainedStep(es: seq<Event>, e: Event)
    requires Explained(es)
    ensures Explained(es + [e])
  {
    hide Run, Step, Entitles, GivesUp, EntitledIn, GivenUpIn;
    var s, t := Run(Fresh, es), Run(Fresh, es + [e]);
    RunSnoc(Fresh, es, e);
    forall a: Active
      ensures EntitledIn(es, a) || Entitles(s, e, a) ==> EntitledIn(es + [e], a)
      ensures GivenUpIn(es, a) || GivesUp(s, e, a) ==> GivenUpIn(es + [e], a)
    {
      Earlier(es, e, a);
    }
    StepExplains(s, e, 0);
    forall k | Ended(k) in t.log ensures exists a: Active :: a.serial == k && EntitledIn(es + [e], a) {
      StepExplains(s, e, k);
    }
    forall k | Released(k) in t.log ensures exists a: Active :: a.serial == k && GivenUpIn(es + [e], a) {
      StepExplains(s, e, k);
    }
    forall k | Dropped(k) in t.log ensures t.closed {
      StepExplains(s, e, k);
    }
  }

  /** Over every run: the server ends an attempt only after an accept that was complete, its last
      chunk, or a storage failure; one is released only by the client's own TransferEnd for it; and
      one is dropped only with the connection. */
  lemma {:induction false} ConclusionsHaveReasons(es: seq<Event>)
    ensures Explained(es)
    decreases |es|
  {
    hide Explained;
    if es == [] {
      NothingToExplain();
    } else {
      assert es == es[..|es| - 1] + [es[|es| - 1]];
      ConclusionsHaveReasons(es[..|es| - 1]);
      ExplainedStep(es[..|es| - 1], es[|es| - 1]);
    }
  }

  lemma NothingToExplain()
    ensures Explained([])
  {
  }

  // ---- the loop itself ----------------------------------------------------------------------

  /** The dispatch loop's variables, updated in place. */
  class Dispatcher {
    var upload: Option<Active>
    var chunkWrite: Option<Active>
    var finishing: Option<Active>
    var endedUpload: Option<Id>
    var accepted: nat
    var log: seq<Entry>
    var closed: bool

    ghost function Value(): State
      reads this
    {
      State(upload, chunkWrite, finishing, endedUpload, accepted, log, closed)
    }

    constructor ()
      ensures Value() == Fresh
    {
      upload, chunkWrite, finishing, endedUpload := None, None, None, None;
      accepted, log, closed := 0, [], false;
    }

    method Send(answer: Answer, sent: bool)
      modifies this
      ensures Value() == Say(old(Value()), answer, sent)
    {
      if sent {
        log := log + [Wrote(answer)];
      } else {
        closed := true;
      }
    }

    method SendEnd(serial: nat, sent: bool)
      modifies this
      ensures Value() == Conclude(old(Value()), serial, sent)
    {
      if sent {
        log := log + [Ended(serial)];
      } else {
        closed := true;
        log := log + [Dropped(serial)];
      }
    }

    method SettleChunk(result: ChunkResult, sent: bool)
      requires chunkWrite.Some?
      modifies this
      ensures Value() == OnChunkWritten(old(Value()), result, sent)
    {
      var active := chunkWrite.value;
      chunkWrite := None;
      match result
      case More => upload := Some(active);
      case AllIn => finishing := Some(active);
      case BadChunk => upload := Some(active); Send(Error, sent);
      case StorageFailed => endedUpload := Some(active.id); SendEnd(active.serial, sent);
    }

    method StartUpload(granted: bool, newId: Id, complete: bool, sent: bool)
      modifies this
      ensures Value() == OnUploadStart(old(Value()), granted, newId, complete, sent)
    {
      if upload.Some? || finishing.Some? || !granted {
        Send(Error, sent);
        return;
      }
      var active := Active(newId, accepted);
      accepted := accepted + 1;
      if !sent {
        closed := true;
        log := log + [Dropped(active.serial)];
        return;
      }
      log := log + [Wrote(Granted)];
      if complete {
        finishing := Some(active);
      } else {
        upload := Some(active);
      }
    }

    method Handle(e: Event)
      requires e.GotFrame?
      modifies this
      ensures Value() == OnFrame(old(Value()), e)
    {
      hide OnUploadStart, Say;
      log := log + [Read(e.frame)];
      match e.frame
      case Ping(token) => Send(Pong(token), e.sent);
      case Request => Send(if e.granted then Granted else Error, e.sent);
      case Command => if !e.granted { Send(Error, e.sent); }
      case UploadStart => StartUpload(e.granted, e.newId, e.complete, e.sent);
      case UploadData(id) =>
        var ended := endedUpload == Some(id) || (finishing.Some? && finishing.value.id == id);
        if upload.Some? && upload.value.id == id {
          chunkWrite := upload;
          upload := None;
        } else if !ended {
          Send(Error, e.sent);
        }
      case TransferEnd(id) =>
        if upload.Some? && upload.value.id == id {
          log := log + [Released(upload.value.serial)];
          upload := None;
        } else if !e.ownDownload && endedUpload != Some(id) && !(finishing.Some? && finishing.value.id == id) {
          Send(Error, e.sent);
        }
      case Goodbye => closed := true;
    }

    method Turn(e: Event)
      modifies this
      ensures Value() == Step(old(Value()), e)
    {
      hide OnFrame, OnChunkWritten;
      if closed {
        return;
      }
      var reading := chunkWrite == None;
      match e
      case GotFrame(_, _, _, _, _, _) => if reading { Handle(e); }
      case ChunkWritten(result, sent) => if !reading { SettleChunk(result, sent); }
      case Finished(sent) =>
        if finishing.Some? {
          var active := finishing.value;
          finishing := None;
          endedUpload := Some(active.id);
          SendEnd(active.serial, sent);
        }
      case Outbound(sent) => closed := !sent;
      case Stops => closed := true;
    }

    /** The whole connection, given what it wakes up for. */
    method Serve(events: seq<Event>)
      modifies this
      ensures Value() == Close(Run(old(Value()), events))
      ensures old(Value()) == Fresh ==> InOrder(log) && EachOnce(Concluded(log), accepted)
    {
      hide Step, InOrder, Concluded, EachOnce;
      var k := 0;
      while k < |events|
        invariant 0 <= k <= |events|
        invariant Run(old(Value()), events) == Run(Value(), events[k..])
      {
        Turn(events[k]);
        assert events[k..][1..] == events[k + 1..];
        k := k + 1;
      }
      if upload.Some? {
        log := log + [Dropped(upload.value.serial)];
      } else if chunkWrite.Some? {
        log := log + [Dropped(chunkWrite.value.serial)];
      } else if finishing.Some? {
        log := log + [Dropped(finishing.value.serial)];
      }
      upload, chunkWrite, finishing, closed := None, None, None, true;
      if old(Value()) == Fresh {
        UploadsConcludedOnce(events);
      }
    }
  }
}
