/**
 * Fragmentation and reassembly. A logical message larger than one frame is sent
 * as a group of frames with consecutive sequence numbers (u32, wrapping). The
 * server skips the rest of a group that outgrows its type's cap and answers the
 * whole message with one Error, so the request/answer pairing survives.
 */
module Fragments {
  import opened Options
  import opened Wire

  const FRAGMENTED: U16 := 0x1000
  const MORE_FRAGMENTS: U16 := 0x2000
  const DEFAULT_MAX_FRAME_PAYLOAD: U32 := 0x4000
  const MAX_REASSEMBLED_PAYLOAD: nat := 0x40_0000
  const MAX_CONTROL_PAYLOAD: nat := 0x1_0000
  const MAX_TRANSFER_START_PAYLOAD: nat := 0x10_0000
  const FILE_TRANSFER_START: PacketType := 0x22
  const FILE_TRANSFER_DATA: PacketType := 0x23

  /** The cap both ends use for a client request of one type. */
  function MaxRequestPayload(t: PacketType): nat {
    if t == FILE_TRANSFER_DATA then MAX_REASSEMBLED_PAYLOAD
    else if t == FILE_TRANSFER_START then MAX_TRANSFER_START_PAYLOAD
    else MAX_CONTROL_PAYLOAD
  }

  // ---- flag bits -----------------------------------------------------------------

  predicate Has(flags: U16, bit: int)
    requires bit > 0
  {
    flags / bit % 2 == 1
  }

  function With(flags: U16, bit: int): (r: int)
    requires bit > 0
  {
    if Has(flags, bit) then flags else flags + bit
  }

  function Without(flags: U16, bit: int): (r: int)
    requires bit > 0
  {
    if Has(flags, bit) then flags - bit else flags
  }

  predicate IsFragment(flags: U16) {
    Has(flags, FRAGMENTED)
  }

  predicate HasMore(flags: U16) {
    Has(flags, MORE_FRAGMENTS)
  }

  /** The flags of one fragment of a message sent with `flags`. */
  function FragmentFlags(flags: U16, more: bool): (r: U16)
    ensures IsFragment(r)
    ensures more ==> HasMore(r)
    ensures !more ==> HasMore(r) == HasMore(flags)
  {
    var f := With(flags, FRAGMENTED);
    if more then With(f, MORE_FRAGMENTS) else f
  }

  /** The flags of the reassembled message: both fragment bits cleared. */
  function MessageFlags(flags: U16): (r: U16)
    ensures !IsFragment(r) && !HasMore(r)
  {
    Without(Without(flags, MORE_FRAGMENTS), FRAGMENTED)
  }

  lemma FlagsRoundTrip(flags: U16, more: bool)
    requires !IsFragment(flags) && !HasMore(flags)
    ensures MessageFlags(FragmentFlags(flags, more)) == flags
    ensures HasMore(FragmentFlags(flags, more)) == more
  {
  }

  // ---- fragment --------------------------------------------------------------------

  function NextSeq(s: U32): U32 {
    (s + 1) % 0x1_0000_0000
  }

  function SeqAfter(s: U32, n: nat): U32 {
    (s + n) % 0x1_0000_0000
  }

  /** A group of fragments, one per piece, from sequence number `s`. */
  function Group(t: PacketType, flags: U16, pieces: seq<Bytes>, s: U32): seq<Frame>
    requires forall i :: 0 <= i < |pieces| ==> |pieces[i]| < 0x1_0000_0000
    decreases |pieces|
  {
    if pieces == [] then []
    else [Frame(Header(PROTOCOL_VERSION, t, FragmentFlags(flags, |pieces| > 1), s, |pieces[0]|), pieces[0])]
         + Group(t, flags, pieces[1..], NextSeq(s))
  }

  /** The pieces of at most `max` bytes the payload is cut into. */
  function Pieces(payload: Bytes, max: nat): (ps: seq<Bytes>)
    requires max > 0
    ensures forall i :: 0 <= i < |ps| ==> |ps[i]| <= max
    decreases |payload|
  {
    if payload == [] then []
    else if |payload| <= max then [payload]
    else [payload[..max]] + Pieces(payload[max..], max)
  }

  function Fragmented(t: PacketType, flags: U16, payload: Bytes, max: U32, s: U32): seq<Frame>
    requires max > 0
  {
    if |payload| <= max then [Frame(Header(PROTOCOL_VERSION, t, flags, s, |payload|), payload)]
    else Group(t, flags, Pieces(payload, max), s)
  }

  lemma PiecesStep(payload: Bytes, max: nat, take: nat)
    requires payload != [] && max > 0
    requires take == if |payload| < max then |payload| else max
    ensures Pieces(payload, max) == [payload[..take]] + Pieces(payload[take..], max)
    ensures |Pieces(payload, max)| > 1 <==> payload[take..] != []
  {
    if |payload| <= max {
      assert payload[..take] == payload && payload[take..] == [];
    }
  }

  lemma GroupStep(t: PacketType, flags: U16, piece: Bytes, rest: seq<Bytes>, s: U32)
    requires |piece| < 0x1_0000_0000 && forall i :: 0 <= i < |rest| ==> |rest[i]| < 0x1_0000_0000
    ensures Group(t, flags, [piece] + rest, s)
         == [Frame(Header(PROTOCOL_VERSION, t, FragmentFlags(flags, rest != []), s, |piece|), piece)]
            + Group(t, flags, rest, NextSeq(s))
  {
    assert ([piece] + rest)[1..] == rest;
  }

  /** `fragment`, with the sequence counter it consumes handed back. */
  method Fragment(t: PacketType, flags: U16, payload: Bytes, max: U32, s: U32)
    returns (frames: seq<Frame>, next: U32)
    requires max > 0
    ensures frames == Fragmented(t, flags, payload, max, s)
    ensures next == SeqAfter(s, |frames|)
  {
    if |payload| <= max {
      return [Frame(Header(PROTOCOL_VERSION, t, flags, s, |payload|), payload)], NextSeq(s);
    }
    hide With, Group, Pieces, SeqAfter, NextSeq;
    SeqAfterZero(s);
    frames, next := [], s;
    var remaining := payload;
    assert [] + Group(t, flags, Pieces(remaining, max), next) == Group(t, flags, Pieces(remaining, max), next);
    while remaining != []
      invariant frames + Group(t, flags, Pieces(remaining, max), next) == Fragmented(t, flags, payload, max, s)
      invariant next == SeqAfter(s, |frames|)
      decreases |remaining|
    {
      var take := if |remaining| < max then |remaining| else max;
      var chunk := remaining[..take];
      ghost var before := remaining;
      remaining := remaining[take..];
      var more := remaining != [];
      var frameFlags := With(flags, FRAGMENTED);
      if more {
        frameFlags := With(frameFlags, MORE_FRAGMENTS);
      }
      PiecesStep(before, max, take);
      GroupStep(t, flags, chunk, Pieces(remaining, max), next);
      var frame := Frame(Header(PROTOCOL_VERSION, t, frameFlags, next, |chunk|), chunk);
      ghost var rest := Group(t, flags, Pieces(remaining, max), NextSeq(next));
      assert frames + ([frame] + rest) == (frames + [frame]) + rest;
      SeqAfterNext(s, |frames|);
      frames := frames + [frame];
      next := NextSeq(next);
    }
    NoPieces(t, flags, max, next);
    assert frames + [] == frames;
  }

  lemma SeqAfterZero(s: U32)
    ensures SeqAfter(s, 0) == s
  {
  }

  lemma SeqAfterNext(s: U32, n: nat)
    ensures NextSeq(SeqAfter(s, n)) == SeqAfter(s, n + 1)
  {
  }

  lemma NoPieces(t: PacketType, flags: U16, max: nat, s: U32)
    requires max > 0
    ensures Pieces([], max) == [] && Group(t, flags, [], s) == []
  {
  }

  lemma {:induction false} PiecesConcat(payload: Bytes, max: nat)
    requires max > 0
    ensures Concat(Pieces(payload, max)) == payload
    ensures payload != [] ==> Pieces(payload, max) != []
    decreases |payload|
  {
    if payload == [] {
    } else if |payload| <= max {
      assert Concat([payload]) == payload + Concat([]);
    } else {
      PiecesConcat(payload[max..], max);
      var ps := Pieces(payload, max);
      assert ps[0] == payload[..max] && ps[1..] == Pieces(payload[max..], max);
      assert payload == payload[..max] + payload[max..];
    }
  }

  lemma {:induction false} GroupIsValid(t: PacketType, flags: U16, pieces: seq<Bytes>, s: U32, max: U32)
    requires forall i :: 0 <= i < |pieces| ==> |pieces[i]| <= max
    ensures ValidFrames(Group(t, flags, pieces, s), max)
    ensures |Group(t, flags, pieces, s)| == |pieces|
    decreases |pieces|
  {
    if pieces != [] {
      GroupIsValid(t, flags, pieces[1..], NextSeq(s), max);
    }
  }

  // ---- the reassembler ----------------------------------------------------------------

  datatype GroupState = GroupState(packetType: PacketType, nextSequence: U32, maxTotal: nat)

  datatype Reassembly = Reassembly(buffer: Bytes, inProgress: Option<GroupState>)

  /** The complete message: the last header, cleared, over the whole buffer. */
  function Finish(buffer: Bytes, last: Header): Frame {
    Frame(last.(length := |buffer| % 0x1_0000_0000, flags := MessageFlags(last.flags)), buffer)
  }

  function Push(r: Reassembly, f: Frame, maxTotal: nat): (Result<Option<Frame>>, Reassembly) {
    var h := f.header;
    if !IsFragment(h.flags) then
      if r.inProgress.Some? then (Err(FragmentInterleaved), r) else (Ok(Some(f)), r)
    else
      match r.inProgress
      case None =>
        if |f.payload| > maxTotal then (Err(ReassemblyTooLarge(maxTotal)), Reassembly(f.payload, None))
        else if HasMore(h.flags) then
          (Ok(None), Reassembly(f.payload, Some(GroupState(h.packetType, NextSeq(h.sequence), maxTotal))))
        else (Ok(Some(Finish(f.payload, h))), Reassembly([], None))
      case Some(g) =>
        if h.packetType != g.packetType then (Err(FragmentInterleaved), r)
        else if h.sequence != g.nextSequence then (Err(FragmentOutOfOrder(g.nextSequence, h.sequence)), r)
        else
          var buffer := r.buffer + f.payload;
          if |buffer| > g.maxTotal then (Err(ReassemblyTooLarge(g.maxTotal)), Reassembly(buffer, None))
          else if HasMore(h.flags) then
            (Ok(None), Reassembly(buffer, Some(g.(nextSequence := NextSeq(g.nextSequence)))))
          else (Ok(Some(Finish(buffer, h))), Reassembly([], None))
  }

  class Reassembler {
    var buffer: Bytes
    var inProgress: Option<GroupState>

    constructor ()
      ensures State() == Reassembly([], None)
    {
      buffer, inProgress := [], None;
    }

    function State(): Reassembly
      reads this
    {
      Reassembly(buffer, inProgress)
    }

    method Finished(last: Header) returns (f: Frame)
      modifies this
      ensures f == Finish(old(buffer), last)
      ensures State() == Reassembly([], old(inProgress))
    {
      var payload := buffer;
      buffer := [];
      f := Frame(last.(length := |payload| % 0x1_0000_0000, flags := MessageFlags(last.flags)), payload);
    }

    method PushFrame(f: Frame, maxTotal: nat) returns (r: Result<Option<Frame>>)
      modifies this
      ensures (r, State()) == Push(old(State()), f, maxTotal)
    {
      var flags := f.header.flags;
      if !IsFragment(flags) {
        if inProgress.Some? {
          return Err(FragmentInterleaved);
        }
        return Ok(Some(f));
      }
      match inProgress {
        case None =>
          buffer := [];
          buffer := buffer + f.payload;
          assert buffer == f.payload;
          if |buffer| > maxTotal {
            return Err(ReassemblyTooLarge(maxTotal));
          }
          var state := GroupState(f.header.packetType, NextSeq(f.header.sequence), maxTotal);
          if HasMore(flags) {
            inProgress := Some(state);
            return Ok(None);
          }
          var whole := Finished(f.header);
          return Ok(Some(whole));
        case Some(state) =>
          if f.header.packetType != state.packetType {
            return Err(FragmentInterleaved);
          }
          if f.header.sequence != state.nextSequence {
            return Err(FragmentOutOfOrder(state.nextSequence, f.header.sequence));
          }
          inProgress := Some(state.(nextSequence := NextSeq(state.nextSequence)));
          buffer := buffer + f.payload;
          if |buffer| > state.maxTotal {
            inProgress := None;
            return Err(ReassemblyTooLarge(state.maxTotal));
          }
          if HasMore(flags) {
            return Ok(None);
          }
          inProgress := None;
          var whole := Finished(f.header);
          return Ok(Some(whole));
      }
    }

    method Abort()
      modifies this
      ensures State() == Reassembly([], None)
    {
      inProgress := None;
      buffer := [];
    }
  }

  // ---- the server's side: skipping an oversized group ------------------------------------

  datatype Skipping = Skipping(packetType: PacketType, nextSequence: U32)

  datatype Inbound = Inbound(reassembly: Reassembly, skipping: Option<Skipping>)

  /** What one frame leads to: nothing yet, a message to dispatch, one Error sent to
      the client, or the end of the connection. */
  datatype Outcome = Pending | Deliver(message: Frame) | Refuse | Fatal(error: ProtocolError)

  const Idle := Inbound(Reassembly([], None), None)

  function Reassemble(st: Inbound, f: Frame): (Outcome, Inbound) {
    var h := f.header;
    var more := HasMore(h.flags);
    match st.skipping
    case Some(skip) =>
      if !IsFragment(h.flags) || h.packetType != skip.packetType then (Fatal(FragmentInterleaved), st)
      else if h.sequence != skip.nextSequence then (Fatal(FragmentOutOfOrder(skip.nextSequence, h.sequence)), st)
      else if more then (Pending, st.(skipping := Some(skip.(nextSequence := NextSeq(h.sequence)))))
      else (Refuse, st.(skipping := None))
    case None =>
      var (r, next) := Push(st.reassembly, f, MaxRequestPayload(h.packetType));
      match r
      case Ok(None) => (Pending, st.(reassembly := next))
      case Ok(Some(m)) => (Deliver(m), st.(reassembly := next))
      case Err(ReassemblyTooLarge(_)) =>
        var aborted := Reassembly([], None);
        if more then (Pending, Inbound(aborted, Some(Skipping(h.packetType, NextSeq(h.sequence)))))
        else (Refuse, Inbound(aborted, None))
      case Err(e) => (Fatal(e), st.(reassembly := next))
  }

  class ServerInbound {
    const reassembler: Reassembler
    var skipping: Option<Skipping>

    constructor ()
      ensures State() == Idle
      ensures fresh(reassembler)
    {
      reassembler := new Reassembler();
      skipping := None;
    }

    function State(): Inbound
      reads this, reassembler
    {
      Inbound(reassembler.State(), skipping)
    }

    method OnFrame(f: Frame) returns (o: Outcome)
      modifies this, reassembler
      ensures (o, State()) == Reassemble(old(State()), f)
    {
      var h := f.header;
      var more := HasMore(h.flags);
      match skipping {
        case Some(skip) =>
          if !IsFragment(h.flags) || h.packetType != skip.packetType {
            return Fatal(FragmentInterleaved);
          }
          if h.sequence != skip.nextSequence {
            return Fatal(FragmentOutOfOrder(skip.nextSequence, h.sequence));
          }
          if more {
            skipping := Some(skip.(nextSequence := NextSeq(h.sequence)));
            return Pending;
          }
          skipping := None;
        case None =>
          var pushed := reassembler.PushFrame(f, MaxRequestPayload(h.packetType));
          match pushed {
            case Ok(None) => return Pending;
            case Ok(Some(m)) => return Deliver(m);
            case Err(ReassemblyTooLarge(_)) =>
              reassembler.Abort();
              if more {
                skipping := Some(Skipping(h.packetType, NextSeq(h.sequence)));
                return Pending;
              }
            case Err(e) => return Fatal(e);
          }
      }
      o := Refuse;
    }
  }

  // ---- runs -----------------------------------------------------------------------------

  /** Feed frames in order; the outcomes that are not Pending, and the final state. */
  function RunInbound(st: Inbound, fs: seq<Frame>): (seq<Outcome>, Inbound)
    decreases |fs|
  {
    if fs == [] then ([], st)
    else
      var (o, next) := Reassemble(st, fs[0]);
      var rest := RunInbound(next, fs[1..]);
      ((if o == Pending then [] else [o]) + rest.0, rest.1)
  }

  lemma RunStep(st: Inbound, fs: seq<Frame>)
    requires fs != []
    ensures var (o, next) := Reassemble(st, fs[0]);
            && (o == Pending ==> RunInbound(st, fs) == RunInbound(next, fs[1..]))
            && (o != Pending && |fs| == 1 ==> RunInbound(st, fs) == ([o], next))
  {
    hide Reassemble;
    var (o, next) := Reassemble(st, fs[0]);
    var rest := RunInbound(next, fs[1..]);
    assert [] + rest.0 == rest.0;
    if |fs| == 1 {
      assert fs[1..] == [];
      assert [o] + rest.0 == [o];
    }
  }

  lemma {:induction false} RunConcat(st: Inbound, fs: seq<Frame>, gs: seq<Frame>)
    ensures RunInbound(st, fs + gs)
         == (var a := RunInbound(st, fs); var b := RunInbound(a.1, gs); (a.0 + b.0, b.1))
    decreases |fs|
  {
    hide Reassemble;
    if fs == [] {
      assert [] + gs == gs;
      assert [] + RunInbound(st, gs).0 == RunInbound(st, gs).0;
    } else {
      var (o, next) := Reassemble(st, fs[0]);
      assert (fs + gs)[1..] == fs[1..] + gs;
      RunConcat(next, fs[1..], gs);
      var first := if o == Pending then [] else [o];
      var a := RunInbound(next, fs[1..]);
      var b := RunInbound(a.1, gs);
      assert first + (a.0 + b.0) == (first + a.0) + b.0;
    }
  }

  /** Skip mode and an open group are never both active, and a group in progress is
      within its own type's cap, with a buffer no longer than that cap. */
  ghost predicate Consistent(st: Inbound) {
    && (st.skipping.Some? ==> st.reassembly == Reassembly([], None))
    && (st.reassembly.inProgress.Some? ==>
          var g := st.reassembly.inProgress.value;
          g.maxTotal == MaxRequestPayload(g.packetType) && |st.reassembly.buffer| <= g.maxTotal)
  }

  /** Over arbitrary frames, conforming or not. */
  lemma ConsistentStep(st: Inbound, f: Frame)
    requires Consistent(st)
    ensures Consistent(Reassemble(st, f).1)
  {
  }

  lemma {:induction false} ConsistentRun(st: Inbound, fs: seq<Frame>)
    requires Consistent(st)
    ensures Consistent(RunInbound(st, fs).1)
    decreases |fs|
  {
    if fs != [] {
      ConsistentStep(st, fs[0]);
      ConsistentRun(Reassemble(st, fs[0]).1, fs[1..]);
    }
  }

  /** One message on the wire: a single plain frame, or any grouping into fragments. */
  datatype Message =
    | Plain(packetType: PacketType, flags: U16, payload: Bytes)
    | Cut(packetType: PacketType, flags: U16, pieces: seq<Bytes>)
  {
    function Total(): Bytes {
      if Plain? then payload else Concat(pieces)
    }

    /** Senders pass flags without the two fragment bits, and lengths fit u32. */
    predicate Sendable() {
      && !IsFragment(flags) && !HasMore(flags)
      && (Plain? ==> |payload| <= DEFAULT_MAX_FRAME_PAYLOAD)
      && (Cut? ==> pieces != [] && forall i :: 0 <= i < |pieces| ==> |pieces[i]| < 0x1_0000_0000)
    }

    function Frames(s: U32): seq<Frame>
      requires Sendable()
    {
      if Plain? then [Frame(Header(PROTOCOL_VERSION, packetType, flags, s, |payload|), payload)]
      else Group(packetType, flags, pieces, s)
    }

    /** The per-message specification: whole when within the cap, else one Error. */
    function Expected(s: U32): Outcome
      requires Sendable()
    {
      Whole(packetType, flags, Total(), SeqAfter(s, |Frames(s)| - 1))
    }
  }

  lemma SeqAfterStep(s: U32, n: nat)
    ensures SeqAfter(NextSeq(s), n) == SeqAfter(s, n + 1)
  {
  }

  /** The server part-way through a group, and part-way through skipping one. */
  function Open(t: PacketType, buffer: Bytes, s: U32): Inbound {
    Inbound(Reassembly(buffer, Some(GroupState(t, s, MaxRequestPayload(t)))), None)
  }

  function Skip(t: PacketType, s: U32): Inbound {
    Inbound(Reassembly([], None), Some(Skipping(t, s)))
  }

  function Piece(t: PacketType, flags: U16, piece: Bytes, s: U32, more: bool): Frame
    requires |piece| < 0x1_0000_0000
  {
    Frame(Header(PROTOCOL_VERSION, t, FragmentFlags(flags, more), s, |piece|), piece)
  }

  function Whole(t: PacketType, flags: U16, total: Bytes, s: U32): Outcome {
    if |total| > MaxRequestPayload(t) then Refuse
    else Deliver(Frame(Header(PROTOCOL_VERSION, t, flags, s, |total|), total))
  }

  /** Where the buffer `total` leads once the piece ending it has been taken. */
  function AfterPiece(t: PacketType, flags: U16, total: Bytes, s: U32, more: bool): (Outcome, Inbound) {
    if !more then (Whole(t, flags, total, s), Idle)
    else if |total| > MaxRequestPayload(t) then (Pending, Skip(t, NextSeq(s)))
    else (Pending, Open(t, total, NextSeq(s)))
  }

  lemma PieceSteps(t: PacketType, flags: U16, buffer: Bytes, piece: Bytes, s: U32, more: bool)
    requires |piece| < 0x1_0000_0000 && !IsFragment(flags) && !HasMore(flags)
    requires |buffer| <= MaxRequestPayload(t)
    ensures Reassemble(Idle, Piece(t, flags, piece, s, more)) == AfterPiece(t, flags, piece, s, more)
    ensures Reassemble(Open(t, buffer, s), Piece(t, flags, piece, s, more)) == AfterPiece(t, flags, buffer + piece, s, more)
    ensures Reassemble(Skip(t, s), Piece(t, flags, piece, s, more))
         == if more then (Pending, Skip(t, NextSeq(s))) else (Refuse, Idle)
  {
    hide FragmentFlags, IsFragment, HasMore, MessageFlags;
    FlagsRoundTrip(flags, more);
  }

  lemma {:induction false} RunSkipped(t: PacketType, flags: U16, pieces: seq<Bytes>, s: U32)
    requires pieces != [] && forall i :: 0 <= i < |pieces| ==> |pieces[i]| < 0x1_0000_0000
    requires !IsFragment(flags) && !HasMore(flags)
    ensures RunInbound(Skip(t, s), Group(t, flags, pieces, s)) == ([Refuse], Idle)
    decreases |pieces|
  {
    hide FragmentFlags, IsFragment, HasMore, Reassemble, RunInbound;
    var g := Group(t, flags, pieces, s);
    assert g[0] == Piece(t, flags, pieces[0], s, |pieces| > 1);
    assert g[1..] == Group(t, flags, pieces[1..], NextSeq(s));
    PieceSteps(t, flags, [], pieces[0], s, |pieces| > 1);
    RunStep(Skip(t, s), g);
    if |pieces| > 1 {
      RunSkipped(t, flags, pieces[1..], NextSeq(s));
    }
  }

  lemma GroupParts(t: PacketType, flags: U16, pieces: seq<Bytes>, s: U32)
    requires pieces != [] && forall i :: 0 <= i < |pieces| ==> |pieces[i]| < 0x1_0000_0000
    ensures var g := Group(t, flags, pieces, s);
            g != [] && g[0] == Piece(t, flags, pieces[0], s, |pieces| > 1) && g[1..] == Group(t, flags, pieces[1..], NextSeq(s))
            && (|pieces| == 1 ==> g[1..] == [])
  {
    hide FragmentFlags;
  }

  lemma ConcatParts(buffer: Bytes, pieces: seq<Bytes>)
    requires pieces != []
    ensures buffer + Concat(pieces) == (buffer + pieces[0]) + Concat(pieces[1..])
    ensures |pieces| == 1 ==> buffer + Concat(pieces) == buffer + pieces[0]
    ensures [] + pieces[0] == pieces[0]
  {
  }

  /** A group from its next piece on, whatever state its earlier pieces led to. */
  lemma {:induction false} RunGroup(st: Inbound, t: PacketType, flags: U16, buffer: Bytes, pieces: seq<Bytes>, s: U32)
    requires pieces != [] && forall i :: 0 <= i < |pieces| ==> |pieces[i]| < 0x1_0000_0000
    requires !IsFragment(flags) && !HasMore(flags)
    requires |buffer| <= MaxRequestPayload(t)
    requires st == Open(t, buffer, s) || (st == Idle && buffer == [])
    ensures RunInbound(st, Group(t, flags, pieces, s))
         == ([Whole(t, flags, buffer + Concat(pieces), SeqAfter(s, |pieces| - 1))], Idle)
    decreases |pieces|
  {
    hide FragmentFlags, IsFragment, HasMore, Reassemble, RunInbound, SeqAfter, NextSeq, Group, Concat;
    var g := Group(t, flags, pieces, s);
    var more := buffer + pieces[0];
    GroupParts(t, flags, pieces, s);
    ConcatParts(buffer, pieces);
    PieceSteps(t, flags, buffer, pieces[0], s, |pieces| > 1);
    RunStep(st, g);
    if |pieces| == 1 {
      SeqAfterZero(s);
    } else if |more| > MaxRequestPayload(t) {
      RunSkipped(t, flags, pieces[1..], NextSeq(s));
    } else {
      SeqAfterStep(s, |pieces| - 2);
      RunGroup(Open(t, more, NextSeq(s)), t, flags, more, pieces[1..], NextSeq(s));
    }
  }

  /** One message from an idle server: exactly its specified outcome, and idle again. */
  lemma RunMessage(m: Message, s: U32)
    requires m.Sendable()
    ensures RunInbound(Idle, m.Frames(s)) == ([m.Expected(s)], Idle)
  {
    var fs := m.Frames(s);
    if m.Plain? {
      hide IsFragment, HasMore;
      RunStep(Idle, fs);
    } else {
      hide FragmentFlags, IsFragment, HasMore, Reassemble, RunInbound;
      GroupIsValid(m.packetType, m.flags, m.pieces, s, 0xFFFF_FFFF);
      assert [] + Concat(m.pieces) == Concat(m.pieces);
      RunGroup(Idle, m.packetType, m.flags, [], m.pieces, s);
    }
  }

  function StreamFrames(ms: seq<Message>, s: U32): seq<Frame>
    requires forall i :: 0 <= i < |ms| ==> ms[i].Sendable()
    decreases |ms|
  {
    if ms == [] then [] else ms[0].Frames(s) + StreamFrames(ms[1..], SeqAfter(s, |ms[0].Frames(s)|))
  }

  function StreamExpected(ms: seq<Message>, s: U32): seq<Outcome>
    requires forall i :: 0 <= i < |ms| ==> ms[i].Sendable()
    decreases |ms|
  {
    if ms == [] then [] else [ms[0].Expected(s)] + StreamExpected(ms[1..], SeqAfter(s, |ms[0].Frames(s)|))
  }

  /** The server's reassembly refines the per-message specification: one outcome per
      message, in order, from any starting sequence number. */
  lemma {:induction false} StreamRefinesSpec(ms: seq<Message>, s: U32)
    requires forall i :: 0 <= i < |ms| ==> ms[i].Sendable()
    ensures RunInbound(Idle, StreamFrames(ms, s)) == (StreamExpected(ms, s), Idle)
    decreases |ms|
  {
    hide Reassemble;
    if ms != [] {
      var s' := SeqAfter(s, |ms[0].Frames(s)|);
      RunMessage(ms[0], s);
      StreamRefinesSpec(ms[1..], s');
      RunConcat(Idle, ms[0].Frames(s), StreamFrames(ms[1..], s'));
    }
  }

  // ---- what a nonconforming peer meets -----------------------------------------------------

  lemma Caps()
    ensures MaxRequestPayload(0x22) == 1_048_576 && MaxRequestPayload(0x23) == 4_194_304
    ensures forall t: PacketType :: t != 0x22 && t != 0x23 ==> MaxRequestPayload(t) == 65_536
  {
  }

  /** While a group is open or skipped, only its own next fragment is taken: anything else ends the
      connection, with the reason. */
  lemma OnlyTheNextFragment(st: Inbound, f: Frame, t: PacketType, next: U32)
    requires (st.skipping == Some(Skipping(t, next))) ||
             (st.skipping == None && st.reassembly.inProgress.Some? && st.reassembly.inProgress.value.packetType == t
              && st.reassembly.inProgress.value.nextSequence == next)
    ensures var (o, after) := Reassemble(st, f); var fragment := f.header.flags / 0x1000 % 2 == 1;
            && (o == Fatal(FragmentInterleaved) <==> !fragment || f.header.packetType != t)
            && (o == Fatal(FragmentOutOfOrder(next, f.header.sequence)) <==> fragment && f.header.packetType == t && f.header.sequence != next)
            && (o.Fatal? ==> o.error == FragmentInterleaved || o.error == FragmentOutOfOrder(next, f.header.sequence))
  {
  }

  /** What that next fragment does to an open group. */
  lemma NextFragmentExtends(buffer: Bytes, t: PacketType, f: Frame)
    requires f.header.flags / 0x1000 % 2 == 1 && f.header.packetType == t
    ensures var st := Open(t, buffer, f.header.sequence); var (o, after) := Reassemble(st, f);
            var more := f.header.flags / 0x2000 % 2 == 1; var whole := buffer + f.payload; var next := (f.header.sequence + 1) % 0x1_0000_0000;
            if |whole| > MaxRequestPayload(t) then
              if more then o == Pending && after == Skip(t, next) else o == Refuse && after == Idle
            else if more then o == Pending && after == Open(t, whole, next)
            else o.Deliver? && o.message.payload == whole && o.message.header.packetType == t && after == Idle
  {
  }
}
