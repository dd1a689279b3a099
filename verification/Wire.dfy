/**
 * The 20-byte packet header and the stream codec. A header decoded while its
 * payload is still incomplete is parked, so one frame may take several calls
 * and one call may see many frames.
 *
 * The folded CRC is a parameter: every statement holds for any checksum.
 */
module Wire {
  import opened Options

  type U8 = i: int | 0 <= i < 0x100
  type U16 = i: int | 0 <= i < 0x1_0000
  type U32 = i: int | 0 <= i < 0x1_0000_0000
  type Bytes = seq<U8>
  type Checksum = Bytes -> U16

  const MAGIC: Bytes := [0x4B, 0x44, 0x58, 0x00]
  const PROTOCOL_VERSION: U8 := 2
  const HEADER_LEN := 20

  datatype ProtocolError =
    | UnexpectedEof
    | BadMagic
    | BadChecksum
    | UnsupportedVersion(version: U8)
    | NonZeroReserved
    | UnknownPacketType(code: U8)
    | PayloadTooLarge(length: nat, max: nat)
    | HeaderLengthMismatch(header: nat, payload: nat)
    | FragmentInterleaved
    | FragmentOutOfOrder(expected: U32, got: U32)
    | ReassemblyTooLarge(max: nat)

  datatype Result<T> = Ok(value: T) | Err(error: ProtocolError)

  /** The packet codes `TryFrom<u8>` accepts. */
  predicate KnownType(code: U8) {
    || 0x01 <= code <= 0x04 || code == 0x0F || 0x10 <= code <= 0x17 || 0x20 <= code <= 0x2E
    || 0x30 <= code <= 0x3A || 0x40 <= code <= 0x45 || 0x50 <= code <= 0x5D || 0x60 <= code <= 0x68
    || 0x70 <= code <= 0x81 || 0xF0 <= code <= 0xF2
  }

  type PacketType = code: U8 | KnownType(code) witness 0x03

  datatype Header = Header(version: U8, packetType: PacketType, flags: U16, sequence: U32, length: U32)

  datatype Frame = Frame(header: Header, payload: Bytes)

  // ---- big-endian integers ------------------------------------------------------

  function Be16(n: U16): (b: Bytes)
    ensures |b| == 2
  {
    [n / 0x100, n % 0x100]
  }

  function Be32(n: U32): (b: Bytes)
    ensures |b| == 4
  {
    [n / 0x100_0000, n / 0x1_0000 % 0x100, n / 0x100 % 0x100, n % 0x100]
  }

  function FromBe16(b: Bytes): U16
    requires |b| == 2
  {
    b[0] as int * 0x100 + b[1] as int
  }

  function FromBe32(b: Bytes): U32
    requires |b| == 4
  {
    b[0] as int * 0x100_0000 + b[1] as int * 0x1_0000 + b[2] as int * 0x100 + b[3] as int
  }

  lemma Be16RoundTrip(n: U16, b: Bytes)
    requires |b| == 2
    ensures FromBe16(Be16(n)) == n
    ensures Be16(FromBe16(b)) == b
  {
  }

  lemma Be32RoundTrip(n: U32)
    ensures FromBe32(Be32(n)) == n
  {
    var q1 := n / 0x100;
    var q2 := q1 / 0x100;
    assert n / 0x1_0000 == q2;
    assert n / 0x100_0000 == q2 / 0x100;
  }

  lemma Be32OfBytes(b: Bytes)
    requires |b| == 4
    ensures Be32(FromBe32(b)) == b
  {
    var n := FromBe32(b);
    assert n / 0x100 == b[0] as int * 0x1_0000 + b[1] as int * 0x100 + b[2] as int;
    assert n / 0x1_0000 == b[0] as int * 0x100 + b[1] as int;
    assert n / 0x100_0000 == b[0];
  }

  // ---- the header ------------------------------------------------------------------

  function HeadBytes(h: Header): (b: Bytes)
    ensures |b| == HEADER_LEN - 2
  {
    MAGIC + [h.version, h.packetType] + Be16(h.flags) + Be32(h.sequence) + Be32(h.length) + [0, 0]
  }

  function EncodeHeader(crc: Checksum, h: Header): (b: Bytes)
    ensures |b| == HEADER_LEN
  {
    HeadBytes(h) + Be16(crc(HeadBytes(h)))
  }

  /** Parse the first 20 bytes: the checks in the order the program makes them. */
  function DecodeHeader(crc: Checksum, b: Bytes): Result<Header> {
    if |b| < HEADER_LEN then Err(UnexpectedEof)
    else
      var head := b[..18];
      if head[..4] != MAGIC then Err(BadMagic)
      else if crc(head) != FromBe16(b[18..20]) then Err(BadChecksum)
      else if head[4] != PROTOCOL_VERSION then Err(UnsupportedVersion(head[4]))
      else if head[16..18] != [0, 0] then Err(NonZeroReserved)
      else if !KnownType(head[5]) then Err(UnknownPacketType(head[5]))
      else Ok(Header(head[4], head[5], FromBe16(head[6..8]), FromBe32(head[8..12]), FromBe32(head[12..16])))
  }

  /** Every header of this version survives encoding, whatever follows it. */
  lemma HeaderRoundTrip(crc: Checksum, h: Header, rest: Bytes)
    requires h.version == PROTOCOL_VERSION
    ensures DecodeHeader(crc, EncodeHeader(crc, h) + rest) == Ok(h)
  {
    var b := EncodeHeader(crc, h) + rest;
    var head := b[..18];
    assert head == HeadBytes(h);
    assert b[18..20] == Be16(crc(HeadBytes(h)));
    Be16RoundTrip(crc(HeadBytes(h)), [0, 0]);
    assert head[..4] == MAGIC;
    assert head[6..8] == Be16(h.flags);
    Be16RoundTrip(h.flags, [0, 0]);
    assert head[8..12] == Be32(h.sequence);
    Be32RoundTrip(h.sequence);
    assert head[12..16] == Be32(h.length);
    Be32RoundTrip(h.length);
    assert head[16..18] == [0, 0];
  }

  /** Every accepted header re-encodes to exactly the bytes it was read from. */
  lemma HeaderCanonical(crc: Checksum, b: Bytes)
    requires DecodeHeader(crc, b).Ok?
    ensures DecodeHeader(crc, b).value.version == PROTOCOL_VERSION
    ensures EncodeHeader(crc, DecodeHeader(crc, b).value) == b[..HEADER_LEN]
  {
    var h := DecodeHeader(crc, b).value;
    var head := b[..18];
    Be16RoundTrip(0, head[6..8]);
    Be16RoundTrip(0, b[18..20]);
    Be32OfBytes(head[8..12]);
    Be32OfBytes(head[12..16]);
    assert head == head[..4] + [head[4], head[5]] + head[6..8] + head[8..12] + head[12..16] + head[16..18];
    assert HeadBytes(h) == head;
    assert b[..20] == head + b[18..20];
  }

  /** The layout on the wire, byte by byte, all numbers big-endian. */
  lemma HeaderLayout(crc: Checksum, h: Header)
    ensures var b := EncodeHeader(crc, h);
            && |b| == 20 && b[..4] == [0x4B, 0x44, 0x58, 0x00] && b[4] == h.version && b[5] == h.packetType
            && 0x100 * b[6] as int + b[7] as int == h.flags as int
            && 0x100_0000 * b[8] as int + 0x1_0000 * b[9] as int + 0x100 * b[10] as int + b[11] as int == h.sequence as int
            && 0x100_0000 * b[12] as int + 0x1_0000 * b[13] as int + 0x100 * b[14] as int + b[15] as int == h.length as int
            && b[16] == b[17] == 0 && 0x100 * b[18] as int + b[19] as int == crc(b[..18]) as int
  {
    var b := EncodeHeader(crc, h);
    assert b[..18] == HeadBytes(h);
    Be32RoundTrip(h.sequence);
    Be32RoundTrip(h.length);
    assert b[8..12] == Be32(h.sequence) && b[12..16] == Be32(h.length);
  }

  /** The packet codes, one by one. */
  lemma TypeCodes(code: U8)
    ensures KnownType(code) <==> code as int in {
              0x01, 0x02, 0x03, 0x04, 0x0F, 0x10, 0x11, 0x12, 0x13, 0x14, 0x15, 0x16, 0x17, 0x20, 0x21, 0x22,
              0x23, 0x24, 0x25, 0x26, 0x27, 0x28, 0x29, 0x2A, 0x2B, 0x2C, 0x2D, 0x2E, 0x30, 0x31, 0x32, 0x33,
              0x34, 0x35, 0x36, 0x37, 0x38, 0x39, 0x3A, 0x40, 0x41, 0x42, 0x43, 0x44, 0x45, 0x50, 0x51, 0x52,
              0x53, 0x54, 0x55, 0x56, 0x57, 0x58, 0x59, 0x5A, 0x5B, 0x5C, 0x5D, 0x60, 0x61, 0x62, 0x63, 0x64,
              0x65, 0x66, 0x67, 0x68, 0x70, 0x71, 0x72, 0x73, 0x74, 0x75, 0x76, 0x77, 0x78, 0x79, 0x7A, 0x7B,
              0x7C, 0x7D, 0x7E, 0x7F, 0x80, 0x81, 0xF0, 0xF1, 0xF2}
  {
  }

  /** Which error a refused header gives: the first check that fails. */
  lemma HeaderErrors(crc: Checksum, b: Bytes)
    ensures DecodeHeader(crc, b) == Err(UnexpectedEof) <==> |b| < 20
    ensures |b| >= 20 ==>
              var r := DecodeHeader(crc, b);
              var magic := b[0] == 0x4B && b[1] == 0x44 && b[2] == 0x58 && b[3] == 0x00;
              var sum := crc(b[..18]) as int == 0x100 * b[18] as int + b[19] as int;
              && (r == Err(BadMagic) <==> !magic)
              && (r == Err(BadChecksum) <==> magic && !sum)
              && (r == Err(UnsupportedVersion(b[4])) <==> magic && sum && b[4] != 2)
              && (r == Err(NonZeroReserved) <==> magic && sum && b[4] == 2 && !(b[16] == 0 && b[17] == 0))
              && (r == Err(UnknownPacketType(b[5])) <==> magic && sum && b[4] == 2 && b[16] == 0 && b[17] == 0 && !KnownType(b[5]))
              && (r.Ok? <==> magic && sum && b[4] == 2 && b[16] == 0 && b[17] == 0 && KnownType(b[5]))
  {
    if |b| >= 20 {
      var head := b[..18];
      assert head[..4] == [b[0], b[1], b[2], b[3]] && head[16..18] == [b[16], b[17]];
    }
  }

  // ---- frames --------------------------------------------------------------------

  function EncodeFrame(crc: Checksum, f: Frame): Bytes {
    EncodeHeader(crc, f.header) + f.payload
  }

  function EncodeFrames(crc: Checksum, fs: seq<Frame>): Bytes {
    if fs == [] then [] else EncodeFrame(crc, fs[0]) + EncodeFrames(crc, fs[1..])
  }

  /** What the encoder lets out: the length field is the payload's, within the cap. */
  predicate ValidFrame(f: Frame, maxPayload: U32) {
    f.header.version == PROTOCOL_VERSION && f.header.length == |f.payload| <= maxPayload
  }

  predicate ValidFrames(fs: seq<Frame>, maxPayload: U32) {
    forall i :: 0 <= i < |fs| ==> ValidFrame(fs[i], maxPayload)
  }

  // ---- one decode step -------------------------------------------------------------

  datatype CodecState = CodecState(pending: Option<Header>, src: Bytes)

  /** Bytes the codec holds: the parked header still counts as its 20 bytes. */
  function Measure(s: CodecState): nat {
    |s.src| + if s.pending.Some? then HEADER_LEN else 0
  }

  function TakePayload(h: Header, src: Bytes): (Result<Option<Frame>>, CodecState) {
    if |src| < h.length then (Ok(None), CodecState(Some(h), src))
    else (Ok(Some(Frame(h, src[..h.length]))), CodecState(None, src[h.length..]))
  }

  function DecodeStep(crc: Checksum, maxPayload: U32, s: CodecState): (r: (Result<Option<Frame>>, CodecState))
    ensures r.0.Ok? && r.0.value.Some? ==> Measure(r.1) < Measure(s)
  {
    match s.pending
    case Some(h) => TakePayload(h, s.src)
    case None =>
      if |s.src| < HEADER_LEN then (Ok(None), s)
      else
        match DecodeHeader(crc, s.src)
        case Err(e) => (Err(e), CodecState(None, s.src[HEADER_LEN..]))
        case Ok(h) =>
          if h.length > maxPayload then (Err(PayloadTooLarge(h.length, maxPayload)), CodecState(None, s.src[HEADER_LEN..]))
          else TakePayload(h, s.src[HEADER_LEN..])
  }

  /** A header over the cap fails the stream, and is gone from the buffer. */
  lemma OversizedFrameIsRefused(crc: Checksum, maxPayload: U32, src: Bytes)
    requires |src| >= HEADER_LEN && DecodeHeader(crc, src).Ok?
    ensures var h := DecodeHeader(crc, src).value; var (r, next) := DecodeStep(crc, maxPayload, CodecState(None, src));
            && (r == Err(PayloadTooLarge(h.length, maxPayload)) <==> h.length > maxPayload)
            && (r.Err? ==> next == CodecState(None, src[HEADER_LEN..]))
            && (r.Ok? ==> (r.value.Some? <==> |src| >= HEADER_LEN + h.length))
            && (r.Ok? && r.value.Some? ==>
                  r.value.value == Frame(h, src[HEADER_LEN..HEADER_LEN + h.length]) && next == CodecState(None, src[HEADER_LEN + h.length..]))
  {
    hide DecodeHeader;
    var h := DecodeHeader(crc, src).value;
    var rest := src[HEADER_LEN..];
    if |rest| >= h.length {
      assert rest[..h.length] == src[HEADER_LEN..HEADER_LEN + h.length];
      assert rest[h.length..] == src[HEADER_LEN + h.length..];
    }
  }

  class KdxCodec {
    const crc: Checksum
    const maxPayload: U32
    var pending: Option<Header>
    var src: Bytes

    constructor (crc: Checksum, maxPayload: U32)
      ensures this.crc == crc && this.maxPayload == maxPayload
      ensures State() == CodecState(None, [])
    {
      this.crc, this.maxPayload := crc, maxPayload;
      pending, src := None, [];
    }

    function State(): CodecState
      reads this
    {
      CodecState(pending, src)
    }

    method Decode() returns (r: Result<Option<Frame>>)
      modifies this
      ensures (r, State()) == DecodeStep(crc, maxPayload, old(State()))
    {
      var header: Header;
      if pending.Some? {
        header := pending.value;
        pending := None;
      } else {
        if |src| < HEADER_LEN {
          return Ok(None);
        }
        var decoded := DecodeHeader(crc, src);
        src := src[HEADER_LEN..];
        if decoded.Err? {
          return Err(decoded.error);
        }
        header := decoded.value;
        if header.length > maxPayload {
          return Err(PayloadTooLarge(header.length, maxPayload));
        }
      }
      if |src| < header.length {
        pending := Some(header);
        return Ok(None);
      }
      var payload := src[..header.length];
      src := src[header.length..];
      r := Ok(Some(Frame(header, payload)));
    }

    /** Append one frame to the outgoing bytes; nothing is written on error. */
    method Encode(f: Frame, dst: Bytes) returns (r: Result<Bytes>)
      ensures r.Ok? <==> |f.payload| <= maxPayload && f.header.length == |f.payload|
      ensures r.Ok? ==> r.value == dst + EncodeFrame(crc, f)
      ensures r.Err? ==> r.error == if |f.payload| > maxPayload
                                    then PayloadTooLarge(if |f.payload| < 0x1_0000_0000 then |f.payload| else 0xFFFF_FFFF, maxPayload)
                                    else HeaderLengthMismatch(f.header.length, |f.payload|)
    {
      var len := |f.payload|;
      if len > maxPayload {
        return Err(PayloadTooLarge(if len < 0x1_0000_0000 then len else 0xFFFF_FFFF, maxPayload));
      }
      if f.header.length != len {
        return Err(HeaderLengthMismatch(f.header.length, len));
      }
      var out := dst + EncodeHeader(crc, f.header);
      out := out + f.payload;
      assert out == dst + EncodeFrame(crc, f);
      r := Ok(out);
    }

    /** What the framed reader does with one read: append, then decode until the
        codec asks for more or fails. */
    method OnRead(read: Bytes) returns (frames: seq<Frame>, failure: Option<ProtocolError>)
      modifies this
      ensures (frames, failure, State()) == Drain(crc, maxPayload, CodecState(old(pending), old(src) + read))
    {
      hide DecodeStep;
      src := src + read;
      frames, failure := [], None;
      ghost var start := State();
      assert [] + Drain(crc, maxPayload, start).0 == Drain(crc, maxPayload, start).0;
      while true
        invariant Drain(crc, maxPayload, start)
               == (var d := Drain(crc, maxPayload, State()); (frames + d.0, d.1, d.2))
        decreases Measure(State())
      {
        var r := Decode();
        match r {
          case Err(e) =>
            assert frames + [] == frames;
            return frames, Some(e);
          case Ok(None) =>
            assert frames + [] == frames;
            return frames, None;
          case Ok(Some(f)) =>
            ghost var d := Drain(crc, maxPayload, State());
            assert frames + ([f] + d.0) == (frames + [f]) + d.0;
            frames := frames + [f];
        }
      }
    }
  }

  // ---- whole streams -----------------------------------------------------------------

  /** Decode as often as possible: the frames, the failure if any, and what is left. */
  function Drain(crc: Checksum, maxPayload: U32, s: CodecState): (seq<Frame>, Option<ProtocolError>, CodecState)
    decreases Measure(s)
  {
    var (r, next) := DecodeStep(crc, maxPayload, s);
    match r
    case Err(e) => ([], Some(e), next)
    case Ok(None) => ([], None, next)
    case Ok(Some(f)) =>
      var d := Drain(crc, maxPayload, next);
      ([f] + d.0, d.1, d.2)
  }

  /** Feed the reads one after the other, stopping at the first failure. */
  function Receive(crc: Checksum, maxPayload: U32, s: CodecState, chunks: seq<Bytes>): (seq<Frame>, Option<ProtocolError>, CodecState)
    decreases |chunks|
  {
    if chunks == [] then ([], None, s)
    else
      var d := Drain(crc, maxPayload, CodecState(s.pending, s.src + chunks[0]));
      if d.1.Some? then d
      else
        var more := Receive(crc, maxPayload, d.2, chunks[1..]);
        (d.0 + more.0, more.1, more.2)
  }

  function Concat(chunks: seq<Bytes>): Bytes {
    if chunks == [] then [] else chunks[0] + Concat(chunks[1..])
  }

  /** The bytes a codec state stands for. */
  function Held(crc: Checksum, s: CodecState): Bytes {
    (if s.pending.Some? then EncodeHeader(crc, s.pending.value) else []) + s.src
  }

  /** A parked header has been accepted: this version, within the cap. */
  predicate Parked(s: CodecState, maxPayload: U32) {
    s.pending.Some? ==> s.pending.value.version == PROTOCOL_VERSION && s.pending.value.length <= maxPayload
  }

  /** One step against a stream of valid frames: it fails never, takes a frame off
      the front when the held bytes contain one, and otherwise only parks. */
  lemma StepOnStream(crc: Checksum, maxPayload: U32, s: CodecState, fs: seq<Frame>, future: Bytes)
    requires ValidFrames(fs, maxPayload) && Parked(s, maxPayload)
    requires Held(crc, s) + future == EncodeFrames(crc, fs)
    ensures var (r, next) := DecodeStep(crc, maxPayload, s);
            && r.Ok?
            && Parked(next, maxPayload)
            && (r.value.None? ==> Held(crc, next) == Held(crc, s) && Stuck(next))
            && (r.value.Some? ==> fs != [] && r.value.value == fs[0]
                                  && Held(crc, next) + future == EncodeFrames(crc, fs[1..]))
  {
    hide EncodeHeader, DecodeHeader, EncodeFrames;
    if s.pending.Some? {
      PayloadOnStream(crc, maxPayload, s.pending.value, s.src, fs, future);
    } else if |s.src| >= HEADER_LEN {
      assert Held(crc, s) == s.src;
      HeaderOnStream(crc, s.src, fs, future, maxPayload);
      PayloadOnStream(crc, maxPayload, fs[0].header, s.src[HEADER_LEN..], fs, future);
    }
  }

  lemma HeaderOnStream(crc: Checksum, src: Bytes, fs: seq<Frame>, future: Bytes, maxPayload: U32)
    requires ValidFrames(fs, maxPayload) && |src| >= HEADER_LEN
    requires src + future == EncodeFrames(crc, fs)
    ensures fs != [] && DecodeHeader(crc, src) == Ok(fs[0].header)
    ensures EncodeHeader(crc, fs[0].header) + src[HEADER_LEN..] == src
  {
    hide EncodeHeader, DecodeHeader;
    var wire := src + future;
    assert wire == EncodeHeader(crc, fs[0].header) + (fs[0].payload + EncodeFrames(crc, fs[1..]));
    assert wire[..HEADER_LEN] == src[..HEADER_LEN];
    assert src == EncodeHeader(crc, fs[0].header) + src[HEADER_LEN..];
    HeaderRoundTrip(crc, fs[0].header, src[HEADER_LEN..]);
  }

  /** A state that cannot yield a frame without more bytes. */
  predicate Stuck(s: CodecState) {
    match s.pending
    case None => |s.src| < HEADER_LEN
    case Some(h) => |s.src| < h.length
  }

  lemma PayloadOnStream(crc: Checksum, maxPayload: U32, h: Header, src: Bytes, fs: seq<Frame>, future: Bytes)
    requires ValidFrames(fs, maxPayload) && h.version == PROTOCOL_VERSION && h.length <= maxPayload
    requires EncodeHeader(crc, h) + src + future == EncodeFrames(crc, fs)
    ensures var (r, next) := TakePayload(h, src);
            && r.Ok?
            && (r.value.None? ==> next == CodecState(Some(h), src))
            && (r.value.Some? ==> fs != [] && r.value.value == fs[0] && next.pending.None?
                                  && next.src + future == EncodeFrames(crc, fs[1..]))
  {
    hide EncodeHeader;
    assert fs != [];
    var f := fs[0];
    var rest := EncodeFrames(crc, fs[1..]);
    assert EncodeHeader(crc, h) + src + future == EncodeHeader(crc, h) + (src + future);
    assert EncodeFrames(crc, fs) == EncodeHeader(crc, f.header) + (f.payload + rest);
    SplitHeader(crc, h, f.header, src + future, f.payload + rest);
    EncodeHeaderInjective(crc, h, f.header);
    if |src| >= h.length {
      SplitPayload(src, future, f.payload, rest);
    }
  }

  lemma SplitHeader(crc: Checksum, h: Header, g: Header, a: Bytes, b: Bytes)
    requires EncodeHeader(crc, h) + a == EncodeHeader(crc, g) + b
    ensures EncodeHeader(crc, h) == EncodeHeader(crc, g) && a == b
  {
    hide EncodeHeader;
    var wire := EncodeHeader(crc, h) + a;
    assert wire[..HEADER_LEN] == EncodeHeader(crc, h) && wire[..HEADER_LEN] == EncodeHeader(crc, g);
    assert wire[HEADER_LEN..] == a && wire[HEADER_LEN..] == b;
  }

  lemma SplitPayload(src: Bytes, future: Bytes, payload: Bytes, rest: Bytes)
    requires src + future == payload + rest && |src| >= |payload|
    ensures src[..|payload|] == payload && src[|payload|..] + future == rest
  {
    assert (src + future)[..|payload|] == src[..|payload|];
    assert (payload + rest)[..|payload|] == payload;
    assert (src + future)[|payload|..] == src[|payload|..] + future;
    assert (payload + rest)[|payload|..] == rest;
  }

  lemma EncodeHeaderInjective(crc: Checksum, h: Header, g: Header)
    requires h.version == g.version == PROTOCOL_VERSION
    requires EncodeHeader(crc, h) == EncodeHeader(crc, g)
    ensures h == g
  {
    hide EncodeHeader;
    HeaderRoundTrip(crc, h, []);
    HeaderRoundTrip(crc, g, []);
  }

  /** Draining a stream of valid frames takes a prefix of them and gets stuck on
      what the held bytes do not yet complete. */
  lemma {:induction false} DrainOnStream(crc: Checksum, maxPayload: U32, s: CodecState, fs: seq<Frame>, future: Bytes) returns (k: nat)
    requires ValidFrames(fs, maxPayload) && Parked(s, maxPayload)
    requires Held(crc, s) + future == EncodeFrames(crc, fs)
    ensures k <= |fs|
    ensures var d := Drain(crc, maxPayload, s);
            && d.0 == fs[..k] && d.1 == None
            && Parked(d.2, maxPayload) && Stuck(d.2)
            && Held(crc, d.2) + future == EncodeFrames(crc, fs[k..])
    decreases Measure(s)
  {
    hide EncodeHeader, DecodeHeader, DecodeStep, EncodeFrames, Held;
    StepOnStream(crc, maxPayload, s, fs, future);
    var (r, next) := DecodeStep(crc, maxPayload, s);
    if r.value.None? {
      k := 0;
      assert fs[0..] == fs;
    } else {
      var j := DrainOnStream(crc, maxPayload, next, fs[1..], future);
      k := j + 1;
      assert fs[..k] == [fs[0]] + fs[1..][..j];
      assert fs[1..][j..] == fs[k..];
    }
  }

  /** However the bytes of a list of valid frames are cut into reads, and however
      many are still to come, decoding has yielded a prefix of the list, has not
      failed, and holds exactly the bytes of the rest that have arrived. */
  lemma {:induction false} ReceivePrefix(crc: Checksum, maxPayload: U32, s: CodecState, chunks: seq<Bytes>, fs: seq<Frame>, future: Bytes)
    returns (k: nat)
    requires ValidFrames(fs, maxPayload) && Parked(s, maxPayload) && Stuck(s)
    requires Held(crc, s) + Concat(chunks) + future == EncodeFrames(crc, fs)
    ensures k <= |fs|
    ensures var d := Receive(crc, maxPayload, s, chunks);
            && d.0 == fs[..k] && d.1 == None
            && Parked(d.2, maxPayload) && Stuck(d.2)
            && Held(crc, d.2) + future == EncodeFrames(crc, fs[k..])
    decreases |chunks|
  {
    hide EncodeHeader, DecodeHeader, DecodeStep, Drain, EncodeFrames;
    if chunks == [] {
      k := 0;
      assert Held(crc, s) + [] == Held(crc, s) && fs[0..] == fs;
    } else {
      var fed := CodecState(s.pending, s.src + chunks[0]);
      var rest := Concat(chunks[1..]) + future;
      assert Held(crc, fed) + rest == Held(crc, s) + Concat(chunks) + future;
      var j := DrainOnStream(crc, maxPayload, fed, fs, rest);
      var d := Drain(crc, maxPayload, fed);
      assert Held(crc, d.2) + Concat(chunks[1..]) + future == Held(crc, d.2) + rest;
      var i := ReceivePrefix(crc, maxPayload, d.2, chunks[1..], fs[j..], future);
      k := j + i;
      assert fs[..k] == fs[..j] + fs[j..][..i];
      assert fs[j..][i..] == fs[k..];
    }
  }

  lemma StuckOnWhole(crc: Checksum, maxPayload: U32, s: CodecState, fs: seq<Frame>)
    requires ValidFrames(fs, maxPayload) && Parked(s, maxPayload) && Stuck(s)
    requires Held(crc, s) == EncodeFrames(crc, fs)
    ensures fs == [] && s == CodecState(None, [])
  {
    if fs != [] {
      assert Held(crc, s) + [] == Held(crc, s);
      StepOnStream(crc, maxPayload, s, fs, []);
      if s.pending.Some? {
        var h := s.pending.value;
        assert Held(crc, s)[..HEADER_LEN] == EncodeHeader(crc, h);
        assert EncodeFrames(crc, fs)[..HEADER_LEN] == EncodeHeader(crc, fs[0].header);
        EncodeHeaderInjective(crc, h, fs[0].header);
      }
    }
  }

  /** All the bytes: exactly the list, no failure, nothing held at the end. */
  lemma StreamRoundTrip(crc: Checksum, maxPayload: U32, chunks: seq<Bytes>, fs: seq<Frame>)
    requires ValidFrames(fs, maxPayload)
    requires Concat(chunks) == EncodeFrames(crc, fs)
    ensures Receive(crc, maxPayload, CodecState(None, []), chunks) == (fs, None, CodecState(None, []))
  {
    hide Receive, EncodeFrames, Concat;
    var start := CodecState(None, []);
    assert Held(crc, start) + Concat(chunks) + [] == Concat(chunks);
    var k := ReceivePrefix(crc, maxPayload, start, chunks, fs, []);
    var d := Receive(crc, maxPayload, start, chunks);
    assert Held(crc, d.2) + [] == Held(crc, d.2);
    StuckOnWhole(crc, maxPayload, d.2, fs[k..]);
    assert fs[..k] == fs;
  }

  /** The converse: on arbitrary bytes, a frame the codec accepts is a valid frame
      and re-encodes to exactly the bytes it consumed. */
  lemma AcceptedFrameIsCanonical(crc: Checksum, maxPayload: U32, s: CodecState)
    requires Parked(s, maxPayload)
    requires var r := DecodeStep(crc, maxPayload, s).0; r.Ok? && r.value.Some?
    ensures var (r, next) := DecodeStep(crc, maxPayload, s);
            && ValidFrame(r.value.value, maxPayload)
            && Parked(next, maxPayload)
            && Held(crc, s) == EncodeFrame(crc, r.value.value) + Held(crc, next)
  {
    hide EncodeHeader, DecodeHeader;
    if s.pending.None? {
      HeaderCanonical(crc, s.src);
      var h := DecodeHeader(crc, s.src).value;
      var body := s.src[HEADER_LEN..];
      assert s.src == s.src[..HEADER_LEN] + (body[..h.length] + body[h.length..]);
    } else {
      var h := s.pending.value;
      assert s.src == s.src[..h.length] + s.src[h.length..];
    }
  }

  /** So whatever bytes arrive, and whether or not the drain ends in a failure, the
      frames it accepts are a valid prefix of them: nothing is invented, reordered or
      skipped. */
  lemma {:induction false} DrainIsCanonical(crc: Checksum, maxPayload: U32, s: CodecState)
    requires Parked(s, maxPayload)
    ensures var d := Drain(crc, maxPayload, s);
            && ValidFrames(d.0, maxPayload)
            && EncodeFrames(crc, d.0) <= Held(crc, s)
            && (d.1.None? ==> Parked(d.2, maxPayload)
                              && Held(crc, s) == EncodeFrames(crc, d.0) + Held(crc, d.2))
    decreases Measure(s)
  {
    hide EncodeHeader, DecodeStep, Held, EncodeFrame;
    var (r, next) := DecodeStep(crc, maxPayload, s);
    if r.Ok? && r.value.Some? {
      AcceptedFrameIsCanonical(crc, maxPayload, s);
      DrainIsCanonical(crc, maxPayload, next);
      var f := r.value.value;
      var d := Drain(crc, maxPayload, next);
      var all := [f] + d.0;
      assert all[1..] == d.0;
      assert EncodeFrames(crc, all) == EncodeFrame(crc, f) + EncodeFrames(crc, d.0);
      if d.1.None? {
        assert (EncodeFrame(crc, f) + EncodeFrames(crc, d.0)) + Held(crc, d.2)
            == EncodeFrame(crc, f) + (EncodeFrames(crc, d.0) + Held(crc, d.2));
      }
    } else if r.Ok? {
      StepKeepsBytes(crc, maxPayload, s);
      assert [] + Held(crc, next) == Held(crc, next);
    }
  }

  lemma StepKeepsBytes(crc: Checksum, maxPayload: U32, s: CodecState)
    requires Parked(s, maxPayload)
    requires DecodeStep(crc, maxPayload, s).0 == Ok(None)
    ensures Parked(DecodeStep(crc, maxPayload, s).1, maxPayload)
    ensures Held(crc, DecodeStep(crc, maxPayload, s).1) == Held(crc, s)
  {
    hide EncodeHeader, DecodeHeader;
    if s.pending.None? && |s.src| >= HEADER_LEN {
      HeaderCanonical(crc, s.src);
      assert s.src == s.src[..HEADER_LEN] + s.src[HEADER_LEN..];
    }
  }
}
