/**
 * The wire from end to end: the client's `send`, the stream codec under any
 * cutting of the bytes, and the server's reassembly, composed.
 */
module Link {
  import opened Options
  import opened Wire
  import opened Fragments

  datatype Request = Request(packetType: PacketType, payload: Bytes)

  datatype SendResult = Written(frames: seq<Frame>) | Rejected(cap: nat)

  class Sender {
    var sequence: U32

    constructor ()
      ensures sequence == 0
    {
      sequence := 0;
    }

    /** Refuse a request over its type's cap (nothing is written and no sequence
        number is used); otherwise write its frames. */
    method Send(r: Request) returns (result: SendResult)
      modifies this
      ensures result.Rejected? <==> |r.payload| > MaxRequestPayload(r.packetType)
      ensures result.Rejected? ==> result.cap == MaxRequestPayload(r.packetType) && sequence == old(sequence)
      ensures result.Written? ==>
        && result.frames == Fragmented(r.packetType, 0, r.payload, DEFAULT_MAX_FRAME_PAYLOAD, old(sequence))
        && sequence == SeqAfter(old(sequence), |result.frames|)
    {
      var cap := MaxRequestPayload(r.packetType);
      if |r.payload| > cap {
        return Rejected(cap);
      }
      var frames, next := Fragment(r.packetType, 0, r.payload, DEFAULT_MAX_FRAME_PAYLOAD, sequence);
      sequence := next;
      result := Written(frames);
    }
  }

  predicate Accepted(r: Request) {
    |r.payload| <= MaxRequestPayload(r.packetType)
  }

  function SentFrames(rs: seq<Request>, s: U32): seq<Frame>
    decreases |rs|
  {
    if rs == [] then []
    else
      var fs := Fragmented(rs[0].packetType, 0, rs[0].payload, DEFAULT_MAX_FRAME_PAYLOAD, s);
      fs + SentFrames(rs[1..], SeqAfter(s, |fs|))
  }

  /** A delivery that is this request: its type and exactly its payload. */
  predicate Delivers(o: Outcome, r: Request) {
    o.Deliver? && o.message.header.packetType == r.packetType && o.message.header.flags == 0
    && o.message.header.length == |r.payload| && o.message.payload == r.payload
  }

  function AsMessage(r: Request): Message {
    if |r.payload| <= DEFAULT_MAX_FRAME_PAYLOAD then Plain(r.packetType, 0, r.payload)
    else Cut(r.packetType, 0, Pieces(r.payload, DEFAULT_MAX_FRAME_PAYLOAD))
  }

  function AsMessages(rs: seq<Request>): (ms: seq<Message>)
    ensures |ms| == |rs|
    ensures forall i :: 0 <= i < |rs| ==> ms[i] == AsMessage(rs[i])
  {
    seq(|rs|, i requires 0 <= i < |rs| => AsMessage(rs[i]))
  }

  lemma MessageOfRequest(r: Request, s: U32)
    requires Accepted(r)
    ensures AsMessage(r).Sendable()
    ensures AsMessage(r).Frames(s) == Fragmented(r.packetType, 0, r.payload, DEFAULT_MAX_FRAME_PAYLOAD, s)
    ensures ValidFrames(AsMessage(r).Frames(s), DEFAULT_MAX_FRAME_PAYLOAD)
    ensures Delivers(AsMessage(r).Expected(s), r)
  {
    PiecesConcat(r.payload, DEFAULT_MAX_FRAME_PAYLOAD);
    if |r.payload| > DEFAULT_MAX_FRAME_PAYLOAD {
      GroupIsValid(r.packetType, 0, Pieces(r.payload, DEFAULT_MAX_FRAME_PAYLOAD), s, DEFAULT_MAX_FRAME_PAYLOAD);
    }
  }

  lemma {:induction false} StreamOfRequests(rs: seq<Request>, s: U32)
    requires forall i :: 0 <= i < |rs| ==> Accepted(rs[i])
    ensures forall i :: 0 <= i < |rs| ==> AsMessages(rs)[i].Sendable()
    ensures SentFrames(rs, s) == StreamFrames(AsMessages(rs), s)
    ensures ValidFrames(SentFrames(rs, s), DEFAULT_MAX_FRAME_PAYLOAD)
    ensures |StreamExpected(AsMessages(rs), s)| == |rs|
    ensures forall i :: 0 <= i < |rs| ==> Delivers(StreamExpected(AsMessages(rs), s)[i], rs[i])
    decreases |rs|
  {
    hide Fragmented, Message.Frames, Message.Expected, Message.Sendable, AsMessage, Delivers, Accepted, ValidFrame;
    if rs != [] {
      MessageOfRequest(rs[0], s);
      var fs := AsMessage(rs[0]).Frames(s);
      StreamOfRequests(rs[1..], SeqAfter(s, |fs|));
      assert AsMessages(rs)[1..] == AsMessages(rs[1..]);
      assert forall i :: 0 < i < |rs| ==> AsMessages(rs)[i] == AsMessages(rs[1..])[i - 1];
    }
  }

  /** Everything the client's send accepts reaches the server's dispatch whole, in
      order and once, however the stream is cut into reads; and while bytes are still
      in flight the server has dispatched a prefix of it, refusing nothing. */
  lemma DeliveredInOrder(crc: Checksum, rs: seq<Request>, s: U32, chunks: seq<Bytes>, future: Bytes)
    requires forall i :: 0 <= i < |rs| ==> Accepted(rs[i])
    requires Concat(chunks) + future == EncodeFrames(crc, SentFrames(rs, s))
    ensures var (fs, failure, _) := Receive(crc, DEFAULT_MAX_FRAME_PAYLOAD, CodecState(None, []), chunks);
            var os := RunInbound(Idle, fs).0;
            && failure == None
            && |os| <= |rs|
            && (forall i :: 0 <= i < |os| ==> Delivers(os[i], rs[i]))
            && (future == [] ==> |os| == |rs| && RunInbound(Idle, fs).1 == Idle)
  {
    hide Receive, RunInbound, SentFrames, StreamFrames, StreamExpected, EncodeFrames, Delivers, Concat, Accepted, AsMessages;
    var sent := SentFrames(rs, s);
    StreamOfRequests(rs, s);
    StreamRefinesSpec(AsMessages(rs), s);
    var start := CodecState(None, []);
    assert Held(crc, start) + Concat(chunks) + future == Concat(chunks) + future;
    var k := ReceivePrefix(crc, DEFAULT_MAX_FRAME_PAYLOAD, start, chunks, sent, future);
    RunConcat(Idle, sent[..k], sent[k..]);
    assert sent == sent[..k] + sent[k..];
    if future == [] {
      assert Concat(chunks) + [] == Concat(chunks);
      StreamRoundTrip(crc, DEFAULT_MAX_FRAME_PAYLOAD, chunks, sent);
    }
  }
}
