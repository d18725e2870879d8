/** The message layout (encoder.go, decoder.go) and its round trips through the frame decoder. */
module MessageCodec {
  import opened Bytes
  import opened FrameDecoding

  datatype Message = Message(event: Uint32, body: ByteString, bodySize: Uint32)

  const HEADER_SIZE := 8

  /** `maxEncodedBodyLength` on a platform with the given largest `int`. */
  function MaxEncodedBodyLength(maxInt: Int64): (r: Int64)
  {
    if maxInt < HEADER_SIZE then 0 else
    var allocationLimit := maxInt - HEADER_SIZE;
    if allocationLimit > MAX_UINT32 then MAX_UINT32 else allocationLimit
  }

  /** The bodies `validateEncodedBodyLength` lets through: their length fits the header on a 64-bit platform. */
  predicate Encodable(m: Message)
  {
    |m.body| <= MaxEncodedBodyLength(MAX_INT64)
  }

  /** The wire image of a message: event, body length and body. */
  function Wire(m: Message): (r: ByteString)
    ensures |r| == HEADER_SIZE + |m.body|
  {
    PutLittleEndian(m.event, 4) + PutLittleEndian(|m.body|, 4) + m.body
  }

  method PutUint32(a: array<Byte>, at: nat, v: nat)
    requires at + 4 <= a.Length
    modifies a
    ensures a[..] == old(a[..at]) + PutLittleEndian(v, 4) + old(a[at + 4..])
  {
    a[at] := v % 256;
    a[at + 1] := v / 256 % 256;
    a[at + 2] := v / 256 / 256 % 256;
    a[at + 3] := v / 256 / 256 / 256 % 256;
    assert PutLittleEndian(v, 4) == a[at..at + 4] by {
      assert PutLittleEndian(v / 256 / 256, 2) == [v / 256 / 256 % 256, v / 256 / 256 / 256 % 256];
    }
    assert a[..] == a[..at] + a[at..at + 4] + a[at + 4..];
  }

  /** `Encode`: fills a fresh buffer in place. */
  method Encode(m: Message) returns (r: Result<ByteString>)
    ensures r == if Encodable(m) then Ok(Wire(m)) else Fail(BodyTooLong)
  {
    if |m.body| > MaxEncodedBodyLength(MAX_INT64) {
      return Fail(BodyTooLong);
    }
    var encoded := new Byte[HEADER_SIZE + |m.body|](_ => 0);
    PutUint32(encoded, 0, m.event);
    PutUint32(encoded, 4, |m.body|);
    assert encoded[..8] == PutLittleEndian(m.event, 4) + PutLittleEndian(|m.body|, 4);
    for i := 0 to |m.body|
      invariant encoded[..8] == PutLittleEndian(m.event, 4) + PutLittleEndian(|m.body|, 4)
      invariant encoded[8..8 + i] == m.body[..i]
    {
      encoded[8 + i] := m.body[i];
      assert encoded[8..8 + i + 1] == encoded[8..8 + i] + [m.body[i]];
    }
    assert encoded[..] == encoded[..8] + encoded[8..8 + |m.body|];
    assert encoded[8..8 + |m.body|] == m.body;
    return Ok(encoded[..]);
  }

  /** `Decoder.Decode` with `validateDecodedBodySize`; every refusal is an invalid frame. */
  function DecodeMessage(data: ByteString): (r: Result<Message>)
  {
    if |data| < HEADER_SIZE then Fail(FrameTooShort) else
    Pow256Values();
    var declared: Uint32 := LittleEndianValue(data[4..8]);
    var actual := |data| - HEADER_SIZE;
    if actual > MAX_UINT32 then Fail(BodyTooLong)
    else if declared != actual then Fail(BodySizeMismatch)
    else Ok(Message(LittleEndianValue(data[..4]), data[HEADER_SIZE..], declared))
  }

  // ---------------------------------------------------------------- one message

  /** What the receiver sees of a sent message: `BodySize` is recomputed from the body. */
  function Received(m: Message): Message
    requires Encodable(m)
  {
    m.(bodySize := |m.body|)
  }

  lemma MessageRoundTrip(m: Message)
    requires Encodable(m)
    ensures DecodeMessage(Wire(m)) == Ok(Received(m))
  {
    var w := Wire(m);
    Pow256Values();
    PutThenRead(m.event, 4);
    PutThenRead(|m.body|, 4);
    assert w[..4] == PutLittleEndian(m.event, 4);
    assert w[4..8] == PutLittleEndian(|m.body|, 4);
    assert w[8..] == m.body;
  }

  lemma MessageRoundTripBack(data: ByteString)
    requires DecodeMessage(data).Ok?
    ensures Encodable(DecodeMessage(data).value) && Wire(DecodeMessage(data).value) == data
  {
    ReadThenPut(data[..4]);
    ReadThenPut(data[4..8]);
    hide PutLittleEndian, LittleEndianValue, Pow256;
    assert data == data[..4] + data[4..8] + data[8..];
  }

  // ---------------------------------------------------------------- streams under the server's configuration

  /** The configuration of every connection: little-endian length at offset 4, four bytes wide. */
  function ServerOptions(max: Uint64): Options
  {
    Options(Some(LittleEndian), max, 4, 4, 0, 0)
  }

  /** The three options `newNetConnection` passes produce that configuration. */
  lemma ConnectionSettings(max: Uint64)
    ensures WithAll(DEFAULT_OPTIONS, [Some(OffsetSetting(4)), Some(WidthSetting(4)), Some(MaxFrameLengthSetting(max))])
            == Ok(ServerOptions(max))
  {
    var o := DEFAULT_OPTIONS;
    var settings := [Some(OffsetSetting(4)), Some(WidthSetting(4)), Some(MaxFrameLengthSetting(max))];
    assert WithAll(o, settings) == WithAll(With(o, OffsetSetting(4)), settings[1..]);
    var o1 := With(o, OffsetSetting(4));
    assert WithAll(o1, settings[1..]) == WithAll(With(o1, WidthSetting(4)), settings[1..][1..]);
    var o2 := With(o1, WidthSetting(4));
    assert WithAll(o2, settings[1..][1..]) == WithAll(With(o2, MaxFrameLengthSetting(max)), settings[1..][1..][1..]);
  }

  lemma ServerOptionsValid(max: Uint64)
    ensures Valid(ServerOptions(max)) <==> max >= HEADER_SIZE
  {
  }

  predicate Fits(m: Message, max: Uint64)
  {
    Encodable(m) && HEADER_SIZE + |m.body| <= max
  }

  predicate AllFit(ms: seq<Message>, max: Uint64)
  {
    forall i :: 0 <= i < |ms| ==> Fits(ms[i], max)
  }

  function Wires(ms: seq<Message>): (r: seq<ByteString>)
    ensures |r| == |ms|
  {
    seq(|ms|, i requires 0 <= i < |ms| => Wire(ms[i]))
  }

  lemma DecodeOneWire(max: Uint64, m: Message, rest: ByteString)
    requires Fits(m, max)
    ensures Valid(ServerOptions(max))
    ensures DecodeOne(ServerOptions(max), Wire(m) + rest) == Frame(Wire(m), |Wire(m)|)
  {
    var o, input := ServerOptions(max), Wire(m) + rest;
    Pow256Values();
    PutThenRead(|m.body|, 4);
    assert input[4..8] == PutLittleEndian(|m.body|, 4);
    assert input[0..|Wire(m)|] == Wire(m);
  }

  /** An incomplete wire image is never mistaken for a frame or an error. */
  lemma DecodeOnePartial(max: Uint64, m: Message, partial: ByteString)
    requires Fits(m, max) && partial < Wire(m)
    ensures Valid(ServerOptions(max)) && DecodeOne(ServerOptions(max), partial).Incomplete?
  {
    var o := ServerOptions(max);
    if |partial| >= 8 {
      Pow256Values();
      PutThenRead(|m.body|, 4);
      assert partial[4..8] == PutLittleEndian(|m.body|, 4);
    }
  }

  /** Whole messages followed by an undecided rest are read as exactly those messages. */
  lemma {:induction false} WiresRead(max: Uint64, ms: seq<Message>, rest: ByteString)
    requires max >= HEADER_SIZE && AllFit(ms, max)
    requires Valid(ServerOptions(max)) && DecodeOne(ServerOptions(max), rest).Incomplete?
    ensures Stream(ServerOptions(max), Concat(Wires(ms)) + rest) == Clean(Wires(ms), rest)
    decreases |ms|
  {
    hide DecodeOne, Valid;
    var o := ServerOptions(max);
    if ms == [] {
      assert Concat(Wires(ms)) + rest == rest;
    } else {
      var tail := Concat(Wires(ms[1..])) + rest;
      assert Wires(ms)[1..] == Wires(ms[1..]);
      assert Concat(Wires(ms)) + rest == Wire(ms[0]) + tail;
      DecodeOneWire(max, ms[0], tail);
      assert (Wire(ms[0]) + tail)[|Wire(ms[0])|..] == tail;
      WiresRead(max, ms[1..], rest);
      assert [Wire(ms[0])] + Wires(ms[1..]) == Wires(ms);
    }
  }

  /** Codec round trip: messages within the limit, encoded, concatenated and cut into arbitrary chunks, come
      back as the same frames with nothing pending, and every frame decodes to its message. */
  lemma RoundTrip(max: Uint64, ms: seq<Message>, chunks: seq<ByteString>)
    requires max >= HEADER_SIZE && AllFit(ms, max)
    requires Concat(chunks) == Concat(Wires(ms))
    ensures Valid(ServerOptions(max)) && Feed(ServerOptions(max), [], chunks) == Clean(Wires(ms), [])
    ensures forall i :: 0 <= i < |ms| ==> DecodeMessage(Wires(ms)[i]) == Ok(Received(ms[i]))
  {
    var o := ServerOptions(max);
    WiresRead(max, ms, []);
    ChunkIndependence(o, [], chunks);
    assert [] + Concat(chunks) == Concat(Wires(ms)) + [];
    forall i | 0 <= i < |ms|
      ensures DecodeMessage(Wires(ms)[i]) == Ok(Received(ms[i]))
    {
      MessageRoundTrip(ms[i]);
    }
  }

  lemma ServerFrameIsWire(max: Uint64, frame: ByteString)
    requires Valid(ServerOptions(max)) && DecodeOne(ServerOptions(max), frame).Frame?
    requires DecodeOne(ServerOptions(max), frame).consumed == |frame|
    ensures DecodeMessage(frame).Ok? && Fits(DecodeMessage(frame).value, max)
    ensures Wire(DecodeMessage(frame).value) == frame
  {
    var o := ServerOptions(max);
    Pow256Values();
    AdjustmentIsExact(o, ReadLengthField(o, frame).value);
    MessageRoundTripBack(frame);
  }

  /** The converse round trip: a cleanly read input is its frames followed by the pending bytes, no delivered
      frame is refused by the message decoder, and encoding what it decodes to gives the frame back. */
  lemma RoundTripBack(max: Uint64, input: ByteString)
    requires Valid(ServerOptions(max)) && Stream(ServerOptions(max), input).Clean?
    ensures var r := Stream(ServerOptions(max), input);
            && input == Concat(r.frames) + r.pending
            && forall i :: 0 <= i < |r.frames| ==>
                 && DecodeMessage(r.frames[i]).Ok?
                 && Fits(DecodeMessage(r.frames[i]).value, max)
                 && Wire(DecodeMessage(r.frames[i]).value) == r.frames[i]
  {
    hide DecodeMessage, Validate;
    var o := ServerOptions(max);
    var r, raw := Stream(o, input), RawFrames(o, input);
    NothingIsLost(o, input);
    forall i | 0 <= i < |raw|
      ensures raw[i] == r.frames[i] && DecodeMessage(raw[i]).Ok?
      ensures Fits(DecodeMessage(raw[i]).value, max) && Wire(DecodeMessage(raw[i]).value) == raw[i]
    {
      assert DecodeOne(o, raw[i]) == Frame(r.frames[i], |raw[i]|);
      ServerFrameIsWire(max, raw[i]);
    }
    assert raw == r.frames;
  }
}

