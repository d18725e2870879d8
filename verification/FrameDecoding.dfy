/**
  The streaming length-field frame decoder (frame_decoder.go).

  `Validate`, `ReadLengthField`, `AdjustFrameLength`, `FrameLength` and
  `DecodeOne` are the code's own expressions; `Stream` says what a whole byte
  string means; class `FrameDecoder` is the stateful decoder with its
  carry-over buffer.
 */
module FrameDecoding {
  import opened Bytes

  datatype ByteOrder = LittleEndian | BigEndian

  datatype Options = Options(
    byteOrder: Option<ByteOrder>,
    maxFrameLength: Uint64,
    lengthFieldOffset: Int64,
    lengthFieldLength: Int64,
    lengthAdjustment: Int64,
    initialBytesToStrip: Int64)
  {
    /** The field `lengthFieldEndOffset`: an `int` sum that may wrap around. */
    function EndOffset(): Int64
    {
      WrapInt64(lengthFieldOffset + lengthFieldLength)
    }
  }

  const DEFAULT_OPTIONS := Options(Some(LittleEndian), 0x10_0000, 0, 0, 0, 0)

  datatype ErrorKind = InvalidConfiguration | InvalidFrame | FrameTooLarge

  /** One constructor for each place that refuses a configuration or a frame. */
  datatype Error =
    | NilOption | NilByteOrder | UnsupportedWidth | NegativeOffset | NegativeStrip | ZeroMaximum
    | EndOffsetOverflow | EndOffsetInfeasible | AdjustmentNotNegatable
    | NegativeAdjustmentInfeasible | PositiveAdjustmentInfeasible
    | LengthFieldTooLarge | LengthOverflow | ShorterThanHeader | ExceedsMaximum | ExceedsPlatform
    | StripExceedsFrame | FrameTooShort | BodyTooLong | BodySizeMismatch
  {
    function Kind(): ErrorKind
    {
      match this
      case LengthFieldTooLarge | LengthOverflow | ShorterThanHeader | ExceedsPlatform | StripExceedsFrame
         | FrameTooShort | BodyTooLong | BodySizeMismatch => InvalidFrame
      case ExceedsMaximum => FrameTooLarge
      case _ => InvalidConfiguration
    }
  }

  datatype Result<+T> = Ok(value: T) | Fail(error: Error)

  // ---------------------------------------------------------------- configuration

  predicate SupportedWidth(width: int)
  {
    width == 1 || width == 2 || width == 3 || width == 4 || width == 8
  }

  function MaxRepresentable(width: int): (r: Uint64)
    requires SupportedWidth(width)
  {
    if width == 1 then 0xFF
    else if width == 2 then 0xFFFF
    else if width == 3 then 0xFF_FFFF
    else if width == 4 then MAX_UINT32
    else MAX_INT64
  }

  function EffectiveMaximum(o: Options): Uint64
  {
    if o.maxFrameLength > MAX_INT64 then MAX_INT64 else o.maxFrameLength
  }

  /** `validateConfiguration`: `None` is acceptance. */
  function Validate(o: Options): (r: Option<Error>)
  {
    if o.byteOrder.None? then Some(NilByteOrder)
    else if !SupportedWidth(o.lengthFieldLength) then Some(UnsupportedWidth)
    else if o.lengthFieldOffset < 0 then Some(NegativeOffset)
    else if o.initialBytesToStrip < 0 then Some(NegativeStrip)
    else if o.maxFrameLength == 0 then Some(ZeroMaximum)
    else if o.EndOffset() < 0 then Some(EndOffsetOverflow)
    else if o.EndOffset() > EffectiveMaximum(o) then Some(EndOffsetInfeasible)
    else if o.lengthAdjustment == MIN_INT64 then Some(AdjustmentNotNegatable)
    else if o.lengthAdjustment < 0 then
      if -o.lengthAdjustment > MaxRepresentable(o.lengthFieldLength) then Some(NegativeAdjustmentInfeasible) else None
    else if o.lengthAdjustment > EffectiveMaximum(o) - o.EndOffset() then Some(PositiveAdjustmentInfeasible)
    else None
  }

  predicate Valid(o: Options)
  {
    Validate(o).None?
  }

  /** `adjustFrameLength`: 64-bit arithmetic with overflow guards; `None` is the `false` result. */
  function AdjustFrameLength(o: Options, unadjusted: Uint64): Option<Uint64>
  {
    var end := ToUint64(o.EndOffset());
    if unadjusted > MAX_UINT64 - end then None else
    var adjusted: Uint64 := unadjusted + end;
    if o.lengthAdjustment >= 0 then
      if adjusted > MAX_UINT64 - o.lengthAdjustment then None else Some(adjusted + o.lengthAdjustment)
    else if o.lengthAdjustment == MIN_INT64 then None
    else if adjusted < -o.lengthAdjustment then None
    else Some(adjusted + o.lengthAdjustment)
  }

  /** The four length checks of `decodeOne`, in order. */
  function FrameLength(o: Options, unadjusted: Uint64): Result<nat>
  {
    match AdjustFrameLength(o, unadjusted)
    case None => Fail(LengthOverflow)
    case Some(length) =>
      if length < ToUint64(o.EndOffset()) then Fail(ShorterThanHeader)
      else if length > o.maxFrameLength then Fail(ExceedsMaximum)
      else if length > MAX_INT64 then Fail(ExceedsPlatform)
      else Ok(length)
  }

  /** The part of the configuration that `validateConfiguration` checks field by field. */
  predicate WellFormed(o: Options)
  {
    && o.byteOrder.Some? && SupportedWidth(o.lengthFieldLength)
    && o.lengthFieldOffset >= 0 && o.initialBytesToStrip >= 0
  }

  /** The configuration check is exact: it accepts a well-formed configuration
      just when some value of the length field passes every length check. */
  lemma ValidationIsExact(o: Options)
    requires WellFormed(o)
    ensures Valid(o) <==>
              exists u: Uint64 :: u <= MaxRepresentable(o.lengthFieldLength) && FrameLength(o, u).Ok?
  {
    if Valid(o) {
      var u := if o.lengthAdjustment < 0 then -o.lengthAdjustment else 0;
      assert FrameLength(o, u).Ok?;
    }
  }

  /** Under an accepted configuration the guarded 64-bit sum is the exact sum, so
      the overflow results arise only from a negative total. */
  lemma AdjustmentIsExact(o: Options, u: Uint64)
    requires Valid(o) && u <= MaxRepresentable(o.lengthFieldLength)
    ensures o.EndOffset() == o.lengthFieldOffset + o.lengthFieldLength > 0
    ensures AdjustFrameLength(o, u) ==
            (var sum := u + o.lengthFieldOffset + o.lengthFieldLength + o.lengthAdjustment;
             if sum < 0 then None else Some(sum))
  {
  }

  // ---------------------------------------------------------------- one frame

  type ByteString = seq<Byte>

  function FieldValue(order: ByteOrder, field: ByteString): (v: nat)
    ensures v < Pow256(|field|)
  {
    if order == LittleEndian then LittleEndianValue(field) else BigEndianValue(field)
  }

  function Little3(low: int, middle: int, high: int): int
  {
    low + middle * 0x100 + high * 0x1_0000
  }

  /** `readLengthField`. The standard library reads widths 2, 4 and 8; width 3 is spelt out. */
  function ReadLengthField(o: Options, input: ByteString): (r: Result<Uint64>)
    requires Valid(o) && |input| >= o.EndOffset()
    ensures var v := FieldValue(o.byteOrder.value, input[o.lengthFieldOffset..o.EndOffset()]);
            r == if v <= MaxRepresentable(o.lengthFieldLength) then Ok(v) else Fail(LengthFieldTooLarge)
  {
    var field := input[o.lengthFieldOffset..o.EndOffset()];
    Pow256Values();
    if o.lengthFieldLength == 1 then
      Ok(field[0])
    else if o.lengthFieldLength == 3 then
      Width3(field);
      if o.byteOrder.value == LittleEndian then Ok(Little3(field[0], field[1], field[2]))
      else Ok(Little3(field[2], field[1], field[0]))
    else
      var v := FieldValue(o.byteOrder.value, field);
      if o.lengthFieldLength == 8 && v > MAX_INT64 then Fail(LengthFieldTooLarge) else Ok(v)
  }

  lemma Width3(field: ByteString)
    requires |field| == 3
    ensures LittleEndianValue(field) == Little3(field[0], field[1], field[2])
    ensures BigEndianValue(field) == Little3(field[2], field[1], field[0])
  {
    assert LittleEndianValue(field[1..]) == field[1] + 256 * LittleEndianValue(field[1..][1..]);
    assert LittleEndianValue(field[1..][1..]) == field[2];
    assert BigEndianValue(field[..2]) == 256 * BigEndianValue(field[..2][..1]) + field[1];
    assert BigEndianValue(field[..2][..1]) == field[0];
  }

  // -- the other widths, byte by byte

  lemma OneByte(b: ByteString)
    requires |b| == 1
    ensures FieldValue(LittleEndian, b) == FieldValue(BigEndian, b) == b[0]
  {
    assert LittleEndianValue(b[1..]) == 0 && BigEndianValue(b[..0]) == 0;
  }

  lemma TwoBytes(b: ByteString)
    requires |b| == 2
    ensures FieldValue(LittleEndian, b) == b[0] as int + 0x100 * (b[1] as int)
    ensures FieldValue(BigEndian, b) == 0x100 * (b[0] as int) + b[1] as int
  {
    OneByte(b[1..]);
    OneByte(b[..1]);
  }

  lemma FourBytes(b: ByteString)
    requires |b| == 4
    ensures FieldValue(LittleEndian, b)
            == b[0] as int + 0x100 * (b[1] as int) + 0x1_0000 * (b[2] as int) + 0x100_0000 * (b[3] as int)
    ensures FieldValue(BigEndian, b)
            == 0x100_0000 * (b[0] as int) + 0x1_0000 * (b[1] as int) + 0x100 * (b[2] as int) + b[3] as int
  {
    hide LittleEndianValue, BigEndianValue, Pow256;
    Pow256Values();
    LittleHalves(b, 2);
    BigHalves(b, 2);
    TwoBytes(b[..2]);
    TwoBytes(b[2..]);
  }

  /** Eight bytes are two fields of four, the low one first or last as the byte order says. */
  lemma EightBytes(b: ByteString)
    requires |b| == 8
    ensures FieldValue(LittleEndian, b) == FieldValue(LittleEndian, b[..4]) + 0x1_0000_0000 * FieldValue(LittleEndian, b[4..])
    ensures FieldValue(BigEndian, b) == 0x1_0000_0000 * FieldValue(BigEndian, b[..4]) + FieldValue(BigEndian, b[4..])
  {
    hide LittleEndianValue, BigEndianValue, Pow256;
    Pow256Values();
    LittleHalves(b, 4);
    BigHalves(b, 4);
  }

  lemma {:induction false} LittleHalves(b: ByteString, n: nat)
    requires n <= |b|
    ensures LittleEndianValue(b) == LittleEndianValue(b[..n]) + Pow256(n) * LittleEndianValue(b[n..])
  {
    hide Pow256, LittleEndianValue;
    if n == 0 {
      assert b[0..] == b;
      PowOfNone();
      assert LittleEndianValue(b[..0]) == 0 by { LittleNext([0]); }
    } else {
      LittleHalves(b[1..], n - 1);
      LittleNext(b);
      LittleNext(b[..n]);
      assert b[1..][n - 1..] == b[n..] && b[..n][1..] == b[1..][..n - 1];
      PowTimes(n, LittleEndianValue(b[n..]));
    }
  }

  lemma {:induction false} BigHalves(b: ByteString, n: nat)
    requires n <= |b|
    ensures BigEndianValue(b) == Pow256(|b| - n) * BigEndianValue(b[..n]) + BigEndianValue(b[n..])
    decreases |b| - n
  {
    hide Pow256;
    if n == |b| {
      assert b[..n] == b;
      PowOfNone();
    } else {
      var front := b[..|b| - 1];
      BigHalves(front, n);
      assert front[..n] == b[..n] && front[n..] == b[n..][..|b| - n - 1];
      PowTimes(|b| - n, BigEndianValue(b[..n]));
    }
  }

  lemma LittleNext(b: ByteString)
    requires b != []
    ensures LittleEndianValue([]) == 0 && LittleEndianValue(b) == b[0] as int + 256 * LittleEndianValue(b[1..])
  {
  }

  lemma PowOfNone()
    ensures Pow256(0) == 1
  {
  }

  lemma PowTimes(n: nat, x: nat)
    requires n > 0
    ensures Pow256(n) * x == 256 * (Pow256(n - 1) * x)
  {
  }

  datatype Decoded = Incomplete | Frame(frame: ByteString, consumed: nat) | Bad(error: Error)

  /** `decodeOne`. */
  function DecodeOne(o: Options, input: ByteString): (r: Decoded)
    requires Valid(o)
    ensures r.Frame? ==> 0 < o.EndOffset() <= r.consumed <= |input|
    ensures r.Frame? ==> o.initialBytesToStrip <= r.consumed && r.frame == input[o.initialBytesToStrip..r.consumed]
    ensures r.Incomplete? ==> |input| < o.maxFrameLength
    ensures r.Bad? ==> r.error.Kind() != InvalidConfiguration
  {
    if |input| < o.EndOffset() then Incomplete else
    match ReadLengthField(o, input)
    case Fail(e) => Bad(e)
    case Ok(unadjusted) =>
      match FrameLength(o, unadjusted)
      case Fail(e) => Bad(e)
      case Ok(length) =>
        if |input| < length then Incomplete
        else if o.initialBytesToStrip > length then Bad(StripExceedsFrame)
        else Frame(input[o.initialBytesToStrip..length], length)
  }

  /** What `decodeOne` decides, in exact arithmetic and without the 64-bit path to it: with `total` the announced length,
      the adjustment and the header together, each refusal has its own condition, and otherwise the frame is `total`
      bytes long, delivered without its first bytes as soon as they are all there. */
  lemma DecodeOneMeaning(o: Options, input: ByteString)
    requires Valid(o) && |input| >= o.lengthFieldOffset + o.lengthFieldLength
    ensures var header := o.lengthFieldOffset + o.lengthFieldLength;
            var announced := FieldValue(o.byteOrder.value, input[o.lengthFieldOffset..header]);
            var total := announced + o.lengthAdjustment + header;
            var d := DecodeOne(o, input);
            if announced > MaxRepresentable(o.lengthFieldLength) then d == Bad(LengthFieldTooLarge)
            else if total < 0 then d == Bad(LengthOverflow)
            else if total < header then d == Bad(ShorterThanHeader)
            else if total > o.maxFrameLength then d == Bad(ExceedsMaximum)
            else if total > MAX_INT64 then d == Bad(ExceedsPlatform)
            else if |input| < total then d == Incomplete
            else if o.initialBytesToStrip > total then d == Bad(StripExceedsFrame)
            else d == Frame(input[o.initialBytesToStrip..total], total)
  {
    var v := ReadLengthField(o, input);
    if v.Ok? {
      AdjustmentIsExact(o, v.value);
    }
  }

  /** A verdict on a prefix of the stream never changes when more bytes arrive. */
  lemma DecodeOneIsStable(o: Options, a: ByteString, b: ByteString)
    requires Valid(o) && !DecodeOne(o, a).Incomplete?
    ensures DecodeOne(o, a + b) == DecodeOne(o, a)
  {
    var end := o.EndOffset();
    assert (a + b)[o.lengthFieldOffset..end] == a[o.lengthFieldOffset..end];
    var r := DecodeOne(o, a);
    if r.Frame? {
      assert (a + b)[o.initialBytesToStrip..r.consumed] == a[o.initialBytesToStrip..r.consumed];
    }
  }

  // ---------------------------------------------------------------- a whole stream

  /** What a byte string means to the decoder: either frames and the bytes left
      over, or the frames before the first bad one and the error. */
  datatype Reading = Clean(frames: seq<ByteString>, pending: ByteString) | Broken(good: seq<ByteString>, error: Error)
  {
    function Frames(): seq<ByteString>
    {
      if Clean? then frames else good
    }

    function After(earlier: seq<ByteString>): Reading
    {
      match this
      case Clean(fs, p) => Clean(earlier + fs, p)
      case Broken(fs, e) => Broken(earlier + fs, e)
    }
  }

  function Stream(o: Options, input: ByteString): Reading
    requires Valid(o)
    decreases |input|
  {
    match DecodeOne(o, input)
    case Incomplete => Clean([], input)
    case Bad(e) => Broken([], e)
    case Frame(frame, consumed) => Stream(o, input[consumed..]).After([frame])
  }

  /** After a clean reading fewer than `MaxFrameLength` bytes are pending and no complete frame is among them. */
  lemma {:induction false} PendingIsShort(o: Options, input: ByteString)
    requires Valid(o) && Stream(o, input).Clean?
    ensures var p := Stream(o, input).pending; |p| < o.maxFrameLength && DecodeOne(o, p).Incomplete?
    decreases |input|
  {
    var r := DecodeOne(o, input);
    if r.Incomplete? {
    } else {
      PendingIsShort(o, input[r.consumed..]);
    }
  }

  /** The consumed bytes of a clean reading, cut where the decoder cut them. */
  function RawFrames(o: Options, input: ByteString): (raw: seq<ByteString>)
    requires Valid(o)
    decreases |input|
  {
    match DecodeOne(o, input)
    case Frame(_, consumed) => [input[..consumed]] + RawFrames(o, input[consumed..])
    case _ => []
  }

  lemma FrameAlone(o: Options, input: ByteString)
    requires Valid(o) && DecodeOne(o, input).Frame?
    ensures var d := DecodeOne(o, input); DecodeOne(o, input[..d.consumed]) == d
  {
    var d := DecodeOne(o, input);
    var first := input[..d.consumed];
    assert first[o.lengthFieldOffset..o.EndOffset()] == input[o.lengthFieldOffset..o.EndOffset()];
    assert first[o.initialBytesToStrip..d.consumed] == d.frame;
  }

  lemma {:induction false} RawFramesCover(o: Options, input: ByteString)
    requires Valid(o) && Stream(o, input).Clean?
    ensures input == Concat(RawFrames(o, input)) + Stream(o, input).pending
    decreases |input|
  {
    hide DecodeOne, Valid;
    var d := DecodeOne(o, input);
    if d.Incomplete? {
    } else {
      var first, rest := input[..d.consumed], input[d.consumed..];
      RawFramesCover(o, rest);
      assert RawFrames(o, input)[1..] == RawFrames(o, rest);
      assert input == first + rest;
    }
  }

  lemma {:induction false} RawFramesDecode(o: Options, input: ByteString, i: nat)
    requires Valid(o) && Stream(o, input).Clean? && i < |RawFrames(o, input)|
    ensures |RawFrames(o, input)| == |Stream(o, input).frames|
    ensures DecodeOne(o, RawFrames(o, input)[i]) == Frame(Stream(o, input).frames[i], |RawFrames(o, input)[i]|)
    decreases |input|
  {
    hide DecodeOne, Valid;
    var d := DecodeOne(o, input);
    var rest := input[d.consumed..];
    FrameAlone(o, input);
    if RawFrames(o, rest) != [] {
      RawFramesDecode(o, rest, if i > 0 then i - 1 else 0);
    } else {
      NoRawFrames(o, rest);
    }
  }

  lemma NoRawFrames(o: Options, input: ByteString)
    requires Valid(o)
    ensures RawFrames(o, input) == [] <==> Stream(o, input).Frames() == [] && !DecodeOne(o, input).Frame?
  {
  }

  /** Nothing of a clean reading's input is lost, repeated or reordered: the input is the raw frames and the
      pending bytes, and each delivered frame is what its raw frame decodes to by itself. */
  lemma NothingIsLost(o: Options, input: ByteString)
    requires Valid(o) && Stream(o, input).Clean?
    ensures var r, raw := Stream(o, input), RawFrames(o, input);
            && input == Concat(raw) + r.pending && |raw| == |r.frames|
            && forall i :: 0 <= i < |raw| ==> DecodeOne(o, raw[i]) == Frame(r.frames[i], |raw[i]|)
  {
    hide DecodeOne, Valid;
    RawFramesCover(o, input);
    var raw := RawFrames(o, input);
    forall i | 0 <= i < |raw|
      ensures |raw| == |Stream(o, input).frames| && DecodeOne(o, raw[i]) == Frame(Stream(o, input).frames[i], |raw[i]|)
    {
      RawFramesDecode(o, input, i);
    }
    NoRawFrames(o, input);
  }

  /** Reading `a + b` is reading `a` and then reading `b` after what `a` left pending. */
  lemma {:induction false} StreamSplits(o: Options, a: ByteString, b: ByteString)
    requires Valid(o)
    ensures var first := Stream(o, a);
            Stream(o, a + b) == if first.Clean? then Stream(o, first.pending + b).After(first.frames) else first
    decreases |a|
  {
    hide DecodeOne, Valid;
    var d := DecodeOne(o, a);
    match d
    case Incomplete =>
      assert [] + Stream(o, a + b).Frames() == Stream(o, a + b).Frames();
    case Bad(e) =>
      DecodeOneIsStable(o, a, b);
    case Frame(frame, consumed) =>
      DecodeOneIsStable(o, a, b);
      assert (a + b)[consumed..] == a[consumed..] + b;
      StreamSplits(o, a[consumed..], b);
      var rest := Stream(o, a[consumed..]);
      if rest.Clean? {
        var tail := Stream(o, rest.pending + b);
        assert [frame] + (rest.frames + tail.Frames()) == ([frame] + rest.frames) + tail.Frames();
      }
  }

  // ---------------------------------------------------------------- feeding chunks

  /** Calling `Decode` once per chunk from a given buffer until the first error.
      A failing call delivers none of the frames it had read. */
  function Feed(o: Options, pending: ByteString, chunks: seq<ByteString>): Reading
    requires Valid(o)
    decreases |chunks|
  {
    if chunks == [] then Clean([], pending) else
    match Stream(o, pending + chunks[0])
    case Clean(frames, rest) => Feed(o, rest, chunks[1..]).After(frames)
    case Broken(_, e) => Broken([], e)
  }

  /** Chunk independence: however the stream is cut, the chunks and the whole either both read cleanly with
      the same frames and the same pending bytes, or both fail with the same error; in the failing case the
      frames already delivered are the first of the good frames. */
  lemma {:induction false} ChunkIndependence(o: Options, pending: ByteString, chunks: seq<ByteString>)
    requires Valid(o) && DecodeOne(o, pending).Incomplete?
    ensures var whole := Stream(o, pending + Concat(chunks));
            var fed := Feed(o, pending, chunks);
            if whole.Clean? then fed == whole
            else fed.Broken? && fed.error == whole.error && fed.good <= whole.good
    decreases |chunks|
  {
    if chunks == [] {
      assert pending + Concat(chunks) == pending;
    } else {
      var head, tail := pending + chunks[0], Concat(chunks[1..]);
      assert pending + Concat(chunks) == head + tail;
      StreamSplits(o, head, tail);
      var first := Stream(o, head);
      if first.Clean? {
        PendingIsShort(o, head);
        ChunkIndependence(o, first.pending, chunks[1..]);
        var whole, fed := Stream(o, first.pending + tail), Feed(o, first.pending, chunks[1..]);
        if whole.Broken? {
          assert first.frames + fed.good <= first.frames + whole.good;
        }
      }
    }
  }

  // ---------------------------------------------------------------- what is delivered before an error

  /** Where a feed breaks: at the first chunk that completes a bad frame. What has been delivered by then are the frames
      complete in the chunks before it. */
  lemma {:induction false} FeedBreaksAt(o: Options, pending: ByteString, chunks: seq<ByteString>) returns (k: nat)
    requires Valid(o) && DecodeOne(o, pending).Incomplete? && Feed(o, pending, chunks).Broken?
    ensures k < |chunks|
    ensures Stream(o, pending + Concat(chunks[..k])).Clean? && Stream(o, pending + Concat(chunks[..k + 1])).Broken?
    ensures Feed(o, pending, chunks).good == Stream(o, pending + Concat(chunks[..k])).frames
    decreases |chunks|
  {
    hide DecodeOne, Valid, Stream, Concat;
    var first := Stream(o, pending + chunks[0]);
    if first.Broken? {
      k := 0;
      FirstChunkOnly(o, pending, chunks);
    } else {
      PendingIsShort(o, pending + chunks[0]);
      var n := FeedBreaksAt(o, first.pending, chunks[1..]);
      k := n + 1;
      AfterFirstChunk(o, pending, chunks, n);
      AfterFirstChunk(o, pending, chunks, n + 1);
    }
  }

  lemma FirstChunkOnly(o: Options, pending: ByteString, chunks: seq<ByteString>)
    requires Valid(o) && DecodeOne(o, pending).Incomplete? && chunks != []
    ensures pending + Concat(chunks[..1]) == pending + chunks[0]
    ensures Stream(o, pending + Concat(chunks[..0])) == Clean([], pending)
  {
    hide DecodeOne, Valid;
    FirstChunk(chunks, 1);
    assert pending + Concat(chunks[..0]) == pending;
  }

  lemma AfterFirstChunk(o: Options, pending: ByteString, chunks: seq<ByteString>, n: nat)
    requires Valid(o) && n < |chunks| && Stream(o, pending + chunks[0]).Clean?
    ensures var first := Stream(o, pending + chunks[0]);
            Stream(o, pending + Concat(chunks[..n + 1])) == Stream(o, first.pending + Concat(chunks[1..][..n])).After(first.frames)
  {
    hide DecodeOne, Valid, Stream;
    var tail := Concat(chunks[1..][..n]);
    FirstChunk(chunks, n + 1);
    StreamSplits(o, pending + chunks[0], tail);
    assert pending + Concat(chunks[..n + 1]) == pending + chunks[0] + tail;
  }

  lemma FirstChunk(chunks: seq<ByteString>, k: nat)
    requires 0 < k <= |chunks|
    ensures Concat(chunks[..k]) == chunks[0] + Concat(chunks[1..][..k - 1])
  {
    assert chunks[..k][1..] == chunks[1..][..k - 1];
  }

  /** A frame that a prefix leaves incomplete ends beyond it. */
  lemma IncompleteIsBeyond(o: Options, a: ByteString, b: ByteString)
    requires Valid(o) && DecodeOne(o, a).Incomplete? && DecodeOne(o, a + b).Frame?
    ensures DecodeOne(o, a + b).consumed > |a|
  {
    var d := DecodeOne(o, a + b);
    if d.consumed <= |a| {
      FrameAlone(o, a + b);
      assert (a + b)[..d.consumed] == a[..d.consumed];
      assert a[..d.consumed] + a[d.consumed..] == a;
      DecodeOneIsStable(o, a[..d.consumed], a[d.consumed..]);
    }
  }

  /** How many bytes the frames before the first bad or incomplete one take. */
  function GoodLength(o: Options, input: ByteString): nat
    requires Valid(o)
  {
    |Concat(RawFrames(o, input))|
  }

  lemma GoodLengthNext(o: Options, input: ByteString)
    requires Valid(o)
    ensures var d := DecodeOne(o, input);
            GoodLength(o, input) == if d.Frame? then d.consumed + GoodLength(o, input[d.consumed..]) else 0
  {
    hide DecodeOne, Valid;
    var d := DecodeOne(o, input);
    if d.Frame? {
      assert RawFrames(o, input)[1..] == RawFrames(o, input[d.consumed..]);
    }
  }

  /** A prefix of the stream yields all the good frames of the stream if and only if it reaches their end. */
  lemma {:induction false} PrefixYieldsAll(o: Options, a: ByteString, b: ByteString)
    requires Valid(o) && Stream(o, a).Clean?
    ensures Stream(o, a).frames == Stream(o, a + b).Frames() <==> GoodLength(o, a + b) <= |a|
    decreases |a|
  {
    hide DecodeOne, Valid, GoodLength;
    GoodLengthNext(o, a + b);
    var d := DecodeOne(o, a);
    if d.Frame? {
      var a', rest := a[d.consumed..], Stream(o, a[d.consumed..]);
      DecodeOneIsStable(o, a, b);
      assert (a + b)[d.consumed..] == a' + b;
      PrefixYieldsAll(o, a', b);
      Cons(d.frame, rest.frames, Stream(o, a' + b).Frames());
    } else if DecodeOne(o, a + b).Frame? {
      IncompleteIsBeyond(o, a, b);
    }
  }

  lemma Cons(x: ByteString, a: seq<ByteString>, b: seq<ByteString>)
    ensures [x] + a == [x] + b <==> a == b
  {
    assert ([x] + a)[1..] == a && ([x] + b)[1..] == b;
  }

  /** Exactly what a receiver gets of a broken stream: the frames complete before the chunk in which the error is found;
      and that is every good frame if and only if the chunks before it reach the end of the good frames. */
  lemma DeliveredBeforeError(o: Options, pending: ByteString, chunks: seq<ByteString>) returns (k: nat)
    requires Valid(o) && DecodeOne(o, pending).Incomplete? && Stream(o, pending + Concat(chunks)).Broken?
    ensures k < |chunks| && Feed(o, pending, chunks).Broken?
    ensures Stream(o, pending + Concat(chunks[..k])).Clean? && Stream(o, pending + Concat(chunks[..k + 1])).Broken?
    ensures Feed(o, pending, chunks).good == Stream(o, pending + Concat(chunks[..k])).frames
    ensures Feed(o, pending, chunks).good == Stream(o, pending + Concat(chunks)).good <==>
              GoodLength(o, pending + Concat(chunks)) <= |pending + Concat(chunks[..k])|
  {
    hide DecodeOne, Valid, Stream, Feed, GoodLength;
    ChunkIndependence(o, pending, chunks);
    k := FeedBreaksAt(o, pending, chunks);
    var a, b := pending + Concat(chunks[..k]), Concat(chunks[k..]);
    assert chunks == chunks[..k] + chunks[k..];
    ConcatAppend(chunks[..k], chunks[k..]);
    assert pending + Concat(chunks) == a + b;
    PrefixYieldsAll(o, a, b);
  }

  /** A stream that breaks after `a` delivers nothing when it comes in one chunk, and the frames of `a` when it is cut
      there. */
  lemma CutsMatter(o: Options, a: ByteString, b: ByteString)
    requires Valid(o) && Stream(o, a).Clean? && Stream(o, a + b).Broken?
    ensures Feed(o, [], [a + b]) == Broken([], Stream(o, a + b).error)
    ensures Feed(o, [], [a, b]) == Broken(Stream(o, a).frames, Stream(o, a + b).error)
  {
    hide DecodeOne, Valid, Stream;
    StreamSplits(o, a, b);
    var first := Stream(o, a);
    assert [] + (a + b) == a + b && [] + a == a;
    assert [a, b][1..] == [b] && [b][0] == b;
    assert Feed(o, first.pending, [b]) == Broken([], Stream(o, a + b).error);
    assert first.frames + [] == first.frames;
  }

  /** Such a stream: an empty frame, and then a header that announces more than the limit. */
  lemma CutsMatterHere()
    ensures var o := Options(Some(LittleEndian), 4, 0, 1, 0, 0);
            && Valid(o)
            && Feed(o, [], [[0, 9]]) == Broken([], ExceedsMaximum)
            && Feed(o, [], [[0], [9]]) == Broken([[0]], ExceedsMaximum)
  {
    var o := Options(Some(LittleEndian), 4, 0, 1, 0, 0);
    var good: ByteString, bad: ByteString := [0], [9];
    EmptyThenTooLarge();
    hide DecodeOne, Stream, Feed;
    CutsMatter(o, good, bad);
    assert good + bad == [0, 9];
  }

  lemma EmptyThenTooLarge()
    ensures var o := Options(Some(LittleEndian), 4, 0, 1, 0, 0);
            && Valid(o) && Stream(o, [0]) == Clean([[0]], []) && Stream(o, [0] + [9]) == Broken([[0]], ExceedsMaximum)
  {
    var o := Options(Some(LittleEndian), 4, 0, 1, 0, 0);
    var good: ByteString, bad: ByteString := [0], [9];
    OneByteFrame(o, good);
    OneByteFrame(o, bad);
    OneByteFrame(o, good + bad);
    hide DecodeOne;
    assert good[1..] == [] && (good + bad)[1..] == bad;
    assert good[..1] == good && (good + bad)[..1] == good;
    assert Stream(o, []) == Clean([], []) by { OneByteFrame(o, []); }
  }

  lemma OneByteFrame(o: Options, input: ByteString)
    requires o == Options(Some(LittleEndian), 4, 0, 1, 0, 0)
    ensures Valid(o)
    ensures DecodeOne(o, input) ==
            if input == [] then Incomplete
            else if input[0] > 3 then Bad(ExceedsMaximum)
            else if |input| < input[0] + 1 then Incomplete
            else Frame(input[..input[0] + 1], input[0] + 1)
  {
    if input != [] {
      assert ReadLengthField(o, input) == Ok(input[0]) by {
        assert input[0..1] == [input[0]];
        assert LittleEndianValue([input[0]]) == input[0];
      }
    }
  }

  // ---------------------------------------------------------------- which configurations can deliver

  /** The longest frame a length field can announce. */
  function LongestFrame(o: Options): int
    requires Valid(o)
  {
    var announced := MaxRepresentable(o.lengthFieldLength) + o.EndOffset() + o.lengthAdjustment;
    if announced < EffectiveMaximum(o) then announced else EffectiveMaximum(o)
  }

  /** The check does not look at `InitialBytesToStrip` against the frame limit, so it accepts
      configurations that can never deliver a frame: exactly those that strip more than the longest frame. */
  lemma DeliversSomething(o: Options)
    requires Valid(o)
    ensures (exists input :: DecodeOne(o, input).Frame?) <==> o.initialBytesToStrip <= LongestFrame(o)
  {
    if o.initialBytesToStrip <= LongestFrame(o) {
      var u: Uint64 := LongestFrame(o) - o.EndOffset() - o.lengthAdjustment;
      var input := FrameWithLength(o, u, LongestFrame(o));
      assert DecodeOne(o, input).Frame?;
    }
    forall input | DecodeOne(o, input).Frame?
      ensures o.initialBytesToStrip <= LongestFrame(o)
    {
      AdjustmentIsExact(o, ReadLengthField(o, input).value);
    }
  }

  /** One of them: frames of at most 10 bytes, of which 11 are to be stripped. */
  lemma UselessConfiguration(input: ByteString)
    ensures var o := Options(Some(LittleEndian), 10, 0, 4, 0, 11);
            Valid(o) && !DecodeOne(o, input).Frame?
  {
    var o := Options(Some(LittleEndian), 10, 0, 4, 0, 11);
    DeliversSomething(o);
    assert LongestFrame(o) == 10;
  }

  lemma FrameWithLength(o: Options, u: Uint64, length: nat) returns (input: ByteString)
    requires Valid(o) && u <= MaxRepresentable(o.lengthFieldLength) && length >= o.EndOffset()
    ensures |input| == length && ReadLengthField(o, input) == Ok(u)
  {
    Pow256Values();
    PutThenRead(u, o.lengthFieldLength);
    var field := if o.byteOrder.value == LittleEndian then PutLittleEndian(u, o.lengthFieldLength)
                 else PutBigEndian(u, o.lengthFieldLength);
    input := seq(o.lengthFieldOffset, _ => 0) + field + seq(length - o.EndOffset(), _ => 0);
    assert input[o.lengthFieldOffset..o.EndOffset()] == field;
  }

  // ---------------------------------------------------------------- the stateful decoder

  datatype Setting =
    | ByteOrderSetting(order: Option<ByteOrder>)
    | MaxFrameLengthSetting(max: Uint64)
    | OffsetSetting(offset: Int64)
    | WidthSetting(width: Int64)
    | AdjustmentSetting(adjustment: Int64)
    | StripSetting(strip: Int64)

  function With(o: Options, s: Setting): Options
  {
    match s
    case ByteOrderSetting(x) => o.(byteOrder := x)
    case MaxFrameLengthSetting(x) => o.(maxFrameLength := x)
    case OffsetSetting(x) => o.(lengthFieldOffset := x)
    case WidthSetting(x) => o.(lengthFieldLength := x)
    case AdjustmentSetting(x) => o.(lengthAdjustment := x)
    case StripSetting(x) => o.(initialBytesToStrip := x)
  }

  /** Which field a setting sets. */
  function Field(s: Setting): nat
  {
    match s
    case ByteOrderSetting(_) => 0
    case MaxFrameLengthSetting(_) => 1
    case OffsetSetting(_) => 2
    case WidthSetting(_) => 3
    case AdjustmentSetting(_) => 4
    case StripSetting(_) => 5
  }

  /** Each setting gives its own field the value and leaves the others; of two for one field the later wins, and two for
      different fields may come in either order. */
  lemma SettingsAreIndependent(o: Options, s: Setting, t: Setting)
    ensures With(o, s).byteOrder == if s.ByteOrderSetting? then s.order else o.byteOrder
    ensures With(o, s).maxFrameLength == if s.MaxFrameLengthSetting? then s.max else o.maxFrameLength
    ensures With(o, s).lengthFieldOffset == if s.OffsetSetting? then s.offset else o.lengthFieldOffset
    ensures With(o, s).lengthFieldLength == if s.WidthSetting? then s.width else o.lengthFieldLength
    ensures With(o, s).lengthAdjustment == if s.AdjustmentSetting? then s.adjustment else o.lengthAdjustment
    ensures With(o, s).initialBytesToStrip == if s.StripSetting? then s.strip else o.initialBytesToStrip
    ensures With(With(o, s), t) == if Field(s) == Field(t) then With(o, t) else With(With(o, t), s)
  {
  }

  /** The settings apply one after another: what comes last is applied last. */
  lemma {:induction false} LastSettingLast(o: Options, settings: seq<Option<Setting>>, last: Setting)
    ensures WithAll(o, settings + [Some(last)]) ==
            match WithAll(o, settings) case Ok(p) => Ok(With(p, last)) case Fail(e) => Fail(e)
    decreases |settings|
  {
    var more := settings + [Some(last)];
    if settings == [] {
      assert more[1..] == [];
    } else {
      assert more[1..] == settings[1..] + [Some(last)];
      if settings[0].Some? {
        LastSettingLast(With(o, settings[0].value), settings[1..], last);
      }
    }
  }

  function WithAll(o: Options, settings: seq<Option<Setting>>): Result<Options>
    decreases |settings|
  {
    if settings == [] then Ok(o)
    else if settings[0].None? then Fail(NilOption)
    else WithAll(With(o, settings[0].value), settings[1..])
  }

  /** One round of the decoding loop, after `earlier` frames. */
  lemma OneRound(o: Options, earlier: seq<ByteString>, bytes: ByteString)
    requires Valid(o)
    ensures var d, reading := DecodeOne(o, bytes), Stream(o, bytes).After(earlier);
            && (d.Incomplete? ==> reading == Clean(earlier, bytes))
            && (d.Bad? ==> reading == Broken(earlier, d.error))
            && (d.Frame? ==> reading == Stream(o, bytes[d.consumed..]).After(earlier + [d.frame]))
  {
    hide DecodeOne, Valid;
    var d := DecodeOne(o, bytes);
    assert earlier + [] == earlier;
    if d.Frame? {
      var rest := Stream(o, bytes[d.consumed..]);
      assert earlier + ([d.frame] + rest.Frames()) == (earlier + [d.frame]) + rest.Frames();
    }
  }

  class FrameDecoder {
    const options: Options
    var bytes: ByteString

    constructor (options: Options)
      ensures this.options == options && bytes == []
    {
      this.options := options;
      bytes := [];
    }

    /** `Decode`: appends the input to the carry-over buffer and takes frames off it until none is complete.
        An error empties the buffer and delivers nothing. */
    method Decode(input: ByteString) returns (r: Result<seq<ByteString>>)
      requires Valid(options)
      modifies this`bytes
      ensures match Stream(options, old(bytes) + input)
              case Clean(frames, pending) => r == Ok(frames) && bytes == pending
              case Broken(_, e) => r == Fail(e) && bytes == []
    {
      hide DecodeOne, Valid, Stream;
      bytes := bytes + input;
      ghost var all := bytes;
      var frames := [];
      assert Stream(options, all) == Stream(options, all).After([]);
      while true
        invariant Stream(options, all) == Stream(options, bytes).After(frames)
        decreases |bytes|
      {
        OneRound(options, frames, bytes);
        match DecodeOne(options, bytes) {
          case Bad(e) =>
            bytes := [];
            return Fail(e);
          case Incomplete =>
            return Ok(frames);
          case Frame(frame, consumed) =>
            frames := frames + [frame];
            bytes := bytes[consumed..];
        }
      }
    }
  }

  /** `NewFrameDecoder`: applies the options in order to the defaults, refuses a nil option, then validates. */
  method NewFrameDecoder(settings: seq<Option<Setting>>) returns (r: Result<FrameDecoder>)
    ensures match WithAll(DEFAULT_OPTIONS, settings)
            case Fail(e) => r == Fail(e)
            case Ok(o) => if Valid(o) then r.Ok? && r.value.options == o && r.value.bytes == [] && fresh(r.value)
                          else r == Fail(Validate(o).value)
  {
    var o := DEFAULT_OPTIONS;
    for i := 0 to |settings|
      invariant WithAll(DEFAULT_OPTIONS, settings) == WithAll(o, settings[i..])
    {
      if settings[i].None? {
        return Fail(NilOption);
      }
      o := With(o, settings[i].value);
    }
    match Validate(o) {
      case Some(e) => return Fail(e);
      case None =>
        var decoder := new FrameDecoder(o);
        return Ok(decoder);
    }
  }
}

