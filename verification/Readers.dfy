/**
  The read loops of both transports (tcp_connection.go, ws_connection.go): what
  they hand to `handleRequest` of the bytes that arrive, and why they end.
 */
module Readers {
  import opened Bytes
  import opened FrameDecoding
  import opened MessageCodec

  datatype Answer = Accepted | Stopping | Refused

  /** Why a loop over the frames of one read stops before the last of them. */
  datatype Stop = NoStop | BadMessage(error: Error) | ServerStopping | TaskRefused

  datatype ReadError = EndOfStream | OtherError

  /** One `Read`: it may return bytes and an error together. The flags are what the reader observes afterwards: whether
      reading was cancelled, and whether some other closer has started to close the connection. */
  datatype Read = Read(data: ByteString, error: Option<ReadError>, cancelled: bool, closing: bool)
  {
    /** The reader looks at the connection's state only after a read that brought bytes. */
    predicate SeesClosing()
    {
      data != [] && closing
    }

    /** The reader goes on after it, if its bytes do not stop it. */
    predicate Passes()
    {
      error.None? && !SeesClosing()
    }

    predicate Ends()
    {
      error == Some(EndOfStream) && !cancelled
    }
  }

  datatype Ending =
    | StillReading | Closing | Cancelled | ServerStopped
    | FrameRefused(error: Error) | MessageRefused(error: Error) | PartialFrame | NotBinary | EmptyMessage
    | ReadFailed | PeerEnded

  /** The messages are what the first of the frames decode to. */
  ghost predicate TakenFrom(messages: seq<Message>, frames: seq<ByteString>)
  {
    |messages| <= |frames| && forall i :: 0 <= i < |messages| ==> DecodeMessage(frames[i]) == Ok(messages[i])
  }

  ghost predicate AllTaken(messages: seq<Message>, frames: seq<ByteString>)
  {
    TakenFrom(messages, frames) && |messages| == |frames|
  }

  /** One result of the WebSocket library's `ReadMessage`; an end is normal for the close codes 1000 and 1001 and for a
      socket closed on this side. */
  datatype Arrival = Binary(data: ByteString) | NotBinaryMessage | Ended(cancelled: bool, normal: bool)

  /** A binary message that is one or more whole frames. */
  ghost predicate SelfContained(o: Options, a: Arrival)
    requires Valid(o)
  {
    a.Binary? && a.data != [] && Stream(o, a.data).Clean? && Stream(o, a.data).pending == []
  }

  ghost function FramesOf(o: Options, arrivals: seq<Arrival>): seq<ByteString>
    requires Valid(o)
  {
    if arrivals == [] then [] else
    var last := arrivals[|arrivals| - 1];
    FramesOf(o, arrivals[..|arrivals| - 1]) + (if last.Binary? then Stream(o, last.data).Frames() else [])
  }

  lemma FramesOfNext(o: Options, arrivals: seq<Arrival>, n: nat)
    requires Valid(o) && n < |arrivals| && arrivals[n].Binary?
    ensures FramesOf(o, arrivals[..n + 1]) == FramesOf(o, arrivals[..n]) + Stream(o, arrivals[n].data).Frames()
  {
    assert arrivals[..n + 1][..n] == arrivals[..n];
  }

  function Joined(arrivals: seq<Read>): ByteString
  {
    if arrivals == [] then [] else Joined(arrivals[..|arrivals| - 1]) + arrivals[|arrivals| - 1].data
  }

  lemma JoinedNext(arrivals: seq<Read>, n: nat)
    requires n < |arrivals|
    ensures Joined(arrivals[..n + 1]) == Joined(arrivals[..n]) + arrivals[n].data
  {
    assert arrivals[..n + 1][..n] == arrivals[..n];
  }

  class Reader {
    const decoder: FrameDecoder
    /** What `handleRequest` answers to each message in turn. */
    const answer: nat -> Answer
    var handed: seq<Message>
    var closing: bool

    constructor (decoder: FrameDecoder, answer: nat -> Answer)
      ensures this.decoder == decoder && this.answer == answer && handed == [] && !closing
    {
      this.decoder, this.answer := decoder, answer;
      handed, closing := [], false;
    }

    ghost predicate AllAccepted(n: nat)
      reads this`handed
    {
      n <= |handed| && forall i :: 0 <= i < n ==> answer(i) == Accepted
    }

    /** The loop over the decoded frames that both readers have: every message is handed over in order, up to and
        including the first that is not accepted, or up to the first frame that is no message. */
    method HandOver(frames: seq<ByteString>) returns (stop: Stop)
      requires AllAccepted(|handed|)
      modifies this`handed
      ensures old(handed) <= handed && TakenFrom(handed[|old(handed)|..], frames)
      ensures stop.NoStop? ==> AllTaken(handed[|old(handed)|..], frames) && AllAccepted(|handed|)
      ensures stop.BadMessage? ==>
                var n := |handed| - |old(handed)|;
                n < |frames| && DecodeMessage(frames[n]) == Fail(stop.error) && AllAccepted(|handed|)
      ensures stop.ServerStopping? ==> LastAnswer(|old(handed)|, Stopping)
      ensures stop.TaskRefused? ==> LastAnswer(|old(handed)|, Refused)
    {
      for i := 0 to |frames|
        invariant old(handed) <= handed && |handed| == |old(handed)| + i
        invariant TakenFrom(handed[|old(handed)|..], frames) && AllAccepted(|handed|)
      {
        match DecodeMessage(frames[i]) {
          case Fail(e) => return BadMessage(e);
          case Ok(m) =>
            var reply := answer(|handed|);
            handed := handed + [m];
            if reply == Stopping {
              return ServerStopping;
            }
            if reply == Refused {
              return TaskRefused;
            }
        }
      }
      return NoStop;
    }

    /** Everything complete in `whole` has been handed over and accepted, and the rest is in the decoder. */
    ghost predicate UpToDate(whole: Reading)
      reads this`handed, decoder
    {
      whole.Clean? && decoder.bytes == whole.pending && AllTaken(handed, whole.frames) && AllAccepted(|handed|)
    }

    /** Why the TCP reader ended, or goes on, after its last read: what that read returned, what the bytes read so far
        are, and what has been handed over of them. */
    ghost predicate Explains(ending: Ending, whole: Reading, last: Read)
      reads this`handed, decoder
    {
      && TakenFrom(handed, whole.Frames())
      && match ending
         case StillReading => UpToDate(whole) && last.Passes()
         case Cancelled => UpToDate(whole) && !last.SeesClosing() && last.error.Some? && last.cancelled
         case ReadFailed => UpToDate(whole) && !last.SeesClosing() && last.error == Some(OtherError) && !last.cancelled
         case PeerEnded => UpToDate(whole) && whole.pending == [] && !last.SeesClosing() && last.Ends()
         case PartialFrame => UpToDate(whole) && whole.pending != [] && !last.SeesClosing() && last.Ends()
         case _ => Interrupts(ending, whole) || (ending.Closing? && UpToDate(whole) && last.SeesClosing())
    }

    /** Why `processInput` stops the reader. */
    ghost predicate Interrupts(ending: Ending, whole: Reading)
      reads this`handed, decoder
    {
      match ending
      case FrameRefused(e) => whole.Broken? && whole.error == e && TakenFrom(handed, whole.good) && AllAccepted(|handed|)
      case MessageRefused(e) =>
        && whole.Clean? && TakenFrom(handed, whole.frames) && |handed| < |whole.frames|
        && DecodeMessage(whole.frames[|handed|]) == Fail(e) && AllAccepted(|handed|)
      case ServerStopped => whole.Clean? && TakenFrom(handed, whole.frames) && LastAnswer(0, Stopping)
      case Closing => whole.Clean? && TakenFrom(handed, whole.frames) && LastAnswer(0, Refused)
      case _ => false
    }

    /** `processInput`, given the bytes read before; a refused task requests the close and ends the call without error. */
    method ProcessInput(data: ByteString, ghost seen: ByteString) returns (ending: Option<Ending>)
      requires Valid(decoder.options) && !closing && UpToDate(Stream(decoder.options, seen))
      modifies this`handed, this`closing, decoder
      ensures var whole := Stream(decoder.options, seen + data);
              && (ending.Some? ==> Interrupts(ending.value, whole))
              && (ending.None? && closing ==> Interrupts(Closing, whole))
              && (ending.None? && !closing ==> UpToDate(whole))
    {
      hide Valid, Stream, DecodeMessage;
      StreamSplits(decoder.options, seen, data);
      ghost var first := Stream(decoder.options, seen);
      ghost var whole := Stream(decoder.options, seen + data);
      var r := decoder.Decode(data);
      if r.Fail? {
        return Some(FrameRefused(r.error));
      }
      assert whole.frames == first.frames + r.value;
      ghost var before := handed;
      var stop := HandOver(r.value);
      assert handed == before + handed[|before|..];
      match stop {
        case NoStop => return None;
        case BadMessage(e) => return Some(MessageRefused(e));
        case ServerStopping => return Some(ServerStopped);
        case TaskRefused =>
          closing := true;
          return None;
      }
    }

    /** The end of the TCP `reader` after a read that returned an error. */
    method EndTcp(read: Read, ghost whole: Reading) returns (ending: Ending)
      requires UpToDate(whole) && read.error.Some? && !read.SeesClosing()
      ensures !ending.StillReading? && Explains(ending, whole, read)
    {
      if read.cancelled {
        return Cancelled;
      }
      if read.error.value != EndOfStream {
        return ReadFailed;
      }
      return if |decoder.bytes| > 0 then PartialFrame else PeerEnded;
    }

    /** The TCP `reader` on any series of reads: why it ended, after which of them, and what that means for what it has
        handed over. */
    method ReadTcp(arrivals: seq<Read>) returns (ending: Ending, used: nat)
      requires Valid(decoder.options) && decoder.bytes == [] && handed == [] && !closing
      modifies this`handed, this`closing, decoder
      ensures used <= |arrivals| && forall i :: 0 <= i < used - 1 ==> arrivals[i].Passes()
      ensures used == 0 ==> arrivals == [] && ending.StillReading? && handed == []
      ensures used > 0 ==> Explains(ending, Stream(decoder.options, Joined(arrivals[..used])), arrivals[used - 1])
      ensures ending.StillReading? ==> used == |arrivals|
    {
      hide *;
      ending, used := StillReading, 0;
      NothingYet(this);
      assert arrivals[..0] == [];
      while used < |arrivals|
        invariant used <= |arrivals| && !closing && UpToDate(Stream(decoder.options, Joined(arrivals[..used])))
        invariant forall i :: 0 <= i < used ==> arrivals[i].Passes()
        invariant used == 0 ==> handed == []
      {
        var read := arrivals[used];
        ghost var seen := Joined(arrivals[..used]);
        used := used + 1;
        JoinedNext(arrivals, used - 1);
        if |read.data| > 0 {
          var e := ProcessInput(read.data, seen);
          Cases(this, Stream(decoder.options, Joined(arrivals[..used])), read);
          if e.Some? {
            return e.value, used;
          }
          if closing || read.closing {
            return Closing, used;
          }
        } else {
          assert seen + read.data == seen;
          Cases(this, Stream(decoder.options, seen), read);
        }
        if read.error.Some? {
          ending := EndTcp(read, Stream(decoder.options, Joined(arrivals[..used])));
          return ending, used;
        }
      }
      if used > 0 {
        Cases(this, Stream(decoder.options, Joined(arrivals[..used])), arrivals[used - 1]);
      }
    }

    /** What the end of the WebSocket reader says about the message it ended at, `taken` messages having been handed
        over completely. */
    ghost predicate ExplainsMessage(ending: Ending, arrivals: seq<Arrival>, taken: nat)
      requires Valid(decoder.options) && taken < |arrivals|
      reads this`handed
    {
      var o, last := decoder.options, arrivals[taken];
      var before, including := FramesOf(o, arrivals[..taken]), FramesOf(o, arrivals[..taken + 1]);
      match ending
      case MessageRefused(e) =>
        SelfContained(o, last) && StoppedWithin(before, including) && |handed| < |including| && DecodeMessage(including[|handed|]) == Fail(e)
      case ServerStopped => SelfContained(o, last) && StoppedWithin(before, including) && LastAnswer(|before|, Stopping)
      case Closing => SelfContained(o, last) && StoppedWithin(before, including) && LastAnswer(|before|, Refused)
      case Cancelled => TakenBefore(before) && last.Ended? && last.cancelled
      case PeerEnded => TakenBefore(before) && last.Ended? && !last.cancelled && last.normal
      case ReadFailed => TakenBefore(before) && last.Ended? && !last.cancelled && !last.normal
      case NotBinary => TakenBefore(before) && last.NotBinaryMessage?
      case EmptyMessage => TakenBefore(before) && last.Binary? && last.data == []
      case FrameRefused(e) =>
        TakenBefore(before) && last.Binary? && Stream(o, last.data).Broken? && Stream(o, last.data).error == e
      case PartialFrame =>
        TakenBefore(before) && last.Binary? && Stream(o, last.data).Clean? && Stream(o, last.data).pending != []
      case StillReading => false
    }

    ghost predicate TakenBefore(before: seq<ByteString>)
      reads this`handed
    {
      AllTaken(handed, before) && AllAccepted(|handed|)
    }

    ghost predicate StoppedWithin(before: seq<ByteString>, including: seq<ByteString>)
      reads this`handed
    {
      TakenFrom(handed, including) && |handed| >= |before|
    }

    /** Only the last of the messages handed over got an answer other than `Accepted`. */
    ghost predicate LastAnswer(least: nat, a: Answer)
      reads this`handed
    {
      |handed| > least && AllAccepted(|handed| - 1) && answer(|handed| - 1) == a
    }

    /** One round of the WebSocket `reader`. */
    method ReadMessage(arrivals: seq<Arrival>, taken: nat) returns (ending: Ending)
      requires Valid(decoder.options) && decoder.bytes == [] && taken < |arrivals|
      requires TakenBefore(FramesOf(decoder.options, arrivals[..taken]))
      modifies this`handed, decoder
      ensures ending.StillReading? ==>
                && SelfContained(decoder.options, arrivals[taken]) && decoder.bytes == []
                && TakenBefore(FramesOf(decoder.options, arrivals[..taken + 1]))
      ensures !ending.StillReading? ==> ExplainsMessage(ending, arrivals, taken)
    {
      hide Valid, Stream, DecodeMessage;
      match arrivals[taken] {
        case Ended(cancelled, normal) =>
          return if cancelled then Cancelled else if normal then PeerEnded else ReadFailed;
        case NotBinaryMessage =>
          return NotBinary;
        case Binary(data) =>
          if |data| == 0 {
            return EmptyMessage;
          }
          assert decoder.bytes + data == data;
          var r := decoder.Decode(data);
          if r.Fail? {
            return FrameRefused(r.error);
          }
          if |decoder.bytes| > 0 {
            return PartialFrame;
          }
          FramesOfNext(decoder.options, arrivals, taken);
          ghost var before := handed;
          var stop := HandOver(r.value);
          assert handed == before + handed[|before|..];
          return match stop
                 case NoStop => StillReading
                 case BadMessage(e) => MessageRefused(e)
                 case ServerStopping => ServerStopped
                 case TaskRefused => Closing;
      }
    }

    /** The WebSocket `reader` on any series of messages: each must be a series of whole frames by itself, and nothing of
        one that is not is handed over. */
    method ReadWebSocket(arrivals: seq<Arrival>) returns (ending: Ending, taken: nat)
      requires Valid(decoder.options) && decoder.bytes == [] && handed == []
      modifies this`handed, decoder
      ensures taken <= |arrivals| && forall i :: 0 <= i < taken ==> SelfContained(decoder.options, arrivals[i])
      ensures ending.StillReading? ==>
                taken == |arrivals| && TakenBefore(FramesOf(decoder.options, arrivals))
      ensures !ending.StillReading? ==> taken < |arrivals| && ExplainsMessage(ending, arrivals, taken)
    {
      hide *;
      taken := 0;
      NothingYet(this);
      assert arrivals[..0] == [];
      while taken < |arrivals|
        invariant taken <= |arrivals| && decoder.bytes == []
        invariant TakenBefore(FramesOf(decoder.options, arrivals[..taken]))
        invariant forall i :: 0 <= i < taken ==> SelfContained(decoder.options, arrivals[i])
      {
        ending := ReadMessage(arrivals, taken);
        if !ending.StillReading? {
          return ending, taken;
        }
        taken := taken + 1;
      }
      assert arrivals[..taken] == arrivals;
      return StillReading, taken;
    }
  }

  // ---------------------------------------------------------------- what was sent is what is handed over

  /** Every good frame under the server's configuration is a message, so no reader ever ends with `MessageRefused`. */
  lemma {:induction false} GoodFramesAreMessages(max: Uint64, input: ByteString, i: nat)
    requires Valid(ServerOptions(max)) && i < |Stream(ServerOptions(max), input).Frames()|
    ensures DecodeMessage(Stream(ServerOptions(max), input).Frames()[i]).Ok?
    decreases |input|
  {
    hide DecodeMessage;
    var o := ServerOptions(max);
    var d := DecodeOne(o, input);
    FrameAlone(o, input);
    assert input[0..d.consumed] == input[..d.consumed];
    if i == 0 {
      ServerFrameIsWire(max, d.frame);
    } else {
      GoodFramesAreMessages(max, input[d.consumed..], i - 1);
    }
  }

  /** When the peer has sent the encodings of `ms` and part of one more, what a reader has taken from the bytes is the
      first of `ms`, in order; and if it has taken all, it is `ms`. */
  lemma SentIsHandedOver(max: Uint64, ms: seq<Message>, partial: ByteString, handed: seq<Message>)
    requires max >= HEADER_SIZE && AllFit(ms, max) && Valid(ServerOptions(max))
    requires DecodeOne(ServerOptions(max), partial).Incomplete?
    requires TakenFrom(handed, Stream(ServerOptions(max), Concat(Wires(ms)) + partial).Frames())
    ensures |handed| <= |ms| && forall i :: 0 <= i < |handed| ==> handed[i] == Received(ms[i])
    ensures Stream(ServerOptions(max), Concat(Wires(ms)) + partial) == Clean(Wires(ms), partial)
  {
    hide DecodeMessage, Stream, DecodeOne, Valid;
    WiresRead(max, ms, partial);
    forall i | 0 <= i < |handed|
      ensures handed[i] == Received(ms[i])
    {
      MessageRoundTrip(ms[i]);
      assert DecodeMessage(Wires(ms)[i]) == Ok(handed[i]);
    }
  }

  /** How the explanations of the TCP reader's ending come about. */
  lemma Cases(r: Reader, whole: Reading, last: Read)
    ensures last.SeesClosing() <==> |last.data| > 0 && last.closing
    ensures last.Passes() <==> last.error.None? && !last.SeesClosing()
    ensures forall e: Ending :: r.Interrupts(e, whole) ==> r.Explains(e, whole, last) && !e.StillReading?
    ensures r.UpToDate(whole) && last.SeesClosing() ==> r.Explains(Closing, whole, last)
    ensures r.UpToDate(whole) && last.Passes() ==> r.Explains(StillReading, whole, last)
  {
  }

  /** The explanations exclude each other, so the reader's ending is decided by what it read and what was answered. */
  lemma OneEnding(r: Reader, whole: Reading, last: Read, e: Ending, f: Ending)
    requires r.Explains(e, whole, last) && r.Explains(f, whole, last)
    ensures e == f
  {
  }

  lemma NothingYet(r: Reader)
    requires Valid(r.decoder.options) && r.decoder.bytes == [] && r.handed == []
    ensures r.UpToDate(Stream(r.decoder.options, Joined([])))
    ensures r.TakenBefore(FramesOf(r.decoder.options, []))
  {
    assert Stream(r.decoder.options, []) == Clean([], []);
  }
}

