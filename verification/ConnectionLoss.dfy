/**
  What a close request that wins before the drain costs: exactly the accepted
  messages whose frames are not wholly on the socket, and a run that loses one.
 */
module ConnectionLoss {
  import opened Bytes
  import opened FrameDecoding
  import opened MessageCodec
  import opened Connection
  import opened ConnectionRuns

  /** The frame of the message enqueued as number `at` is on the socket to its last byte, after all before it. */
  predicate OnSocket(l: Line, at: nat)
    requires at < |l.enqueued|
  {
    BytesOf(l.enqueued[..at + 1]) <= l.wire
  }

  lemma {:induction false} BytesGrow(ms: seq<Message>, a: nat, b: nat)
    requires a <= b <= |ms|
    ensures BytesOf(ms[..a]) <= BytesOf(ms[..b])
    decreases b - a
  {
    hide BytesOf, Wire;
    if a == b {
    } else {
      BytesGrow(ms, a, b - 1);
      BytesOfNext(ms, b - 1);
    }
  }

  lemma WholeFramesOnSocket(l: Line, k: nat, part: ByteString, at: nat)
    requires k <= |l.enqueued| && at < |l.enqueued| && l.wire == BytesOf(l.enqueued[..k]) + part
    requires part == [] || (k < |l.enqueued| && part < Wire(l.enqueued[k]))
    ensures OnSocket(l, at) <==> at < k
  {
    hide BytesOf, Wire;
    if at < k {
      BytesGrow(l.enqueued, at + 1, k);
    } else {
      BytesOfNext(l.enqueued, k);
      BytesGrow(l.enqueued, k + 1, at + 1);
      assert |part| < |Wire(l.enqueued[k])|;
    }
  }

  /** The exact loss: in every state of every run there is a `k`, the number of frames written or one more, such that a
      peer reads exactly the first `k` enqueued messages and the frame of an accepted send is wholly on the socket if
      and only if its place is below `k`. */
  lemma ExactDelivery(run: seq<Conn>, i: nat, max: Uint64, chunks: seq<ByteString>) returns (k: nat)
    requires IsRun(run) && i < |run|
    requires max >= HEADER_SIZE && AllFit(run[i].line.enqueued, max) && Concat(chunks) == run[i].line.wire
    ensures run[i].line.written <= k <= run[i].line.written + 1 && k <= |run[i].line.enqueued|
    ensures Valid(ServerOptions(max))
    ensures Feed(ServerOptions(max), [], chunks).Clean?
    ensures Feed(ServerOptions(max), [], chunks).frames == Wires(run[i].line.enqueued[..k])
    ensures forall id: nat, at: nat :: AcceptedAt(run[i].gate.sends, id, at) ==>
              && at < |run[i].line.enqueued| && run[i].line.enqueued[at] == run[i].gate.sends[id].message
              && (OnSocket(run[i].line, at) <==> at < k)
  {
    RunInv(run, i);
    var s := run[i];
    var part;
    k, part := WholeFramesAndOnePart(s.line);
    PeerReads(s.line.enqueued, k, part, max, chunks);
    hide OnSocket, LineInv, BytesOf, Wire, AllFit, Feed;
    forall id: nat, at: nat | AcceptedAt(s.gate.sends, id, at)
      ensures at < |s.line.enqueued| && s.line.enqueued[at] == s.gate.sends[id].message
      ensures OnSocket(s.line, at) <==> at < k
    {
      assert Place(s.gate.sends, id, at);
      WholeFramesOnSocket(s.line, k, part, at);
    }
  }

  // ---------------------------------------------------------------- a run that loses a message

  lemma Extend(run: seq<Conn>, step: Step) returns (longer: seq<Conn>)
    requires IsRun(run) && Enabled(run[|run| - 1], step)
    ensures IsRun(longer) && longer == run + [Apply(run[|run| - 1], step)]
  {
    hide Enabled, Apply;
    longer := run + [Apply(run[|run| - 1], step)];
    assert Next(run[|run| - 1], longer[|run|]);
    forall i | 0 < i < |longer|
      ensures Next(longer[i - 1], longer[i])
    {
      if i < |run| {
        assert Next(run[i - 1], run[i]);
      }
    }
  }

  /** A `Send` has returned nil, its message is in the queue and the writer has not looked yet. */
  function AwaitingWriter(m: Message): Conn
  {
    Fresh(TCP, 1).(gate := Gate(true, false, NotAsked, map[0 := SendCall(m, Accepted(0))]),
                   line := Line([m], Top, [m], 0, 0, []),
                   life := Life(Running, Running, Running, AwaitChildren, 0))
  }

  lemma ReachAccepted(m: Message) returns (run: seq<Conn>)
    requires Encodable(m)
    ensures IsRun(run) && run[|run| - 1] == AwaitingWriter(m)
  {
    hide Encodable;
    run := [Fresh(TCP, 1)];
    run := Extend(run, Lives(Start));
    run := Extend(run, Sender(0, PassGate(m)));
    run := Extend(run, Sender(0, Enqueue));
    run := Extend(run, Sender(0, Return));
  }

  /** The reader asks to close, and the request runs to its end. */
  lemma ReachClosed(m: Message) returns (run: seq<Conn>)
    requires Encodable(m)
    ensures IsRun(run) && run[|run| - 1].gate.sends == AwaitingWriter(m).gate.sends && run[|run| - 1].line == AwaitingWriter(m).line
    ensures run[|run| - 1].shut.forced && run[|run| - 1].shut.transportClosed
  {
    hide Encodable;
    run := ReachAccepted(m);
    run := Extend(run, Closes(Request(ReaderActor, OpRead, 0, false, false)));
    run := Extend(run, Closes(Advance(0)));
    run := Extend(run, Closes(Advance(0)));
    run := Extend(run, Closes(Advance(0)));
    run := Extend(run, Closes(Advance(0)));
    run := Extend(run, Closes(Advance(0)));
  }

  /** Any message can be lost: `Send` returned nil, a close request of the reader won before the writer took the message,
      the writer has stopped, the transport is closed, and nothing is on the socket. */
  lemma AcceptedMessageLost(m: Message) returns (run: seq<Conn>)
    requires Encodable(m)
    ensures IsRun(run)
    ensures var s := run[|run| - 1];
            && AcceptedAt(s.gate.sends, 0, 0) && s.gate.sends[0].message == m
            && s.line.writer.Exited? && s.shut.transportClosed
            && s.line.enqueued == [m] && s.line.wire == [] && !OnSocket(s.line, 0)
  {
    run := ReachClosed(m);
    run := Extend(run, WriterDoes(CheckForce));
    var l := run[|run| - 1].line;
    assert BytesOf(l.enqueued[..1]) == Wire(m) by {
      BytesOfNext(l.enqueued, 0);
      assert BytesOf(l.enqueued[..0]) == [];
    }
  }
}

