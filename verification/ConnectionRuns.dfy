/** What every run of a connection keeps: delivery, the bytes on the socket, and the close protocol. */
module ConnectionRuns {
  import opened Bytes
  import opened FrameDecoding
  import opened MessageCodec
  import opened Connection

  lemma {:induction false} RunInv(run: seq<Conn>, i: nat)
    requires IsRun(run) && i < |run|
    ensures Inv(run[i])
  {
    hide Inv, Apply, Enabled;
    if i == 0 {
      var t, n :| run[0] == Fresh(t, n);
      FreshInv(t, n);
    } else {
      RunInv(run, i - 1);
      assert Next(run[i - 1], run[i]);
      var step :| Enabled(run[i - 1], step) && run[i] == Apply(run[i - 1], step);
      InvStep(run[i - 1], step);
    }
  }

  // ---------------------------------------------------------------- one way only

  /** What only ever grows or settles: the phase, the close reason, the winner, the history and the hooks. */
  ghost predicate Forward(s: Conn, s': Conn)
  {
    && s'.transport == s.transport
    && s.shut.phase.Rank() <= s'.shut.phase.Rank()
    && (s.shut.reason.Some? ==> s'.shut.reason == s.shut.reason)
    && |s.shut.winners| <= |s'.shut.winners| && s.shut.reports <= s'.shut.reports
    && s.line.enqueued <= s'.line.enqueued && s.line.wire <= s'.line.wire && s.line.written <= s'.line.written
    && s.life.closeHooks <= s'.life.closeHooks
    && (s.shut.transportClosed ==> s'.shut.transportClosed)
    && (s.line.writer.Exited? ==> s'.line.writer == s.line.writer)
    && (s.gate.drain.WriterTold? ==> s'.gate.drain.WriterTold? && s'.line.enqueued == s.line.enqueued)
    && (s.life.openHook.Ended? ==> s'.life.openHook.Ended?)
    && SendsForward(s.gate, s'.gate)
  }

  /** A refused `Send` stays refused, and once the gate is shut it stays shut and refuses every new call. */
  ghost predicate SendsForward(g: Gate, g': Gate)
  {
    && g.sends.Keys <= g'.sends.Keys
    && (forall id :: id in g.sends && g.sends[id].phase.Refused? ==> g'.sends[id].phase.Refused?)
    && (!g.accepting ==> !g'.accepting && forall id :: id in g'.sends && id !in g.sends ==> g'.sends[id].phase.Refused?)
  }

  lemma SendsKept(g: Gate, g': Gate)
    requires g'.sends == g.sends && (g'.accepting ==> g.accepting)
    ensures SendsForward(g, g')
  {
  }

  function NextStage(stage: CloseStage): CloseStage
  {
    match stage
    case Won => ReasonSet
    case ReasonSet => SendsStopped
    case SendsStopped => ReadsCancelled
    case ReadsCancelled => ForceCancelled
    case ForceCancelled => Returned
    case Returned => Finished
    case Finished => Finished
  }

  lemma AdvanceIsQuiet(s: Conn, i: nat)
    requires CloseEnabled(s, Advance(i))
    ensures var s' := AdvanceCloser(s, i);
            && s'.gate.sends == s.gate.sends && s'.line == s.line && s'.life == s.life
            && s'.capacity == s.capacity && s'.transport == s.transport
  {
  }

  lemma AdvanceReason(s: Conn, i: nat)
    requires CloseInv(s.shut) && CloseEnabled(s, Advance(i))
    ensures var s' := AdvanceCloser(s, i);
            && (s.shut.reason.Some? ==> s'.shut.reason == s.shut.reason) && s.shut.reports <= s'.shut.reports
            && (s'.gate.accepting ==> s.gate.accepting) && s'.gate.drain == s.gate.drain
  {
  }

  lemma AdvanceShape(s: Conn, i: nat)
    requires CloseInv(s.shut) && CloseEnabled(s, Advance(i))
    ensures var s', c := AdvanceCloser(s, i), s.shut.winners[0];
            && i == 0 && s.shut.winners == [c] && s'.shut.winners == [c.(stage := NextStage(c.stage))]
            && s'.shut.phase == s.shut.phase
            && (s.shut.readCancelled ==> s'.shut.readCancelled) && (s.shut.forced ==> s'.shut.forced)
            && (s.gate.sendCancelled ==> s'.gate.sendCancelled) && (s.shut.transportClosed ==> s'.shut.transportClosed)
  {
    assert i == 0;
  }

  lemma ForwardAdvance(s: Conn, i: nat)
    requires CloseInv(s.shut) && CloseEnabled(s, Advance(i))
    ensures Forward(s, AdvanceCloser(s, i))
  {
    hide NoneInFlight, Busy, SendsForward, AdvanceCloser, NextStage;
    AdvanceShape(s, i);
    AdvanceIsQuiet(s, i);
    AdvanceReason(s, i);
    SendsKept(s.gate, AdvanceCloser(s, i).gate);
  }

  lemma ForwardClose(s: Conn, a: CloseAction)
    requires Inv(s) && CloseEnabled(s, a)
    ensures Forward(s, CloseStep(s, a))
  {
    hide LineInv, SendInv, DrainInv, ReportInv, MayRequest, AdvanceCloser, EffectInv;
    if a.Advance? {
      ForwardAdvance(s, a.i);
    }
  }

  lemma ForwardLife(s: Conn, a: LifeAction)
    requires LifeInv(s) && LifeEnabled(s, a)
    ensures Forward(s, LifeStep(s, a))
  {
    hide Busy, ChildrenGone;
  }

  lemma ForwardSend(s: Conn, id: nat, a: SendAction)
    requires Inv(s) && SendEnabled(s, id, a)
    ensures Forward(s, SendStep(s, id, a))
  {
    hide LineInv, SendInv, ReportInv, CloseInv, ExitInv, EffectInv, LifeInv, Encodable;
  }

  lemma ForwardWriter(s: Conn, a: WriterAction)
    requires Inv(s) && WriterEnabled(s, a)
    ensures Forward(s, WriterStep(s, a))
  {
    hide LineInv, SendInv, ReportInv, DrainInv, EffectInv, LifeInv, Wire, Busy;
  }

  lemma ForwardStep(s: Conn, step: Step)
    requires Inv(s) && Enabled(s, step)
    ensures Forward(s, Apply(s, step))
  {
    hide LineInv, SendInv, ReportInv, SendStep, WriterStep, CloseStep, LifeStep, SendEnabled, WriterEnabled, CloseEnabled, LifeEnabled;
    match step
    case Sender(id, a) => ForwardSend(s, id, a);
    case WriterDoes(a) => ForwardWriter(s, a);
    case Closes(a) => ForwardClose(s, a);
    case Lives(a) => ForwardLife(s, a);
    case Drains(a) =>
  }

  lemma ForwardTwice(a: Conn, b: Conn, c: Conn)
    requires Forward(a, b) && Forward(b, c)
    ensures Forward(a, c)
  {
  }

  lemma {:induction false} RunForward(run: seq<Conn>, i: nat, j: nat)
    requires IsRun(run) && i <= j < |run|
    ensures Forward(run[i], run[j])
    decreases j - i
  {
    if i == j {
    } else {
      hide Forward, Inv, Apply, Enabled;
      RunInv(run, j - 1);
      assert Next(run[j - 1], run[j]);
      var step :| Enabled(run[j - 1], step) && run[j] == Apply(run[j - 1], step);
      ForwardStep(run[j - 1], step);
      RunForward(run, i, j - 1);
      ForwardTwice(run[i], run[j - 1], run[j]);
    }
  }

  // ---------------------------------------------------------------- delivery

  /** `Send` number `id` returned nil, its message being number `at` in the order of enqueues. */
  predicate AcceptedAt(sends: map<nat, SendCall>, id: nat, at: nat)
  {
    id in sends && sends[id].phase == Accepted(at)
  }

  ghost predicate Owned(sends: map<nat, SendCall>, at: nat)
  {
    exists id :: AcceptedAt(sends, id, at)
  }

  /** The accepted sends and the messages correspond one to one: each send has its own message, and each message its
      send, so none comes from a send that was refused. */
  ghost predicate OneForOne(sends: map<nat, SendCall>, messages: seq<Message>)
  {
    && (forall id: nat, at: nat :: AcceptedAt(sends, id, at) ==> at < |messages| && messages[at] == sends[id].message)
    && (forall i: nat, j: nat, at: nat :: AcceptedAt(sends, i, at) && AcceptedAt(sends, j, at) ==> i == j)
    && (forall at: nat :: at < |messages| ==> Owned(sends, at))
  }

  /** The writer has put every message ever enqueued on the socket, whole and in order, no `Send` is pending, and the
      frames on the socket are those of the accepted sends, one for one. */
  ghost predicate Delivered(s: Conn)
  {
    && s.line.writer == Exited(Drained) && s.line.written == |s.line.enqueued|
    && s.line.wire == BytesOf(s.line.enqueued) && NoneInFlight(s.gate.sends)
    && OneForOne(s.gate.sends, s.line.enqueued)
  }

  lemma SettledSends(sends: map<nat, SendCall>, enqueued: seq<Message>)
    requires SendInv(sends, enqueued) && NoneInFlight(sends)
    ensures OneForOne(sends, enqueued)
  {
    hide Encodable;
    assert forall id: nat, at: nat :: AcceptedAt(sends, id, at) <==> Place(sends, id, at);
    forall at: nat | at < |enqueued|
      ensures Owned(sends, at)
    {
      assert Taken(sends, at);
      var id :| Place(sends, id, at);
      assert AcceptedAt(sends, id, at);
    }
  }

  lemma DrainedMeansDelivered(s: Conn)
    requires Inv(s) && s.line.writer == Exited(Drained)
    ensures Delivered(s)
  {
    hide SendInv, OneForOne, NoneInFlight;
    assert s.line.enqueued[..s.line.written] == s.line.enqueued;
    SettledSends(s.gate.sends, s.line.enqueued);
  }

  lemma {:induction false} LateWinner(run: seq<Conn>, i: nat)
    requires IsRun(run) && i < |run|
    requires forall j :: 0 <= j <= i && !run[j].line.writer.Exited? ==> run[j].shut.winners == []
    ensures NoneOrDrained(run[i])
  {
    hide Inv, Apply, Enabled;
    if i == 0 {
    } else {
      LateWinner(run, i - 1);
      var s, s' := run[i - 1], run[i];
      RunInv(run, i - 1);
      assert Next(s, s');
      var step :| Enabled(s, step) && s' == Apply(s, step);
      WinnerStep(s, step);
    }
  }

  /** Only a close request and a writer that failed can win. */
  lemma OthersKeepWinners(s: Conn, step: Step)
    requires Enabled(s, step) && !step.Closes? && !step.WriterDoes?
    ensures Apply(s, step).shut.winners == s.shut.winners
  {
    hide Busy, NoneInFlight, ChildrenGone;
  }

  ghost predicate NoneOrDrained(s: Conn)
  {
    s.shut.winners == [] || s.shut.winners[0].drained
  }

  lemma CloseWins(s: Conn, a: CloseAction)
    requires ExitInv(s.line.writer, s.shut, s.life.supervisor) && CloseInv(s.shut) && CloseEnabled(s, a) && NoneOrDrained(s)
    ensures NoneOrDrained(CloseStep(s, a)) || !CloseStep(s, a).line.writer.Exited?
    ensures CloseStep(s, a).line == s.line
  {
    hide Busy, MayRequest;
  }

  lemma WriterWins(s: Conn, a: WriterAction)
    requires ExitInv(s.line.writer, s.shut, s.life.supervisor) && CloseInv(s.shut) && WriterEnabled(s, a) && NoneOrDrained(s)
    ensures NoneOrDrained(WriterStep(s, a)) || !WriterStep(s, a).line.writer.Exited?
  {
    hide Wire, Truthful;
  }

  lemma WinnerStep(s: Conn, step: Step)
    requires Inv(s) && Enabled(s, step) && NoneOrDrained(s)
    ensures NoneOrDrained(Apply(s, step)) || !Apply(s, step).line.writer.Exited?
  {
    hide LineInv, SendInv, ReportInv, DrainInv, LifeInv, EffectInv, CloseInv, ExitInv, SendStep, WriterStep, DrainStep,
         CloseStep, LifeStep, SendEnabled, WriterEnabled, DrainEnabled, CloseEnabled, LifeEnabled;
    if step.Closes? {
      CloseWins(s, step.close);
    } else if step.WriterDoes? {
      WriterWins(s, step.write);
    } else {
      OthersKeepWinners(s, step);
    }
  }

  /** Graceful delivery. In every run in which no close request wins before the writer has stopped, by the time
      the transport is closed the socket holds exactly the frames of the `Send` calls that returned nil, one for each,
      whole and in the order of enqueues; the same holds as soon as the writer stops. */
  lemma GracefulDelivery(run: seq<Conn>, i: nat)
    requires IsRun(run) && i < |run|
    requires run[i].shut.transportClosed || run[i].line.writer.Exited?
    requires forall j :: 0 <= j <= i && !run[j].line.writer.Exited? ==> run[j].shut.winners == []
    ensures Delivered(run[i])
  {
    RunInv(run, i);
    LateWinner(run, i);
    hide SendInv, LineInv, DrainInv, LifeInv, ReportInv, Delivered;
    assert run[i].line.writer == Exited(Drained);
    DrainedMeansDelivered(run[i]);
  }

  /** The key to it: from the moment the writer is told to drain, nothing is ever enqueued again. */
  lemma NothingAfterDrain(run: seq<Conn>, i: nat, j: nat)
    requires IsRun(run) && i <= j < |run| && run[i].gate.drain.WriterTold?
    ensures run[j].line.enqueued == run[i].line.enqueued
  {
    RunForward(run, i, j);
  }

  // ---------------------------------------------------------------- the bytes on the socket

  /** At every moment the socket holds the frames of the first `k` messages and a proper prefix of the next. */
  lemma WholeFramesAndOnePart(l: Line) returns (k: nat, part: ByteString)
    requires LineInv(l)
    ensures l.written <= k <= l.taken <= |l.enqueued| && k <= l.written + 1
    ensures l.wire == BytesOf(l.enqueued[..k]) + part
    ensures part == [] || (k < |l.enqueued| && part < Wire(l.enqueued[k]))
  {
    hide BytesOf, Wire, Encodable;
    k, part := l.written, [];
    if l.taken == l.written {
      assert l.wire + [] == l.wire;
    } else {
      var w, done := Wire(l.enqueued[l.written]), BytesOf(l.enqueued[..l.written]);
      BytesOfNext(l.enqueued, l.written);
      if l.writer.Writing? {
        var rest := l.writer.rest;
        Split(l.wire, rest, 0, done, w);
        assert l.wire + rest[..0] == l.wire;
        part := w[..|w| - |rest|];
      } else {
        var n :| 0 <= n <= |w| && l.wire == done + w[..n];
        part := w[..n];
        if n == |w| {
          k, part := k + 1, [];
          assert l.wire == done + w == (done + w) + [];
        }
      }
    }
  }

  /** In every state of every run, forced closes and failed or short writes included, a peer that reads the
      socket in arbitrary chunks with the server's frame layout and a large enough limit decodes exactly the
      first `k` enqueued messages, where `k` is the number written or one more, and nothing it reads is in error. */
  lemma PeerReadsAPrefix(run: seq<Conn>, i: nat, max: Uint64, chunks: seq<ByteString>) returns (k: nat)
    requires IsRun(run) && i < |run|
    requires max >= HEADER_SIZE && AllFit(run[i].line.enqueued, max)
    requires Concat(chunks) == run[i].line.wire
    ensures run[i].line.written <= k <= run[i].line.written + 1 && k <= |run[i].line.enqueued|
    ensures Valid(ServerOptions(max))
    ensures var r := Feed(ServerOptions(max), [], chunks);
            && r.Clean? && r.frames == Wires(run[i].line.enqueued[..k])
            && forall n :: 0 <= n < k ==> DecodeMessage(r.frames[n]) == Ok(Received(run[i].line.enqueued[n]))
  {
    RunInv(run, i);
    var l := run[i].line;
    var part;
    k, part := WholeFramesAndOnePart(l);
    PeerReads(l.enqueued, k, part, max, chunks);
  }

  lemma PeerReads(ms: seq<Message>, k: nat, part: ByteString, max: Uint64, chunks: seq<ByteString>)
    requires max >= HEADER_SIZE && AllFit(ms, max) && k <= |ms|
    requires part == [] || (k < |ms| && part < Wire(ms[k]))
    requires Concat(chunks) == Concat(Wires(ms[..k])) + part
    ensures Valid(ServerOptions(max)) && Feed(ServerOptions(max), [], chunks) == Clean(Wires(ms[..k]), part)
    ensures forall n :: 0 <= n < k ==> DecodeMessage(Wires(ms[..k])[n]) == Ok(Received(ms[n]))
  {
    hide DecodeOne, DecodeMessage, Valid, Stream, Feed, Wire, Encodable;
    var o := ServerOptions(max);
    PartIsIncomplete(ms, k, part, max);
    WiresRead(max, ms[..k], part);
    assert [] + Concat(chunks) == Concat(chunks);
    ChunkIndependence(o, [], chunks);
    forall n | 0 <= n < k
      ensures DecodeMessage(Wires(ms[..k])[n]) == Ok(Received(ms[n]))
    {
      MessageRoundTrip(ms[n]);
    }
  }

  lemma PartIsIncomplete(ms: seq<Message>, k: nat, part: ByteString, max: Uint64)
    requires max >= HEADER_SIZE && AllFit(ms, max) && k <= |ms|
    requires part == [] || (k < |ms| && part < Wire(ms[k]))
    ensures Valid(ServerOptions(max))
    ensures DecodeOne(ServerOptions(max), part).Incomplete? && DecodeOne(ServerOptions(max), []).Incomplete?
  {
    hide Wire;
    if part != [] {
      DecodeOnePartial(max, ms[k], part);
    }
  }

  // ---------------------------------------------------------------- closing

  /** In every run: the phase moves only forward; at most one close request wins and its reason is never
      overwritten; the close hook runs at most once and starts after the open hook has returned and every child
      has stopped. */
  lemma CloseProtocol(run: seq<Conn>, i: nat, j: nat)
    requires IsRun(run) && i <= j < |run|
    ensures run[i].shut.phase.Rank() <= run[j].shut.phase.Rank()
    ensures |run[j].shut.winners| <= 1
    ensures run[i].shut.reason.Some? ==> run[j].shut.reason == run[i].shut.reason
    ensures run[j].shut.reason.Some? ==> |run[j].shut.winners| == 1 && run[j].shut.reason.value == run[j].shut.winners[0].reason
    ensures run[j].life.closeHooks <= 1
    ensures run[j].life.closeHooks == 1 ==> ChildrenGone(run[j])
  {
    RunInv(run, j);
    RunForward(run, i, j);
  }

  /** A close request that has returned has done all of it: from then on every new `Send` is refused, waiting sends,
      reads, heartbeat and writer are cancelled and the transport is closed. A drain refuses new sends likewise. */
  lemma ClosedForGood(run: seq<Conn>, i: nat, j: nat, id: nat)
    requires IsRun(run) && i <= j < |run|
    requires run[i].gate.drain.GateShut? || run[i].gate.drain.WriterTold?
             || (|run[i].shut.winners| == 1 && run[i].shut.winners[0].stage.Returned?)
    ensures id in run[j].gate.sends && id !in run[i].gate.sends ==> run[j].gate.sends[id].phase.Refused?
    ensures run[i].gate.sendCancelled
    ensures |run[i].shut.winners| == 1 && run[i].shut.winners[0].stage.Returned? ==>
              run[i].shut.readCancelled && run[i].shut.forced && run[i].shut.transportClosed
  {
    RunInv(run, i);
    RunForward(run, i, j);
  }

  /** A WebSocket connection reports at most one read, write, protocol or task error over its whole life, and it
      is the recorded close reason. */
  lemma OneReport(run: seq<Conn>, i: nat)
    requires IsRun(run) && i < |run| && run[i].transport.WebSocket?
    ensures |OwnErrors(run[i].shut.reports)| <= 1
    ensures OwnErrors(run[i].shut.reports) != [] ==> run[i].shut.reason == Some(OwnErrors(run[i].shut.reports)[0])
  {
    RunInv(run, i);
  }
}

