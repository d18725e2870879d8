/**
  How a connection moves (connection.go): which way its sends, its writer, its
  closing and its supervisor go at each point where the code decides, in every
  run.
 */
module ConnectionFlow {
  import opened FrameDecoding
  import opened MessageCodec
  import opened Connection
  import opened ConnectionRuns

  // ---------------------------------------------------------------- sends

  /** The gate refuses a new send. */
  predicate GateRefuses(s: Conn)
  {
    !s.gate.accepting || s.shut.phase.Shutting()
  }

  /** Where a `Send` call goes next. */
  predicate SendGoes(s: Conn, id: nat, next: SendPhase)
    requires id in s.gate.sends
  {
    match s.gate.sends[id].phase
    case Waiting => next.Failing? || (next == Queued(|s.line.enqueued|) && |s.line.queue| < s.capacity)
    case Queued(at) => next == Accepted(at)
    case Failing => next.Refused?
    case Accepted(_) | Refused => false
  }

  /** A new send is refused if and only if the gate refuses it, and waits for the queue otherwise. A send that is there
      keeps its message and makes no move but the one that is due. */
  ghost predicate SendsFlow(s: Conn, s': Conn)
  {
    && (forall id :: id in s.gate.sends ==>
          && id in s'.gate.sends && s'.gate.sends[id].message == s.gate.sends[id].message
          && (s'.gate.sends[id].phase != s.gate.sends[id].phase ==> SendGoes(s, id, s'.gate.sends[id].phase)))
    && (forall id :: id in s'.gate.sends && id !in s.gate.sends ==>
          s'.gate.sends[id].phase == if GateRefuses(s) then Refused else Waiting)
  }

  // ---------------------------------------------------------------- the writer

  /** How one write on the transport can turn out for a frame of which `rest` is still to be written. */
  predicate WriteGoes(rest: ByteString, draining: bool, put: nat, reported: int, failed: bool, next: Writer)
  {
    && put <= |rest| && (0 <= reported <= |rest| ==> reported == put)
    && next == if failed || reported <= 0 || reported > |rest| then Failed
               else if reported < |rest| then Writing(rest[reported..], draining)
               else if draining then DrainLoop else Top
  }

  ghost predicate WriterFlow(s: Conn, s': Conn)
  {
    && s'.capacity == s.capacity && s'.transport == s.transport
    && (!s.line.writer.Writing? ==> s'.line.wire == s.line.wire)
    && (s'.line.writer != s.line.writer ==> WriterGoes(s, s'))
  }

  /** Where the writer goes next: it looks at the force flag between messages, drains only when told, stops in the drain
      if and only if nothing is queued, fails only when a write does, and then asks to close unless another request has
      won. */
  ghost predicate WriterGoes(s: Conn, s': Conn)
  {
    var next := s'.line.writer;
    match s.line.writer
    case Unborn => next.Top?
    case Top => next == if s.shut.forced then Exited(Forced) else Select
    case Select =>
      || (next == Exited(Forced) && s.shut.forced)
      || (next.DrainLoop? && s.gate.drain.WriterTold?)
      || (s.line.queue != [] && next == Writing(Wire(s.line.queue[0]), false))
    case DrainLoop => next == if s.line.queue == [] then Exited(Drained) else Writing(Wire(s.line.queue[0]), true)
    case Writing(rest, draining) =>
      exists put: nat, reported: int, failed: bool ::
        WriteGoes(rest, draining, put, reported, failed, next) && s'.line.wire == s.line.wire + rest[..put]
    case Failed =>
      if s.shut.phase.Shutting() then next == Exited(WriteFailed) && s'.shut == s.shut
      else next.AwaitsOwnClose? && |s'.shut.winners| == |s.shut.winners| + 1 && OwnWin(s'.shut.winners[|s.shut.winners|])
    case AwaitsOwnClose => next == Exited(WriteFailed)
    case Exited(_) => false
  }

  /** A request of the writer: for a write error, and reported when it is through. */
  predicate OwnWin(c: Closer)
  {
    c.actor.WriterActor? && c.reason.op.OpWrite? && c.reports && c.stage.Won?
  }

  // ---------------------------------------------------------------- closing

  /** A request wins on a connection that is open, or draining; it makes it closing, and goes through its stages in order.
      Nothing but a quiesce or a drain makes an open connection draining, and nothing but the supervisor makes it
      closed. */
  ghost predicate CloseFlow(s: Conn, s': Conn)
  {
    && |s.shut.winners| <= |s'.shut.winners| <= |s.shut.winners| + 1
    && (forall i :: 0 <= i < |s.shut.winners| ==>
          var c, c' := s.shut.winners[i], s'.shut.winners[i];
          c'.(stage := c.stage) == c && (c'.stage == c.stage || c'.stage == NextStage(c.stage)))
    && (|s'.shut.winners| > |s.shut.winners| ==> !s.shut.phase.Shutting() && s'.shut.phase.Closing?)
    && (s'.shut.phase != s.shut.phase ==>
          || (s.shut.phase.Open? && s'.shut.phase.Draining?)
          || (|s'.shut.winners| > |s.shut.winners|)
          || (s.life.supervisor.MarkClosed? && s'.life.supervisor.CloseDone? && s'.shut.phase.Closed?))
    && (s.shut.readCancelled ==> s'.shut.readCancelled) && (s.shut.forced ==> s'.shut.forced)
    && (s.gate.sendCancelled ==> s'.gate.sendCancelled) && (s.shut.transportClosed ==> s'.shut.transportClosed)
  }

  /** A winner that reports is reported when it is through, and only then; the other reports are the early ones of the TCP
      reader and of the hooks. */
  ghost predicate ReportFlow(s: Conn, s': Conn)
  {
    && (s'.shut.reports == s.shut.reports
        || (|s'.shut.reports| == |s.shut.reports| + 1 && s.shut.reports <= s'.shut.reports))
    && (forall i :: 0 <= i < |s.shut.winners| && i < |s'.shut.winners| && !s.shut.winners[i].stage.Finished?
                    && s'.shut.winners[i].stage.Finished? ==>
          s'.shut.reports ==
          if s.shut.winners[i].reports then s.shut.reports + [s.shut.winners[i].reason] else s.shut.reports)
  }

  // ---------------------------------------------------------------- the supervisor

  function NextAction(sup: Supervisor): Supervisor
  {
    match sup
    case AwaitChildren => CancelRead
    case CancelRead => CancelSend
    case CancelSend => CancelForce
    case CancelForce => CloseTransport
    case CloseTransport => AddFinalizing
    case AddFinalizing => LeaveShard
    case LeaveShard => CountClosed
    case CountClosed => StartCloseHook
    case StartCloseHook => EndCloseHook
    case EndCloseHook => MarkClosed
    case MarkClosed => CloseDone
    case CloseDone => MarkFinalized
    case MarkFinalized => Gone
    case Gone => Gone
  }

  /** The supervisor waits for all children and then takes its actions in order. */
  ghost predicate LifeFlow(s: Conn, s': Conn)
  {
    && (s'.life.supervisor == s.life.supervisor || s'.life.supervisor == NextAction(s.life.supervisor))
    && (s.life.supervisor.AwaitChildren? && !s'.life.supervisor.AwaitChildren? ==> ChildrenGone(s))
    && (s.line.writer.Unborn? && !s'.line.writer.Unborn? ==>
          s'.life.reader.Running? && s'.life.heartbeat.Running? && s'.life.openHook.Running?)
    && (s'.life.closeHooks ==
        s.life.closeHooks + if s.life.supervisor.StartCloseHook? && s'.life.supervisor.EndCloseHook? then 1 else 0)
  }

  ghost predicate Flows(s: Conn, s': Conn)
  {
    SendsFlow(s, s') && WriterFlow(s, s') && CloseFlow(s, s') && ReportFlow(s, s') && LifeFlow(s, s')
  }

  // ---------------------------------------------------------------- every step

  lemma SenderFlows(s: Conn, id: nat, a: SendAction)
    requires SendEnabled(s, id, a)
    ensures Flows(s, SendStep(s, id, a))
  {
    hide Encodable, ChildrenGone;
  }

  lemma ChunkFlows(s: Conn, put: nat, reported: int, failed: bool)
    requires WriterEnabled(s, WriteChunk(put, reported, failed))
    ensures WriterFlow(s, WriterStep(s, WriteChunk(put, reported, failed)))
  {
    var s' := WriterStep(s, WriteChunk(put, reported, failed));
    var w := s.line.writer;
    assert WriteGoes(w.rest, w.draining, put, reported, failed, s'.line.writer);
  }

  lemma WriterFlows(s: Conn, a: WriterAction)
    requires WriterEnabled(s, a)
    ensures WriterFlow(s, WriterStep(s, a))
  {
    hide Wire, Busy, Chunk, WriteGoes;
    if a.WriteChunk? {
      ChunkFlows(s, a.put, a.reported, a.failed);
    }
  }

  lemma WriterLeavesRest(s: Conn, a: WriterAction)
    requires WriterEnabled(s, a)
    ensures var s' := WriterStep(s, a);
            SendsFlow(s, s') && CloseFlow(s, s') && ReportFlow(s, s') && LifeFlow(s, s')
  {
    hide Wire, Busy, Chunk, Truthful, ChildrenGone;
  }

  lemma DrainFlows(s: Conn, a: DrainAction)
    requires DrainEnabled(s, a)
    ensures Flows(s, DrainStep(s, a))
  {
    hide NoneInFlight, ChildrenGone, WriterGoes;
  }

  lemma RequestFlows(s: Conn, a: CloseAction)
    requires CloseEnabled(s, a) && !a.Advance?
    ensures Flows(s, CloseStep(s, a))
  {
    hide MayRequest, ChildrenGone, WriterGoes;
  }

  /** A step that leaves the sends, the line and the children alone. */
  lemma QuietFlows(s: Conn, s': Conn)
    requires s'.gate.sends == s.gate.sends && s'.line == s.line && s'.life == s.life
    requires s'.capacity == s.capacity && s'.transport == s.transport
    ensures SendsFlow(s, s') && WriterFlow(s, s') && LifeFlow(s, s')
  {
    hide WriterGoes, ChildrenGone;
  }

  lemma AdvanceFlowsOn(s: Conn, i: nat)
    requires CloseInv(s.shut) && CloseEnabled(s, Advance(i))
    ensures CloseFlow(s, AdvanceCloser(s, i))
  {
    hide AdvanceCloser, NextStage;
    AdvanceShape(s, i);
  }

  lemma AdvanceReports(s: Conn, i: nat)
    requires CloseInv(s.shut) && CloseEnabled(s, Advance(i))
    ensures ReportFlow(s, AdvanceCloser(s, i))
  {
    assert i == 0;
  }

  lemma AdvanceFlows(s: Conn, i: nat)
    requires CloseInv(s.shut) && CloseEnabled(s, Advance(i))
    ensures Flows(s, AdvanceCloser(s, i))
  {
    hide AdvanceCloser, SendsFlow, WriterFlow, LifeFlow, CloseFlow, ReportFlow, CloseInv;
    AdvanceIsQuiet(s, i);
    QuietFlows(s, AdvanceCloser(s, i));
    AdvanceFlowsOn(s, i);
    AdvanceReports(s, i);
  }

  lemma LifeLeavesRest(s: Conn, a: LifeAction)
    requires LifeInv(s) && LifeEnabled(s, a)
    ensures SendsFlow(s, LifeStep(s, a)) && WriterFlow(s, LifeStep(s, a)) && ReportFlow(s, LifeStep(s, a))
  {
    hide Busy, ChildrenGone;
  }

  lemma LifeFlowsOn(s: Conn, a: LifeAction)
    requires LifeInv(s) && LifeEnabled(s, a)
    ensures CloseFlow(s, LifeStep(s, a)) && LifeFlow(s, LifeStep(s, a))
  {
    hide Busy, ChildrenGone;
  }

  lemma LifeFlows(s: Conn, a: LifeAction)
    requires LifeInv(s) && LifeEnabled(s, a)
    ensures Flows(s, LifeStep(s, a))
  {
    hide LifeInv, LifeStep, SendsFlow, WriterFlow, LifeFlow, CloseFlow, ReportFlow, LifeEnabled;
    LifeLeavesRest(s, a);
    LifeFlowsOn(s, a);
  }

  lemma StepFlows(s: Conn, step: Step)
    requires Inv(s) && Enabled(s, step)
    ensures Flows(s, Apply(s, step))
  {
    hide LineInv, SendInv, DrainInv, CloseInv, ReportInv, ExitInv, EffectInv, LifeInv, SendsFlow, WriterFlow, CloseFlow,
         ReportFlow, LifeFlow, SendStep, WriterStep, DrainStep, AdvanceCloser, LifeStep, SendEnabled, WriterEnabled,
         DrainEnabled, LifeEnabled;
    match step
    case Sender(id, a) => SenderFlows(s, id, a);
    case WriterDoes(a) =>
      WriterFlows(s, a);
      WriterLeavesRest(s, a);
    case Drains(a) => DrainFlows(s, a);
    case Closes(a) =>
      if a.Advance? {
        AdvanceFlows(s, a.i);
      } else {
        RequestFlows(s, a);
      }
    case Lives(a) => LifeFlows(s, a);
  }

  /** In every run every part of a connection only ever makes the move that is due. */
  lemma Flow(run: seq<Conn>, i: nat)
    requires IsRun(run) && i + 1 < |run|
    ensures Flows(run[i], run[i + 1])
  {
    hide Inv, Flows, Apply, Enabled;
    RunInv(run, i);
    assert Next(run[i], run[i + 1]);
    var step :| Enabled(run[i], step) && run[i + 1] == Apply(run[i], step);
    StepFlows(run[i], step);
  }

  // ---------------------------------------------------------------- why the gate refuses

  /** The gate shuts only for a drain or for a close request that has won. */
  ghost predicate GateReason(s: Conn)
  {
    !s.gate.accepting ==>
      s.gate.drain.GateShut? || s.gate.drain.WriterTold? || (|s.shut.winners| == 1 && s.shut.winners[0].stage.StoppedSends())
  }

  lemma CloseKeepsReason(s: Conn, a: CloseAction)
    requires CloseInv(s.shut) && GateReason(s) && CloseEnabled(s, a)
    ensures GateReason(CloseStep(s, a))
  {
    hide MayRequest, AdvanceCloser;
    if a.Advance? {
      AdvanceKeepsReason(s, a.i);
    }
  }

  lemma AdvanceKeepsReason(s: Conn, i: nat)
    requires CloseInv(s.shut) && GateReason(s) && CloseEnabled(s, Advance(i))
    ensures GateReason(AdvanceCloser(s, i))
  {
    assert i == 0;
  }

  lemma WriterKeepsReason(s: Conn, a: WriterAction)
    requires CloseInv(s.shut) && GateReason(s) && WriterEnabled(s, a)
    ensures GateReason(WriterStep(s, a))
  {
    hide Wire, Busy, Truthful, TakeOne, Chunk;
  }

  lemma OthersKeepReason(s: Conn, step: Step)
    requires GateReason(s) && Enabled(s, step) && !step.Closes? && !step.WriterDoes?
    ensures GateReason(Apply(s, step))
  {
    hide Encodable, Busy, NoneInFlight, ChildrenGone;
  }

  lemma GateReasonStep(s: Conn, step: Step)
    requires CloseInv(s.shut) && GateReason(s) && Enabled(s, step)
    ensures GateReason(Apply(s, step))
  {
    hide CloseInv, GateReason, SendStep, WriterStep, DrainStep, CloseStep, LifeStep, SendEnabled, WriterEnabled, DrainEnabled,
         CloseEnabled, LifeEnabled;
    if step.Closes? {
      CloseKeepsReason(s, step.close);
    } else if step.WriterDoes? {
      WriterKeepsReason(s, step.write);
    } else {
      OthersKeepReason(s, step);
    }
  }

  lemma {:induction false} RunGateReason(run: seq<Conn>, i: nat)
    requires IsRun(run) && i < |run|
    ensures GateReason(run[i])
  {
    hide Inv, Apply, Enabled, GateReason;
    if i == 0 {
      var t, n :| run[0] == Fresh(t, n);
      FreshGate(t, n);
    } else {
      RunGateReason(run, i - 1);
      RunInv(run, i - 1);
      OneWinner(run[i - 1]);
      assert Next(run[i - 1], run[i]);
      var step :| Enabled(run[i - 1], step) && run[i] == Apply(run[i - 1], step);
      GateReasonStep(run[i - 1], step);
    }
  }

  lemma FreshGate(t: Transport, n: nat)
    ensures GateReason(Fresh(t, n))
  {
  }

  lemma OneWinner(s: Conn)
    requires Inv(s)
    ensures CloseInv(s.shut)
  {
  }

  /** A connection that is at most quiesced refuses no send: as long as its drain has not shut the gate and no close
      request has won, every new `Send` passes the gate, whatever else is going on. */
  lemma QuiescedStillSends(run: seq<Conn>, i: nat, id: nat)
    requires IsRun(run) && i + 1 < |run|
    requires !run[i].gate.drain.GateShut? && !run[i].gate.drain.WriterTold? && run[i].shut.winners == []
    requires id !in run[i].gate.sends && id in run[i + 1].gate.sends
    ensures run[i + 1].gate.sends[id].phase.Waiting?
  {
    RunInv(run, i);
    RunGateReason(run, i);
    Flow(run, i);
    hide LineInv, SendInv, ReportInv, WriterFlow, CloseFlow, ReportFlow, LifeFlow, IsRun;
  }

  lemma OneSendMoves(run: seq<Conn>, i: nat, id: nat)
    requires IsRun(run) && i + 1 < |run| && id in run[i].gate.sends
    ensures id in run[i + 1].gate.sends
    ensures run[i + 1].gate.sends[id].phase == run[i].gate.sends[id].phase || SendGoes(run[i], id, run[i + 1].gate.sends[id].phase)
  {
    hide IsRun, WriterFlow, CloseFlow, ReportFlow, LifeFlow, SendGoes;
    Flow(run, i);
  }

  /** A `Send` that was let through the gate ends in a refusal only if it gave up waiting for the queue. */
  lemma {:induction false} RefusedGaveUp(run: seq<Conn>, i: nat, j: nat, id: nat) returns (k: nat)
    requires IsRun(run) && i <= j < |run|
    requires id in run[i].gate.sends && run[i].gate.sends[id].phase.Waiting?
    requires id in run[j].gate.sends && run[j].gate.sends[id].phase.Refused?
    ensures i < k < j && id in run[k].gate.sends && run[k].gate.sends[id].phase.Failing?
    decreases j - i
  {
    hide IsRun;
    OneSendMoves(run, i, id);
    var next := run[i + 1].gate.sends[id].phase;
    if next.Waiting? {
      k := RefusedGaveUp(run, i + 1, j, id);
    } else if next.Failing? {
      k := i + 1;
    } else {
      k := i + 1;
      QueuedStays(run, i + 1, j, id);
    }
  }

  lemma {:induction false} QueuedStays(run: seq<Conn>, i: nat, j: nat, id: nat)
    requires IsRun(run) && i <= j < |run|
    requires id in run[i].gate.sends && (run[i].gate.sends[id].phase.Queued? || run[i].gate.sends[id].phase.Accepted?)
    ensures id in run[j].gate.sends && (run[j].gate.sends[id].phase.Queued? || run[j].gate.sends[id].phase.Accepted?)
    decreases j - i
  {
    hide IsRun;
    if i == j {
    } else {
      OneSendMoves(run, i, id);
      QueuedStays(run, i + 1, j, id);
    }
  }

  // ---------------------------------------------------------------- the force flag

  /** The writer is told to drain, or will not take more than `limit` messages. */
  predicate MayTake(s: Conn, limit: nat)
  {
    s.gate.drain.WriterTold? || s.line.taken + (if s.line.writer.Select? then 1 else 0) <= limit
  }

  lemma WriterMayTake(s: Conn, a: WriterAction, limit: nat)
    requires DrainInv(s.gate, s.line) && WriterEnabled(s, a) && s.shut.forced && MayTake(s, limit)
    ensures var s' := WriterStep(s, a); s'.shut.forced && !s'.line.writer.Unborn? && MayTake(s', limit)
  {
    hide Wire, Busy, Truthful, NoneInFlight;
  }

  lemma OthersLeaveLine(s: Conn, step: Step)
    requires Enabled(s, step) && !step.WriterDoes? && !s.line.writer.Unborn?
    ensures var s' := Apply(s, step);
            && s'.line.writer == s.line.writer && s'.line.taken == s.line.taken
            && (s.gate.drain.WriterTold? ==> s'.gate.drain.WriterTold?)
  {
    hide Encodable, Busy, MayRequest, NoneInFlight, ChildrenGone;
  }

  lemma StillMayTake(s: Conn, s': Conn, limit: nat)
    requires MayTake(s, limit) && s'.line.writer == s.line.writer && s'.line.taken == s.line.taken
    requires s.gate.drain.WriterTold? ==> s'.gate.drain.WriterTold?
    ensures MayTake(s', limit)
  {
  }

  lemma MayTakeStep(s: Conn, step: Step, limit: nat)
    requires Inv(s) && Enabled(s, step) && s.shut.forced && !s.line.writer.Unborn? && MayTake(s, limit)
    ensures var s' := Apply(s, step); s'.shut.forced && !s'.line.writer.Unborn? && MayTake(s', limit)
  {
    hide LineInv, SendInv, DrainInv, CloseInv, ReportInv, ExitInv, EffectInv, LifeInv, MayTake, SendStep, WriterStep, DrainStep,
         CloseStep, LifeStep, SendEnabled, WriterEnabled, DrainEnabled, CloseEnabled, LifeEnabled, SendsFlow, WriterFlow,
         ReportFlow, LifeFlow;
    if step.WriterDoes? {
      WriterMayTake(s, step.write, limit);
    } else {
      OthersLeaveLine(s, step);
      StepFlows(s, step);
      StillMayTake(s, Apply(s, step), limit);
    }
  }

  /** Once the connection is forced, a writer that is not told to drain takes at most one message more. */
  lemma {:induction false} ForcedWriterStops(run: seq<Conn>, i: nat, j: nat)
    requires IsRun(run) && i <= j < |run| && run[i].shut.forced && !run[i].line.writer.Unborn?
    ensures run[j].shut.forced && !run[j].line.writer.Unborn?
    ensures run[j].gate.drain.WriterTold? || run[j].line.taken <= run[i].line.taken + 1
    ensures MayTake(run[j], run[i].line.taken + 1)
    decreases j - i
  {
    hide Apply, Enabled, Inv;
    if i == j {
    } else {
      ForcedWriterStops(run, i, j - 1);
      RunInv(run, j - 1);
      assert Next(run[j - 1], run[j]);
      var step :| Enabled(run[j - 1], step) && run[j] == Apply(run[j - 1], step);
      MayTakeStep(run[j - 1], step, run[i].line.taken + 1);
    }
  }

  // ---------------------------------------------------------------- at the end

  function Done(sup: Supervisor): nat
  {
    match sup
    case AwaitChildren | CancelRead => 0
    case CancelSend => 1
    case CancelForce => 2
    case CloseTransport => 3
    case _ => 4
  }

  /** What the supervisor has made sure of by each of its actions. */
  ghost predicate Settling(s: Conn)
  {
    var n := Done(s.life.supervisor);
    && (n >= 1 ==> s.shut.readCancelled) && (n >= 2 ==> s.gate.sendCancelled) && (n >= 3 ==> s.shut.forced)
    && (n >= 4 ==> s.shut.transportClosed)
  }

  lemma SettlingStep(s: Conn, step: Step)
    requires Settling(s) && Enabled(s, step)
    ensures Settling(Apply(s, step))
  {
    hide Encodable, Wire, Busy, MayRequest, Truthful, NoneInFlight, ChildrenGone, TakeOne, Chunk;
  }

  /** When a connection has left its shard everything of it is cancelled and its transport is closed, whether or not any
      close request ever won. */
  lemma {:induction false} Settled(run: seq<Conn>, i: nat)
    requires IsRun(run) && i < |run|
    ensures Settling(run[i])
  {
    hide Apply, Enabled;
    if i == 0 {
    } else {
      Settled(run, i - 1);
      assert Next(run[i - 1], run[i]);
      var step :| Enabled(run[i - 1], step) && run[i] == Apply(run[i - 1], step);
      SettlingStep(run[i - 1], step);
    }
  }

  /** Children are absent before the start and never after it. */
  ghost predicate ChildrenBorn(s: Conn)
  {
    if s.line.writer.Unborn? then s.life.openHook.Absent? && s.life.reader.Absent? && s.life.heartbeat.Absent?
    else !s.life.openHook.Absent? && !s.life.reader.Absent? && !s.life.heartbeat.Absent?
  }

  lemma BornStep(s: Conn, step: Step)
    requires ChildrenBorn(s) && Enabled(s, step)
    ensures ChildrenBorn(Apply(s, step))
  {
    hide Encodable, Wire, Busy, MayRequest, Truthful, NoneInFlight, ChildrenGone;
  }

  /** What holds of a connection beside its invariant. */
  ghost predicate Sound(s: Conn)
  {
    Settling(s) && GateReason(s) && ChildrenBorn(s)
  }

  lemma SoundStep(s: Conn, step: Step)
    requires Inv(s) && Sound(s) && Enabled(s, step)
    ensures Sound(Apply(s, step))
  {
    hide Inv, Settling, GateReason, ChildrenBorn, Apply, Enabled;
    OneWinner(s);
    SettlingStep(s, step);
    GateReasonStep(s, step);
    BornStep(s, step);
  }

  // ---------------------------------------------------------------- the queue

  lemma QueueStep(s: Conn, step: Step)
    requires Enabled(s, step) && |s.line.queue| <= s.capacity
    ensures |Apply(s, step).line.queue| <= Apply(s, step).capacity
  {
    hide Encodable, Wire, Busy, MayRequest, Truthful, NoneInFlight, ChildrenGone;
  }

  /** The queue never holds more than its capacity. */
  lemma {:induction false} QueueIsBounded(run: seq<Conn>, i: nat)
    requires IsRun(run) && i < |run|
    ensures |run[i].line.queue| <= run[i].capacity
  {
    hide Apply, Enabled;
    if i == 0 {
    } else {
      QueueIsBounded(run, i - 1);
      assert Next(run[i - 1], run[i]);
      var step :| Enabled(run[i - 1], step) && run[i] == Apply(run[i - 1], step);
      QueueStep(run[i - 1], step);
    }
  }
}

