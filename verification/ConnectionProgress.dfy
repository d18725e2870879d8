/**
  A connection never gets stuck (connection.go): from any state it can reach, it
  can drain, if nothing has gone wrong yet, and it can always come to its end.
 */
module ConnectionProgress {
  import opened MessageCodec
  import opened Connection
  import opened ConnectionRuns
  import opened ConnectionFlow

  /** The steps lead from one state to the other. */
  ghost predicate Path(s: Conn, steps: seq<Step>, s': Conn)
    decreases |steps|
  {
    if steps == [] then s' == s else Enabled(s, steps[0]) && Path(Apply(s, steps[0]), steps[1..], s')
  }

  lemma {:induction false} PathThen(s: Conn, a: seq<Step>, m: Conn, b: seq<Step>, t: Conn)
    requires Path(s, a, m) && Path(m, b, t)
    ensures Path(s, a + b, t)
    decreases |a|
  {
    hide Enabled, Apply;
    if a == [] {
      assert a + b == b;
    } else {
      PathThen(Apply(s, a[0]), a[1..], m, b, t);
      assert (a + b)[1..] == a[1..] + b;
    }
  }

  lemma PathOne(s: Conn, step: Step)
    requires Enabled(s, step)
    ensures Path(s, [step], Apply(s, step))
  {
    hide Enabled, Apply;
    assert [step][1..] == [];
  }

  lemma {:induction false} PathInv(s: Conn, steps: seq<Step>, t: Conn)
    requires Inv(s) && Path(s, steps, t)
    ensures Inv(t)
    decreases |steps|
  {
    hide Inv, Enabled, Apply;
    if steps == [] {
    } else {
      InvStep(s, steps[0]);
      PathInv(Apply(s, steps[0]), steps[1..], t);
    }
  }

  /** A path that starts where a run ends makes the run longer. */
  lemma {:induction false} RunsOn(run: seq<Conn>, steps: seq<Step>, t: Conn) returns (longer: seq<Conn>)
    requires IsRun(run) && Path(run[|run| - 1], steps, t)
    ensures IsRun(longer) && run <= longer && longer[|longer| - 1] == t
    decreases |steps|
  {
    hide Enabled, Apply;
    if steps == [] {
      longer := run;
    } else {
      var s' := Apply(run[|run| - 1], steps[0]);
      longer := run + [s'];
      assert Next(run[|run| - 1], s');
      forall i | 0 < i < |longer|
        ensures Next(longer[i - 1], longer[i])
      {
        if i < |run| {
          assert Next(run[i - 1], run[i]);
        }
      }
      longer := RunsOn(longer, steps[1..], t);
    }
  }

  // ---------------------------------------------------------------- to the end

  function StageLeft(c: CloseStage): nat
  {
    match c
    case Won => 6 case ReasonSet => 5 case SendsStopped => 4 case ReadsCancelled => 3 case ForceCancelled => 2
    case Returned => 1 case Finished => 0
  }

  function WriterLeft(w: Writer): nat
  {
    match w
    case Unborn => 100
    case Top => 7 case Select => 6 case DrainLoop => 5 case Writing(_, _) => 4 case Failed => 3 case AwaitsOwnClose => 2
    case Exited(_) => 0
  }

  function ChildLeft(c: Child): nat
  {
    match c case Absent => 2 case Running => 1 case Ended => 0
  }

  function SupervisorLeft(s: Supervisor): nat
  {
    match s
    case AwaitChildren => 13 case CancelRead => 12 case CancelSend => 11 case CancelForce => 10 case CloseTransport => 9
    case AddFinalizing => 8 case LeaveShard => 7 case CountClosed => 6 case StartCloseHook => 5 case EndCloseHook => 4
    case MarkClosed => 3 case CloseDone => 2 case MarkFinalized => 1 case Gone => 0
  }

  /** How far the connection is from its end. */
  function Distance(s: Conn): nat
  {
    (if s.shut.winners == [] && !s.shut.phase.Shutting() then 50
     else if s.shut.winners == [] then 0 else StageLeft(s.shut.winners[0].stage))
    + WriterLeft(s.line.writer) + ChildLeft(s.life.openHook) + ChildLeft(s.life.reader) + ChildLeft(s.life.heartbeat)
    + SupervisorLeft(s.life.supervisor)
  }

  /** The next step on the way: let the supervisor go on if it can; else start, ask to close, see the request through, stop the writer, let the children end. */
  function NextStep(s: Conn): Step
  {
    var w := s.line.writer;
    if !s.life.supervisor.AwaitChildren? || ChildrenGone(s) then Lives(Supervise)
    else if w.Unborn? then Lives(Start)
    else if s.shut.winners == [] && !s.shut.phase.Shutting() then Closes(Request(ServerActor, OpRead, 0, false, false))
    else if s.shut.winners != [] && !s.shut.winners[0].stage.Finished? then Closes(Advance(0))
    else if w.Top? then WriterDoes(CheckForce)
    else if w.Select? then WriterDoes(SeeForce)
    else if w.DrainLoop? then (if s.line.queue == [] then WriterDoes(FindNone) else WriterDoes(Take))
    else if w.Writing? then WriterDoes(WriteChunk(0, 0, true))
    else if w.Failed? then WriterDoes(AskClose(0))
    else if w.AwaitsOwnClose? then WriterDoes(Leave)
    else if s.life.openHook.Running? then Lives(OpenHookReturns)
    else if s.life.reader.Running? then Lives(ReaderEnds)
    else if s.life.heartbeat.Running? then Lives(HeartbeatEnds)
    else Lives(Supervise)
  }

  lemma {:induction false} RunBorn(run: seq<Conn>, i: nat)
    requires IsRun(run) && i < |run|
    ensures ChildrenBorn(run[i])
  {
    hide Apply, Enabled;
    if i == 0 {
    } else {
      RunBorn(run, i - 1);
      assert Next(run[i - 1], run[i]);
      var step :| Enabled(run[i - 1], step) && run[i] == Apply(run[i - 1], step);
      BornStep(run[i - 1], step);
    }
  }

  lemma NextStepEnabled(s: Conn)
    requires Inv(s) && ChildrenBorn(s) && !s.life.supervisor.Gone?
    ensures Enabled(s, NextStep(s))
  {
    hide LineInv, SendInv, ReportInv, DrainInv;
  }

  lemma AdvanceNearer(s: Conn)
    requires CloseInv(s.shut) && CloseEnabled(s, Advance(0))
    ensures Distance(AdvanceCloser(s, 0)) < Distance(s)
  {
    hide WriterLeft, ChildLeft, SupervisorLeft, AdvanceCloser;
    AdvanceShape(s, 0);
    AdvanceIsQuiet(s, 0);
  }

  lemma CloseNearer(s: Conn)
    requires CloseInv(s.shut) && Enabled(s, NextStep(s)) && NextStep(s).Closes?
    ensures Distance(Apply(s, NextStep(s))) < Distance(s)
  {
    hide MayRequest, WriterLeft, ChildLeft, SupervisorLeft, AdvanceCloser;
    if NextStep(s).close.Advance? {
      AdvanceNearer(s);
    }
  }

  /** On a connection that is closing the writer's next step leaves everything else alone. */
  lemma WriterAlone(s: Conn)
    requires Enabled(s, NextStep(s)) && NextStep(s).WriterDoes? && CloseInv(s.shut)
    ensures var s' := Apply(s, NextStep(s));
            s'.shut == s.shut && s'.life == s.life && WriterLeft(s'.line.writer) < WriterLeft(s.line.writer)
  {
    hide Wire, Busy;
  }

  lemma WriterNearer(s: Conn)
    requires CloseInv(s.shut) && Enabled(s, NextStep(s)) && NextStep(s).WriterDoes?
    ensures Distance(Apply(s, NextStep(s))) < Distance(s)
  {
    hide Apply, Enabled, NextStep, ChildLeft, SupervisorLeft, StageLeft, WriterLeft, CloseInv;
    WriterAlone(s);
  }

  lemma SuperviseNearer(s: Conn)
    requires !s.life.supervisor.Gone?
    ensures Distance(SuperviseOne(s)) < Distance(s)
  {
    hide StageLeft, WriterLeft, ChildLeft;
  }

  lemma LifeNearer(s: Conn)
    requires ChildrenBorn(s) && Enabled(s, NextStep(s)) && NextStep(s).Lives? && !s.life.supervisor.Gone?
    ensures Distance(Apply(s, NextStep(s))) < Distance(s)
  {
    hide Busy, StageLeft, SuperviseOne, ChildrenGone, SupervisorLeft;
    if NextStep(s) == Lives(Supervise) {
      SuperviseNearer(s);
    }
  }

  lemma NextStepNearer(s: Conn)
    requires CloseInv(s.shut) && ChildrenBorn(s) && Enabled(s, NextStep(s)) && !s.life.supervisor.Gone?
    ensures Distance(Apply(s, NextStep(s))) < Distance(s)
  {
    hide Distance, Apply, Enabled, CloseInv, ChildrenBorn;
    if NextStep(s).Closes? {
      CloseNearer(s);
    } else if NextStep(s).WriterDoes? {
      WriterNearer(s);
    } else {
      LifeNearer(s);
    }
  }

  lemma {:induction false} WayToTheEnd(s: Conn) returns (steps: seq<Step>, t: Conn)
    requires Inv(s) && ChildrenBorn(s)
    ensures Path(s, steps, t) && t.life.supervisor.Gone?
    decreases Distance(s)
  {
    if s.life.supervisor.Gone? {
      steps, t := [], s;
    } else {
      var step := NextStep(s);
      NextStepEnabled(s);
      NextStepNearer(s);
      hide Inv, ChildrenBorn, Enabled, Apply, Distance, NextStep;
      InvStep(s, step);
      BornStep(s, step);
      steps, t := WayToTheEnd(Apply(s, step));
      steps := [step] + steps;
      assert steps[1..] == steps[1..];
    }
  }

  /** From any state of any run the connection can come to its end: transport closed, close hook run once, finalized. */
  lemma CanAlwaysFinish(run: seq<Conn>) returns (longer: seq<Conn>)
    requires IsRun(run)
    ensures IsRun(longer) && run <= longer
    ensures var s := longer[|longer| - 1];
            s.life.supervisor.Gone? && s.life.closeHooks == 1 && s.shut.phase.Closed? && s.shut.transportClosed
  {
    hide Inv, Apply, Enabled, Path, ChildrenBorn;
    RunInv(run, |run| - 1);
    RunBorn(run, |run| - 1);
    var steps, t := WayToTheEnd(run[|run| - 1]);
    longer := RunsOn(run, steps, t);
    RunInv(longer, |longer| - 1);
    GoneIsOver(t);
  }

  lemma GoneIsOver(s: Conn)
    requires Inv(s) && s.life.supervisor.Gone?
    ensures s.life.closeHooks == 1 && s.shut.phase.Closed? && s.shut.transportClosed
  {
    hide LineInv, SendInv;
  }

  // ---------------------------------------------------------------- steps that the connection's own parts take

  /** Not a call of the shutdown owner, and not the supervisor's. */
  predicate FreeStep(step: Step)
  {
    && (step.Drains? ==> step.drain.TellWriter?) && step != Lives(Supervise)
    && !(step.Closes? && step.close.Request? && step.close.actor.ServerActor?)
  }

  predicate Free(steps: seq<Step>)
  {
    forall i :: 0 <= i < |steps| ==> FreeStep(steps[i])
  }

  /** Once some request has won, the writer can stop. */
  lemma {:induction false} WriterStops(s: Conn) returns (steps: seq<Step>, t: Conn)
    requires Inv(s) && ChildrenBorn(s) && s.shut.winners != []
    ensures Free(steps) && Path(s, steps, t) && t.line.writer.Exited?
    decreases Distance(s)
  {
    if s.line.writer.Exited? {
      steps, t := [], s;
    } else {
      var step := NextStep(s);
      NextStepEnabled(s);
      NextStepNearer(s);
      WinnerNext(s);
      hide Inv, ChildrenBorn, Enabled, Apply, Distance, NextStep, Path, FreeStep;
      InvStep(s, step);
      BornStep(s, step);
      PathOne(s, step);
      var more;
      more, t := WriterStops(Apply(s, step));
      PathThen(s, [step], Apply(s, step), more, t);
      steps := [step] + more;
    }
  }

  lemma WinnerNext(s: Conn)
    requires Inv(s) && ChildrenBorn(s) && s.shut.winners != [] && !s.line.writer.Exited? && Enabled(s, NextStep(s))
    ensures FreeStep(NextStep(s)) && Apply(s, NextStep(s)).shut.winners != []
  {
    hide LineInv, SendInv, DrainInv, ReportInv, Wire, Busy;
  }

  // ---------------------------------------------------------------- a drain that nothing disturbs

  /** No close request has won and no write has failed. */
  ghost predicate Undisturbed(s: Conn)
  {
    && Inv(s) && s.shut.winners == [] && !s.shut.phase.Shutting() && !s.line.writer.Failed? && !s.line.writer.Unborn?
  }

  lemma UndisturbedWriter(s: Conn)
    requires Undisturbed(s)
    ensures !s.line.writer.AwaitsOwnClose? && (s.line.writer.Exited? ==> s.line.writer == Exited(Drained))
    ensures !s.line.writer.Exited? ==> !s.shut.forced
  {
    hide LineInv, SendInv, ReportInv;
  }

  function Pending(s: Conn): set<nat>
  {
    set id | id in s.gate.sends && !s.gate.sends[id].phase.Returned()
  }

  /** A pending `Send` gives up, or returns with what it has. */
  lemma SendReturns(s: Conn, id: nat) returns (steps: seq<Step>, t: Conn)
    requires Undisturbed(s) && id in Pending(s)
    ensures Free(steps) && Path(s, steps, t) && Undisturbed(t) && Pending(t) == Pending(s) - {id} && t.gate.drain == s.gate.drain
  {
    hide Inv;
    if s.gate.sends[id].phase.Waiting? {
      var m := Apply(s, Sender(id, GiveUp));
      t := Apply(m, Sender(id, Return));
      steps := [Sender(id, GiveUp)] + [Sender(id, Return)];
      InvStep(s, Sender(id, GiveUp));
      InvStep(m, Sender(id, Return));
      PathOne(s, Sender(id, GiveUp));
      PathOne(m, Sender(id, Return));
      PathThen(s, [Sender(id, GiveUp)], m, [Sender(id, Return)], t);
    } else {
      t := Apply(s, Sender(id, Return));
      steps := [Sender(id, Return)];
      InvStep(s, Sender(id, Return));
      PathOne(s, Sender(id, Return));
    }
  }

  lemma {:induction false} SendsReturn(s: Conn) returns (steps: seq<Step>, t: Conn)
    requires Undisturbed(s)
    ensures Free(steps) && Path(s, steps, t) && Undisturbed(t) && Pending(t) == {} && t.gate.drain == s.gate.drain
    decreases |Pending(s)|
  {
    hide Path, Undisturbed;
    if Pending(s) == {} {
      steps, t := [], s;
      PathNone(s);
    } else {
      var id :| id in Pending(s);
      var a, m := SendReturns(s, id);
      var b;
      b, t := SendsReturn(m);
      PathThen(s, a, m, b, t);
      steps := a + b;
    }
  }

  lemma PathNone(s: Conn)
    ensures Path(s, [], s)
  {
  }

  lemma DrainStepOn(s: Conn, a: DrainAction)
    requires Undisturbed(s) && DrainEnabled(s, a)
    ensures Path(s, [Drains(a)], DrainStep(s, a)) && Undisturbed(DrainStep(s, a))
  {
    hide Inv, NoneInFlight;
    InvStep(s, Drains(a));
    PathOne(s, Drains(a));
  }

  /** The drain asks, shuts the gate, waits for the sends and tells the writer. */
  lemma WayToTold(s: Conn) returns (steps: seq<Step>, t: Conn)
    requires Undisturbed(s)
    ensures Path(s, steps, t) && Undisturbed(t) && t.gate.drain.WriterTold?
  {
    hide Path, Undisturbed, Pending;
    steps, t := [], s;
    PathNone(s);
    if t.gate.drain.NotAsked? {
      DrainStepOn(t, DrainMark);
      PathThen(s, steps, t, [Drains(DrainMark)], DrainStep(t, DrainMark));
      steps, t := steps + [Drains(DrainMark)], DrainStep(t, DrainMark);
    }
    if t.gate.drain.StateMarked? {
      DrainStepOn(t, ShutGate);
      PathThen(s, steps, t, [Drains(ShutGate)], DrainStep(t, ShutGate));
      steps, t := steps + [Drains(ShutGate)], DrainStep(t, ShutGate);
    }
    var more, m := SendsReturn(t);
    PathThen(s, steps, t, more, m);
    steps, t := steps + more, m;
    if t.gate.drain.GateShut? {
      NonePending(t);
      DrainStepOn(t, TellWriter);
      PathThen(s, steps, t, [Drains(TellWriter)], DrainStep(t, TellWriter));
      steps, t := steps + [Drains(TellWriter)], DrainStep(t, TellWriter);
    }
  }

  lemma NonePending(s: Conn)
    requires Pending(s) == {}
    ensures NoneInFlight(s.gate.sends)
  {
    forall id | id in s.gate.sends
      ensures s.gate.sends[id].phase.Returned()
    {
      assert id !in Pending(s);
    }
  }

  function DrainLeft(w: Writer): nat
  {
    match w case Writing(_, d) => if d then 2 else 5 case Top => 4 case Select => 3 case DrainLoop => 1 case _ => 0
  }

  /** What the writer of an undisturbed connection does when it has been told and every write succeeds. */
  function DrainNext(s: Conn): WriterAction
  {
    match s.line.writer
    case Top => CheckForce
    case Select => SeeDrain
    case Writing(rest, _) => WriteChunk(|rest|, |rest|, false)
    case _ => if s.line.queue == [] then FindNone else Take
  }

  lemma DrainNextStep(s: Conn)
    requires Undisturbed(s) && s.gate.drain.WriterTold? && !s.line.writer.Exited?
    ensures WriterEnabled(s, DrainNext(s))
    ensures var t := WriterStep(s, DrainNext(s));
            && Undisturbed(t) && t.gate.drain.WriterTold?
            && (|| t.line.writer.Exited? || |t.line.queue| < |s.line.queue|
                || (t.line.queue == s.line.queue && DrainLeft(t.line.writer) < DrainLeft(s.line.writer)))
  {
    UndisturbedWriter(s);
    if s.line.writer.Writing? {
      WritingSome(s);
    }
    hide Inv, Wire;
    InvStep(s, WriterDoes(DrainNext(s)));
  }

  lemma WritingSome(s: Conn)
    requires Inv(s) && s.line.writer.Writing?
    ensures s.line.writer.rest != []
  {
    hide SendInv;
  }

  lemma {:induction false} WriterDrains(s: Conn) returns (steps: seq<Step>, t: Conn)
    requires Undisturbed(s) && s.gate.drain.WriterTold?
    ensures Free(steps) && Path(s, steps, t) && Undisturbed(t) && t.line.writer.Exited?
    decreases if s.line.writer.Exited? then 0 else 1, |s.line.queue|, DrainLeft(s.line.writer)
  {
    hide Path, Undisturbed, WriterStep, WriterEnabled, DrainLeft, DrainNext;
    if s.line.writer.Exited? {
      steps, t := [], s;
      PathNone(s);
    } else {
      DrainNextStep(s);
      var step := WriterDoes(DrainNext(s));
      PathOne(s, step);
      var more;
      more, t := WriterDrains(WriterStep(s, DrainNext(s)));
      PathThen(s, [step], Apply(s, step), more, t);
      steps := [step] + more;
    }
  }

  /** From any state of any run in which no close request has won and no write has failed, the connection can drain: all
      that was accepted goes out, and then it can come to its end. */
  lemma CanAlwaysDrain(run: seq<Conn>) returns (longer: seq<Conn>)
    requires IsRun(run) && Undisturbed(run[|run| - 1])
    ensures IsRun(longer) && run <= longer && Delivered(longer[|longer| - 1]) && longer[|longer| - 1].shut.winners == []
  {
    hide Path, Inv, Enabled, Apply, Delivered;
    var s := run[|run| - 1];
    var a, m := WayToTold(s);
    var b, t := WriterDrains(m);
    PathThen(s, a, m, b, t);
    longer := RunsOn(run, a + b, t);
    UndisturbedWriter(t);
    DrainedMeansDelivered(t);
  }

  /** The gate is shut: the sends return, the writer is told and drains. */
  lemma TellAndDrain(s: Conn) returns (steps: seq<Step>, t: Conn)
    requires Undisturbed(s) && (s.gate.drain.GateShut? || s.gate.drain.WriterTold?)
    ensures Free(steps) && Path(s, steps, t) && t.line.writer.Exited?
  {
    hide Path, Undisturbed, Pending;
    steps, t := SendsReturn(s);
    if t.gate.drain.GateShut? {
      NonePending(t);
      DrainStepOn(t, TellWriter);
      PathThen(s, steps, t, [Drains(TellWriter)], DrainStep(t, TellWriter));
      steps, t := steps + [Drains(TellWriter)], DrainStep(t, TellWriter);
    }
    var more, u := WriterDrains(t);
    PathThen(s, steps, t, more, u);
    steps, t := steps + more, u;
  }

  lemma OneStep(s: Conn, step: Step)
    requires Inv(s) && ChildrenBorn(s) && Enabled(s, step) && FreeStep(step)
    ensures Free([step]) && Path(s, [step], Apply(s, step)) && Inv(Apply(s, step)) && ChildrenBorn(Apply(s, step))
  {
    hide Inv, ChildrenBorn, Enabled, Apply, FreeStep;
    assert [step][0] == step;
    InvStep(s, step);
    BornStep(s, step);
    PathOne(s, step);
  }

  lemma FailedAsks(s: Conn) returns (steps: seq<Step>, t: Conn)
    requires Inv(s) && ChildrenBorn(s) && s.shut.winners == [] && !s.shut.phase.Shutting() && s.line.writer.Failed?
    ensures Free(steps) && Path(s, steps, t) && t.line.writer.Exited?
  {
    hide Inv, ChildrenBorn, Path;
    var step := WriterDoes(AskClose(0));
    OneStep(s, step);
    var m := Apply(s, step);
    var more;
    more, t := WriterStops(m);
    PathThen(s, [step], m, more, t);
    steps := [step] + more;
  }

  /** A connection whose gate is shut for a drain can let its writer stop, whatever has happened to it. */
  lemma WriterCanExit(s: Conn) returns (steps: seq<Step>, t: Conn)
    requires Inv(s) && ChildrenBorn(s) && (s.gate.drain.GateShut? || s.gate.drain.WriterTold?)
    ensures Free(steps) && Path(s, steps, t) && t.line.writer.Exited?
  {
    if s.line.writer.Exited? {
      steps, t := [], s;
      PathNone(s);
    } else if s.shut.winners != [] {
      steps, t := WriterStops(s);
    } else {
      NotShutting(s);
      if s.line.writer.Failed? {
        steps, t := FailedAsks(s);
      } else if s.line.writer.Unborn? {
        OneStep(s, Lives(Start));
        var m := Apply(s, Lives(Start));
        var more;
        more, t := TellAndDrain(m);
        PathThen(s, [Lives(Start)], m, more, t);
        steps := [Lives(Start)] + more;
      } else {
        steps, t := TellAndDrain(s);
      }
    }
  }

  lemma NotShutting(s: Conn)
    requires Inv(s) && s.shut.winners == [] && !s.line.writer.Exited?
    ensures !s.shut.phase.Shutting()
  {
    hide LineInv, SendInv, ReportInv, DrainInv;
  }
}

