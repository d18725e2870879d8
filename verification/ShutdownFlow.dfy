/**
  What the shutdown owner does on its way (server.go, manager.go): what its walks
  achieve, what is still open until it gets there, and what a timeout means.
 */
module ShutdownFlow {
  import opened Bytes
  import opened Shutdown
  import opened ShutdownRuns
  import C = Connection
  import CF = ConnectionFlow
  import P = WorkerPool
  import PR = WorkerPoolRuns
  import R = Registry

  // ---------------------------------------------------------------- the walks

  /** Without a timeout, once the owner has quiesced the connections none is open and all reads are cancelled, and once it
      has closed them by force each is closing or closed, with the server's own request run to its end, or has already
      left its shard. Timed out or not, the same holds of every connection that the walk found. */
  lemma OwnersWalks(run: seq<Server>, i: nat, c: ConnId)
    requires IsRun(run) && i < |run| && c in run[i].conns
    ensures (run[i].owner.Rank() > 6 && !run[i].timedOut) || c in run[i].quieted ==> Quieted(run[i].conns[c])
    ensures run[i].owner.Rank() > 11 && !run[i].timedOut ==> Down(run[i].conns[c]) || Left(run[i].conns[c])
    ensures c in run[i].closedLate ==> Down(run[i].conns[c])
  {
    hide Inv;
    RunInv(run, i);
    WalksOf(run[i], c);
  }

  lemma WalksOf(s: Server, c: ConnId)
    requires Inv(s) && c in s.conns
    ensures (s.owner.Rank() > 6 && !s.timedOut) || c in s.quieted ==> Quieted(s.conns[c])
    ensures s.owner.Rank() > 11 && !s.timedOut ==> Down(s.conns[c]) || Left(s.conns[c])
    ensures c in s.closedLate ==> Down(s.conns[c])
  {
    hide P.Inv, R.Inv, LinkInv, ConnsInv, GatesInv, WritersInv, WinsInv, AwaitedInv, Quieted, Down, Left, AskInv;
    assert c in s.quieted ==> QuietConn(s.conns, c);
    assert c in s.closedLate ==> DownConn(s.conns, c);
    assert s.owner.Rank() > 6 && !s.timedOut ==> QuietConn(s.conns, c);
    assert s.owner.Rank() > 11 && !s.timedOut ==> DownOrLeft(s.conns, c);
  }

  /** A connection that the server's own request brought down has everything cancelled and its transport closed. */
  lemma BroughtDown(conn: C.Conn)
    requires C.Inv(conn) && Down(conn) && |conn.shut.winners| == 1 && conn.shut.winners[0].actor.ServerActor?
    ensures conn.shut.readCancelled && conn.gate.sendCancelled && conn.shut.forced && conn.shut.transportClosed
    ensures conn.shut.reason == Some(conn.shut.winners[0].reason)
  {
    hide C.LineInv, C.SendInv, C.DrainInv, C.LifeInv, C.ReportInv;
    assert conn.shut.winners[0].stage.Finished?;
  }

  // ---------------------------------------------------------------- what is open until then

  /** Intake is open until the owner's first action, connection setups until its second, the pool's drain begins in its
      place, and no connection is asked to drain before the pool has drained. */
  lemma NothingShutsEarly(run: seq<Server>, i: nat)
    requires IsRun(run) && i < |run|
    ensures run[i].pool.intake.accepting <==> run[i].owner.Rank() <= StopIntake.Rank()
    ensures run[i].acceptingSetups <==> run[i].owner.Rank() <= StopSetups.Rank()
    ensures run[i].owner.Rank() < DrainPool.Rank() ==> run[i].pool.intake.drainer.NotYet?
    ensures run[i].owner.Rank() <= 8 ==> forall c :: c in run[i].conns ==> run[i].conns[c].gate.drain.NotAsked?
  {
    hide P.Inv, R.Inv, LinkInv, ConnsInv, WritersInv, WinsInv, AwaitedInv, WalkInv, PR.Expired;
    RunInv(run, i);
  }

  /** Seen from the server, a connection only ever takes its own steps. */
  ghost predicate StepsOf(conn: C.Conn, conn': C.Conn)
  {
    conn' == conn || exists step :: C.Enabled(conn, step) && conn' == C.Apply(conn, step)
  }

  lemma TakesStep(conn: C.Conn, step: C.Step)
    requires C.Enabled(conn, step)
    ensures StepsOf(conn, C.Apply(conn, step))
  {
    hide C.Enabled, C.Apply;
  }

  lemma OwnerTakesStep(s: Server, a: OwnerAction, c: ConnId)
    requires OwnerEnabled(s, a) && c in s.conns
    ensures c in OwnerStep(s, a).conns && StepsOf(s.conns[c], OwnerStep(s, a).conns[c])
  {
    hide StepsOf, Proceeded, Scanned, R.WaitStep, P.CancelStep, C.CloseStep, C.DrainStep, ProceedEnabled, C.Busy, P.CancelEnabled;
    var conn := s.conns[c];
    Unmoved(conn);
    match a
    case Proceed => ProceedShape(s);
    case QuiesceOne(_) => TakesStep(conn, C.Drains(C.QuiesceMark));
    case CancelReads => if s.owner.current == Some(c) { TakesStep(conn, C.Drains(C.QuiesceCancel)); }
    case AskDrain(_) => if conn.gate.drain.NotAsked? { TakesStep(conn, C.Drains(C.DrainMark)); }
    case ShutDrain => if s.owner.current == Some(c) { TakesStep(conn, C.Drains(C.ShutGate)); }
    case CloseOne(_, cause) => TakesStep(conn, C.Closes(ServerRequest(cause)));
    case _ =>
  }

  lemma Unmoved(conn: C.Conn)
    ensures StepsOf(conn, conn)
  {
  }

  lemma ConnTakesStep(s: Server, step: Step, c: ConnId)
    requires Enabled(s, step) && c in s.conns
    ensures c in Apply(s, step).conns && StepsOf(s.conns[c], Apply(s, step).conns[c])
  {
    hide StepsOf, OwnerStep, OwnerEnabled, C.Apply, C.Enabled, P.Apply, P.Enabled, R.WaitStep, R.WaitEnabled, R.ShardStep,
         R.ShardEnabled;
    Unmoved(s.conns[c]);
    match step
    case Owns(a) => OwnerTakesStep(s, a, c);
    case Conns(x, a) => if x == c { TakesStep(s.conns[c], a); }
    case _ =>
  }

  lemma AdmittedWhileOpen(conn: C.Conn, conn': C.Conn, id: nat)
    requires C.Inv(conn) && CF.Sound(conn) && StepsOf(conn, conn')
    requires conn.gate.drain.NotAsked? && conn.shut.winners == []
    requires id !in conn.gate.sends && id in conn'.gate.sends
    ensures conn'.gate.sends[id].phase.Waiting?
  {
    hide C.LineInv, C.SendInv, C.ReportInv, C.Enabled, C.Apply, CF.WriterFlow, CF.CloseFlow, CF.ReportFlow, CF.LifeFlow;
    var step :| C.Enabled(conn, step) && conn' == C.Apply(conn, step);
    CF.StepFlows(conn, step);
  }

  /** Handlers can still reply while the pool drains: until the owner comes to drain the connections, no `Send` on a
      connection on which no close request has won is refused by the gate, although the connection may be quiesced. */
  lemma RepliesPass(run: seq<Server>, i: nat, c: ConnId, id: nat)
    requires IsRun(run) && i + 1 < |run| && run[i].owner.Rank() <= 8
    requires c in run[i].conns && run[i].conns[c].shut.winners == [] && id !in run[i].conns[c].gate.sends
    requires c in run[i + 1].conns && id in run[i + 1].conns[c].gate.sends
    ensures run[i + 1].conns[c].gate.sends[id].phase.Waiting?
  {
    hide Inv, Enabled, Apply, C.Inv, CF.Sound, StepsOf;
    RunInv(run, i);
    NothingShutsEarly(run, i);
    ConnOf(run[i], c);
    assert Next(run[i], run[i + 1]);
    var step :| Enabled(run[i], step) && run[i + 1] == Apply(run[i], step);
    ConnTakesStep(run[i], step, c);
    AdmittedWhileOpen(run[i].conns[c], run[i + 1].conns[c], id);
  }

  // ---------------------------------------------------------------- the order of the phases

  /** The waits that the shutdown timeout can end. */
  predicate Waits(o: Owner)
  {
    o.AwaitSetups? || o.DrainPool? || o.DrainConns? || o.InWait? || o.AwaitServices?
  }

  /** The owner takes its phases in order and leaves none out, except that the late ones are for a shutdown that has timed
      out; and only a wait can time out. */
  ghost predicate InOrder(s: Server, s': Server)
  {
    && s.owner.Rank() <= s'.owner.Rank()
    && (s'.owner.Rank() > s.owner.Rank() + 1 ==> s.owner.AwaitServices? && !s'.timedOut && s'.owner.Publish?)
    && (s'.timedOut && !s.timedOut ==> Waits(s.owner))
    && (s.timedOut ==> s'.timedOut)
  }

  lemma ProceedInOrder(s: Server)
    requires ProceedEnabled(s)
    ensures InOrder(s, Proceeded(s))
  {
    hide P.IntakeStep, P.LockFree;
  }

  lemma OwnerInOrder(s: Server, a: OwnerAction)
    requires OwnerEnabled(s, a) && (a.StartCancel? && s.owner.CallCancel? ==> s.timedOut)
    ensures InOrder(s, OwnerStep(s, a))
  {
    hide R.WaitStep, P.CancelStep, C.CloseStep, C.DrainStep, C.DrainEnabled, C.Busy, P.CancelEnabled, Asked, Proceeded, ProceedEnabled;
    if a.Proceed? {
      ProceedInOrder(s);
    }
  }

  lemma OthersInOrder(s: Server, step: Step)
    requires Enabled(s, step) && !step.Owns?
    ensures Apply(s, step).owner == s.owner && Apply(s, step).timedOut == s.timedOut
  {
    hide C.Apply, C.Enabled, P.Apply, P.Enabled, R.WaitStep, R.WaitEnabled, R.ShardStep, R.ShardEnabled;
  }

  lemma LateMeansTimedOut(s: Server)
    requires Inv(s) && s.owner.CallCancel?
    ensures s.timedOut
  {
    hide P.Inv, R.Inv, LinkInv, ConnsInv, WritersInv, WinsInv, AwaitedInv, WalkInv, AskInv, PR.Expired;
  }

  lemma PhasesInOrder(run: seq<Server>, i: nat)
    requires IsRun(run) && i + 1 < |run|
    ensures InOrder(run[i], run[i + 1])
  {
    hide Inv, Enabled, Apply;
    RunInv(run, i);
    assert Next(run[i], run[i + 1]);
    var step :| Enabled(run[i], step) && run[i + 1] == Apply(run[i], step);
    StepInOrder(run[i], step);
  }

  lemma StepInOrder(s: Server, step: Step)
    requires Inv(s) && Enabled(s, step)
    ensures InOrder(s, Apply(s, step))
  {
    hide Inv, OwnerStep, OwnerEnabled;
    if step.Owns? {
      if s.owner.CallCancel? {
        LateMeansTimedOut(s);
      }
      OwnerInOrder(s, step.owner);
    } else {
      OthersInOrder(s, step);
      hide Enabled, Apply;
    }
  }

  // ---------------------------------------------------------------- after a timeout

  lemma PoolForwardStep(s: Server, step: Step)
    requires P.Inv(s.pool) && Enabled(s, step)
    ensures PR.Forward(s.pool, Apply(s, step).pool)
  {
    hide P.Inv, P.Apply, P.Enabled, PR.Forward, C.Apply, C.Enabled, R.WaitStep, R.WaitEnabled, R.ShardStep, R.ShardEnabled,
         C.CloseStep, C.DrainStep, C.DrainEnabled, C.Busy, Asked, OwnerStep, OwnerEnabled;
    PR.ForwardSelf(s.pool);
    match step
    case Pools(a) => PR.ForwardStep(s.pool, a);
    case Owns(a) => OwnerForwardsPool(s, a);
    case _ =>
  }

  lemma OwnerForwardsPool(s: Server, a: OwnerAction)
    requires P.Inv(s.pool) && OwnerEnabled(s, a)
    ensures PR.Forward(s.pool, OwnerStep(s, a).pool)
  {
    hide P.Inv, PR.Forward, R.WaitStep, R.WaitEnabled, C.CloseStep, C.DrainStep, C.DrainEnabled, C.Busy, Asked, P.IntakeStep,
         P.CancelStep, P.LockFree, P.CancelEnabled, Scanned;
    PR.ForwardSelf(s.pool);
    if a.Proceed? && s.owner.StopIntake? {
      PR.ForwardIntake(s.pool, P.StopAccepting);
    } else if a.StartCancel? {
      PR.ForwardCancel(s.pool, P.Snapshot(a.call, true));
    }
  }

  lemma {:induction false} RunPoolForward(run: seq<Server>, i: nat, j: nat)
    requires IsRun(run) && i <= j < |run|
    ensures PR.Forward(run[i].pool, run[j].pool)
    decreases j - i
  {
    hide Inv, Enabled, Apply, PR.Forward, P.Inv;
    RunInv(run, i);
    PoolOf(run[i]);
    if i == j {
      PR.ForwardSelf(run[i].pool);
    } else {
      RunPoolForward(run, i, j - 1);
      RunInv(run, j - 1);
      PoolOf(run[j - 1]);
      assert Next(run[j - 1], run[j]);
      var step :| Enabled(run[j - 1], step) && run[j] == Apply(run[j - 1], step);
      PoolForwardStep(run[j - 1], step);
      PR.ForwardTwice(run[i].pool, run[j - 1].pool, run[j].pool);
    }
  }

  lemma PoolOf(s: Server)
    requires Inv(s)
    ensures P.Inv(s.pool)
  {
    hide P.Inv, R.Inv, LinkInv, ConnsInv, GatesInv, WritersInv, WinsInv, AwaitedInv, WalkInv, AskInv;
  }

  lemma TimedOutCancelled(s: Server)
    requires Inv(s) && s.timedOut && s.owner.Rank() > 16
    ensures PR.Expired(s.pool)
  {
    hide P.Inv, R.Inv, LinkInv, ConnsInv, WritersInv, WinsInv, AwaitedInv, WalkInv, AskInv, PR.Expired;
  }

  /** A shutdown that timed out still leaves no work behind it: from the moment it is published, no task whose handlers had
      not started by then ever runs them. */
  lemma NoHandlersAfterTimedOutShutdown(run: seq<Server>, i: nat, j: nat, t: P.TaskId)
    requires IsRun(run) && i <= j < |run| && run[i].owner.Stopped? && run[i].timedOut
    ensures PR.WasHandled(run[j].pool, t) ==> PR.WasHandled(run[i].pool, t)
  {
    hide Inv, IsRun, PR.WasHandled;
    RunInv(run, i);
    TimedOutCancelled(run[i]);
    RunPoolForward(run, i, j);
  }
}

