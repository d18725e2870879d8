/** What a shutdown that did not time out means, over every run of the server. */
module ShutdownRuns {
  import opened Shutdown
  import C = Connection
  import CR = ConnectionRuns
  import P = WorkerPool
  import PR = WorkerPoolRuns
  import R = Registry

  lemma {:induction false} RunInv(run: seq<Server>, i: nat)
    requires IsRun(run) && i < |run|
    ensures Inv(run[i])
  {
    hide Inv, Apply, Enabled;
    if i == 0 {
      var w, n, g, x :| w > 0 && n > 0 && g > 0 && run[0] == RunningServer(w, n, g, x);
      RunningInv(w, n, g, x);
    } else {
      RunInv(run, i - 1);
      assert Next(run[i - 1], run[i]);
      var step :| Enabled(run[i - 1], step) && run[i] == Apply(run[i - 1], step);
      InvStep(run[i - 1], step);
    }
  }

  /** The connection is finished: its transport closed, its close hook run once, its `done` channel closed. */
  ghost predicate Finished(conn: C.Conn)
  {
    conn.life.supervisor.Gone? && conn.life.closeHooks == 1 && conn.shut.transportClosed && conn.shut.phase.Closed?
  }

  /** Everything accepted for sending was written, or the connection had closed for a reason of its own. */
  ghost predicate Served(conn: C.Conn)
  {
    || CR.Delivered(conn)
    || (|conn.shut.winners| == 1 && !conn.shut.winners[0].actor.ServerActor?)
  }

  lemma GoneMeansFinished(conn: C.Conn)
    requires C.Inv(conn) && conn.life.supervisor.Gone? && ServerWins(conn)
    ensures Finished(conn) && Served(conn)
  {
    if conn.line.writer == C.Exited(C.Drained) {
      CR.DrainedMeansDelivered(conn);
    }
    hide C.LineInv, C.SendInv;
  }

  lemma EveryConnection(s: Server, c: ConnId)
    requires Inv(s) && s.owner.Stopped? && !s.timedOut && c in s.conns
    ensures Finished(s.conns[c]) && Served(s.conns[c])
  {
    hide P.Inv, R.Inv, C.Inv, Finished, Served, ServerWins, WritersInv;
    GoneMeansFinished(s.conns[c]);
  }

  lemma RegistryEmpty(s: Server)
    requires Inv(s) && s.owner.Stopped? && !s.timedOut
    ensures s.registry.shards.finalizing == {}
    ensures forall g :: 0 <= g < |s.registry.shards.groups| ==> s.registry.shards.groups[g] == {}
  {
    hide P.Inv, C.Inv, R.WaitInv, WritersInv;
    var shards := s.registry.shards;
    assert forall g, c :: 0 <= g < |shards.groups| && c in shards.groups[g] ==> R.InItsShard(shards, c);
    assert forall c :: c in shards.life ==> !R.InItsShard(shards, c);
  }

  /** No connection is registered or finalizing; every connection ever registered is finished, and the frames on its
      socket are those of the `Send` calls it accepted, one for one, unless it closed for a reason of its own; the task
      registry is empty and every task ever accepted was received exactly once and finished; every serving goroutine has
      exited and every listener is closed. */
  ghost predicate Clean(s: Server)
  {
    && s.registry.shards.finalizing == {}
    && (forall g :: 0 <= g < |s.registry.shards.groups| ==> s.registry.shards.groups[g] == {})
    && (forall c :: c in s.conns ==> Finished(s.conns[c]) && Served(s.conns[c]))
    && P.Registry(s.pool) == {} && P.Distinct(s.pool.accepted) && P.Distinct(s.pool.received)
    && (forall e :: e in s.pool.accepted ==>
          e in s.pool.received && e.task in s.pool.tasks && s.pool.tasks[e.task].phase.Finished?)
    && s.serving == {} && s.listeners == {}
  }

  lemma PoolDrained(s: Server)
    requires Inv(s) && s.owner.Stopped? && !s.timedOut
    ensures P.Inv(s.pool) && s.pool.intake.done && s.serving == {} && s.listeners == {}
  {
    hide P.Inv, R.Inv, C.Inv, WritersInv, AwaitedInv, LinkInv, ConnsInv;
  }

  lemma OncePerTask(p: P.Pool)
    requires P.Inv(p)
    ensures P.Distinct(p.accepted) && P.Distinct(p.received)
  {
    hide P.PlaceInv, P.GateInv, P.CountInv, P.CancelInv;
  }

  lemma StoppedIsClean(s: Server)
    requires Inv(s) && s.owner.Stopped? && !s.timedOut
    ensures Clean(s)
  {
    hide Inv, P.Inv, Finished, Served, P.Distinct;
    RegistryEmpty(s);
    forall c | c in s.conns
      ensures Finished(s.conns[c]) && Served(s.conns[c])
    {
      EveryConnection(s, c);
    }
    PoolDrained(s);
    PR.DoneSettles(s.pool);
    OncePerTask(s.pool);
  }

  /** The meaning of a shutdown without a timeout: in every run and every interleaving, when its owner publishes
      `Stopped`, the server is clean. */
  lemma CleanShutdown(run: seq<Server>, i: nat)
    requires IsRun(run) && i < |run| && run[i].owner.Stopped? && !run[i].timedOut
    ensures Clean(run[i])
  {
    hide Inv, Clean;
    RunInv(run, i);
    StoppedIsClean(run[i]);
  }

  /** What a nil result of any `waitAll` means for the connections themselves: each one registered before the call has run
      its close hook, once, after its open hook and all its children ended, has closed its transport and its `done`
      channel, and is marked finalized. */
  lemma WaitAllMeansClosed(run: seq<Server>, i: nat, id: nat, c: ConnId)
    requires IsRun(run) && i < |run|
    requires id in run[i].registry.waits && run[i].registry.waits[id].progress.ReturnedNil?
    requires c in run[i].registry.waits[id].registered
    ensures c in run[i].conns && c in run[i].registry.shards.life && run[i].registry.shards.life[c].Finalized?
    ensures Finished(run[i].conns[c]) && C.ChildrenGone(run[i].conns[c])
  {
    RunInv(run, i);
    FinalizedIsClosed(run[i], id, c);
  }

  lemma FinalizedIsClosed(s: Server, id: nat, c: ConnId)
    requires Inv(s) && id in s.registry.waits && s.registry.waits[id].progress.ReturnedNil?
    requires c in s.registry.waits[id].registered
    ensures c in s.conns && c in s.registry.shards.life && s.registry.shards.life[c].Finalized?
    ensures Finished(s.conns[c]) && C.ChildrenGone(s.conns[c])
  {
    hide P.Inv, R.Inv, C.Inv, Finished, WritersInv, AwaitedInv, GatesInv, C.ChildrenGone, WinsInv;
    WaitedMeansFinalized(s.registry, id);
    GoneMeansClosed(s.conns[c]);
  }

  lemma GoneMeansClosed(conn: C.Conn)
    requires C.Inv(conn) && conn.life.supervisor.Gone?
    ensures Finished(conn) && C.ChildrenGone(conn)
  {
    hide C.LineInv, C.SendInv;
  }

  // ---------------------------------------------------------------- the setup gate

  /** The owner only moves on, a timeout is never forgotten, and once setups have been awaited no connection is
      added. */
  ghost predicate Forward(s: Server, s': Server)
  {
    && s.owner.Rank() <= s'.owner.Rank() && (s.timedOut ==> s'.timedOut)
    && s.conns.Keys <= s'.conns.Keys
    && (s.owner.Rank() > 1 ==> s'.pool.accepted == s.pool.accepted)
    && (s.owner.Rank() > 4 && !s'.timedOut ==> s'.conns.Keys == s.conns.Keys)
  }

  lemma ForwardStep(s: Server, step: Step)
    requires Inv(s) && Enabled(s, step)
    ensures Forward(s, Apply(s, step))
  {
    hide P.Inv, R.Inv, C.Inv, P.Apply, P.Enabled, C.Apply, C.Enabled, WritersInv, AwaitedInv, LinkInv, ConnsInv,
         R.ShardStep, R.ShardEnabled, R.WaitStep, C.CloseStep, C.DrainStep, P.IntakeStep, P.CancelStep, WalkInv, AskInv, WinsInv,
         OwnerStep, OwnerEnabled, PR.Expired, P.DrainOnceReturned;
    match step
    case Owns(a) => ForwardOwner(s, a);
    case Pools(a) => PR.ForwardStep(s.pool, a);
    case _ =>
  }

  lemma ForwardProceed(s: Server)
    requires OwnerEnabled(s, Proceed)
    ensures Forward(s, OwnerStep(s, Proceed))
  {
    hide P.LockFree, R.AllFinalized;
  }

  lemma ForwardOwner(s: Server, a: OwnerAction)
    requires OwnerEnabled(s, a)
    ensures Forward(s, OwnerStep(s, a))
  {
    hide R.WaitStep, R.WaitEnabled, C.CloseStep, C.DrainStep, C.DrainEnabled, C.Busy, P.LockFree, C.CloseEnabled,
         R.AllFinalized, R.GroupOf, Proceeded, ProceedEnabled, Asked, P.Registry, P.DrainOnceReturned;
    if a.Proceed? {
      ForwardProceed(s);
    }
  }

  lemma {:induction false} RunForward(run: seq<Server>, i: nat, j: nat)
    requires IsRun(run) && i <= j < |run|
    ensures Forward(run[i], run[j])
    decreases j - i
  {
    hide Inv, Apply, Enabled;
    if i == j {
    } else {
      RunForward(run, i, j - 1);
      RunInv(run, j - 1);
      assert Next(run[j - 1], run[j]);
      var step :| Enabled(run[j - 1], step) && run[j] == Apply(run[j - 1], step);
      ForwardStep(run[j - 1], step);
    }
  }

  /** From the owner's first step on, no task is accepted, timed out or not. */
  lemma NoTaskAfterStop(run: seq<Server>, i: nat, j: nat)
    requires IsRun(run) && i <= j < |run| && run[i].owner.Rank() > StopIntake.Rank()
    ensures run[j].pool.accepted == run[i].pool.accepted
  {
    RunForward(run, i, j);
  }

  /** The setup gate: from the quiesce snapshot on, in a shutdown that has not timed out, no connection is ever
      added, so the snapshots of the later phases miss none. */
  lemma NoConnectionAfterQuiesce(run: seq<Server>, i: nat, j: nat)
    requires IsRun(run) && i <= j < |run|
    requires run[i].owner.Rank() >= ScanQuiesce(0, {}).Rank() && !run[j].timedOut
    ensures run[j].conns.Keys == run[i].conns.Keys
  {
    RunForward(run, i, j);
  }
}

