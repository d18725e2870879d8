/**
  A shutdown that has not timed out can still end cleanly, from any state it can
  reach (server.go): submissions leave, setups finish, the pool drains, every
  connection's writer stops, every connection comes to its end, `waitAll` returns
  nil and the services exit.
 */
module ShutdownCleanly {
  import opened Bytes
  import opened Shutdown
  import opened ShutdownRuns
  import opened ShutdownProgress
  import C = Connection
  import CF = ConnectionFlow
  import CP = ConnectionProgress
  import P = WorkerPool
  import PP = WorkerPoolProgress
  import R = Registry
  import RP = RegistryProgress

  // ---------------------------------------------------------------- setups

  lemma FinishTakes(s: Server, k: nat)
    requires Inv(s) && k in s.setups
    ensures var t := s.(setups := s.setups - {k}); Path(s, [Setups(k, Finish)], t) && Inv(t)
  {
    hide Inv, Path;
    PathOne(s, Setups(k, Finish));
  }

  lemma {:induction false} SetupsFinish(s: Server) returns (steps: seq<Step>, t: Server)
    requires Inv(s)
    ensures Path(s, steps, t) && Inv(t) && t == s.(setups := {})
    decreases s.setups
  {
    hide Inv, Path;
    if s.setups == {} {
      steps, t := [], s;
      PathNone(s);
    } else {
      var k :| k in s.setups;
      FinishTakes(s, k);
      var m := s.(setups := s.setups - {k});
      var more;
      more, t := SetupsFinish(m);
      PathThen(s, [Setups(k, Finish)], m, more, t);
      steps := [Setups(k, Finish)] + more;
    }
  }

  /** Until the owner stops setups a connection can be added: its setup is admitted and it is registered in its shard. */
  lemma CanSetUp(run: seq<Server>, transport: C.Transport, capacity: nat) returns (longer: seq<Server>, c: ConnId)
    requires IsRun(run) && run[|run| - 1].owner.Rank() <= StopSetups.Rank()
    ensures IsRun(longer) && run <= longer && c !in run[|run| - 1].conns && c in longer[|longer| - 1].conns
    ensures R.InItsShard(longer[|longer| - 1].registry.shards, c)
  {
    hide Inv, Path, Enabled, Apply;
    var s := run[|run| - 1];
    RunInv(run, |run| - 1);
    var k := FreshFrom(s.setups);
    c := FreshFrom(s.conns.Keys);
    SetupTakes(s, k, c, transport, capacity);
    longer := RunsOn(run, [Setups(k, Begin)] + [Setups(k, AddConnection(c, transport, capacity))],
                     Added(s.(setups := s.setups + {k}), c, transport, capacity));
    InShard(s, k, c, transport, capacity);
  }

  function Added(s: Server, c: ConnId, transport: C.Transport, capacity: nat): Server
    requires R.ShardEnabled(s.registry.shards, c, R.Add)
  {
    s.(conns := s.conns[c := C.Fresh(transport, capacity)],
       registry := s.registry.(shards := R.ShardStep(s.registry.shards, c, R.Add)))
  }

  lemma CanAdd(s: Server, c: ConnId)
    requires Inv(s) && c !in s.conns
    ensures R.ShardEnabled(s.registry.shards, c, R.Add)
  {
    hide P.Inv, ConnsInv, WritersInv, WinsInv, AwaitedInv, WalkInv, AskInv, GatesInv, R.WaitInv;
  }

  lemma AdmitsSetups(s: Server)
    requires Inv(s) && s.owner.Rank() <= 2
    ensures s.acceptingSetups
  {
    hide P.Inv, R.Inv, ConnsInv, LinkInv, WritersInv, WinsInv, AwaitedInv, WalkInv, AskInv;
  }

  lemma SetupTakes(s: Server, k: nat, c: ConnId, transport: C.Transport, capacity: nat)
    requires Inv(s) && s.owner.Rank() <= 2 && k !in s.setups && c !in s.conns
    ensures R.ShardEnabled(s.registry.shards, c, R.Add)
    ensures Path(s, [Setups(k, Begin)] + [Setups(k, AddConnection(c, transport, capacity))],
                 Added(s.(setups := s.setups + {k}), c, transport, capacity))
  {
    hide Inv, Path, R.ShardEnabled, R.ShardStep;
    AdmitsSetups(s);
    CanAdd(s, c);
    var m := s.(setups := s.setups + {k});
    PathOne(s, Setups(k, Begin));
    PathOne(m, Setups(k, AddConnection(c, transport, capacity)));
    PathThen(s, [Setups(k, Begin)], m, [Setups(k, AddConnection(c, transport, capacity))], Added(m, c, transport, capacity));
  }

  lemma InShard(s: Server, k: nat, c: ConnId, transport: C.Transport, capacity: nat)
    requires R.ShardEnabled(s.registry.shards, c, R.Add)
    ensures R.InItsShard(Added(s.(setups := s.setups + {k}), c, transport, capacity).registry.shards, c)
  {
  }

  // ---------------------------------------------------------------- a connection's own steps

  function ConnLifted(c: ConnId, steps: seq<C.Step>): (r: seq<Step>)
    ensures |r| == |steps|
  {
    seq(|steps|, i requires 0 <= i < |steps| => Conns(c, steps[i]))
  }

  lemma FreeTakes(s: Server, c: ConnId, step: C.Step)
    requires Inv(s) && c in s.conns && C.Enabled(s.conns[c], step) && CP.FreeStep(step)
    ensures var t := s.(conns := s.conns[c := C.Apply(s.conns[c], step)]); Path(s, [Conns(c, step)], t) && Inv(t)
  {
    hide Inv, Path, C.Enabled, C.Apply;
    PathOne(s, Conns(c, step));
  }

  lemma {:induction false} LiftConn(s: Server, c: ConnId, steps: seq<C.Step>, conn: C.Conn)
    requires Inv(s) && c in s.conns && CP.Path(s.conns[c], steps, conn) && CP.Free(steps)
    ensures Path(s, ConnLifted(c, steps), s.(conns := s.conns[c := conn])) && Inv(s.(conns := s.conns[c := conn]))
    decreases |steps|
  {
    hide Inv, Path, C.Enabled, C.Apply, CP.FreeStep;
    if steps == [] {
      PathNone(s);
      assert s.conns[c := conn] == s.conns;
    } else {
      FreeTakes(s, c, steps[0]);
      var m := s.(conns := s.conns[c := C.Apply(s.conns[c], steps[0])]);
      LiftConn(m, c, steps[1..], conn);
      assert m.conns[c := conn] == s.conns[c := conn];
      PathThen(s, [Conns(c, steps[0])], m, ConnLifted(c, steps[1..]), s.(conns := s.conns[c := conn]));
      assert ConnLifted(c, steps) == [Conns(c, steps[0])] + ConnLifted(c, steps[1..]);
    }
  }

  lemma BornOf(s: Server, c: ConnId)
    requires Inv(s) && c in s.conns
    ensures C.Inv(s.conns[c]) && CF.ChildrenBorn(s.conns[c])
  {
    hide Inv, C.Inv, CF.Settling, CF.GateReason, CF.ChildrenBorn;
    ConnOf(s, c);
  }

  /** The owner drains one connection, and then the rest. */
  lemma {:induction false} DrainsRest(s: Server) returns (steps: seq<Step>, t: Server)
    requires Inv(s) && s.owner.DrainConns?
    ensures Path(s, steps, t) && Inv(t) && t.owner.DrainConns? && OwnerEnabled(t, Proceed) && t.timedOut == s.timedOut
    decreases s.owner.todo, if s.owner.current.Some? then 0 else 1
  {
    hide Inv, Path, C.DrainStep;
    WalkFacts(s);
    if s.owner.current.None? && s.owner.todo == {} {
      steps, t := [], s;
      PathNone(s);
    } else if s.owner.current.None? {
      var c :| c in s.owner.todo;
      OwnerTakes(s, AskDrain(c));
      var m := OwnerStep(s, AskDrain(c));
      var more;
      more, t := DrainsRest(m);
      PathThen(s, [Owns(AskDrain(c))], m, more, t);
      steps := [Owns(AskDrain(c))] + more;
    } else {
      CurrentInTodo(s);
      var a, m := DrainOne(s);
      var more;
      more, t := DrainsRest(m);
      PathThen(s, a, m, more, t);
      steps := a + more;
    }
  }

  /** The connection the owner is busy with has its gate shut and its writer stopped. */
  lemma DrainOne(s: Server) returns (steps: seq<Step>, t: Server)
    requires Inv(s) && s.owner.DrainConns? && s.owner.current.Some? && s.owner.current.value in s.owner.todo
    ensures Path(s, steps, t) && Inv(t) && t.owner == DrainConns(s.owner.todo - {s.owner.current.value}, None)
    ensures t.timedOut == s.timedOut
  {
    hide Inv, Path, CP.Path, C.Inv, CF.ChildrenBorn, CP.Free;
    WalkFacts(s);
    var c := s.owner.current.value;
    steps, t := [], s;
    PathNone(s);
    if s.conns[c].gate.drain.StateMarked? {
      OwnerTakes(s, ShutDrain);
      steps, t := [Owns(ShutDrain)], OwnerStep(s, ShutDrain);
    }
    BornOf(t, c);
    var a, conn := CP.WriterCanExit(t.conns[c]);
    KeptDrain(t.conns[c], a, conn);
    LiftConn(t, c, a, conn);
    var m := t.(conns := t.conns[c := conn]);
    PathThen(s, steps, t, ConnLifted(c, a), m);
    OwnerTakes(m, SeeDrained);
    PathThen(s, steps + ConnLifted(c, a), m, [Owns(SeeDrained)], OwnerStep(m, SeeDrained));
    steps, t := steps + ConnLifted(c, a) + [Owns(SeeDrained)], OwnerStep(m, SeeDrained);
  }

  /** The connection's own steps do not take a drain back. */
  lemma {:induction false} KeptDrain(conn: C.Conn, steps: seq<C.Step>, conn': C.Conn)
    requires CP.Path(conn, steps, conn') && CP.Free(steps) && (conn.gate.drain.GateShut? || conn.gate.drain.WriterTold?)
    ensures conn'.gate.drain.GateShut? || conn'.gate.drain.WriterTold?
    decreases |steps|
  {
    hide C.Apply, C.Enabled, CP.FreeStep;
    if steps == [] {
    } else {
      DrainKept(conn, steps[0]);
      KeptDrain(C.Apply(conn, steps[0]), steps[1..], conn');
    }
  }

  lemma DrainKept(conn: C.Conn, step: C.Step)
    requires C.Enabled(conn, step) && CP.FreeStep(step) && (conn.gate.drain.GateShut? || conn.gate.drain.WriterTold?)
    ensures var g := C.Apply(conn, step).gate; g.drain.GateShut? || g.drain.WriterTold?
  {
    hide C.Busy, C.Chunk, C.TakeOne, C.MayRequest, C.NoneInFlight, C.Truthful, C.ChildrenGone;
  }

  // ---------------------------------------------------------------- a connection comes to its end

  /** Nothing but its own parts is needed any more. */
  ghost predicate Finishing(conn: C.Conn)
  {
    conn.shut.winners != [] || !conn.life.supervisor.AwaitChildren?
  }

  lemma FinishingNext(conn: C.Conn)
    requires C.Inv(conn) && CF.ChildrenBorn(conn) && Finishing(conn) && !conn.life.supervisor.Gone?
    ensures var step := CP.NextStep(conn);
            && C.Enabled(conn, step) && !FromServer(step) && !OwnersDrain(step)
            && Finishing(C.Apply(conn, step)) && CP.Distance(C.Apply(conn, step)) < CP.Distance(conn)
  {
    CP.NextStepEnabled(conn);
    CP.NextStepNearer(conn);
    StaysFinishing(conn, CP.NextStep(conn));
    hide C.LineInv, C.SendInv, C.DrainInv, C.ReportInv, C.EffectInv, C.ExitInv, C.Apply, C.Enabled, CP.Distance, C.ChildrenGone;
  }

  lemma StaysFinishing(conn: C.Conn, step: C.Step)
    requires C.Inv(conn) && C.Enabled(conn, step) && Finishing(conn)
    ensures Finishing(C.Apply(conn, step))
  {
    hide C.Inv, C.Enabled, C.Apply, CF.SendsFlow, CF.WriterFlow, CF.ReportFlow;
    CF.StepFlows(conn, step);
  }

  /** Nothing else has changed. */
  ghost predicate OnlyConn(s: Server, t: Server, c: ConnId)
  {
    && t.owner == s.owner && t.timedOut == s.timedOut && t.conns.Keys == s.conns.Keys && t.registry.waits == s.registry.waits
    && forall x :: x in s.conns && x != c ==> t.conns[x] == s.conns[x]
  }

  lemma MoveAllowed(s: Server, c: ConnId, step: C.Step)
    requires Inv(s) && c in s.conns && C.Enabled(s.conns[c], step) && !FromServer(step) && !OwnersDrain(step)
    ensures ConnEnabled(s, c, step)
  {
    hide P.Inv, ConnsInv, WritersInv, WinsInv, AwaitedInv, WalkInv, AskInv, GatesInv, C.Enabled, R.WaitInv, R.FinalizingInv;
    GroupBound(s, c);
  }

  lemma ConnTakes(s: Server, c: ConnId, step: C.Step)
    requires Inv(s) && ConnEnabled(s, c, step)
    ensures Path(s, [Conns(c, step)], ConnStep(s, c, step)) && Inv(ConnStep(s, c, step)) && OnlyConn(s, ConnStep(s, c, step), c)
    ensures c in ConnStep(s, c, step).conns && ConnStep(s, c, step).conns[c] == C.Apply(s.conns[c], step)
  {
    hide Inv, Path, C.Enabled, C.Apply, R.ShardStep, R.ShardEnabled;
    PathOne(s, Conns(c, step));
  }

  lemma {:induction false} ConnFinishes(s: Server, c: ConnId) returns (steps: seq<Step>, t: Server)
    requires Inv(s) && c in s.conns && Finishing(s.conns[c])
    ensures Path(s, steps, t) && Inv(t) && OnlyConn(s, t, c) && c in t.conns && t.conns[c].life.supervisor.Gone?
    decreases CP.Distance(s.conns[c])
  {
    hide Inv, Path, CP.Distance, C.Enabled, C.Apply, CP.NextStep, ConnEnabled, ConnStep, Finishing, C.Inv, CF.ChildrenBorn;
    if s.conns[c].life.supervisor.Gone? {
      steps, t := [], s;
      PathNone(s);
    } else {
      BornOf(s, c);
      FinishingNext(s.conns[c]);
      var step := CP.NextStep(s.conns[c]);
      MoveAllowed(s, c, step);
      ConnTakes(s, c, step);
      var m := ConnStep(s, c, step);
      var more;
      more, t := ConnFinishes(m, c);
      PathThen(s, [Conns(c, step)], m, more, t);
      steps := [Conns(c, step)] + more;
    }
  }

  function Unfinished(s: Server): set<ConnId>
  {
    set c | c in s.conns && !s.conns[c].life.supervisor.Gone?
  }

  lemma {:induction false} AllFinish(s: Server) returns (steps: seq<Step>, t: Server)
    requires Inv(s) && forall c :: c in s.conns ==> Finishing(s.conns[c])
    ensures Path(s, steps, t) && Inv(t) && Unfinished(t) == {}
    ensures t.owner == s.owner && t.timedOut == s.timedOut && t.registry.waits == s.registry.waits
    decreases |Unfinished(s)|
  {
    hide Inv, Path, Finishing;
    if Unfinished(s) == {} {
      steps, t := [], s;
      PathNone(s);
    } else {
      var c :| c in Unfinished(s);
      var a, m := ConnFinishes(s, c);
      FewerUnfinished(s, m, c);
      assert Finishing(m.conns[c]) by { GoneFinishes(m.conns[c]); }
      var b;
      b, t := AllFinish(m);
      PathThen(s, a, m, b, t);
      steps := a + b;
    }
  }

  lemma GoneFinishes(conn: C.Conn)
    requires conn.life.supervisor.Gone?
    ensures Finishing(conn)
  {
  }

  lemma FewerUnfinished(s: Server, t: Server, c: ConnId)
    requires OnlyConn(s, t, c) && c in Unfinished(s) && c in t.conns && t.conns[c].life.supervisor.Gone?
    ensures |Unfinished(t)| < |Unfinished(s)|
  {
    assert Unfinished(t) == Unfinished(s) - {c};
  }

  /** After the forced close every connection is on its way to its end. */
  lemma ForcedFinishes(s: Server, c: ConnId)
    requires Inv(s) && !s.timedOut && s.owner.Rank() > 11 && c in s.conns
    ensures Finishing(s.conns[c])
  {
    hide Inv, C.Inv;
    DownOrLeftThen(s, c);
    BornOf(s, c);
    DownFinishes(s.conns[c]);
  }

  lemma DownOrLeftThen(s: Server, c: ConnId)
    requires Inv(s) && !s.timedOut && s.owner.Rank() > 11 && c in s.conns
    ensures Down(s.conns[c]) || Left(s.conns[c])
  {
    hide P.Inv, R.Inv, LinkInv, ConnsInv, GatesInv, WritersInv, WinsInv, AwaitedInv, AskInv, QuiesceWalk, LateWalk, DrainWalk,
         FoundInv, Down, Left;
    assert DownOrLeft(s.conns, c);
  }

  lemma DownFinishes(conn: C.Conn)
    requires C.Inv(conn) && (Down(conn) || Left(conn))
    ensures Finishing(conn)
  {
    hide C.LineInv, C.SendInv, C.ReportInv, C.DrainInv, C.Busy;
  }

  // ---------------------------------------------------------------- waitAll returns nil

  lemma AllFinalizedNow(s: Server)
    requires Inv(s) && Unfinished(s) == {}
    ensures R.Inv(s.registry) && RP.Unfinalized(s.registry.shards) == {}
  {
    hide P.Inv, R.Inv, ConnsInv, GatesInv, WritersInv, WinsInv, AwaitedInv, AskInv, WalkInv;
    forall c | c in s.registry.shards.life
      ensures s.registry.shards.life[c].Finalized?
    {
      assert c !in Unfinished(s);
    }
  }

  lemma {:induction false} WaitReturnsNil(s: Server) returns (steps: seq<Step>, t: Server)
    requires Inv(s) && s.owner.InWait? && s.owner.id in s.registry.waits && Unfinished(s) == {}
    requires !s.registry.waits[s.owner.id].progress.ReturnedError?
    ensures Path(s, steps, t) && Inv(t) && t.owner == s.owner && t.timedOut == s.timedOut && OwnerEnabled(t, Proceed)
    decreases RP.WaitLeft(s.registry.waits[s.owner.id].progress),
      RP.GroupsLeft(s.registry, s.registry.waits[s.owner.id].progress), RP.TodoLeft(s.registry.waits[s.owner.id].progress)
  {
    hide Inv, Path, R.WaitStep, R.WaitEnabled, R.Inv, R.Deserted;
    var id := s.owner.id;
    if s.registry.waits[id].progress.ReturnedNil? {
      steps, t := [], s;
      PathNone(s);
    } else {
      AllFinalizedNow(s);
      RP.NoneLeft(s.registry);
      var a := RP.WaitGoesOn(s.registry, id);
      RP.StillThere(s.registry, id, a);
      NotACall(s.registry, id, a);
      WaitTakes(s, id, a);
      var m := s.(registry := R.WaitStep(s.registry, id, a));
      var more;
      more, t := WaitReturnsNil(m);
      PathThen(s, [WaitLoop(id, a)], m, more, t);
      steps := [WaitLoop(id, a)] + more;
    }
  }

  lemma NotACall(r: R.Registry, id: nat, a: R.WaitAction)
    requires id in r.waits && R.WaitEnabled(r, id, a)
    ensures !a.Call?
  {
  }

  // ---------------------------------------------------------------- services

  lemma ServiceTakes(s: Server, x: nat)
    requires Inv(s) && x in s.serving
    ensures var t := s.(serving := s.serving - {x}); Path(s, [ServiceEnds(x)], t) && Inv(t)
  {
    hide Inv, Path;
    PathOne(s, ServiceEnds(x));
  }

  lemma {:induction false} ServicesEnd(s: Server) returns (steps: seq<Step>, t: Server)
    requires Inv(s)
    ensures Path(s, steps, t) && Inv(t) && t == s.(serving := {})
    decreases s.serving
  {
    hide Inv, Path;
    if s.serving == {} {
      steps, t := [], s;
      PathNone(s);
    } else {
      var x :| x in s.serving;
      ServiceTakes(s, x);
      var m := s.(serving := s.serving - {x});
      var more;
      more, t := ServicesEnd(m);
      PathThen(s, [ServiceEnds(x)], m, more, t);
      steps := [ServiceEnds(x)] + more;
    }
  }

  // ---------------------------------------------------------------- phase by phase

  lemma PoolDrains(s: Server) returns (steps: seq<Step>, t: Server)
    requires Inv(s) && s.owner.DrainPool?
    ensures Path(s, steps, t) && Inv(t) && t.owner.DrainPool? && t.pool.intake.done && t.timedOut == s.timedOut
  {
    hide Inv, Path, PP.Path, PP.Good, PP.Own, P.DrainOnceReturned;
    var a, m := EnterDrain(s);
    GoodPool(m);
    var b, q := PP.CompleteEntered(m.pool);
    Lift(m, b, q);
    PathThen(s, a, m, Lifted(b), m.(pool := q));
    steps, t := a + Lifted(b), m.(pool := q);
  }

  lemma ConnectionsEnd(s: Server) returns (steps: seq<Step>, t: Server)
    requires Inv(s) && !s.timedOut && s.owner.InWait?
    requires s.owner.id in s.registry.waits && !s.registry.waits[s.owner.id].progress.ReturnedError?
    ensures Path(s, steps, t) && Inv(t) && t.owner == s.owner && !t.timedOut && OwnerEnabled(t, Proceed)
  {
    hide Inv, Path, Finishing, OwnerEnabled;
    forall c | c in s.conns
      ensures Finishing(s.conns[c])
    {
      ForcedFinishes(s, c);
    }
    var a, m := AllFinish(s);
    var b;
    b, t := WaitReturnsNil(m);
    PathThen(s, a, m, b, t);
    steps := a + b;
  }

  /** The owner's own wait has not failed as long as nothing has timed out. */
  ghost predicate WaitGoesWell(s: Server)
  {
    s.owner.InWait? && s.owner.id in s.registry.waits ==> !s.registry.waits[s.owner.id].progress.ReturnedError?
  }

  lemma OwnWait(s: Server)
    requires WaitGoesWell(s) && s.owner.InWait? && s.owner.id in s.registry.waits
    ensures !s.registry.waits[s.owner.id].progress.ReturnedError?
  {
  }

  lemma CallsWait(s: Server) returns (steps: seq<Step>, t: Server)
    requires Inv(s) && !s.timedOut && s.owner.CallWait?
    ensures Path(s, steps, t) && Inv(t) && !t.timedOut && WaitGoesWell(t) && s.owner.Rank() < t.owner.Rank()
  {
    hide Inv, Path;
    var id := FreshFrom(s.registry.waits.Keys);
    OwnerTakes(s, StartWait(id));
    steps, t := [Owns(StartWait(id))], OwnerStep(s, StartWait(id));
  }

  lemma NotWaiting(s: Server)
    requires !s.owner.InWait?
    ensures WaitGoesWell(s)
  {
  }

  lemma ProceedNeverWaits(s: Server)
    requires ProceedEnabled(s)
    ensures !Proceeded(s).owner.InWait?
  {
    hide Concluded, P.LockFree;
  }

  /** Only a shutdown that has timed out comes to its late phases. */
  lemma NotLate(s: Server)
    requires Inv(s) && !s.timedOut
    ensures !s.owner.CancelDrain? && !s.owner.CallCancel? && !s.owner.CancelLate?
  {
    hide P.Inv, R.Inv, LinkInv, ConnsInv, WritersInv, WinsInv, AwaitedInv, WalkInv, AskInv;
  }

  /** What has to happen before the owner can go on. */
  lemma ReadyToProceed(s: Server) returns (steps: seq<Step>, t: Server)
    requires Inv(s) && !s.timedOut && !s.owner.Stopped? && !s.owner.CallWait? && WaitGoesWell(s)
    ensures Path(s, steps, t) && Inv(t) && !t.timedOut && t.owner.Rank() == s.owner.Rank() && OwnerEnabled(t, Proceed)
  {
    hide Inv, Path, P.LockFree, WaitGoesWell;
    NotLate(s);
    if s.owner.ScanQuiesce? || s.owner.ScanDrain? || s.owner.ScanForce? || s.owner.ScanLate? {
      steps, t := ScanRest(s);
    } else if s.owner.Quiesce? {
      steps, t := QuiesceRest(s);
    } else if s.owner.ForceClose? || s.owner.CloseLate? {
      steps, t := CloseRest(s);
    } else if s.owner.DrainPool? {
      steps, t := PoolDrains(s);
    } else if s.owner.DrainConns? {
      steps, t := DrainsRest(s);
    } else if s.owner.InWait? {
      WaitThere(s);
      OwnWait(s);
      steps, t := ConnectionsEnd(s);
    } else if s.owner.AwaitServices? {
      steps, t := ServicesEnd(s);
    } else if s.owner.AwaitSetups? {
      steps, t := SetupsFinish(s);
    } else if s.owner.StopIntake? {
      steps, t := Unlock(s);
      FreeLock(t);
    } else {
      steps, t := [], s;
      PathNone(s);
    }
  }

  lemma CleanPhase(s: Server) returns (steps: seq<Step>, t: Server)
    requires Inv(s) && !s.timedOut && !s.owner.Stopped? && WaitGoesWell(s)
    ensures Path(s, steps, t) && Inv(t) && !t.timedOut && WaitGoesWell(t) && s.owner.Rank() < t.owner.Rank()
  {
    hide Inv, Path, WaitGoesWell, OwnerEnabled, OwnerStep, Proceeded;
    if s.owner.CallWait? {
      steps, t := CallsWait(s);
    } else {
      var first, m := ReadyToProceed(s);
      steps, t := ThenOwner(s, first, m, Proceed);
      ProceedGoesWell(m);
    }
  }

  lemma ProceedGoesWell(s: Server)
    requires OwnerEnabled(s, Proceed) && !s.timedOut
    ensures WaitGoesWell(OwnerStep(s, Proceed)) && !OwnerStep(s, Proceed).timedOut
    ensures s.owner.Rank() < OwnerStep(s, Proceed).owner.Rank()
  {
    hide Proceeded, ProceedEnabled;
    ProceedNeverWaits(s);
    ProceedRaises(s);
    ProceedShape(s);
  }

  lemma {:induction false} WayToCleanStop(s: Server) returns (steps: seq<Step>, t: Server)
    requires Inv(s) && !s.timedOut && WaitGoesWell(s)
    ensures Path(s, steps, t) && Inv(t) && t.owner.Stopped? && !t.timedOut
    decreases 20 - s.owner.Rank()
  {
    hide Inv, Path, WaitGoesWell;
    if s.owner.Stopped? {
      steps, t := [], s;
      PathNone(s);
    } else {
      var a, m := CleanPhase(s);
      var b;
      b, t := WayToCleanStop(m);
      PathThen(s, a, m, b, t);
      steps := a + b;
    }
  }

  /** From any state of any run in which no wait of the owner has failed, the shutdown can still end cleanly: everything
      accepted served and finished, every connection closed, every service and listener gone. */
  lemma CanAlwaysStopCleanly(run: seq<Server>) returns (longer: seq<Server>)
    requires IsRun(run) && !run[|run| - 1].timedOut && WaitGoesWell(run[|run| - 1])
    ensures IsRun(longer) && run <= longer && longer[|longer| - 1].owner.Stopped? && Clean(longer[|longer| - 1])
  {
    hide Inv, Path, Enabled, Apply, Clean, WaitGoesWell;
    RunInv(run, |run| - 1);
    var steps, t := WayToCleanStop(run[|run| - 1]);
    longer := RunsOn(run, steps, t);
    StoppedIsClean(t);
  }
}

