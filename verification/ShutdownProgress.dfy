/**
  A shutdown never gets stuck (server.go): from any state it can reach, its owner
  can publish `Stopped`, because each of its waits can end or time out and each of
  its calls can return.
 */
module ShutdownProgress {
  import opened Shutdown
  import opened ShutdownRuns
  import C = Connection
  import CR = ConnectionRuns
  import CF = ConnectionFlow
  import CP = ConnectionProgress
  import P = WorkerPool
  import PP = WorkerPoolProgress
  import R = Registry

  ghost predicate Path(s: Server, steps: seq<Step>, t: Server)
    decreases |steps|
  {
    if steps == [] then t == s else Enabled(s, steps[0]) && Path(Apply(s, steps[0]), steps[1..], t)
  }

  lemma {:induction false} PathThen(s: Server, a: seq<Step>, m: Server, b: seq<Step>, t: Server)
    requires Path(s, a, m) && Path(m, b, t)
    ensures Path(s, a + b, t)
    decreases |a|
  {
    hide Enabled, Apply;
    if a == [] {
      assert a + b == b;
    } else {
      PathThen(Apply(s, a[0]), a[1..], m, b, t);
      assert (a + b)[1..] == a[1..] + b;
    }
  }

  lemma PathNone(s: Server)
    ensures Path(s, [], s)
  {
  }

  lemma PathOne(s: Server, step: Step)
    requires Inv(s) && Enabled(s, step)
    ensures Path(s, [step], Apply(s, step)) && Inv(Apply(s, step))
  {
    hide Enabled, Apply, Inv;
    assert [step][1..] == [];
    InvStep(s, step);
  }

  lemma {:induction false} RunsOn(run: seq<Server>, steps: seq<Step>, t: Server) returns (longer: seq<Server>)
    requires IsRun(run) && Path(run[|run| - 1], steps, t)
    ensures IsRun(longer) && run <= longer && longer[|longer| - 1] == t
    decreases |steps|
  {
    hide Enabled, Apply;
    if steps == [] {
      longer := run;
    } else {
      var next := Apply(run[|run| - 1], steps[0]);
      longer := run + [next];
      assert Next(run[|run| - 1], next);
      forall i | 0 < i < |longer|
        ensures Next(longer[i - 1], longer[i])
      {
        if i < |run| {
          assert Next(run[i - 1], run[i]);
        }
      }
      longer := RunsOn(longer, steps[1..], t);
    }
  }

  /** A step of the owner. */
  lemma OwnerTakes(s: Server, a: OwnerAction)
    requires Inv(s) && OwnerEnabled(s, a)
    ensures Path(s, [Owns(a)], OwnerStep(s, a)) && Inv(OwnerStep(s, a))
  {
    hide Inv, OwnerEnabled, OwnerStep, Path;
    PathOne(s, Owns(a));
  }

  // ---------------------------------------------------------------- the pool's own steps

  function Lifted(steps: seq<P.Step>): (r: seq<Step>)
    ensures |r| == |steps|
  {
    seq(|steps|, i requires 0 <= i < |steps| => Pools(steps[i]))
  }

  lemma PoolTakes(s: Server, step: P.Step)
    requires Inv(s) && P.Enabled(s.pool, step) && PP.Own([step])
    ensures Path(s, [Pools(step)], s.(pool := P.Apply(s.pool, step))) && Inv(s.(pool := P.Apply(s.pool, step)))
  {
    hide Inv, P.Enabled, P.Apply, Path;
    assert [step][0] == step;
    PathOne(s, Pools(step));
  }

  /** What the pool can do by itself it can do in the server. */
  lemma {:induction false} Lift(s: Server, steps: seq<P.Step>, q: P.Pool)
    requires Inv(s) && PP.Path(s.pool, steps, q) && PP.Own(steps)
    ensures Path(s, Lifted(steps), s.(pool := q)) && Inv(s.(pool := q))
    decreases |steps|
  {
    hide Inv, P.Enabled, P.Apply, Path;
    if steps == [] {
      PathNone(s);
    } else {
      assert PP.Own([steps[0]]) by { assert [steps[0]][0] == steps[0]; }
      PoolTakes(s, steps[0]);
      var m := s.(pool := P.Apply(s.pool, steps[0]));
      Lift(m, steps[1..], q);
      PathThen(s, [Pools(steps[0])], m, Lifted(steps[1..]), s.(pool := q));
      assert Lifted(steps) == [Pools(steps[0])] + Lifted(steps[1..]);
    }
  }

  lemma GoodPool(s: Server)
    requires Inv(s)
    ensures PP.Good(s.pool)
  {
    hide P.Inv, R.Inv, LinkInv, ConnsInv, WritersInv, WinsInv, AwaitedInv, WalkInv, AskInv;
  }

  /** Submissions leave the lock. */
  lemma Unlock(s: Server) returns (steps: seq<Step>, t: Server)
    requires Inv(s)
    ensures Path(s, steps, t) && Inv(t) && t == s.(pool := t.pool)
    ensures t.pool.intake == s.pool.intake && PP.Holding(t.pool) == {}
  {
    hide Inv, Path, PP.Path, PP.Good, PP.Own, PP.Holding;
    GoodPool(s);
    var a, q := PP.AllLeave(s.pool);
    Lift(s, a, q);
    steps, t := Lifted(a), s.(pool := q);
  }

  // ---------------------------------------------------------------- walks

  lemma {:induction false} ScanRest(s: Server) returns (steps: seq<Step>, t: Server)
    requires Inv(s) && (s.owner.ScanQuiesce? || s.owner.ScanDrain? || s.owner.ScanForce? || s.owner.ScanLate?)
    ensures Path(s, steps, t) && Inv(t) && t.owner.Rank() == s.owner.Rank() && OwnerEnabled(t, Proceed) && t.timedOut == s.timedOut
    decreases if s.owner.group < |s.registry.shards.groups| then |s.registry.shards.groups| - s.owner.group else 0
  {
    hide Inv, Path;
    if s.owner.group >= |s.registry.shards.groups| {
      steps, t := [], s;
      PathNone(s);
    } else {
      OwnerTakes(s, Scan);
      var m := OwnerStep(s, Scan);
      var more;
      more, t := ScanRest(m);
      PathThen(s, [Owns(Scan)], m, more, t);
      steps := [Owns(Scan)] + more;
    }
  }

  lemma WalkFacts(s: Server)
    requires Inv(s)
    ensures s.owner.Quiesce? ==>
              && s.owner.todo <= s.conns.Keys
              && (s.owner.current.Some? ==> s.owner.current.value in s.conns && !s.conns[s.owner.current.value].shut.phase.Open?)
    ensures s.owner.DrainConns? ==>
              && s.owner.todo <= s.conns.Keys
              && (s.owner.current.Some? ==>
                    s.owner.current.value in s.conns && !s.conns[s.owner.current.value].gate.drain.NotAsked?)
    ensures s.owner.ForceClose? || s.owner.CloseLate? ==>
              && s.owner.todo <= s.conns.Keys && (s.owner.current.Some? ==> s.owner.current.value in s.conns)
  {
    hide P.Inv, R.Inv, LinkInv, ConnsInv, WritersInv, WinsInv, AwaitedInv, GatesInv, AskInv, QuietConn, DownConn, DownOrLeft;
  }

  lemma {:induction false} QuiesceRest(s: Server) returns (steps: seq<Step>, t: Server)
    requires Inv(s) && s.owner.Quiesce?
    ensures Path(s, steps, t) && Inv(t) && t.owner.Quiesce? && OwnerEnabled(t, Proceed) && t.timedOut == s.timedOut
    decreases s.owner.todo, s.owner.current.Some?
  {
    hide Inv, Path, C.DrainStep;
    WalkFacts(s);
    if s.owner.current.None? && s.owner.todo == {} {
      steps, t := [], s;
      PathNone(s);
    } else {
      var a: OwnerAction;
      if s.owner.current.Some? {
        a := CancelReads;
      } else {
        var c :| c in s.owner.todo;
        a := QuiesceOne(c);
      }
      OwnerTakes(s, a);
      var m := OwnerStep(s, a);
      var more;
      more, t := QuiesceRest(m);
      PathThen(s, [Owns(a)], m, more, t);
      steps := [Owns(a)] + more;
    }
  }

  /** The owner asks one connection to drain and gives up waiting for it, or finds nothing to do. */
  lemma DrainOrTimeOut(s: Server) returns (steps: seq<Step>, t: Server)
    requires Inv(s) && s.owner.DrainConns?
    ensures Path(s, steps, t) && Inv(t) && t.owner.ScanForce?
  {
    hide Inv, Path;
    WalkFacts(s);
    steps, t := [], s;
    PathNone(s);
    if s.owner.current.None? {
      if s.owner.todo == {} {
        OwnerTakes(s, Proceed);
        return [Owns(Proceed)], OwnerStep(s, Proceed);
      }
      var c :| c in s.owner.todo;
      OwnerTakes(s, AskDrain(c));
      steps, t := [Owns(AskDrain(c))], OwnerStep(s, AskDrain(c));
      WalkFacts(t);
    }
    if t.conns[t.owner.current.value].gate.drain.StateMarked? {
      OwnerTakes(t, ShutDrain);
      PathThen(s, steps, t, [Owns(ShutDrain)], OwnerStep(t, ShutDrain));
      steps, t := steps + [Owns(ShutDrain)], OwnerStep(t, ShutDrain);
    }
    OwnerTakes(t, TimeOut);
    PathThen(s, steps, t, [Owns(TimeOut)], OwnerStep(t, TimeOut));
    steps, t := steps + [Owns(TimeOut)], OwnerStep(t, TimeOut);
  }

  // ---------------------------------------------------------------- a close request returns

  lemma AdvanceTakes(s: Server, c: ConnId)
    requires Inv(s) && c in s.conns && |s.conns[c].shut.winners| == 1 && !s.conns[c].shut.winners[0].stage.Finished?
    ensures var conn := C.AdvanceCloser(s.conns[c], 0);
            && Path(s, [Conns(c, C.Closes(C.Advance(0)))], s.(conns := s.conns[c := conn]))
            && Inv(s.(conns := s.conns[c := conn]))
  {
    hide Inv, Path, C.AdvanceCloser;
    PathOne(s, Conns(c, C.Closes(C.Advance(0))));
  }

  lemma OneWinnerAt(s: Server, c: ConnId)
    requires Inv(s) && c in s.conns
    ensures C.CloseInv(s.conns[c].shut)
  {
    hide Inv, CF.Sound;
    ConnOf(s, c);
    CF.OneWinner(s.conns[c]);
  }

  lemma {:induction false} RequestReturns(s: Server, c: ConnId) returns (steps: seq<Step>, t: Server)
    requires Inv(s) && c in s.conns
    ensures Path(s, steps, t) && Inv(t) && t.owner == s.owner && t.conns.Keys == s.conns.Keys && t.timedOut == s.timedOut
    ensures c in t.conns && !C.Busy(t.conns[c].shut, C.ServerActor)
    decreases if |s.conns[c].shut.winners| == 1 then CP.StageLeft(s.conns[c].shut.winners[0].stage) else 0
  {
    hide Inv, Path, C.AdvanceCloser;
    OneWinnerAt(s, c);
    if !C.Busy(s.conns[c].shut, C.ServerActor) {
      steps, t := [], s;
      PathNone(s);
    } else {
      AdvanceTakes(s, c);
      CR.AdvanceShape(s.conns[c], 0);
      var m := s.(conns := s.conns[c := C.AdvanceCloser(s.conns[c], 0)]);
      var more;
      more, t := RequestReturns(m, c);
      PathThen(s, [Conns(c, C.Closes(C.Advance(0)))], m, more, t);
      steps := [Conns(c, C.Closes(C.Advance(0)))] + more;
    }
  }

  lemma {:induction false} CloseRest(s: Server) returns (steps: seq<Step>, t: Server)
    requires Inv(s) && (s.owner.ForceClose? || s.owner.CloseLate?)
    ensures Path(s, steps, t) && Inv(t) && t.owner.Rank() == s.owner.Rank() && OwnerEnabled(t, Proceed) && t.timedOut == s.timedOut
    decreases s.owner.todo, s.owner.current.Some?
  {
    hide Inv, Path, C.CloseStep, C.Busy;
    WalkFacts(s);
    if s.owner.current.None? && s.owner.todo == {} {
      steps, t := [], s;
      PathNone(s);
    } else if s.owner.current.None? {
      var c :| c in s.owner.todo;
      var a := CloseOne(c, 0);
      OwnerTakes(s, a);
      var m := OwnerStep(s, a);
      var more;
      more, t := CloseRest(m);
      PathThen(s, [Owns(a)], m, more, t);
      steps := [Owns(a)] + more;
    } else {
      var first, m := RequestReturns(s, s.owner.current.value);
      OwnerTakes(m, CloseReturns);
      var n := OwnerStep(m, CloseReturns);
      PathThen(s, first, m, [Owns(CloseReturns)], n);
      var more;
      more, t := CloseRest(n);
      PathThen(s, first + [Owns(CloseReturns)], n, more, t);
      steps := first + [Owns(CloseReturns)] + more;
    }
  }

  // ---------------------------------------------------------------- the pool's drain and forced cancellation

  lemma {:induction false} FreshFrom(ids: set<nat>) returns (c: nat)
    ensures c !in ids && forall x :: x in ids ==> x < c
  {
    if ids == {} {
      c := 0;
    } else {
      var x :| x in ids;
      c := FreshFrom(ids - {x});
      assert forall y :: y in ids ==> y == x || y in ids - {x};
      if c <= x {
        c := x + 1;
      }
    }
  }

  lemma EnterTakes(s: Server)
    requires Inv(s) && s.owner.DrainPool? && P.IntakeEnabled(s.pool, P.DrainEnter)
    ensures var t := s.(pool := P.IntakeStep(s.pool, P.DrainEnter)); Path(s, [Pools(P.Gates(P.DrainEnter))], t) && Inv(t)
  {
    hide Inv, Path, P.IntakeStep, P.IntakeEnabled;
    PathOne(s, Pools(P.Gates(P.DrainEnter)));
  }

  lemma {:induction false} EnterDrain(s: Server) returns (steps: seq<Step>, t: Server)
    requires Inv(s) && s.owner.DrainPool?
    ensures Path(s, steps, t) && Inv(t) && t.owner.DrainPool? && P.DrainOnceReturned(t.pool.intake) && t.timedOut == s.timedOut
    decreases s.pool.intake.drainer.NotYet?
  {
    hide Inv, Path, PP.Path, PP.Good, PP.Own, PP.Holding;
    GoodPool(s);
    PP.DrainFacts(s.pool);
    if s.pool.intake.drainer.NotYet? {
      var a, m := Unlock(s);
      PP.NobodyHolds(m.pool);
      EnterTakes(m);
      var n := m.(pool := P.IntakeStep(m.pool, P.DrainEnter));
      PathThen(s, a, m, [Pools(P.Gates(P.DrainEnter))], n);
      var more;
      more, t := EnterDrain(n);
      PathThen(s, a + [Pools(P.Gates(P.DrainEnter))], n, more, t);
      steps := a + [Pools(P.Gates(P.DrainEnter))] + more;
    } else if s.pool.intake.drainer.ClosingChannels? {
      var a, q := PP.ChannelsClose(s.pool);
      Lift(s, a, q);
      steps, t := Lifted(a), s.(pool := q);
    } else {
      steps, t := [], s;
      PathNone(s);
    }
  }

  /** The owner cancels by force: now, or from where it has got to. */
  lemma CancelRest(s: Server) returns (steps: seq<Step>, t: Server)
    requires Inv(s) && (s.owner.CancelDrain? || s.owner.CancelLate?)
    ensures Path(s, steps, t) && Inv(t) && t.owner == s.owner && OwnerEnabled(t, Proceed)
  {
    hide Inv, Path, PP.Path, PP.Good, PP.Own;
    GoodPool(s);
    CallThere(s);
    var a, q := PP.CancelReturns(s.pool, s.owner.call);
    Lift(s, a, q);
    steps, t := Lifted(a), s.(pool := q);
  }

  lemma CallThere(s: Server)
    requires Inv(s) && (s.owner.CancelDrain? || s.owner.CancelLate?)
    ensures s.owner.call in s.pool.calls
  {
    hide P.Inv, R.Inv, LinkInv, ConnsInv, WritersInv, WinsInv, AwaitedInv, WalkInv, AskInv;
  }

  lemma StartToCancel(s: Server) returns (steps: seq<Step>, t: Server)
    requires Inv(s) && (s.owner.DrainPool? || s.owner.CallCancel?) && P.DrainOnceReturned(s.pool.intake)
    ensures Path(s, steps, t) && Inv(t) && (t.owner.CancelDrain? || t.owner.CancelLate?)
    ensures t.owner.CancelDrain? <==> s.owner.DrainPool?
  {
    hide Inv, Path, P.CancelStep;
    var call := FreshFrom(s.pool.calls.Keys);
    OwnerTakes(s, StartCancel(call));
    steps, t := [Owns(StartCancel(call))], OwnerStep(s, StartCancel(call));
  }

  lemma LateDrained(s: Server)
    requires Inv(s) && s.owner.CallCancel?
    ensures P.DrainOnceReturned(s.pool.intake)
  {
    hide P.Inv, R.Inv, LinkInv, ConnsInv, WritersInv, WinsInv, AwaitedInv, WalkInv, AskInv;
  }

  // ---------------------------------------------------------------- the wait for the connections

  function WaitLeft(r: R.Registry, p: R.Progress): nat
  {
    match p
    case Scanning(g, _) => 2 + if g < |r.shards.groups| then |r.shards.groups| - g else 0
    case Waiting(_) => 1
    case Parked(_, _) => 1
    case _ => 0
  }

  function WaitNext(r: R.Registry, p: R.Progress): R.WaitAction
  {
    match p
    case Scanning(g, _) => if g < |r.shards.groups| then R.ScanGroup else R.ReadFinalizing
    case _ => R.Expire
  }

  lemma WaitNearer(r: R.Registry, id: nat)
    requires id in r.waits && !r.waits[id].progress.ReturnedNil? && !r.waits[id].progress.ReturnedError?
    ensures var a := WaitNext(r, r.waits[id].progress);
            && R.WaitEnabled(r, id, a) && !a.Call?
            && var r' := R.WaitStep(r, id, a); id in r'.waits && WaitLeft(r', r'.waits[id].progress) < WaitLeft(r, r.waits[id].progress)
  {
  }

  lemma WaitTakes(s: Server, id: nat, a: R.WaitAction)
    requires Inv(s) && !a.Call? && R.WaitEnabled(s.registry, id, a)
    ensures var t := s.(registry := R.WaitStep(s.registry, id, a)); Path(s, [WaitLoop(id, a)], t) && Inv(t)
  {
    hide Inv, Path, R.WaitStep, R.WaitEnabled;
    PathOne(s, WaitLoop(id, a));
  }

  lemma {:induction false} WaitRest(s: Server) returns (steps: seq<Step>, t: Server)
    requires Inv(s) && s.owner.InWait? && s.owner.id in s.registry.waits
    ensures Path(s, steps, t) && Inv(t) && t.owner == s.owner && s.owner.id in t.registry.waits
    ensures t.registry.waits[s.owner.id].progress.ReturnedNil? || t.registry.waits[s.owner.id].progress.ReturnedError?
    decreases WaitLeft(s.registry, s.registry.waits[s.owner.id].progress)
  {
    hide Inv, Path, R.WaitStep, R.WaitEnabled, WaitLeft, WaitNext;
    var id := s.owner.id;
    var p := s.registry.waits[id].progress;
    if p.ReturnedNil? || p.ReturnedError? {
      steps, t := [], s;
      PathNone(s);
    } else {
      var a := WaitNext(s.registry, p);
      WaitNearer(s.registry, id);
      WaitTakes(s, id, a);
      var m := s.(registry := R.WaitStep(s.registry, id, a));
      var more;
      more, t := WaitRest(m);
      PathThen(s, [WaitLoop(id, a)], m, more, t);
      steps := [WaitLoop(id, a)] + more;
    }
  }

  lemma WaitThere(s: Server)
    requires Inv(s) && s.owner.InWait?
    ensures s.owner.id in s.registry.waits
  {
    hide P.Inv, R.Inv, LinkInv, ConnsInv, WritersInv, WinsInv, AwaitedInv, WalkInv, AskInv;
  }

  // ---------------------------------------------------------------- phase by phase

  /** An action of the owner after some steps of the others. */
  lemma ThenOwner(s: Server, first: seq<Step>, m: Server, a: OwnerAction) returns (steps: seq<Step>, t: Server)
    requires Path(s, first, m) && Inv(m) && OwnerEnabled(m, a)
    ensures Path(s, steps, t) && Inv(t) && t == OwnerStep(m, a)
  {
    hide Inv, Path, OwnerStep, OwnerEnabled;
    OwnerTakes(m, a);
    PathThen(s, first, m, [Owns(a)], OwnerStep(m, a));
    steps, t := first + [Owns(a)], OwnerStep(m, a);
  }

  /** From any phase the owner can reach a later one. */
  lemma NextPhase(s: Server) returns (steps: seq<Step>, t: Server)
    requires Inv(s) && !s.owner.Stopped?
    ensures Path(s, steps, t) && Inv(t) && s.owner.Rank() < t.owner.Rank()
  {
    var o := s.owner;
    if o.ScanQuiesce? || o.ScanDrain? || o.ScanForce? || o.ScanLate? || o.Quiesce? || o.ForceClose? || o.CloseLate? {
      steps, t := NextAfterWalk(s);
    } else if o.DrainPool? || o.CancelDrain? || o.CallCancel? || o.CancelLate? {
      steps, t := NextAfterPool(s);
    } else {
      steps, t := NextAfterWait(s);
    }
  }

  lemma ProceedRaises(s: Server)
    requires ProceedEnabled(s)
    ensures s.owner.Rank() < Proceeded(s).owner.Rank()
  {
    hide Concluded, P.LockFree;
  }

  lemma ThenProceed(s: Server, first: seq<Step>, m: Server) returns (steps: seq<Step>, t: Server)
    requires Path(s, first, m) && Inv(m) && OwnerEnabled(m, Proceed)
    ensures Path(s, steps, t) && Inv(t) && m.owner.Rank() < t.owner.Rank() && t.timedOut == m.timedOut
  {
    hide Inv, Path, Proceeded, ProceedEnabled;
    steps, t := ThenOwner(s, first, m, Proceed);
    ProceedRaises(m);
    ProceedShape(m);
  }

  lemma NextAfterWalk(s: Server) returns (steps: seq<Step>, t: Server)
    requires Inv(s)
    requires s.owner.ScanQuiesce? || s.owner.ScanDrain? || s.owner.ScanForce? || s.owner.ScanLate? || s.owner.Quiesce?
             || s.owner.ForceClose? || s.owner.CloseLate?
    ensures Path(s, steps, t) && Inv(t) && s.owner.Rank() < t.owner.Rank() && t.timedOut == s.timedOut
  {
    hide Inv, Path, OwnerEnabled;
    var first, m;
    if s.owner.Quiesce? {
      first, m := QuiesceRest(s);
    } else if s.owner.ForceClose? || s.owner.CloseLate? {
      first, m := CloseRest(s);
    } else {
      first, m := ScanRest(s);
    }
    steps, t := ThenProceed(s, first, m);
  }

  lemma NextAfterPool(s: Server) returns (steps: seq<Step>, t: Server)
    requires Inv(s) && (s.owner.DrainPool? || s.owner.CancelDrain? || s.owner.CallCancel? || s.owner.CancelLate?)
    ensures Path(s, steps, t) && Inv(t) && s.owner.Rank() < t.owner.Rank()
  {
    hide Inv, Path, OwnerEnabled, P.DrainOnceReturned;
    var first, m := [], s;
    PathNone(s);
    if s.owner.DrainPool? {
      first, m := EnterDrain(s);
    } else if s.owner.CallCancel? {
      LateDrained(s);
    }
    if m.owner.DrainPool? || m.owner.CallCancel? {
      var b, n := StartToCancel(m);
      PathThen(s, first, m, b, n);
      first, m := first + b, n;
    }
    var c, n := CancelRest(m);
    PathThen(s, first, m, c, n);
    steps, t := ThenProceed(s, first + c, n);
  }

  lemma NextAfterWait(s: Server) returns (steps: seq<Step>, t: Server)
    requires Inv(s) && !s.owner.Stopped?
    requires !(s.owner.ScanQuiesce? || s.owner.ScanDrain? || s.owner.ScanForce? || s.owner.ScanLate? || s.owner.Quiesce?
               || s.owner.ForceClose? || s.owner.CloseLate?)
    requires !(s.owner.DrainPool? || s.owner.CancelDrain? || s.owner.CallCancel? || s.owner.CancelLate?)
    ensures Path(s, steps, t) && Inv(t) && s.owner.Rank() < t.owner.Rank()
  {
    hide Inv, Path, P.LockFree, R.WaitStep, Proceeded;
    PathNone(s);
    match s.owner {
      case StopIntake =>
        var a, m := Unlock(s);
        FreeLock(m);
        steps, t := ThenProceed(s, a, m);
      case AwaitSetups => steps, t := ThenOwner(s, [], s, TimeOut);
      case DrainConns(_, _) => steps, t := DrainOrTimeOut(s);
      case CallWait =>
        var id := FreshFrom(s.registry.waits.Keys);
        steps, t := ThenOwner(s, [], s, StartWait(id));
      case InWait(_) =>
        WaitThere(s);
        var a, m := WaitRest(s);
        if m.registry.waits[s.owner.id].progress.ReturnedNil? {
          steps, t := ThenProceed(s, a, m);
        } else {
          steps, t := ThenOwner(s, a, m, TimeOut);
        }
      case AwaitServices => steps, t := ThenOwner(s, [], s, TimeOut);
      case _ => steps, t := ThenProceed(s, [], s);
    }
  }

  lemma FreeLock(s: Server)
    requires Inv(s) && s.owner.StopIntake? && PP.Holding(s.pool) == {}
    ensures P.LockFree(s.pool)
  {
    hide P.Inv, R.Inv, LinkInv, ConnsInv, WritersInv, WinsInv, AwaitedInv, WalkInv, AskInv;
    PP.NobodyHolds(s.pool);
  }

  lemma {:induction false} WayToStopped(s: Server) returns (steps: seq<Step>, t: Server)
    requires Inv(s)
    ensures Path(s, steps, t) && Inv(t) && t.owner.Stopped?
    decreases 20 - s.owner.Rank()
  {
    hide Inv, Path;
    if s.owner.Stopped? {
      steps, t := [], s;
      PathNone(s);
    } else {
      var a, m := NextPhase(s);
      var b;
      b, t := WayToStopped(m);
      PathThen(s, a, m, b, t);
      steps := a + b;
    }
  }

  /** From any state of any run the owner can publish `Stopped`: whatever the connections, the pool and the registry are
      doing, no phase of a shutdown waits for something that cannot happen. */
  lemma CanAlwaysStop(run: seq<Server>) returns (longer: seq<Server>)
    requires IsRun(run)
    ensures IsRun(longer) && run <= longer && longer[|longer| - 1].owner.Stopped?
  {
    hide Inv, Path, Enabled, Apply;
    RunInv(run, |run| - 1);
    var steps, t := WayToStopped(run[|run| - 1]);
    longer := RunsOn(run, steps, t);
  }
}

