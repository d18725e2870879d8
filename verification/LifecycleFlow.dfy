/**
  How `Run` and `Shutdown` calls move (server.go), and that the server can always
  be brought to an end.
 */
module LifecycleFlow {
  import opened Lifecycle

  // ---------------------------------------------------------------- the calls

  /** Where a `Run` call goes next: it binds the transports one by one, and serves only if nobody has asked to stop. Until
      then it may be cancelled or fail, and then rolls back. */
  predicate RunGoes(s: Server, s': Server, c: RunCall, c': RunCall)
  {
    match c
    case Claimed => c' == Binding(0) || c'.RollingBack?
    case Binding(n) => c'.RollingBack? || c' == if n < s.transports then Binding(n + 1) else BoundAll
    case BoundAll => c'.RollingBack? || (c'.Serving? && !s.stopRequested && s'.state.Running? && s'.startupDone)
    case RollingBack => c'.Unpublished? && s'.closed == s.bound
    case Unpublished => c'.Finished? && s'.state.Stopped? && s'.startupDone && s'.shutdownDone && !s'.timedOut
    case Serving => (c'.Asking? && !s'.state.Running?) || (c'.AwaitingDone? && s.shutdownDone)
    case Asking => c'.AwaitingDone? && s'.spawned
    case AwaitingDone => c'.Finished? && s.shutdownDone
    case Finished => false
  }

  /** What a `Shutdown` call finds, by the state of the server when it comes. */
  predicate StopFinds(s: Server, c: StopCall)
  {
    match s.state
    case New => c.NothingToStop?
    case Starting => c.AwaitStartup?
    case Running => c.Spawning?
    case Stopping => c.AwaitShutdown?
    case Stopped => c == Completed(s.timedOut)
  }

  predicate StopGoes(s: Server, s': Server, c: StopCall, c': StopCall)
  {
    match c
    case AwaitStartup => c'.Expired? || (c'.Reading? && s.startupDone)
    case Spawning => c'.AwaitShutdown? && s'.spawned
    case AwaitShutdown => c'.Expired? || (c'.Reading? && s.shutdownDone)
    case Reading => c' == Completed(s.timedOut)
    case Completed(_) | Expired | NothingToStop => false
  }

  ghost predicate Flows(s: Server, s': Server)
  {
    && (forall r :: r in s.runs ==> r in s'.runs && (s'.runs[r] != s.runs[r] ==> RunGoes(s, s', s.runs[r], s'.runs[r])))
    && (forall r :: r in s'.runs && r !in s.runs ==> s'.runs[r] == if s.state.New? then Claimed else Finished)
    && (forall c :: c in s.stops ==> c in s'.stops && (s'.stops[c] != s.stops[c] ==> StopGoes(s, s', s.stops[c], s'.stops[c])))
    && (forall c :: c in s'.stops && c !in s.stops ==> StopFinds(s, s'.stops[c]))
    && (forall c :: c in s'.stops && c !in s.stops && s.state.Starting? ==> s'.stopRequested)
    && (forall c :: c in s'.stops && c !in s.stops && s.state.Running? ==> s'.state.Stopping?)
  }

  lemma RunStepShape(s: Server, r: nat, a: RunAction)
    requires RunEnabled(s, r, a)
    ensures var s' := RunStep(s, r, a); s'.stops == s.stops && s'.runs == s.runs[r := RunNext(s, r, a)]
  {
    assert RunEffect(s, r, a).stops == s.stops;
  }

  lemma RunMoves(s: Server, r: nat, a: RunAction)
    requires RunEnabled(s, r, a)
    ensures var s' := RunStep(s, r, a);
            && r in s'.runs
            && (r in s.runs ==> RunGoes(s, s', s.runs[r], s'.runs[r]))
            && (r !in s.runs ==> s'.runs[r] == if s.state.New? then Claimed else Finished)
  {
  }

  lemma RunFlows(s: Server, r: nat, a: RunAction)
    requires RunEnabled(s, r, a)
    ensures Flows(s, RunStep(s, r, a))
  {
    hide StopGoes, StopFinds, RunGoes, RunStep, RunEnabled;
    RunStepShape(s, r, a);
    RunMoves(s, r, a);
  }

  /** A `Shutdown` call's step touches no other call. */
  lemma StopStepShape(s: Server, c: nat, a: StopAction)
    requires StopEnabled(s, c, a)
    ensures var s' := StopStep(s, c, a);
            && (forall r :: r in s'.runs <==> r in s.runs) && (forall r :: r in s.runs ==> s'.runs[r] == s.runs[r])
            && (forall x :: x in s'.stops <==> x == c || x in s.stops)
            && (forall x :: x in s.stops && x != c ==> s'.stops[x] == s.stops[x])
  {
    hide StopNext, StopEnabled, StopEffect;
    Untouched(s, a);
  }

  lemma Untouched(s: Server, a: StopAction)
    ensures StopEffect(s, a).runs == s.runs
  {
    hide Spawn, BeginStopping;
    SpawnLeavesRuns(s);
    BeginLeavesRuns(s);
  }

  lemma SpawnLeavesRuns(s: Server)
    ensures Spawn(s).runs == s.runs
  {
  }

  lemma BeginLeavesRuns(s: Server)
    ensures BeginStopping(s).runs == s.runs
  {
  }

  lemma StopMoves(s: Server, c: nat, a: StopAction)
    requires StopEnabled(s, c, a)
    ensures var s' := StopStep(s, c, a);
            && c in s'.stops
            && (c in s.stops ==> StopGoes(s, s', s.stops[c], s'.stops[c]))
            && (c !in s.stops ==>
                  && StopFinds(s, s'.stops[c])
                  && (s.state.Starting? ==> s'.stopRequested) && (s.state.Running? ==> s'.state.Stopping?))
  {
  }

  lemma StopFlows(s: Server, c: nat, a: StopAction)
    requires StopEnabled(s, c, a)
    ensures Flows(s, StopStep(s, c, a))
  {
    hide StopGoes, StopFinds, RunGoes, StopStep, StopEnabled;
    StopStepShape(s, c, a);
    StopMoves(s, c, a);
  }

  lemma StepFlows(s: Server, step: Step)
    requires Enabled(s, step)
    ensures Flows(s, Apply(s, step))
  {
    hide RunEnabled, StopEnabled, RunStep, StopStep, RunGoes, StopGoes;
    match step
    case Runs(r, a) => RunFlows(s, r, a);
    case Stops(c, a) => StopFlows(s, c, a);
    case OwnerPublishes(_) =>
  }

  /** In every run every call only ever makes the move that is due. */
  lemma Flow(run: seq<Server>, i: nat)
    requires IsRun(run) && i + 1 < |run|
    ensures Flows(run[i], run[i + 1])
  {
    hide Flows, Apply, Enabled;
    assert Next(run[i], run[i + 1]);
    var step :| Enabled(run[i], step) && run[i + 1] == Apply(run[i], step);
    StepFlows(run[i], step);
  }

  // ---------------------------------------------------------------- the owner comes

  /** Some call is about to spawn the owner. */
  ghost predicate AboutToSpawn(s: Server)
  {
    || (exists c :: c in s.stops && s.stops[c].Spawning?)
    || (exists r :: r in s.runs && s.runs[r].Asking?)
  }

  ghost predicate OwnerComes(s: Server)
  {
    s.state.Stopping? ==> s.spawned || AboutToSpawn(s)
  }

  lemma SpawnerKept(s: Server, s': Server)
    requires AboutToSpawn(s)
    requires forall c :: c in s.stops && s.stops[c].Spawning? ==> c in s'.stops && s'.stops[c].Spawning?
    requires forall r :: r in s.runs && s.runs[r].Asking? ==> r in s'.runs && s'.runs[r].Asking?
    ensures AboutToSpawn(s')
  {
    if c :| c in s.stops && s.stops[c].Spawning? {
      assert c in s'.stops && s'.stops[c].Spawning?;
    } else {
      var r :| r in s.runs && s.runs[r].Asking?;
      assert r in s'.runs && s'.runs[r].Asking?;
    }
  }

  lemma RunKeepsComing(s: Server, r: nat, a: RunAction)
    requires OwnerComes(s) && RunEnabled(s, r, a)
    ensures OwnerComes(RunStep(s, r, a))
  {
    hide AboutToSpawn;
    var s' := RunStep(s, r, a);
    if s'.state.Stopping? && !s'.spawned {
      if a.AskShutdown? {
        RunAsks(s', r);
      } else {
        SpawnerKept(s, s');
      }
    }
  }

  lemma RunAsks(s: Server, r: nat)
    requires r in s.runs && s.runs[r].Asking?
    ensures AboutToSpawn(s)
  {
  }

  lemma StopSpawns(s: Server, c: nat)
    requires c in s.stops && s.stops[c].Spawning?
    ensures AboutToSpawn(s)
  {
  }

  lemma StopKeepsComing(s: Server, c: nat, a: StopAction)
    requires OwnerComes(s) && StopEnabled(s, c, a)
    ensures OwnerComes(StopStep(s, c, a))
  {
    hide AboutToSpawn;
    var s' := StopStep(s, c, a);
    if s'.state.Stopping? && !s'.spawned {
      if a.Call? && s.state.Running? {
        StopSpawns(s', c);
      } else {
        SpawnerKept(s, s');
      }
    }
  }

  lemma ComingStep(s: Server, step: Step)
    requires OwnerComes(s) && Enabled(s, step)
    ensures OwnerComes(Apply(s, step))
  {
    hide RunEnabled, StopEnabled, RunStep, StopStep, AboutToSpawn;
    match step
    case Runs(r, a) => RunKeepsComing(s, r, a);
    case Stops(c, a) => StopKeepsComing(s, c, a);
    case OwnerPublishes(_) =>
  }

  /** A server that is stopping has its owner, or some call is about to spawn it. */
  lemma {:induction false} StoppingHasOwner(run: seq<Server>, i: nat)
    requires IsRun(run) && i < |run|
    ensures OwnerComes(run[i])
  {
    hide Apply, Enabled, AboutToSpawn;
    if i == 0 {
    } else {
      StoppingHasOwner(run, i - 1);
      assert Next(run[i - 1], run[i]);
      var step :| Enabled(run[i - 1], step) && run[i] == Apply(run[i - 1], step);
      ComingStep(run[i - 1], step);
    }
  }

  // ---------------------------------------------------------------- the end can always be reached

  lemma Extend(run: seq<Server>, step: Step) returns (longer: seq<Server>)
    requires IsRun(run) && Enabled(run[|run| - 1], step)
    ensures IsRun(longer) && longer == run + [Apply(run[|run| - 1], step)] && run <= longer
  {
    hide Enabled, Apply;
    longer := run + [Apply(run[|run| - 1], step)];
    assert Next(run[|run| - 1], longer[|run|]);
    forall i | 0 < i < |longer|
      ensures Next(longer[i - 1], longer[i])
    {
      if i < |run| {
        assert Next(run[i - 1], run[i]);
      }
    }
  }

  /** However many transports there are, startup can succeed. */
  lemma StartupCanSucceed(transports: nat) returns (run: seq<Server>)
    ensures IsRun(run) && run[0] == NewServer(transports)
    ensures run[|run| - 1].state.Running? && run[|run| - 1].startupDone
    ensures AllBelow(run[|run| - 1].bound, transports)
  {
    hide Next;
    run := [NewServer(transports)];
    run := Extend(run, Runs(0, Claim));
    run := Extend(run, Runs(0, Prepare));
    run := BindRest(run, transports);
    run := Extend(run, Runs(0, AllBound));
    run := Extend(run, Runs(0, Publish));
    RunInv(run, |run| - 1);
  }

  lemma {:induction false} BindRest(run: seq<Server>, left: nat) returns (longer: seq<Server>)
    requires IsRun(run) && 0 in run[|run| - 1].runs && !run[|run| - 1].stopRequested
    requires run[|run| - 1].runs[0].Binding? && run[|run| - 1].runs[0].next + left == run[|run| - 1].transports
    ensures IsRun(longer) && run <= longer && 0 in longer[|longer| - 1].runs && !longer[|longer| - 1].stopRequested
    ensures longer[|longer| - 1].transports == run[|run| - 1].transports
    ensures longer[|longer| - 1].runs[0] == Binding(run[|run| - 1].transports)
    decreases left
  {
    hide Next;
    if left == 0 {
      longer := run;
    } else {
      longer := Extend(run, Runs(0, Bind));
      longer := BindRest(longer, left - 1);
    }
  }

  /** From any state of any run in which some `Run` has claimed the server, it can be brought to `Stopped`: nothing ever
      gets stuck on the way. */
  lemma CanAlwaysStop(run: seq<Server>) returns (longer: seq<Server>)
    requires IsRun(run) && !run[|run| - 1].state.New?
    ensures IsRun(longer) && run <= longer && longer[|longer| - 1].state.Stopped? && longer[|longer| - 1].shutdownDone
  {
    hide Next, Apply, Enabled;
    var s := run[|run| - 1];
    longer := run;
    match s.state {
      case Stopped =>
      case Stopping => longer := FinishStopping(run);
      case Running =>
        longer := AskToStop(run);
        longer := FinishStopping(longer);
      case Starting => longer := RollBack(run);
    }
    DoneWhenStopped(longer);
  }

  lemma AskToStop(run: seq<Server>) returns (longer: seq<Server>)
    requires IsRun(run) && run[|run| - 1].state.Running?
    ensures IsRun(longer) && run <= longer && longer[|longer| - 1].state.Stopping?
  {
    hide Next;
    var c := FreshCall(run[|run| - 1]);
    longer := Extend(run, Stops(c, Call));
  }

  lemma DoneWhenStopped(run: seq<Server>)
    requires IsRun(run) && run[|run| - 1].state.Stopped?
    ensures run[|run| - 1].shutdownDone
  {
    RunInv(run, |run| - 1);
  }

  lemma FreshCall(s: Server) returns (c: nat)
    ensures c !in s.stops
  {
    c := FreshFrom(s.stops.Keys);
  }

  lemma {:induction false} FreshFrom(ids: set<nat>) returns (c: nat)
    ensures c !in ids && forall x :: x in ids ==> x < c
  {
    if ids == {} {
      c := 0;
    } else {
      var x :| x in ids;
      c := FreshFrom(ids - {x});
      assert forall y :: y in ids ==> y == x || y in ids - {x};
      if c <= x {
        c := x + 1;
      }
    }
  }

  lemma FinishStopping(run: seq<Server>) returns (longer: seq<Server>)
    requires IsRun(run) && run[|run| - 1].state.Stopping?
    ensures IsRun(longer) && run <= longer && longer[|longer| - 1].state.Stopped?
  {
    hide Next;
    longer := run;
    StoppingHasOwner(run, |run| - 1);
    RunInv(run, |run| - 1);
    var s := run[|run| - 1];
    if !s.spawned {
      if c :| c in s.stops && s.stops[c].Spawning? {
        longer := Extend(run, Stops(c, SpawnAsStopper));
      } else {
        var r :| r in s.runs && s.runs[r].Asking?;
        longer := Extend(run, Runs(r, SpawnOwner));
      }
    }
    longer := Extend(longer, OwnerPublishes(false));
  }

  /** While the server is starting its claiming call is at work on that. */
  predicate StarterAtWork(s: Server)
  {
    s.state.Starting? ==> |s.claims| == 1 && s.claims[0] in s.runs && s.runs[s.claims[0]].StartingUp()
  }

  lemma StarterStep(s: Server, step: Step)
    requires Inv(s) && StarterAtWork(s) && Enabled(s, step)
    ensures StarterAtWork(Apply(s, step))
  {
    hide BindInv, StopInv;
  }

  lemma {:induction false} StarterThere(run: seq<Server>, i: nat)
    requires IsRun(run) && i < |run|
    ensures StarterAtWork(run[i])
  {
    hide Apply, Enabled, Inv;
    if i == 0 {
    } else {
      StarterThere(run, i - 1);
      RunInv(run, i - 1);
      assert Next(run[i - 1], run[i]);
      var step :| Enabled(run[i - 1], step) && run[i] == Apply(run[i - 1], step);
      StarterStep(run[i - 1], step);
    }
  }

  lemma RollBack(run: seq<Server>) returns (longer: seq<Server>)
    requires IsRun(run) && run[|run| - 1].state.Starting?
    ensures IsRun(longer) && run <= longer && longer[|longer| - 1].state.Stopped?
  {
    hide Next;
    longer := run;
    StarterThere(run, |run| - 1);
    var r := run[|run| - 1].claims[0];
    var c := run[|run| - 1].runs[r];
    if c.Claimed? || c.Binding? || c.BoundAll? {
      longer := Extend(longer, Runs(r, Abandon));
    }
    longer := Unbind(longer, r);
  }

  lemma Unbind(run: seq<Server>, r: nat) returns (longer: seq<Server>)
    requires IsRun(run) && r in run[|run| - 1].runs
    requires run[|run| - 1].runs[r].RollingBack? || run[|run| - 1].runs[r].Unpublished?
    ensures IsRun(longer) && run <= longer && longer[|longer| - 1].state.Stopped?
  {
    hide Next;
    longer := run;
    if run[|run| - 1].runs[r].RollingBack? {
      longer := Extend(longer, Runs(r, CloseListeners));
    }
    longer := Extend(longer, Runs(r, PublishRollback));
  }
}

