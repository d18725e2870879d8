/**
  The life cycle and the work of one server (server.go) in one system: `Run` and
  `Shutdown` calls drive the states, publishing `Running` starts the components,
  spawning the owner lets it go through its phases, and its last step publishes
  the result that the calls return.
 */
module WholeServer {
  import opened Bytes
  import L = Lifecycle
  import S = Shutdown
  import SR = ShutdownRuns

  datatype Config = Config(workers: nat, capacity: nat, groups: nat)

  /** `work` exists from the moment `Running` is published. */
  datatype System = System(config: Config, life: L.Server, work: Option<S.Server>)

  datatype Step = Lives(life: L.Step) | Works(work: S.Step) | OwnerEnds

  /** The owner's last section is the only step that both parts take together. */
  predicate Last(w: S.Server, step: S.Step)
  {
    step == S.Owns(S.Proceed) && w.owner.Publish?
  }

  predicate Enabled(s: System, step: Step)
  {
    match step
    case Lives(a) => !a.OwnerPublishes? && L.Enabled(s.life, a)
    case Works(a) =>
      s.work.Some? && S.Enabled(s.work.value, a) && !Last(s.work.value, a) && (a.Owns? ==> s.life.owner.Working?)
    case OwnerEnds => s.life.owner.Working? && s.work.Some? && s.work.value.owner.Publish?
  }

  function Apply(s: System, step: Step): System
    requires Enabled(s, step)
  {
    match step
    case Lives(a) =>
      var life := L.Apply(s.life, a);
      var c := s.config;
      s.(life := life,
         work := if life.served && !s.life.served then Some(S.RunningServer(c.workers, c.capacity, c.groups, life.bound))
                 else s.work)
    case Works(a) => s.(work := Some(S.Apply(s.work.value, a)))
    case OwnerEnds =>
      s.(life := L.Apply(s.life, L.OwnerPublishes(s.work.value.timedOut)),
         work := Some(S.Apply(s.work.value, S.Owns(S.Proceed))))
  }

  ghost predicate Next(s: System, s': System)
  {
    exists step :: Enabled(s, step) && s' == Apply(s, step)
  }

  ghost predicate IsRun(run: seq<System>)
  {
    && |run| > 0 && run[0].work.None? && (exists n :: run[0].life == L.NewServer(n))
    && run[0].config.workers > 0 && run[0].config.capacity > 0 && run[0].config.groups > 0
    && forall i :: 0 < i < |run| ==> Next(run[i - 1], run[i])
  }

  /** The owner in the life cycle has published exactly when the owner of the phases has, and they agree on the result. */
  ghost predicate LinkInv(life: L.Server, work: Option<S.Server>)
  {
    && (work.Some? <==> life.served)
    && (work.Some? ==>
          && (work.value.owner.Stopped? <==> life.owner.Published?)
          && (life.owner.Published? ==> work.value.timedOut == life.timedOut))
  }

  ghost predicate Inv(s: System)
  {
    && s.config.workers > 0 && s.config.capacity > 0 && s.config.groups > 0
    && L.Inv(s.life) && LinkInv(s.life, s.work) && (s.work.Some? ==> S.Inv(s.work.value))
  }

  /** The other steps of the life cycle never publish for the owner, nor change a published result. */
  lemma LifeKeepsResult(life: L.Server, a: L.Step)
    requires L.Inv(life) && L.Enabled(life, a) && !a.OwnerPublishes?
    ensures var life' := L.Apply(life, a);
            && (life.served ==> life'.served) && (life'.owner.Published? <==> life.owner.Published?)
            && (life.owner.Published? ==> life'.timedOut == life.timedOut)
            && (life'.served && !life.served ==> life'.owner.Absent?)
  {
    hide L.BindInv, L.StopInv;
  }

  lemma LifeKeeps(s: System, a: L.Step)
    requires Inv(s) && Enabled(s, Lives(a))
    ensures Inv(Apply(s, Lives(a)))
  {
    hide L.Inv, S.Inv, L.Enabled, L.Apply, S.RunningServer;
    L.InvStep(s.life, a);
    LifeKeepsResult(s.life, a);
    var life, c := L.Apply(s.life, a), s.config;
    S.RunningInv(c.workers, c.capacity, c.groups, life.bound);
    NotYetStopped(c, life.bound);
  }

  lemma NotYetStopped(c: Config, services: set<nat>)
    ensures S.RunningServer(c.workers, c.capacity, c.groups, services).owner.NotStarted?
  {
  }

  /** Only the owner's last step reaches `Stopped`, and no step of anyone else touches the owner or its verdict. */
  lemma WorkKeepsOwner(w: S.Server, a: S.Step)
    requires S.Enabled(w, a) && !Last(w, a)
    ensures var w' := S.Apply(w, a);
            && (w'.owner.Stopped? <==> w.owner.Stopped?) && (!a.Owns? ==> w'.timedOut == w.timedOut)
  {
    if a.Owns? {
      OwnerKeepsRunning(w, a.owner);
    }
    hide S.OwnerStep, S.OwnerEnabled;
  }

  lemma OwnerKeepsRunning(w: S.Server, a: S.OwnerAction)
    requires S.OwnerEnabled(w, a) && !(a.Proceed? && w.owner.Publish?)
    ensures !w.owner.Stopped? && !S.OwnerStep(w, a).owner.Stopped?
  {
  }

  lemma WorkKeeps(s: System, a: S.Step)
    requires Inv(s) && Enabled(s, Works(a))
    ensures Inv(Apply(s, Works(a)))
  {
    hide L.Inv, S.Inv, S.Enabled, S.Apply;
    S.InvStep(s.work.value, a);
    WorkKeepsOwner(s.work.value, a);
  }

  /** The owner's last step publishes the verdict of its phases. */
  lemma EndKeepsLink(s: System)
    requires L.Inv(s.life) && LinkInv(s.life, s.work) && Enabled(s, OwnerEnds)
    ensures var s' := Apply(s, OwnerEnds); LinkInv(s'.life, s'.work)
  {
    hide L.BindInv, L.StopInv, L.ClaimInv, L.CallInv;
  }

  lemma EndKeeps(s: System)
    requires Inv(s) && Enabled(s, OwnerEnds)
    ensures Inv(Apply(s, OwnerEnds))
  {
    hide L.Inv, S.Inv, L.Apply, S.Apply, LinkInv;
    EndKeepsLink(s);
    L.InvStep(s.life, L.OwnerPublishes(s.work.value.timedOut));
    S.InvStep(s.work.value, S.Owns(S.Proceed));
  }

  lemma InvStep(s: System, step: Step)
    requires Inv(s) && Enabled(s, step)
    ensures Inv(Apply(s, step))
  {
    hide Inv, Enabled, Apply;
    match step
    case Lives(a) => LifeKeeps(s, a);
    case Works(a) => WorkKeeps(s, a);
    case OwnerEnds => EndKeeps(s);
  }

  lemma NewInv(s: System, n: nat)
    requires s.life == L.NewServer(n) && s.work.None?
    requires s.config.workers > 0 && s.config.capacity > 0 && s.config.groups > 0
    ensures Inv(s)
  {
    L.NewInv(n);
  }

  lemma {:induction false} RunInv(run: seq<System>, i: nat)
    requires IsRun(run) && i < |run|
    ensures Inv(run[i])
  {
    hide Inv, Apply, Enabled;
    if i == 0 {
      var n :| run[0].life == L.NewServer(n);
      NewInv(run[0], n);
    } else {
      RunInv(run, i - 1);
      assert Next(run[i - 1], run[i]);
      var step :| Enabled(run[i - 1], step) && run[i] == Apply(run[i - 1], step);
      InvStep(run[i - 1], step);
    }
  }

  /** What a `Shutdown` call returns, in every run of the whole server. A call that returns after completion returns nil
      if and only if no wait of the owner timed out. If it returns nil then either the server served and is clean, or it
      never served, no component was ever started and every listener it had bound is closed. */
  lemma NilShutdownMeansClean(run: seq<System>, i: nat, call: nat)
    requires IsRun(run) && i < |run|
    requires call in run[i].life.stops && run[i].life.stops[call].Completed?
    ensures run[i].life.state.Stopped? && (run[i].work.Some? <==> run[i].life.served)
    ensures run[i].work.Some? ==>
              run[i].work.value.owner.Stopped? && run[i].life.stops[call].timedOut == run[i].work.value.timedOut
    ensures run[i].work.Some? && !run[i].life.stops[call].timedOut ==> SR.Clean(run[i].work.value)
    ensures run[i].work.None? ==> !run[i].life.stops[call].timedOut && run[i].life.closed == run[i].life.bound
  {
    hide L.Inv, S.Inv, SR.Clean;
    RunInv(run, i);
    var s := run[i];
    CompletedMeansStopped(s, call);
    if s.work.Some? && !s.work.value.timedOut {
      SR.StoppedIsClean(s.work.value);
    }
  }

  lemma CompletedMeansStopped(s: System, call: nat)
    requires L.Inv(s.life) && LinkInv(s.life, s.work) && call in s.life.stops && s.life.stops[call].Completed?
    ensures s.life.state.Stopped? && s.life.closed == s.life.bound
    ensures s.work.Some? ==> s.work.value.owner.Stopped? && s.life.stops[call].timedOut == s.work.value.timedOut
    ensures s.work.None? ==> !s.life.stops[call].timedOut
  {
  }
}

