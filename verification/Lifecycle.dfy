/**
  The server's lifecycle (server.go, server_state.go): concurrent `Run` and
  `Shutdown` calls, startup rollback and the shutdown owner over the five-state
  machine. One step is one `stateMu` section, one bind, one channel wait or the
  owner's publication; cancellation, bind failures and timeouts may strike at
  any of their points.
 */
module Lifecycle {
  datatype State = New | Starting | Running | Stopping | Stopped
  {
    function Rank(): nat
    {
      match this case New => 0 case Starting => 1 case Running => 2 case Stopping => 3 case Stopped => 4
    }
  }

  datatype RunCall =
    | Claimed
    | Binding(next: nat)
    | BoundAll
    | RollingBack
    | Unpublished
    | Serving
    | Asking
    | AwaitingDone
    | Finished
  {
    /** Before the outcome of startup is published. */
    predicate StartingUp()
    {
      Claimed? || Binding? || BoundAll? || RollingBack? || Unpublished?
    }
  }

  /** `Completed` carries the terminal result: whether the shutdown timed out. */
  datatype StopCall = AwaitStartup | Spawning | AwaitShutdown | Reading | Completed(timedOut: bool) | Expired | NothingToStop

  datatype Owner = Absent | Working | Published

  datatype Server = Server(
    transports: nat,
    state: State,
    stopRequested: bool,
    timedOut: bool,
    startupDone: bool,
    shutdownDone: bool,
    claims: seq<nat>,
    runs: map<nat, RunCall>,
    stops: map<nat, StopCall>,
    spawned: bool,
    owner: Owner,
    bound: set<nat>,
    closed: set<nat>,
    served: bool,
    rolledBack: bool)

  function NewServer(transports: nat): Server
  {
    Server(transports, New, false, false, false, false, [], map[], map[], false, Absent, {}, {}, false, false)
  }

  // ---------------------------------------------------------------- Run

  datatype RunAction = Claim | Prepare | Bind | AllBound | Abandon | Publish | CloseListeners | PublishRollback | AskShutdown | SpawnOwner | SeeDone | Return

  predicate RunEnabled(s: Server, r: nat, a: RunAction)
  {
    if a.Claim? then r !in s.runs else
    && r in s.runs
    && var c := s.runs[r];
       match a
       case Prepare => c.Claimed?
       case Bind => c.Binding? && c.next < s.transports
       case AllBound => c.Binding? && c.next >= s.transports
       case Abandon => c.Claimed? || c.Binding? || c.BoundAll?
       case Publish => c.BoundAll?
       case CloseListeners => c.RollingBack?
       case PublishRollback => c.Unpublished?
       case AskShutdown => c.Serving?
       case SpawnOwner => c.Asking?
       case SeeDone => c.Serving? && s.shutdownDone
       case Return => c.AwaitingDone? && s.shutdownDone
  }

  /** `shutdownStartOnce`. */
  function Spawn(s: Server): Server
  {
    if s.spawned then s else s.(spawned := true, owner := Working)
  }

  function BeginStopping(s: Server): Server
  {
    if s.state.Running? then s.(state := Stopping) else s
  }

  /** Where the call goes. */
  function RunNext(s: Server, r: nat, a: RunAction): RunCall
    requires RunEnabled(s, r, a)
  {
    match a
    case Claim => if s.state.New? then Claimed else Finished
    case Prepare => Binding(0)
    case Bind => Binding(s.runs[r].next + 1)
    case AllBound => BoundAll
    case Abandon => RollingBack
    case Publish => if s.stopRequested then RollingBack else Serving
    case CloseListeners => Unpublished
    case PublishRollback => Finished
    case AskShutdown => Asking
    case SpawnOwner => AwaitingDone
    case SeeDone => AwaitingDone
    case Return => Finished
  }

  /** What it does to the server. */
  function RunEffect(s: Server, r: nat, a: RunAction): Server
    requires RunEnabled(s, r, a)
  {
    match a
    case Claim => if s.state.New? then s.(state := Starting, claims := s.claims + [r]) else s
    case Bind => s.(bound := s.bound + {s.runs[r].next})
    case Abandon => s.(rolledBack := true)
    case Publish =>
      if s.stopRequested then s.(rolledBack := true) else s.(state := Running, startupDone := true, served := true)
    case CloseListeners => s.(closed := s.bound)
    case PublishRollback => s.(state := Stopped, timedOut := false, startupDone := true, shutdownDone := true)
    case AskShutdown => BeginStopping(s)
    case SpawnOwner => Spawn(s)
    case _ => s
  }

  function RunStep(s: Server, r: nat, a: RunAction): Server
    requires RunEnabled(s, r, a)
  {
    RunEffect(s, r, a).(runs := s.runs[r := RunNext(s, r, a)])
  }

  // ---------------------------------------------------------------- Shutdown

  datatype StopAction = Call | SpawnAsStopper | SeeStartup | SeeShutdown | Read | GiveUp

  predicate StopEnabled(s: Server, c: nat, a: StopAction)
  {
    if a.Call? then c !in s.stops else
    && c in s.stops
    && match a
       case SpawnAsStopper => s.stops[c].Spawning?
       case SeeStartup => s.stops[c].AwaitStartup? && s.startupDone
       case SeeShutdown => s.stops[c].AwaitShutdown? && s.shutdownDone
       case Read => s.stops[c].Reading?
       case GiveUp => s.stops[c].AwaitStartup? || s.stops[c].AwaitShutdown?
  }

  function StopNext(s: Server, c: nat, a: StopAction): StopCall
    requires StopEnabled(s, c, a)
  {
    match a
    case Call =>
      (match s.state
       case New => NothingToStop
       case Starting => AwaitStartup
       case Running => Spawning
       case Stopping => AwaitShutdown
       case Stopped => Completed(s.timedOut))
    case SpawnAsStopper => AwaitShutdown
    case SeeStartup => Reading
    case SeeShutdown => Reading
    case Read => Completed(s.timedOut)
    case GiveUp => Expired
  }

  function StopEffect(s: Server, a: StopAction): Server
  {
    match a
    case Call => if s.state.Starting? then s.(stopRequested := true) else BeginStopping(s)
    case SpawnAsStopper => Spawn(s)
    case _ => s
  }

  function StopStep(s: Server, c: nat, a: StopAction): Server
    requires StopEnabled(s, c, a)
  {
    StopEffect(s, a).(stops := s.stops[c := StopNext(s, c, a)])
  }

  // ---------------------------------------------------------------- runs

  datatype Step = Runs(call: nat, run: RunAction) | Stops(call: nat, stop: StopAction) | OwnerPublishes(timedOut: bool)

  predicate Enabled(s: Server, step: Step)
  {
    match step
    case Runs(r, a) => RunEnabled(s, r, a)
    case Stops(c, a) => StopEnabled(s, c, a)
    case OwnerPublishes(_) => s.owner.Working?
  }

  function Apply(s: Server, step: Step): Server
    requires Enabled(s, step)
  {
    match step
    case Runs(r, a) => RunStep(s, r, a)
    case Stops(c, a) => StopStep(s, c, a)
    case OwnerPublishes(late) =>
      s.(owner := Published, state := Stopped, timedOut := s.timedOut || late, shutdownDone := true, closed := s.bound)
  }

  ghost predicate Next(s: Server, s': Server)
  {
    exists step :: Enabled(s, step) && s' == Apply(s, step)
  }

  ghost predicate IsRun(run: seq<Server>)
  {
    && |run| > 0 && (exists n :: run[0] == NewServer(n))
    && forall i :: 0 < i < |run| ==> Next(run[i - 1], run[i])
  }

  // ---------------------------------------------------------------- what every step keeps

  /** At most one `Run` ever claims the server, and what it may still be doing follows from the state. */
  ghost predicate ClaimInv(s: Server)
  {
    && |s.claims| <= 1 && (s.state.New? <==> s.claims == [])
    && (forall r :: r in s.runs && !s.runs[r].Finished? ==> s.claims == [r])
    && (forall r :: r in s.runs && s.runs[r].StartingUp() ==> s.state.Starting? && !s.served)
  }

  /** What the claiming call is doing agrees with the flags. */
  ghost predicate CallInv(s: Server)
  {
    && (forall r :: r in s.runs && (s.runs[r].RollingBack? || s.runs[r].Unpublished?) ==> s.rolledBack)
    && (forall r :: r in s.runs && (s.runs[r].Claimed? || s.runs[r].Binding? || s.runs[r].BoundAll?) ==> !s.rolledBack)
    && (forall r :: r in s.runs && (s.runs[r].Serving? || s.runs[r].Asking? || s.runs[r].AwaitingDone?) ==> s.served)
    && (forall r :: r in s.runs && s.runs[r].Asking? ==> !s.state.Running?)
    && (forall r :: r in s.runs && s.runs[r].AwaitingDone? ==> s.spawned)
  }

  predicate AllBelow(bound: set<nat>, n: nat)
  {
    forall k: nat :: k < n ==> k in bound
  }

  ghost predicate BindInv(s: Server)
  {
    && (forall r :: r in s.runs && s.runs[r].Binding? ==> AllBelow(s.bound, s.runs[r].next))
    && (forall r :: r in s.runs && s.runs[r].BoundAll? ==> AllBelow(s.bound, s.transports))
    && (s.served ==> AllBelow(s.bound, s.transports))
    && (forall r :: r in s.runs && s.runs[r].Unpublished? ==> s.closed == s.bound)
    && (s.state.Stopped? ==> s.closed == s.bound)
  }

  ghost predicate StateInv(s: Server)
  {
    && (s.state.Running? || s.state.Stopping? ==> s.served)
    && (s.state.New? || s.state.Starting? ==> !s.served)
    && (s.shutdownDone <==> s.state.Stopped?)
    && (s.startupDone <==> s.served || s.state.Stopped?)
    && (s.stopRequested ==> !s.served)
    && (s.spawned ==> s.served && (s.state.Stopping? || s.state.Stopped?))
    && (s.spawned <==> !s.owner.Absent?)
    && (s.owner.Working? ==> s.state.Stopping?)
    && (s.owner.Published? ==> s.state.Stopped?)
    && (s.served && s.state.Stopped? ==> s.spawned)
    && (s.rolledBack ==> !s.served && !s.state.New?)
    && (!s.state.Stopped? || !s.served ==> !s.timedOut)
  }

  ghost predicate StopInv(s: Server)
  {
    && (forall c :: c in s.stops && s.stops[c].AwaitStartup? ==> s.stopRequested)
    && (forall c :: c in s.stops && s.stops[c].Spawning? ==> s.served && !s.state.Running?)
    && (forall c :: c in s.stops && s.stops[c].Reading? ==> s.state.Stopped?)
    && (forall c :: c in s.stops && s.stops[c].Completed? ==> s.state.Stopped? && s.stops[c].timedOut == s.timedOut)
  }

  ghost predicate Inv(s: Server)
  {
    ClaimInv(s) && CallInv(s) && BindInv(s) && StateInv(s) && StopInv(s)
  }

  lemma NewInv(n: nat)
    ensures Inv(NewServer(n))
  {
  }

  lemma RunKeepsClaim(s: Server, r: nat, a: RunAction)
    requires Inv(s) && RunEnabled(s, r, a)
    ensures ClaimInv(RunStep(s, r, a))
  {
    hide BindInv, StopInv, CallInv;
  }

  lemma RunKeepsCalls(s: Server, r: nat, a: RunAction)
    requires Inv(s) && RunEnabled(s, r, a)
    ensures CallInv(RunStep(s, r, a))
  {
    hide BindInv, StopInv;
  }

  lemma RunKeepsBound(s: Server, r: nat, a: RunAction)
    requires Inv(s) && RunEnabled(s, r, a)
    ensures BindInv(RunStep(s, r, a))
  {
    hide StopInv;
  }

  lemma RunKeepsRest(s: Server, r: nat, a: RunAction)
    requires Inv(s) && RunEnabled(s, r, a)
    ensures StateInv(RunStep(s, r, a)) && StopInv(RunStep(s, r, a))
  {
    hide BindInv;
  }

  lemma StopKeepsRuns(s: Server, c: nat, a: StopAction)
    requires Inv(s) && StopEnabled(s, c, a)
    ensures ClaimInv(StopStep(s, c, a)) && CallInv(StopStep(s, c, a)) && BindInv(StopStep(s, c, a))
  {
    hide AllBelow, StopInv;
  }

  lemma StopKeepsRest(s: Server, c: nat, a: StopAction)
    requires Inv(s) && StopEnabled(s, c, a)
    ensures StateInv(StopStep(s, c, a)) && StopInv(StopStep(s, c, a))
  {
    hide BindInv, ClaimInv, CallInv;
  }

  lemma InvStep(s: Server, step: Step)
    requires Inv(s) && Enabled(s, step)
    ensures Inv(Apply(s, step))
  {
    hide RunStep, StopStep, RunEnabled, StopEnabled;
    match step
    case Runs(r, a) =>
      RunKeepsClaim(s, r, a);
      RunKeepsCalls(s, r, a);
      RunKeepsBound(s, r, a);
      RunKeepsRest(s, r, a);
    case Stops(c, a) =>
      StopKeepsRuns(s, c, a);
      StopKeepsRest(s, c, a);
    case OwnerPublishes(late) =>
  }

  lemma {:induction false} RunInv(run: seq<Server>, i: nat)
    requires IsRun(run) && i < |run|
    ensures Inv(run[i])
  {
    hide Inv, Apply, Enabled;
    if i == 0 {
      var n :| run[0] == NewServer(n);
      NewInv(n);
    } else {
      RunInv(run, i - 1);
      assert Next(run[i - 1], run[i]);
      var step :| Enabled(run[i - 1], step) && run[i] == Apply(run[i - 1], step);
      InvStep(run[i - 1], step);
    }
  }

  // ---------------------------------------------------------------- theorems

  /** What only ever grows or settles. */
  ghost predicate Forward(s: Server, s': Server)
  {
    && s.transports == s'.transports && s.state.Rank() <= s'.state.Rank() && s.claims <= s'.claims
    && (s.stopRequested ==> s'.stopRequested) && (s.served ==> s'.served) && (s.rolledBack ==> s'.rolledBack)
    && (s.spawned ==> s'.spawned)
    && (s.state.Stopped? ==> s'.timedOut == s.timedOut)
  }

  lemma ForwardStep(s: Server, step: Step)
    requires Inv(s) && Enabled(s, step)
    ensures Forward(s, Apply(s, step))
  {
    hide BindInv, StopInv;
  }

  lemma {:induction false} RunForward(run: seq<Server>, i: nat, j: nat)
    requires IsRun(run) && i <= j < |run|
    ensures Forward(run[i], run[j])
    decreases j - i
  {
    hide Inv, Apply, Enabled;
    if i == j {
    } else {
      RunForward(run, i, j - 1);
      RunInv(run, j - 1);
      assert Next(run[j - 1], run[j]);
      var step :| Enabled(run[j - 1], step) && run[j] == Apply(run[j - 1], step);
      ForwardStep(run[j - 1], step);
    }
  }

  /** Over every run: the state only moves forward; at most one `Run` ever claims the server; startup rollback and
      the shutdown owner never both happen; and `Running` is published only with every transport bound. */
  lemma StartupProtocol(run: seq<Server>, i: nat, j: nat)
    requires IsRun(run) && i <= j < |run|
    ensures run[i].state.Rank() <= run[j].state.Rank()
    ensures |run[j].claims| <= 1
    ensures !(run[i].rolledBack && run[j].spawned) && !(run[j].rolledBack && run[i].spawned)
    ensures run[i].state.Running? ==> forall k: nat :: k < run[i].transports ==> k in run[i].bound
  {
    RunInv(run, i);
    RunInv(run, j);
    RunForward(run, i, j);
  }

  /** If startup ends without publishing `Running`, every listener bound so far is closed by the time anyone sees
      `startupDone`. */
  lemma RollbackClosesListeners(run: seq<Server>, i: nat)
    requires IsRun(run) && i < |run| && run[i].startupDone && !run[i].served
    ensures run[i].state.Stopped? && run[i].closed == run[i].bound && !run[i].timedOut
  {
    RunInv(run, i);
  }

  /** A `Shutdown` that observes `Starting` keeps the server from ever running, whatever else happens. */
  lemma EarlyShutdownWins(run: seq<Server>, i: nat, j: nat, call: nat)
    requires IsRun(run) && i <= j < |run| && call in run[i].stops && run[i].stops[call].AwaitStartup?
    ensures !run[j].served && !run[j].state.Running? && !run[j].state.Stopping?
  {
    RunInv(run, i);
    RunInv(run, j);
    RunForward(run, i, j);
  }

  /** Every `Shutdown` that returns after completion, at whatever time and however it waited, returns the same
      result. */
  lemma ShutdownResultIsStable(run: seq<Server>, i: nat, j: nat, a: nat, b: nat)
    requires IsRun(run) && i <= j < |run|
    requires a in run[i].stops && run[i].stops[a].Completed? && b in run[j].stops && run[j].stops[b].Completed?
    ensures run[i].stops[a] == run[j].stops[b]
  {
    RunInv(run, i);
    RunInv(run, j);
    RunForward(run, i, j);
  }
}

