/**
  Phased shutdown (server.go): the shutdown owner, the connection-setup gate,
  the serving goroutines and the listeners, composed with the worker pool, the
  connection registry and every connection. A step of the server is a step of
  one component, with a supervisor's registry operations taken together with the
  registry's own step, or a step of the owner. Each wait of the owner may end in
  its timeout instead.
 */
module Shutdown {
  import opened Bytes
  import C = Connection
  import P = WorkerPool
  import R = Registry
  import CR = ConnectionRuns
  import CF = ConnectionFlow
  import PR = WorkerPoolRuns

  type ConnId = R.ConnId

  /** The owner's next action. `Scan…` walks the shards; what a walk found is `found`, `todo` is what is left of it and
      `current` the connection whose call has not returned. `Cancel…` waits for a forced cancellation of the pool. */
  datatype Owner =
    | NotStarted | StopIntake | StopSetups | CloseListeners | AwaitSetups
    | ScanQuiesce(group: nat, seen: set<ConnId>)
    | Quiesce(found: set<ConnId>, todo: set<ConnId>, current: Option<ConnId>)
    | DrainPool | CancelDrain(call: nat)
    | ScanDrain(group: nat, seen: set<ConnId>) | DrainConns(todo: set<ConnId>, current: Option<ConnId>)
    | ScanForce(group: nat, seen: set<ConnId>)
    | ForceClose(found: set<ConnId>, todo: set<ConnId>, current: Option<ConnId>)
    | CallWait | InWait(id: nat)
    | AwaitServices
    | CallCancel | CancelLate(call: nat)
    | ScanLate(group: nat, seen: set<ConnId>)
    | CloseLate(found: set<ConnId>, todo: set<ConnId>, current: Option<ConnId>)
    | Publish | Stopped
  {
    function Rank(): nat
    {
      match this
      case NotStarted => 0 case StopIntake => 1 case StopSetups => 2 case CloseListeners => 3 case AwaitSetups => 4
      case ScanQuiesce(_, _) => 5 case Quiesce(_, _, _) => 6 case DrainPool => 7 case CancelDrain(_) => 7
      case ScanDrain(_, _) => 8 case DrainConns(_, _) => 9 case ScanForce(_, _) => 10 case ForceClose(_, _, _) => 11
      case CallWait => 12 case InWait(_) => 13 case AwaitServices => 14 case CallCancel => 15 case CancelLate(_) => 16
      case ScanLate(_, _) => 17 case CloseLate(_, _, _) => 18 case Publish => 19 case Stopped => 20
    }
  }

  datatype Server = Server(
    pool: P.Pool,
    conns: map<ConnId, C.Conn>,
    registry: R.Registry,
    acceptingSetups: bool,
    setups: set<nat>,
    serving: set<nat>,
    listeners: set<nat>,
    owner: Owner,
    timedOut: bool,
    // history: what the walks of `quiesceAll` and of the late `forceCloseAll` found
    quieted: set<ConnId>,
    closedLate: set<ConnId>)

  /** A server that has just been published as running. */
  function RunningServer(workers: nat, capacity: nat, groups: nat, services: set<nat>): Server
  {
    Server(P.IntakeStep(P.NewPool(workers, capacity), P.StartGate), map[], R.NewRegistry(groups), true, {}, services, services,
           NotStarted, false, {}, {})
  }

  // ---------------------------------------------------------------- steps of the components

  /** The registry operation that belongs to a supervisor's next action. */
  function MoveOf(sup: C.Supervisor): Option<R.ShardAction>
  {
    match sup
    case AddFinalizing => Some(R.AddFinalizing)
    case LeaveShard => Some(R.LeaveShard)
    case CloseDone => Some(R.CloseDone)
    case MarkFinalized => Some(R.MarkFinalized)
    case _ => None
  }

  function Move(s: Server, c: ConnId, step: C.Step): Option<R.ShardAction>
    requires c in s.conns
  {
    if step == C.Lives(C.Supervise) then MoveOf(s.conns[c].life.supervisor) else None
  }

  predicate FromServer(step: C.Step)
  {
    step.Closes? && step.close.Request? && step.close.actor.ServerActor?
  }

  /** The sections of `quiesceReads` and `stopSendsAndDrain` that their caller runs; only the owner calls them. */
  predicate OwnersDrain(step: C.Step)
  {
    step.Drains? && !step.drain.TellWriter?
  }

  /** Only the owner stops intake, begins the drain of the pool and cancels by force. */
  predicate PoolEnabled(s: Server, step: P.Step)
  {
    && P.Enabled(s.pool, step)
    && (step.Gates? ==> !step.intake.StopAccepting? && (step.intake.DrainEnter? ==> s.owner.DrainPool?))
    && (step.Cancels? ==> !step.cancel.Snapshot?)
  }

  predicate ConnEnabled(s: Server, c: ConnId, step: C.Step)
  {
    && c in s.conns && C.Enabled(s.conns[c], step) && !FromServer(step) && !OwnersDrain(step)
    && (Move(s, c, step).Some? ==> R.ShardEnabled(s.registry.shards, c, Move(s, c, step).value))
  }

  function ConnStep(s: Server, c: ConnId, step: C.Step): Server
    requires ConnEnabled(s, c, step)
  {
    var s' := s.(conns := s.conns[c := C.Apply(s.conns[c], step)]);
    match Move(s, c, step)
    case None => s'
    case Some(a) => s'.(registry := s.registry.(shards := R.ShardStep(s.registry.shards, c, a)))
  }

  // ---------------------------------------------------------------- connection setup

  datatype SetupAction = Begin | AddConnection(conn: ConnId, transport: C.Transport, capacity: nat) | Finish

  predicate SetupEnabled(s: Server, k: nat, a: SetupAction)
  {
    match a
    case Begin => k !in s.setups
    case AddConnection(c, _, _) => k in s.setups && R.ShardEnabled(s.registry.shards, c, R.Add) && c !in s.conns
    case Finish => k in s.setups
  }

  function SetupStep(s: Server, k: nat, a: SetupAction): Server
    requires SetupEnabled(s, k, a)
  {
    match a
    case Begin => if s.acceptingSetups then s.(setups := s.setups + {k}) else s
    case AddConnection(c, transport, capacity) =>
      s.(conns := s.conns[c := C.Fresh(transport, capacity)],
         registry := s.registry.(shards := R.ShardStep(s.registry.shards, c, R.Add)))
    case Finish => s.(setups := s.setups - {k})
  }

  // ---------------------------------------------------------------- the owner

  datatype OwnerAction =
    | Proceed
    | Scan
    | QuiesceOne(conn: ConnId) | CancelReads
    | AskDrain(conn: ConnId) | ShutDrain | SeeDrained
    | CloseOne(conn: ConnId, cause: C.Cause) | CloseReturns
    | StartWait(id: nat)
    | StartCancel(call: nat)
    | TimeOut

  /** The connection the owner is busy with. */
  predicate BusyWith(s: Server, current: Option<ConnId>)
  {
    current.Some? && current.value in s.conns
  }

  /** `stopSendsAndDrain` is past its `Do`, and waits for the writer. */
  predicate AwaitsWriter(s: Server)
  {
    && s.owner.DrainConns? && BusyWith(s, s.owner.current)
    && var drain := s.conns[s.owner.current.value].gate.drain; drain.GateShut? || drain.WriterTold?
  }

  predicate WalkDone(todo: set<ConnId>, current: Option<ConnId>)
  {
    todo == {} && current.None?
  }

  predicate ProceedEnabled(s: Server)
  {
    match s.owner
    case StopIntake => P.LockFree(s.pool)
    case AwaitSetups => s.setups == {}
    case ScanQuiesce(g, _) => g >= |s.registry.shards.groups|
    case Quiesce(_, todo, current) => WalkDone(todo, current)
    case DrainPool => s.pool.intake.done
    case CancelDrain(call) => call in s.pool.calls && s.pool.calls[call].Returned?
    case ScanDrain(g, _) => g >= |s.registry.shards.groups|
    case DrainConns(todo, current) => WalkDone(todo, current)
    case ScanForce(g, _) => g >= |s.registry.shards.groups|
    case ForceClose(_, todo, current) => WalkDone(todo, current)
    case CallWait => false
    case InWait(id) => id in s.registry.waits && s.registry.waits[id].progress.ReturnedNil?
    case AwaitServices => s.serving == {}
    case CallCancel => false
    case CancelLate(call) => call in s.pool.calls && s.pool.calls[call].Returned?
    case ScanLate(g, _) => g >= |s.registry.shards.groups|
    case CloseLate(_, todo, current) => WalkDone(todo, current)
    case Stopped => false
    case _ => true
  }

  predicate OwnerEnabled(s: Server, a: OwnerAction)
  {
    match a
    case Proceed => ProceedEnabled(s)
    case Scan =>
      || (s.owner.ScanQuiesce? && s.owner.group < |s.registry.shards.groups|)
      || (s.owner.ScanDrain? && s.owner.group < |s.registry.shards.groups|)
      || (s.owner.ScanForce? && s.owner.group < |s.registry.shards.groups|)
      || (s.owner.ScanLate? && s.owner.group < |s.registry.shards.groups|)
    case QuiesceOne(c) => s.owner.Quiesce? && s.owner.current.None? && c in s.owner.todo && c in s.conns
    case CancelReads =>
      s.owner.Quiesce? && BusyWith(s, s.owner.current) && C.DrainEnabled(s.conns[s.owner.current.value], C.QuiesceCancel)
    case AskDrain(c) => s.owner.DrainConns? && s.owner.current.None? && c in s.owner.todo && c in s.conns
    case ShutDrain =>
      s.owner.DrainConns? && BusyWith(s, s.owner.current) && C.DrainEnabled(s.conns[s.owner.current.value], C.ShutGate)
    case SeeDrained => AwaitsWriter(s) && s.conns[s.owner.current.value].line.writer.Exited?
    case CloseOne(c, _) =>
      (s.owner.ForceClose? || s.owner.CloseLate?) && s.owner.current.None? && c in s.owner.todo && c in s.conns
    case CloseReturns =>
      && (s.owner.ForceClose? || s.owner.CloseLate?) && BusyWith(s, s.owner.current)
      && !C.Busy(s.conns[s.owner.current.value].shut, C.ServerActor)
    case StartWait(id) => s.owner.CallWait? && id !in s.registry.waits
    case StartCancel(call) => (s.owner.DrainPool? || s.owner.CallCancel?) && P.CancelEnabled(s.pool, P.Snapshot(call, true))
    case TimeOut =>
      || s.owner.AwaitSetups? || AwaitsWriter(s) || s.owner.AwaitServices?
      || (s.owner.InWait? && s.owner.id in s.registry.waits && s.registry.waits[s.owner.id].progress.ReturnedError?)
  }

  function AfterServices(timedOut: bool): Owner
  {
    if timedOut then CallCancel else Publish
  }

  /** The owner's next phase. */
  function Onward(o: Owner, timedOut: bool): Owner
  {
    match o
    case NotStarted => StopIntake
    case StopIntake => StopSetups
    case StopSetups => CloseListeners
    case CloseListeners => AwaitSetups
    case AwaitSetups => ScanQuiesce(0, {})
    case ScanQuiesce(_, seen) => Quiesce(seen, seen, None)
    case Quiesce(_, _, _) => DrainPool
    case DrainPool => ScanDrain(0, {})
    case CancelDrain(_) => ScanDrain(0, {})
    case ScanDrain(_, seen) => DrainConns(seen, None)
    case DrainConns(_, _) => ScanForce(0, {})
    case ScanForce(_, seen) => ForceClose(seen, seen, None)
    case ForceClose(_, _, _) => CallWait
    case InWait(_) => AwaitServices
    case AwaitServices => AfterServices(timedOut)
    case CancelLate(_) => ScanLate(0, {})
    case ScanLate(_, seen) => CloseLate(seen, seen, None)
    case CloseLate(_, _, _) => Publish
    case Publish => Stopped
    case _ => o
  }

  /** What it does on leaving a phase. */
  function Concluded(s: Server): Server
    requires ProceedEnabled(s)
  {
    match s.owner
    case StopIntake => s.(pool := P.IntakeStep(s.pool, P.StopAccepting))
    case StopSetups => s.(acceptingSetups := false)
    case CloseListeners => s.(listeners := {})
    case Quiesce(found, _, _) => s.(quieted := found)
    case CloseLate(found, _, _) => s.(closedLate := found)
    case _ => s
  }

  function Proceeded(s: Server): Server
    requires ProceedEnabled(s)
  {
    Concluded(s).(owner := Onward(s.owner, s.timedOut))
  }

  function Scanned(s: Server): Owner
    requires OwnerEnabled(s, Scan)
  {
    var o, found := s.owner, s.registry.shards.groups[s.owner.group];
    match o
    case ScanQuiesce(g, seen) => ScanQuiesce(g + 1, seen + found)
    case ScanDrain(g, seen) => ScanDrain(g + 1, seen + found)
    case ScanForce(g, seen) => ScanForce(g + 1, seen + found)
    case ScanLate(g, seen) => ScanLate(g + 1, seen + found)
  }

  /** The branch each wait takes when the shutdown timeout expires. */
  function TimedOut(s: Server): Server
    requires OwnerEnabled(s, TimeOut)
  {
    match s.owner
    case AwaitSetups => s.(timedOut := true, owner := ScanQuiesce(0, {}))
    case DrainConns(_, _) => s.(timedOut := true, owner := ScanForce(0, {}))
    case InWait(_) => s.(timedOut := true, owner := AwaitServices)
    case AwaitServices => s.(timedOut := true, owner := AfterServices(true))
  }

  function ServerRequest(cause: C.Cause): C.CloseAction
  {
    C.Request(C.ServerActor, C.OpRead, cause, false, false)
  }

  /** The `Do` of `stopSendsAndDrain` runs only once. */
  function Asked(conn: C.Conn): C.Conn
  {
    if conn.gate.drain.NotAsked? then C.DrainStep(conn, C.DrainMark) else conn
  }

  function SetConn(s: Server, c: ConnId, conn: C.Conn, owner: Owner): Server
  {
    s.(conns := s.conns[c := conn], owner := owner)
  }

  /** The owner in a forced close with `todo` and `current` replaced. */
  function Closing(o: Owner, todo: set<ConnId>, current: Option<ConnId>): Owner
    requires o.ForceClose? || o.CloseLate?
  {
    if o.ForceClose? then ForceClose(o.found, todo, current) else CloseLate(o.found, todo, current)
  }

  function OwnerStep(s: Server, a: OwnerAction): Server
    requires OwnerEnabled(s, a)
  {
    var o := s.owner;
    match a
    case Proceed => Proceeded(s)
    case Scan => s.(owner := Scanned(s))
    case QuiesceOne(c) =>
      SetConn(s, c, C.DrainStep(s.conns[c], C.QuiesceMark), Quiesce(o.found, o.todo - {c}, Some(c)))
    case CancelReads =>
      var c := o.current.value;
      SetConn(s, c, C.DrainStep(s.conns[c], C.QuiesceCancel), Quiesce(o.found, o.todo, None))
    case AskDrain(c) => SetConn(s, c, Asked(s.conns[c]), DrainConns(o.todo, Some(c)))
    case ShutDrain =>
      var c := o.current.value;
      SetConn(s, c, C.DrainStep(s.conns[c], C.ShutGate), o)
    case SeeDrained => s.(owner := DrainConns(o.todo - {o.current.value}, None))
    case CloseOne(c, cause) =>
      SetConn(s, c, C.CloseStep(s.conns[c], ServerRequest(cause)), Closing(o, o.todo - {c}, Some(c)))
    case CloseReturns => s.(owner := Closing(o, o.todo, None))
    case StartWait(id) => s.(owner := InWait(id), registry := R.WaitStep(s.registry, id, R.Call))
    case StartCancel(call) =>
      s.(owner := if o.DrainPool? then CancelDrain(call) else CancelLate(call), timedOut := true,
         pool := P.CancelStep(s.pool, P.Snapshot(call, true)))
    case TimeOut => TimedOut(s)
  }

  // ---------------------------------------------------------------- runs

  datatype Step =
    | Pools(pool: P.Step)
    | Conns(conn: ConnId, step: C.Step)
    | Setups(call: nat, setup: SetupAction)
    | WaitLoop(id: nat, wait: R.WaitAction)
    | ServiceEnds(service: nat)
    | Owns(owner: OwnerAction)

  predicate Enabled(s: Server, step: Step)
  {
    match step
    case Pools(a) => PoolEnabled(s, a)
    case Conns(c, a) => ConnEnabled(s, c, a)
    case Setups(k, a) => SetupEnabled(s, k, a)
    case WaitLoop(id, a) => !a.Call? && R.WaitEnabled(s.registry, id, a)
    case ServiceEnds(x) => x in s.serving
    case Owns(a) => OwnerEnabled(s, a)
  }

  function Apply(s: Server, step: Step): Server
    requires Enabled(s, step)
  {
    match step
    case Pools(a) => s.(pool := P.Apply(s.pool, a))
    case Conns(c, a) => ConnStep(s, c, a)
    case Setups(k, a) => SetupStep(s, k, a)
    case WaitLoop(id, a) => s.(registry := R.WaitStep(s.registry, id, a))
    case ServiceEnds(x) => s.(serving := s.serving - {x})
    case Owns(a) => OwnerStep(s, a)
  }

  ghost predicate Next(s: Server, s': Server)
  {
    exists step :: Enabled(s, step) && s' == Apply(s, step)
  }

  ghost predicate IsRun(run: seq<Server>)
  {
    && |run| > 0
    && (exists w, n, g, x :: w > 0 && n > 0 && g > 0 && run[0] == RunningServer(w, n, g, x))
    && forall i :: 0 < i < |run| ==> Next(run[i - 1], run[i])
  }

  // ---------------------------------------------------------------- what every step keeps

  function LifeOf(sup: C.Supervisor): R.Life
  {
    match sup
    case LeaveShard => R.InBoth
    case CountClosed | StartCloseHook | EndCloseHook | MarkClosed | CloseDone => R.Leaving
    case MarkFinalized => R.DoneClosed
    case Gone => R.Finalized
    case _ => R.Listed
  }

  /** Out of its shard: the supervisor is past that. */
  predicate Left(conn: C.Conn)
  {
    var life := LifeOf(conn.life.supervisor); !life.Listed? && !life.InBoth?
  }

  /** Each connection's standing in the registry follows its supervisor. */
  ghost predicate LinkInv(conns: map<ConnId, C.Conn>, shards: R.Shards)
  {
    && conns.Keys == shards.life.Keys
    && forall c :: c in conns ==> shards.life[c] == LifeOf(conns[c].life.supervisor)
  }

  ghost predicate ConnsInv(conns: map<ConnId, C.Conn>)
  {
    forall c :: c in conns ==> C.Inv(conns[c]) && CF.Sound(conns[c])
  }

  /** What the owner has established by the stage it has reached, and what is untouched until then. */
  ghost predicate GatesInv(s: Server)
  {
    var rank := s.owner.Rank();
    && s.pool.intake.started && (rank > 1 <==> !s.pool.intake.accepting)
    && (rank > 2 <==> !s.acceptingSetups)
    && (rank > 3 ==> s.listeners == {})
    && (rank > 4 && !s.timedOut ==> s.setups == {})
    && (rank < 7 ==> s.pool.intake.drainer.NotYet?)
    && (rank > 7 || s.owner.CancelDrain? ==> P.DrainOnceReturned(s.pool.intake)) && (rank > 7 && !s.timedOut ==> s.pool.intake.done)
    && (rank > 14 && !s.timedOut ==> s.serving == {})
    && (s.owner.InWait? ==> s.owner.id in s.registry.waits)
    && CancelsInv(s)
  }

  /** A shutdown that times out has the pool's tasks cancelled by force before it ends. */
  ghost predicate CancelsInv(s: Server)
  {
    && (s.owner.CancelDrain? || s.owner.CancelLate? ==>
          s.owner.call in s.pool.calls && s.pool.calls[s.owner.call].expired && s.timedOut)
    && (s.owner.CallCancel? ==> s.timedOut)
    && (s.owner.Rank() > 16 && s.timedOut ==> PR.Expired(s.pool))
  }

  ghost predicate WriterDone(conns: map<ConnId, C.Conn>, c: ConnId)
  {
    c in conns && conns[c].line.writer.Exited?
  }

  /** Which writers have stopped by now. */
  ghost predicate WritersInv(s: Server)
  {
    match s.owner
    case ScanDrain(g, seen) =>
      forall c :: c in s.conns ==> WriterDone(s.conns, c) || c in seen || R.GroupOf(c, |s.registry.shards.groups|) >= g
    case DrainConns(todo, _) => forall c :: c in s.conns ==> WriterDone(s.conns, c) || c in todo
    case _ => s.owner.Rank() > 9 ==> forall c :: c in s.conns ==> WriterDone(s.conns, c)
  }

  /** A close request of the server wins only after the connection has drained. */
  ghost predicate ServerWins(conn: C.Conn)
  {
    |conn.shut.winners| > 0 && conn.shut.winners[0].actor.ServerActor? ==> conn.shut.winners[0].drained
  }

  ghost predicate WinsInv(conns: map<ConnId, C.Conn>)
  {
    forall c :: c in conns ==> ServerWins(conns[c])
  }

  ghost predicate AwaitedInv(s: Server)
  {
    && (s.owner.InWait? ==> s.owner.id in s.registry.waits
                            && s.registry.waits[s.owner.id].registered == s.registry.shards.life.Keys)
    && (s.owner.Rank() > 13 ==> R.AllFinalized(s.registry.shards, s.registry.shards.life.Keys))
  }

  /** Until the owner drains the connections, nobody has asked any of them to. */
  ghost predicate AskInv(s: Server)
  {
    s.owner.Rank() < 9 ==> forall c :: c in s.conns ==> s.conns[c].gate.drain.NotAsked?
  }

  // -- what the owner's walks achieve

  /** Not open any more, and its reads cancelled. */
  ghost predicate Quieted(conn: C.Conn)
  {
    !conn.shut.phase.Open? && conn.shut.readCancelled
  }

  /** Closing or closed, and a request of the server, if it won, has run to its end. */
  ghost predicate Down(conn: C.Conn)
  {
    conn.shut.phase.Shutting() && !C.Busy(conn.shut, C.ServerActor)
  }

  ghost predicate QuietConn(conns: map<ConnId, C.Conn>, c: ConnId)
  {
    c in conns && Quieted(conns[c])
  }

  ghost predicate DownConn(conns: map<ConnId, C.Conn>, c: ConnId)
  {
    c in conns && Down(conns[c])
  }

  ghost predicate DownOrLeft(conns: map<ConnId, C.Conn>, c: ConnId)
  {
    c in conns && (Down(conns[c]) || Left(conns[c]))
  }

  ghost predicate QuiesceWalk(s: Server)
  {
    match s.owner
    case ScanQuiesce(g, seen) =>
      && seen <= s.conns.Keys
      && (!s.timedOut ==> forall c :: c in s.conns ==>
            QuietConn(s.conns, c) || c in seen || R.GroupOf(c, |s.registry.shards.groups|) >= g)
    case Quiesce(found, todo, current) =>
      && todo <= found <= s.conns.Keys
      && (forall c :: c in found ==> QuietConn(s.conns, c) || c in todo || current == Some(c))
      && (current.Some? ==> current.value in s.conns && !s.conns[current.value].shut.phase.Open?)
      && (!s.timedOut ==> forall c :: c in s.conns ==> QuietConn(s.conns, c) || c in found)
    case _ => s.owner.Rank() > 6 && !s.timedOut ==> forall c :: c in s.conns ==> QuietConn(s.conns, c)
  }

  ghost predicate ForceWalk(s: Server)
  {
    match s.owner
    case ScanForce(g, seen) =>
      && seen <= s.conns.Keys
      && (!s.timedOut ==> forall c :: c in s.conns ==>
            DownOrLeft(s.conns, c) || c in seen || R.GroupOf(c, |s.registry.shards.groups|) >= g)
    case ForceClose(found, todo, current) =>
      && CloseWalk(s.conns, found, todo, current)
      && (!s.timedOut ==> forall c :: c in s.conns ==> DownOrLeft(s.conns, c) || c in found)
    case _ => s.owner.Rank() > 11 && !s.timedOut ==> forall c :: c in s.conns ==> DownOrLeft(s.conns, c)
  }

  /** Halfway through closing what a walk found. */
  ghost predicate CloseWalk(conns: map<ConnId, C.Conn>, found: set<ConnId>, todo: set<ConnId>, current: Option<ConnId>)
  {
    && todo <= found <= conns.Keys
    && (forall c :: c in found ==> DownConn(conns, c) || c in todo || current == Some(c))
    && (current.Some? ==> current.value in conns && conns[current.value].shut.phase.Shutting())
  }

  ghost predicate LateWalk(s: Server)
  {
    match s.owner
    case ScanLate(g, seen) => seen <= s.conns.Keys
    case CloseLate(found, todo, current) => CloseWalk(s.conns, found, todo, current)
    case _ => true
  }

  /** The connection whose drain the owner waits for has been asked. */
  ghost predicate DrainWalk(s: Server)
  {
    match s.owner
    case ScanDrain(_, seen) => seen <= s.conns.Keys
    case DrainConns(todo, current) =>
      todo <= s.conns.Keys && (current.Some? ==> current.value in todo && AskedConn(s.conns, current.value))
    case _ => true
  }

  ghost predicate AskedConn(conns: map<ConnId, C.Conn>, c: ConnId)
  {
    c in conns && !conns[c].gate.drain.NotAsked?
  }

  ghost predicate FoundInv(s: Server)
  {
    && (forall c :: c in s.quieted ==> QuietConn(s.conns, c))
    && (forall c :: c in s.closedLate ==> DownConn(s.conns, c))
  }

  ghost predicate WalkInv(s: Server)
  {
    QuiesceWalk(s) && DrainWalk(s) && ForceWalk(s) && LateWalk(s) && FoundInv(s)
  }

  ghost predicate Inv(s: Server)
  {
    && P.Inv(s.pool) && R.Inv(s.registry) && ConnsInv(s.conns) && LinkInv(s.conns, s.registry.shards)
    && GatesInv(s) && WalkInv(s) && AskInv(s)
    && (!s.timedOut ==> WritersInv(s) && WinsInv(s.conns) && AwaitedInv(s))
  }

  lemma RunningInv(w: nat, n: nat, g: nat, x: set<nat>)
    requires w > 0 && n > 0 && g > 0
    ensures Inv(RunningServer(w, n, g, x))
  {
    hide P.Inv, R.Inv;
    P.NewInv(w, n);
    P.IntakeKeeps(P.NewPool(w, n), P.StartGate);
    R.NewInv(g);
  }

  // -- how one connection changes

  /** What a connection keeps once it has it. */
  ghost predicate Stays(a: C.Conn, b: C.Conn)
  {
    && (!a.shut.phase.Open? ==> !b.shut.phase.Open?) && (a.shut.phase.Shutting() ==> b.shut.phase.Shutting())
    && (a.shut.readCancelled ==> b.shut.readCancelled)
    && (a.line.writer.Exited? ==> b.line.writer.Exited?)
    && (Left(a) ==> Left(b))
    && (Down(a) ==> Down(b))
    && (!a.gate.drain.NotAsked? ==> !b.gate.drain.NotAsked?)
  }

  /** Only the supervisor moves a connection through the registry. */
  lemma SupervisorMoves(conn: C.Conn, step: C.Step)
    requires C.Enabled(conn, step)
    ensures var sup, sup' := conn.life.supervisor, C.Apply(conn, step).life.supervisor;
            if step != C.Lives(C.Supervise) then sup' == sup
            else match MoveOf(sup)
                 case None => LifeOf(sup') == LifeOf(sup)
                 case Some(a) => LifeOf(sup) == Before(a) && LifeOf(sup') == After(a)
  {
    hide C.Busy, C.Chunk, C.TakeOne, C.Win, C.NoneInFlight;
  }

  function Before(a: R.ShardAction): R.Life
    requires !a.Add?
  {
    match a case AddFinalizing => R.Listed case LeaveShard => R.InBoth case CloseDone => R.Leaving case MarkFinalized => R.DoneClosed
  }

  function After(a: R.ShardAction): R.Life
    requires !a.Add?
  {
    match a case AddFinalizing => R.InBoth case LeaveShard => R.Leaving case CloseDone => R.DoneClosed case MarkFinalized => R.Finalized
  }

  lemma LeftStays(conn: C.Conn, step: C.Step)
    requires C.Enabled(conn, step) && Left(conn)
    ensures Left(C.Apply(conn, step))
  {
    hide C.Enabled, C.Apply;
    SupervisorMoves(conn, step);
  }

  lemma DownStays(a: C.Conn, b: C.Conn)
    requires CF.CloseFlow(a, b) && a.shut.phase.Rank() <= b.shut.phase.Rank() && Down(a)
    ensures Down(b)
  {
  }

  lemma AskedStays(conn: C.Conn, step: C.Step)
    requires C.Enabled(conn, step) && !conn.gate.drain.NotAsked?
    ensures !C.Apply(conn, step).gate.drain.NotAsked?
  {
    hide C.Busy, C.Chunk, C.TakeOne, C.MayRequest, C.NoneInFlight, C.Truthful, C.ChildrenGone;
  }

  /** Whatever step a connection takes, it keeps what it has. */
  lemma ConnStays(conn: C.Conn, step: C.Step)
    requires C.Inv(conn) && C.Enabled(conn, step)
    ensures Stays(conn, C.Apply(conn, step))
  {
    hide C.Inv, C.Enabled, C.Apply, Left, Down, CF.SendsFlow, CF.WriterFlow, CF.ReportFlow, CF.LifeFlow;
    var conn' := C.Apply(conn, step);
    CR.ForwardStep(conn, step);
    CF.StepFlows(conn, step);
    if Left(conn) {
      LeftStays(conn, step);
    }
    if Down(conn) {
      DownStays(conn, conn');
    }
    if !conn.gate.drain.NotAsked? {
      AskedStays(conn, step);
    }
  }

  /** A connection that has left its shard is quiet. */
  lemma LeftIsQuiet(conn: C.Conn)
    requires C.Inv(conn) && CF.Sound(conn) && Left(conn)
    ensures Quieted(conn)
  {
    hide C.LineInv, C.SendInv, C.ReportInv;
  }

  // -- how all of them change

  ghost predicate AllStay(conns: map<ConnId, C.Conn>, conns': map<ConnId, C.Conn>)
  {
    forall c :: c in conns ==> c in conns' && Stays(conns[c], conns'[c])
  }

  lemma OneChanges(conns: map<ConnId, C.Conn>, c: ConnId, conn: C.Conn)
    requires c in conns ==> Stays(conns[c], conn)
    ensures AllStay(conns, conns[c := conn])
  {
    hide Stays;
    forall x | x in conns && x != c
      ensures Stays(conns[x], conns[x])
    {
      StaysSelf(conns[x]);
    }
  }

  lemma StaysSelf(conn: C.Conn)
    ensures Stays(conn, conn)
  {
  }

  /** What the connections keep, seen through the owner's predicates. */
  lemma PropertiesStay(conns: map<ConnId, C.Conn>, conns': map<ConnId, C.Conn>)
    requires AllStay(conns, conns')
    ensures forall c :: QuietConn(conns, c) ==> QuietConn(conns', c)
    ensures forall c :: DownConn(conns, c) ==> DownConn(conns', c)
    ensures forall c :: DownOrLeft(conns, c) ==> DownOrLeft(conns', c)
    ensures forall c :: WriterDone(conns, c) ==> WriterDone(conns', c)
    ensures forall c :: AskedConn(conns, c) ==> AskedConn(conns', c)
    ensures forall c :: c in conns ==> c in conns'
    ensures forall c :: c in conns && conns[c].shut.phase.Shutting() ==> conns'[c].shut.phase.Shutting()
    ensures forall c :: c in conns && !conns[c].shut.phase.Open? ==> !conns'[c].shut.phase.Open?
  {
    hide Left, Down;
  }

  /** The same owner at the same point, with the same connections or, while that makes no difference, with new ones. */
  ghost predicate SamePoint(s: Server, s': Server)
  {
    && s'.owner == s.owner && s'.timedOut == s.timedOut && s'.quieted == s.quieted && s'.closedLate == s.closedLate
    && |s'.registry.shards.groups| == |s.registry.shards.groups|
    && AllStay(s.conns, s'.conns)
    && (s'.conns.Keys == s.conns.Keys || s.owner.Rank() <= 4 || s.timedOut)
  }

  lemma QuiesceStays(s: Server, s': Server)
    requires QuiesceWalk(s) && SamePoint(s, s')
    ensures QuiesceWalk(s')
  {
    hide QuietConn, AllStay, R.GroupOf;
    PropertiesStay(s.conns, s'.conns);
    assert s'.conns.Keys == s.conns.Keys ==> forall c :: c in s'.conns ==> c in s.conns;
  }

  lemma ForceStays(s: Server, s': Server)
    requires ForceWalk(s) && LateWalk(s) && DrainWalk(s) && SamePoint(s, s')
    ensures ForceWalk(s') && LateWalk(s') && DrainWalk(s')
  {
    hide DownConn, DownOrLeft, AllStay, AskedConn, R.GroupOf;
    PropertiesStay(s.conns, s'.conns);
    assert s'.conns.Keys == s.conns.Keys ==> forall c :: c in s'.conns ==> c in s.conns;
  }

  lemma FoundStays(s: Server, s': Server)
    requires FoundInv(s) && SamePoint(s, s')
    ensures FoundInv(s')
  {
    hide DownConn, QuietConn, AllStay;
    PropertiesStay(s.conns, s'.conns);
  }

  lemma WalksStay(s: Server, s': Server)
    requires WalkInv(s) && SamePoint(s, s')
    ensures WalkInv(s')
  {
    hide QuiesceWalk, ForceWalk, LateWalk, DrainWalk, FoundInv, SamePoint;
    QuiesceStays(s, s');
    ForceStays(s, s');
    FoundStays(s, s');
  }

  lemma WritersStay(s: Server, s': Server)
    requires WritersInv(s) && SamePoint(s, s') && !s.timedOut
    ensures WritersInv(s')
  {
    hide WriterDone, AllStay, R.GroupOf;
    PropertiesStay(s.conns, s'.conns);
    assert s'.conns.Keys == s.conns.Keys ==> forall c :: c in s'.conns ==> c in s.conns;
  }

  // -- a step of one connection

  lemma WriterKeepsWinner(conn: C.Conn, a: C.WriterAction)
    requires C.CloseInv(conn.shut) && C.ExitInv(conn.line.writer, conn.shut, conn.life.supervisor)
    requires C.WriterEnabled(conn, a) && ServerWins(conn)
    ensures ServerWins(C.WriterStep(conn, a))
  {
    hide C.Chunk, C.TakeOne, C.Truthful;
  }

  lemma ClosesKeepWinner(conn: C.Conn, a: C.CloseAction)
    requires C.CloseInv(conn.shut) && C.ExitInv(conn.line.writer, conn.shut, conn.life.supervisor)
    requires C.CloseEnabled(conn, a) && !FromServer(C.Closes(a)) && ServerWins(conn)
    ensures ServerWins(C.CloseStep(conn, a))
  {
    hide C.Busy, C.MayRequest, C.ExitInv, C.AdvanceCloser, CR.NextStage;
    if a.Advance? {
      CR.AdvanceShape(conn, a.i);
    }
  }

  lemma WinnerKept(conn: C.Conn, step: C.Step)
    requires C.CloseInv(conn.shut) && C.ExitInv(conn.line.writer, conn.shut, conn.life.supervisor)
    requires C.Enabled(conn, step) && !FromServer(step) && ServerWins(conn)
    ensures ServerWins(C.Apply(conn, step))
  {
    hide C.CloseInv, C.ExitInv, C.SendStep, C.WriterStep, C.DrainStep, C.CloseStep, C.LifeStep, C.SendEnabled,
         C.WriterEnabled, C.DrainEnabled, C.CloseEnabled, C.LifeEnabled;
    if step.Closes? {
      ClosesKeepWinner(conn, step.close);
    } else if step.WriterDoes? {
      WriterKeepsWinner(conn, step.write);
    } else {
      CR.OthersKeepWinners(conn, step);
    }
  }

  lemma ConnKeepsLink(s: Server, c: ConnId, step: C.Step)
    requires LinkInv(s.conns, s.registry.shards) && ConnEnabled(s, c, step)
    ensures var s' := ConnStep(s, c, step); LinkInv(s'.conns, s'.registry.shards)
  {
    hide C.Enabled, C.Apply;
    SupervisorMoves(s.conns[c], step);
  }

  lemma ConnKeepsRegistry(s: Server, c: ConnId, step: C.Step)
    requires R.Inv(s.registry) && ConnEnabled(s, c, step)
    ensures R.Inv(ConnStep(s, c, step).registry)
  {
    hide R.Inv, C.Enabled, C.Apply, R.ShardStep, R.ShardEnabled;
    var m := Move(s, c, step);
    if m.Some? {
      R.InvStep(s.registry, R.Moves(c, m.value));
    }
  }

  lemma ConnSamePoint(s: Server, c: ConnId, step: C.Step)
    requires ConnsInv(s.conns) && ConnEnabled(s, c, step)
    ensures SamePoint(s, ConnStep(s, c, step))
  {
    hide C.Enabled, C.Apply, C.Inv, Stays, AllStay, CF.Sound;
    ConnStays(s.conns[c], step);
    OneChanges(s.conns, c, C.Apply(s.conns[c], step));
  }

  lemma ConnKeepsWins(s: Server, c: ConnId, step: C.Step)
    requires ConnsInv(s.conns) && WinsInv(s.conns) && ConnEnabled(s, c, step)
    ensures WinsInv(ConnStep(s, c, step).conns)
  {
    hide C.Enabled, C.Apply, ServerWins, C.LineInv, C.SendInv, C.DrainInv, C.CloseInv, C.ReportInv, C.ExitInv, C.EffectInv,
         C.LifeInv, CF.Sound;
    WinnerKept(s.conns[c], step);
  }

  lemma ConnKeepsAwaited(s: Server, c: ConnId, step: C.Step)
    requires AwaitedInv(s) && ConnEnabled(s, c, step)
    ensures AwaitedInv(ConnStep(s, c, step))
  {
    hide C.Enabled, C.Apply;
  }

  /** Nobody but the owner asks a connection to drain. */
  lemma NotAskedStays(conn: C.Conn, step: C.Step)
    requires C.Enabled(conn, step) && !OwnersDrain(step) && conn.gate.drain.NotAsked?
    ensures C.Apply(conn, step).gate.drain.NotAsked?
  {
    hide C.Busy, C.Chunk, C.TakeOne, C.MayRequest, C.NoneInFlight, C.Truthful, C.ChildrenGone;
  }

  lemma ConnKeepsAsks(s: Server, c: ConnId, step: C.Step)
    requires AskInv(s) && ConnEnabled(s, c, step)
    ensures AskInv(ConnStep(s, c, step))
  {
    hide C.Enabled, C.Apply;
    if s.conns[c].gate.drain.NotAsked? {
      NotAskedStays(s.conns[c], step);
    }
  }

  lemma ConnKeepsConns(s: Server, c: ConnId, step: C.Step)
    requires ConnsInv(s.conns) && ConnEnabled(s, c, step)
    ensures ConnsInv(ConnStep(s, c, step).conns)
  {
    hide C.Enabled, C.Apply, C.Inv, CF.Sound;
    C.InvStep(s.conns[c], step);
    CF.SoundStep(s.conns[c], step);
  }

  lemma ConnKeepsGates(s: Server, c: ConnId, step: C.Step)
    requires GatesInv(s) && ConnEnabled(s, c, step)
    ensures GatesInv(ConnStep(s, c, step)) && ConnStep(s, c, step).pool == s.pool
  {
    hide C.Enabled, C.Apply, R.ShardStep, R.ShardEnabled;
  }

  lemma ConnKeeps(s: Server, c: ConnId, step: C.Step)
    requires Inv(s) && ConnEnabled(s, c, step)
    ensures Inv(ConnStep(s, c, step))
  {
    hide C.Inv, P.Inv, R.Inv, ConnsInv, LinkInv, WritersInv, WinsInv, AwaitedInv, GatesInv, WalkInv, AskInv, ConnStep,
         ConnEnabled;
    ConnKeepsConns(s, c, step);
    ConnKeepsLink(s, c, step);
    ConnKeepsRegistry(s, c, step);
    ConnKeepsGates(s, c, step);
    ConnKeepsAsks(s, c, step);
    ConnSamePoint(s, c, step);
    WalksStay(s, ConnStep(s, c, step));
    if !s.timedOut {
      WritersStay(s, ConnStep(s, c, step));
      ConnKeepsWins(s, c, step);
      ConnKeepsAwaited(s, c, step);
    }
  }

  // -- setups

  lemma FreshKeeps(conns: map<ConnId, C.Conn>, c: ConnId, t: C.Transport, n: nat)
    requires ConnsInv(conns) && c !in conns
    ensures ConnsInv(conns[c := C.Fresh(t, n)]) && AllStay(conns, conns[c := C.Fresh(t, n)])
    ensures WinsInv(conns) ==> WinsInv(conns[c := C.Fresh(t, n)])
  {
    hide C.Inv, Stays;
    C.FreshInv(t, n);
    OneChanges(conns, c, C.Fresh(t, n));
  }

  lemma AddKeepsLink(s: Server, c: ConnId, t: C.Transport, n: nat)
    requires LinkInv(s.conns, s.registry.shards) && R.ShardEnabled(s.registry.shards, c, R.Add)
    ensures LinkInv(s.conns[c := C.Fresh(t, n)], R.ShardStep(s.registry.shards, c, R.Add))
    ensures |R.ShardStep(s.registry.shards, c, R.Add).groups| == |s.registry.shards.groups|
  {
  }

  lemma AddKeepsGates(s: Server, k: nat, a: SetupAction)
    requires GatesInv(s) && AskInv(s) && a.AddConnection? && SetupEnabled(s, k, a)
    ensures GatesInv(SetupStep(s, k, a)) && AskInv(SetupStep(s, k, a)) && (s.owner.Rank() <= 4 || s.timedOut)
  {
    hide R.ShardStep, R.ShardEnabled;
  }

  lemma EarlyAwaited(s: Server, s': Server)
    requires s.owner.Rank() <= 4 && s'.owner == s.owner
    ensures AwaitedInv(s')
  {
  }

  lemma AddKeeps(s: Server, k: nat, a: SetupAction)
    requires Inv(s) && a.AddConnection? && SetupEnabled(s, k, a)
    ensures Inv(SetupStep(s, k, a))
  {
    hide C.Inv, P.Inv, R.Inv, ConnsInv, LinkInv, WritersInv, WinsInv, AwaitedInv, GatesInv, WalkInv, AskInv, AllStay, C.Fresh;
    R.InvStep(s.registry, R.Moves(a.conn, R.Add));
    FreshKeeps(s.conns, a.conn, a.transport, a.capacity);
    AddKeepsLink(s, a.conn, a.transport, a.capacity);
    AddKeepsGates(s, k, a);
    var s' := SetupStep(s, k, a);
    WalksStay(s, s');
    if !s.timedOut {
      WritersStay(s, s');
      EarlyAwaited(s, s');
    }
  }

  lemma SetupKeeps(s: Server, k: nat, a: SetupAction)
    requires Inv(s) && SetupEnabled(s, k, a)
    ensures Inv(SetupStep(s, k, a))
  {
    hide C.Inv, P.Inv, R.Inv, ConnsInv, LinkInv, WinsInv;
    if a.AddConnection? {
      AddKeeps(s, k, a);
    }
  }

  // -- the owner goes on

  lemma GroupBound(s: Server, c: ConnId)
    requires R.Inv(s.registry)
    ensures R.GroupOf(c, |s.registry.shards.groups|) < |s.registry.shards.groups|
  {
  }

  lemma ProceedShape(s: Server)
    requires ProceedEnabled(s)
    ensures var s' := Proceeded(s); s'.conns == s.conns && s'.registry == s.registry && s'.timedOut == s.timedOut
  {
    hide P.IntakeStep, P.LockFree;
  }

  lemma ProceedKeepsPool(s: Server)
    requires P.Inv(s.pool) && GatesInv(s) && ProceedEnabled(s)
    ensures var s' := Proceeded(s);
            && P.Inv(s'.pool) && s'.pool.calls == s.pool.calls && s'.pool.intake.started == s.pool.intake.started
            && s'.pool.intake.drainer == s.pool.intake.drainer && s'.pool.intake.done == s.pool.intake.done
            && s'.pool.intake.accepting == (s.pool.intake.accepting && !s.owner.StopIntake?)
  {
    hide P.Inv, P.LockFree, CancelsInv;
    if s.owner.StopIntake? {
      P.IntakeKeeps(s.pool, P.StopAccepting);
    }
  }

  lemma ProceedKeepsCancels(s: Server)
    requires CancelsInv(s) && ProceedEnabled(s)
    requires Proceeded(s).pool.calls == s.pool.calls
    ensures CancelsInv(Proceeded(s))
  {
    hide P.IntakeStep, P.LockFree;
    if s.owner.CancelLate? {
      assert s.pool.calls[s.owner.call] == P.Returned(true);
    }
  }

  lemma ProceedKeepsGates(s: Server)
    requires P.Inv(s.pool) && GatesInv(s) && ProceedEnabled(s)
    ensures P.Inv(Proceeded(s).pool) && GatesInv(Proceeded(s))
  {
    hide P.Inv, P.LockFree, P.IntakeStep, CancelsInv;
    ProceedKeepsPool(s);
    ProceedKeepsCancels(s);
    if s.owner.DrainPool? {
      DoneIsReturned(s.pool);
    } else if s.owner.CancelDrain? {
      CancelMeansTimedOut(s);
    }
  }

  lemma CancelMeansTimedOut(s: Server)
    requires CancelsInv(s) && s.owner.CancelDrain?
    ensures s.timedOut
  {
  }

  lemma DoneIsReturned(p: P.Pool)
    requires P.Inv(p) && p.intake.done
    ensures P.DrainOnceReturned(p.intake)
  {
    hide P.PlaceInv, P.CountInv, P.CancelInv, P.OrderInv;
  }

  lemma ProceedKeepsWriters(s: Server)
    requires R.Inv(s.registry) && WritersInv(s) && ProceedEnabled(s)
    ensures WritersInv(Proceeded(s))
  {
    hide R.Inv, P.IntakeStep, P.LockFree, WriterDone;
    forall c | c in s.conns
      ensures R.GroupOf(c, |s.registry.shards.groups|) < |s.registry.shards.groups|
    {
      GroupBound(s, c);
    }
  }

  lemma ProceedKeepsAwaited(s: Server)
    requires R.Inv(s.registry) && AwaitedInv(s) && ProceedEnabled(s)
    ensures AwaitedInv(Proceeded(s))
  {
    hide R.Inv, P.IntakeStep, P.LockFree, R.AllFinalized;
    if s.owner.InWait? {
      WaitedMeansFinalized(s.registry, s.owner.id);
    }
  }

  lemma ProceedKeepsQuiesce(s: Server)
    requires R.Inv(s.registry) && QuiesceWalk(s) && FoundInv(s) && ProceedEnabled(s)
    ensures QuiesceWalk(Proceeded(s)) && forall c :: c in Proceeded(s).quieted ==> QuietConn(s.conns, c)
  {
    hide R.Inv, P.IntakeStep, P.LockFree, QuietConn, DownConn;
    forall c | c in s.conns
      ensures R.GroupOf(c, |s.registry.shards.groups|) < |s.registry.shards.groups|
    {
      GroupBound(s, c);
    }
  }

  lemma ProceedKeepsForce(s: Server)
    requires R.Inv(s.registry) && ForceWalk(s) && ProceedEnabled(s)
    ensures ForceWalk(Proceeded(s))
  {
    hide R.Inv, P.IntakeStep, P.LockFree, DownConn, DownOrLeft;
    forall c | c in s.conns
      ensures R.GroupOf(c, |s.registry.shards.groups|) < |s.registry.shards.groups|
    {
      GroupBound(s, c);
    }
    if s.owner.ForceClose? {
      DownImplies(s.conns);
    }
  }

  lemma DownImplies(conns: map<ConnId, C.Conn>)
    ensures forall c :: DownConn(conns, c) ==> DownOrLeft(conns, c)
  {
    hide Down;
  }

  lemma ProceedKeepsLate(s: Server)
    requires LateWalk(s) && FoundInv(s) && ProceedEnabled(s)
    ensures LateWalk(Proceeded(s)) && forall c :: c in Proceeded(s).closedLate ==> DownConn(s.conns, c)
  {
    hide P.IntakeStep, P.LockFree, QuietConn, DownConn;
  }

  lemma ProceedKeepsDrains(s: Server)
    requires DrainWalk(s) && ProceedEnabled(s)
    ensures DrainWalk(Proceeded(s))
  {
    hide P.IntakeStep, P.LockFree, AskedConn;
  }

  lemma ProceedKeepsAsks(s: Server)
    requires AskInv(s) && ProceedEnabled(s)
    ensures AskInv(Proceeded(s))
  {
    hide P.IntakeStep, P.LockFree;
  }

  lemma ProceedKeeps(s: Server)
    requires Inv(s) && OwnerEnabled(s, Proceed)
    ensures Inv(OwnerStep(s, Proceed))
  {
    hide C.Inv, P.Inv, R.Inv, LinkInv, ConnsInv, WinsInv, WritersInv, AwaitedInv, GatesInv, AskInv, QuiesceWalk, ForceWalk,
         LateWalk, DrainWalk, Proceeded, ProceedEnabled, QuietConn, DownConn;
    ProceedShape(s);
    ProceedKeepsGates(s);
    ProceedKeepsQuiesce(s);
    ProceedKeepsForce(s);
    ProceedKeepsLate(s);
    ProceedKeepsDrains(s);
    ProceedKeepsAsks(s);
    if !s.timedOut {
      ProceedKeepsWriters(s);
      ProceedKeepsAwaited(s);
    }
  }

  lemma WaitedMeansFinalized(r: R.Registry, id: nat)
    requires R.Inv(r) && id in r.waits && r.waits[id].progress.ReturnedNil?
    ensures R.AllFinalized(r.shards, r.waits[id].registered)
  {
    hide R.ShardInv;
    assert R.WaitInv(r.shards, r.waits[id]);
  }

  // -- the owner walks the shards

  lemma UndrainedIsListed(s: Server, c: ConnId)
    requires ConnsInv(s.conns) && R.Inv(s.registry) && LinkInv(s.conns, s.registry.shards)
    requires c in s.conns && !WriterDone(s.conns, c)
    ensures R.InItsShard(s.registry.shards, c)
  {
    hide R.WaitInv, C.LineInv, C.SendInv, C.DrainInv, C.CloseInv, C.ReportInv, C.ExitInv, CF.Sound;
    assert C.Inv(s.conns[c]);
    assert s.conns[c].life.supervisor.AwaitChildren?;
  }

  /** A connection that is not in its shard has left it. */
  lemma NotListedHasLeft(s: Server, c: ConnId)
    requires R.Inv(s.registry) && LinkInv(s.conns, s.registry.shards) && c in s.conns
    requires !R.InItsShard(s.registry.shards, c)
    ensures Left(s.conns[c])
  {
    hide R.WaitInv, R.InItsShard;
  }

  lemma LeftConn(s: Server, c: ConnId)
    requires ConnsInv(s.conns) && c in s.conns && Left(s.conns[c])
    ensures QuietConn(s.conns, c) && DownOrLeft(s.conns, c)
  {
    hide C.Inv, CF.Sound, Left, Quieted;
    LeftIsQuiet(s.conns[c]);
  }

  /** What one more shard of a walk contributes: its connections are seen, or have left. */
  lemma ScanSees(s: Server, g: nat, c: ConnId)
    requires ConnsInv(s.conns) && R.Inv(s.registry) && LinkInv(s.conns, s.registry.shards)
    requires g < |s.registry.shards.groups| && c in s.conns && R.GroupOf(c, |s.registry.shards.groups|) == g
    ensures c in s.registry.shards.groups[g] || (QuietConn(s.conns, c) && DownOrLeft(s.conns, c) && WriterDone(s.conns, c))
  {
    hide C.Inv, R.Inv, ConnsInv, LinkInv, CF.Sound, QuietConn, DownOrLeft;
    if c !in s.registry.shards.groups[g] {
      assert !R.InItsShard(s.registry.shards, c);
      NotListedHasLeft(s, c);
      LeftConn(s, c);
      if !WriterDone(s.conns, c) {
        UndrainedIsListed(s, c);
      }
    }
  }

  lemma GroupsAreConns(s: Server, g: nat)
    requires R.Inv(s.registry) && LinkInv(s.conns, s.registry.shards) && g < |s.registry.shards.groups|
    ensures s.registry.shards.groups[g] <= s.conns.Keys
  {
    hide R.WaitInv, R.GroupOf, R.InItsShard;
  }

  lemma ScanKeepsWalks(s: Server)
    requires ConnsInv(s.conns) && R.Inv(s.registry) && LinkInv(s.conns, s.registry.shards)
    requires WalkInv(s) && OwnerEnabled(s, Scan)
    ensures WalkInv(OwnerStep(s, Scan))
  {
    hide ConnsInv, R.Inv, LinkInv, QuietConn, DownConn, DownOrLeft, WriterDone, R.GroupOf;
    var g := s.owner.group;
    GroupsAreConns(s, g);
    forall c | c in s.conns && R.GroupOf(c, |s.registry.shards.groups|) == g
      ensures c in s.registry.shards.groups[g] || (QuietConn(s.conns, c) && DownOrLeft(s.conns, c))
    {
      ScanSees(s, g, c);
    }
  }

  lemma ScanKeepsWriters(s: Server)
    requires ConnsInv(s.conns) && R.Inv(s.registry) && LinkInv(s.conns, s.registry.shards)
    requires WritersInv(s) && OwnerEnabled(s, Scan)
    ensures WritersInv(OwnerStep(s, Scan))
  {
    hide ConnsInv, R.Inv, LinkInv, QuietConn, DownOrLeft, WriterDone, R.GroupOf;
    var g := s.owner.group;
    forall c | c in s.conns && R.GroupOf(c, |s.registry.shards.groups|) == g
      ensures c in s.registry.shards.groups[g] || WriterDone(s.conns, c)
    {
      ScanSees(s, g, c);
    }
  }

  lemma ScanKeepsRest(s: Server)
    requires GatesInv(s) && AskInv(s) && OwnerEnabled(s, Scan)
    ensures GatesInv(OwnerStep(s, Scan)) && AskInv(OwnerStep(s, Scan))
    ensures AwaitedInv(s) ==> AwaitedInv(OwnerStep(s, Scan))
  {
    hide R.AllFinalized, PR.Expired;
  }

  lemma ScanKeeps(s: Server)
    requires Inv(s) && OwnerEnabled(s, Scan)
    ensures Inv(OwnerStep(s, Scan))
  {
    hide C.Inv, P.Inv, R.Inv, LinkInv, ConnsInv, WinsInv, WritersInv, AwaitedInv, GatesInv, AskInv, WalkInv, Scanned;
    ScanKeepsWalks(s);
    ScanKeepsRest(s);
    if !s.timedOut {
      ScanKeepsWriters(s);
    }
  }

  // -- the owner calls a connection

  /** A connection after a call of the owner: it keeps its invariant and all that it has, and its children go on. */
  ghost predicate Called(conn: C.Conn, conn': C.Conn)
  {
    C.Inv(conn') && CF.Sound(conn') && Stays(conn, conn') && conn'.life == conn.life && conn'.line == conn.line
  }

  lemma DrainCalls(conn: C.Conn, a: C.DrainAction)
    requires C.Inv(conn) && CF.Sound(conn) && C.DrainEnabled(conn, a)
    ensures Called(conn, C.DrainStep(conn, a)) && C.DrainStep(conn, a).shut.winners == conn.shut.winners
  {
    hide C.Inv, CF.Sound, Stays, C.NoneInFlight;
    C.InvStep(conn, C.Drains(a));
    CF.SoundStep(conn, C.Drains(a));
    ConnStays(conn, C.Drains(a));
  }

  lemma ServerCloses(conn: C.Conn, cause: C.Cause)
    requires C.Inv(conn) && CF.Sound(conn)
    ensures var conn' := C.CloseStep(conn, ServerRequest(cause));
            && Called(conn, conn') && conn'.shut.phase.Shutting()
            && (conn.line.writer.Exited? && ServerWins(conn) ==> ServerWins(conn'))
  {
    hide Stays, CF.Sound, C.LineInv, C.SendInv, C.DrainInv, C.ReportInv, C.LifeInv, C.EffectInv;
    C.InvStep(conn, C.Closes(ServerRequest(cause)));
    CF.SoundStep(conn, C.Closes(ServerRequest(cause)));
    ConnStays(conn, C.Closes(ServerRequest(cause)));
  }

  lemma ConnReplaced(s: Server, c: ConnId, conn: C.Conn)
    requires c in s.conns && Called(s.conns[c], conn)
    ensures var conns := s.conns[c := conn];
            && AllStay(s.conns, conns) && conns.Keys == s.conns.Keys
            && (ConnsInv(s.conns) ==> ConnsInv(conns))
            && (WinsInv(s.conns) && (ServerWins(s.conns[c]) ==> ServerWins(conn)) ==> WinsInv(conns))
            && (LinkInv(s.conns, s.registry.shards) ==> LinkInv(conns, s.registry.shards))
            && forall x :: WriterDone(conns, x) <==> WriterDone(s.conns, x)
  {
    hide C.Inv, CF.Sound, ServerWins, Stays;
    OneChanges(s.conns, c, conn);
  }

  lemma ConnKept(conns: map<ConnId, C.Conn>, c: ConnId)
    requires ConnsInv(conns) && c in conns
    ensures C.Inv(conns[c]) && CF.Sound(conns[c])
  {
  }

  /** An owner that stays in its stage keeps what depends on the stage only. */
  lemma SameStage(s: Server, s': Server)
    requires s'.owner.Rank() == s.owner.Rank() && s'.timedOut == s.timedOut && s'.registry == s.registry
    requires s'.pool == s.pool && s'.setups == s.setups && s'.acceptingSetups == s.acceptingSetups
    requires s'.listeners == s.listeners && s'.serving == s.serving
    requires s.owner.Quiesce? || s.owner.DrainConns? || s.owner.ForceClose? || s.owner.CloseLate?
    requires s'.owner.Quiesce? || s'.owner.DrainConns? || s'.owner.ForceClose? || s'.owner.CloseLate?
    ensures GatesInv(s) ==> GatesInv(s')
    ensures AwaitedInv(s) ==> AwaitedInv(s')
  {
    hide R.AllFinalized, PR.Expired, P.DrainOnceReturned;
  }

  lemma CallKeeps(s: Server, c: ConnId, conn: C.Conn, owner: Owner)
    requires Inv(s) && c in s.conns && Called(s.conns[c], conn)
    requires !s.timedOut ==> ServerWins(s.conns[c]) ==> ServerWins(conn)
    requires owner.Rank() == s.owner.Rank()
    requires s.owner.Quiesce? || s.owner.DrainConns? || s.owner.ForceClose? || s.owner.CloseLate?
    requires owner.Quiesce? || owner.DrainConns? || owner.ForceClose? || owner.CloseLate?
    requires s.owner.DrainConns? ==> owner.DrainConns? && owner.todo == s.owner.todo
    requires s.owner.Rank() < 9 ==> conn.gate.drain.NotAsked?
    requires WalkInv(SetConn(s, c, conn, owner))
    ensures Inv(SetConn(s, c, conn, owner))
  {
    hide C.Inv, P.Inv, R.Inv, ConnsInv, LinkInv, WinsInv, GatesInv, WalkInv, AwaitedInv, Called, WriterDone, ServerWins, AllStay;
    ConnReplaced(s, c, conn);
    SameStage(s, SetConn(s, c, conn, owner));
    CalledAsks(s, c, conn, owner);
    if !s.timedOut {
      CalledWriters(s, SetConn(s, c, conn, owner));
    }
  }

  lemma CalledAsks(s: Server, c: ConnId, conn: C.Conn, owner: Owner)
    requires AskInv(s) && owner.Rank() == s.owner.Rank() && (s.owner.Rank() < 9 ==> conn.gate.drain.NotAsked?)
    ensures AskInv(SetConn(s, c, conn, owner))
  {
  }

  lemma CalledWriters(s: Server, s': Server)
    requires WritersInv(s) && s'.conns.Keys == s.conns.Keys && s'.registry == s.registry
    requires forall x :: WriterDone(s'.conns, x) <==> WriterDone(s.conns, x)
    requires s'.owner.Rank() == s.owner.Rank()
    requires s.owner.Quiesce? || s.owner.DrainConns? || s.owner.ForceClose? || s.owner.CloseLate?
    requires s'.owner.Quiesce? || s'.owner.DrainConns? || s'.owner.ForceClose? || s'.owner.CloseLate?
    requires s.owner.DrainConns? ==> s'.owner.DrainConns? && s'.owner.todo == s.owner.todo
    ensures WritersInv(s')
  {
    hide WriterDone;
    assert forall x :: x in s'.conns ==> x in s.conns;
  }

  // -- what the calls do to the walks

  /** The walks that are not under way look only at the connections. */
  lemma OtherWalks(s: Server, s': Server)
    requires WalkInv(s) && AllStay(s.conns, s'.conns) && s'.conns.Keys == s.conns.Keys
    requires s'.timedOut == s.timedOut && s'.quieted == s.quieted && s'.closedLate == s.closedLate
    requires s'.owner.Rank() == s.owner.Rank() && s'.registry == s.registry
    ensures FoundInv(s')
    ensures s.owner.DrainConns? && s'.owner.DrainConns? ==> QuiesceWalk(s') && ForceWalk(s') && LateWalk(s')
    ensures s.owner.Quiesce? && s'.owner.Quiesce? ==> DrainWalk(s') && ForceWalk(s') && LateWalk(s')
    ensures s.owner.ForceClose? && s'.owner.ForceClose? ==> QuiesceWalk(s') && DrainWalk(s') && LateWalk(s')
    ensures s.owner.CloseLate? && s'.owner.CloseLate? ==> QuiesceWalk(s') && DrainWalk(s') && ForceWalk(s')
  {
    hide QuietConn, DownConn, DownOrLeft, AllStay, AskedConn, R.GroupOf;
    PropertiesStay(s.conns, s'.conns);
    assert forall c :: c in s'.conns ==> c in s.conns;
  }

  lemma QuiesceMarks(conn: C.Conn)
    ensures var conn' := C.DrainStep(conn, C.QuiesceMark);
            !conn'.shut.phase.Open? && conn'.gate == conn.gate && conn'.shut.winners == conn.shut.winners
  {
  }

  lemma QuiesceOneWalks(s: Server, c: ConnId, conn: C.Conn)
    requires QuiesceWalk(s) && s.owner.Quiesce? && s.owner.current.None? && c in s.owner.todo && c in s.conns
    requires Stays(s.conns[c], conn) && !conn.shut.phase.Open?
    ensures QuiesceWalk(SetConn(s, c, conn, Quiesce(s.owner.found, s.owner.todo - {c}, Some(c))))
  {
    hide Stays, R.GroupOf;
    OneChanges(s.conns, c, conn);
    hide QuietConn, AllStay;
    PropertiesStay(s.conns, s.conns[c := conn]);
  }

  lemma QuiesceOneKeeps(s: Server, c: ConnId)
    requires Inv(s) && OwnerEnabled(s, QuiesceOne(c))
    ensures Inv(OwnerStep(s, QuiesceOne(c)))
  {
    hide C.Inv, P.Inv, R.Inv, ConnsInv, LinkInv, WinsInv, GatesInv, AwaitedInv, WritersInv, QuiesceWalk, ForceWalk, LateWalk,
         FoundInv, C.DrainStep, Stays, CF.Sound, AllStay;
    var conn := C.DrainStep(s.conns[c], C.QuiesceMark);
    ConnKept(s.conns, c);
    DrainCalls(s.conns[c], C.QuiesceMark);
    QuiesceMarks(s.conns[c]);
    ConnReplaced(s, c, conn);
    QuiesceOneWalks(s, c, conn);
    OtherWalks(s, OwnerStep(s, QuiesceOne(c)));
    CallKeeps(s, c, conn, Quiesce(s.owner.found, s.owner.todo - {c}, Some(c)));
  }

  lemma ReadsCancelled(conn: C.Conn)
    requires C.DrainEnabled(conn, C.QuiesceCancel)
    ensures var conn' := C.DrainStep(conn, C.QuiesceCancel); Quieted(conn') && conn'.gate == conn.gate
  {
  }

  lemma CancelReadsWalks(s: Server, c: ConnId, conn: C.Conn)
    requires QuiesceWalk(s) && s.owner.Quiesce? && s.owner.current == Some(c) && c in s.conns
    requires Stays(s.conns[c], conn) && Quieted(conn)
    ensures QuiesceWalk(SetConn(s, c, conn, Quiesce(s.owner.found, s.owner.todo, None)))
  {
    hide Stays, R.GroupOf;
    OneChanges(s.conns, c, conn);
    PropertiesStay(s.conns, s.conns[c := conn]);
    assert QuietConn(s.conns[c := conn], c);
    hide QuietConn, AllStay, Quieted;
  }

  lemma CancelReadsKeeps(s: Server)
    requires Inv(s) && OwnerEnabled(s, CancelReads)
    ensures Inv(OwnerStep(s, CancelReads))
  {
    hide C.Inv, P.Inv, R.Inv, ConnsInv, LinkInv, WinsInv, GatesInv, AwaitedInv, WritersInv, QuiesceWalk, ForceWalk, LateWalk,
         FoundInv, C.DrainStep, Stays, CF.Sound, AllStay, C.DrainEnabled;
    var c := s.owner.current.value;
    var conn := C.DrainStep(s.conns[c], C.QuiesceCancel);
    ConnKept(s.conns, c);
    DrainCalls(s.conns[c], C.QuiesceCancel);
    ReadsCancelled(s.conns[c]);
    ConnReplaced(s, c, conn);
    CancelReadsWalks(s, c, conn);
    OtherWalks(s, OwnerStep(s, CancelReads));
    CallKeeps(s, c, conn, Quiesce(s.owner.found, s.owner.todo, None));
  }

  lemma AskedCalls(conn: C.Conn)
    requires C.Inv(conn) && CF.Sound(conn)
    ensures Called(conn, Asked(conn)) && Asked(conn).shut.winners == conn.shut.winners && !Asked(conn).gate.drain.NotAsked?
  {
    hide C.Inv, CF.Sound, Stays;
    if conn.gate.drain.NotAsked? {
      DrainCalls(conn, C.DrainMark);
    } else {
      StaysSelf(conn);
    }
  }

  lemma DrainCallKeeps(s: Server, c: ConnId, conn: C.Conn, current: Option<ConnId>)
    requires Inv(s) && s.owner.DrainConns? && c in s.conns && Called(s.conns[c], conn)
    requires conn.shut.winners == s.conns[c].shut.winners && current == Some(c) && !conn.gate.drain.NotAsked? && c in s.owner.todo
    ensures Inv(SetConn(s, c, conn, DrainConns(s.owner.todo, current)))
  {
    hide C.Inv, P.Inv, R.Inv, ConnsInv, LinkInv, WinsInv, GatesInv, AwaitedInv, WritersInv, QuiesceWalk, ForceWalk, LateWalk,
         FoundInv, Called, AllStay;
    ConnReplaced(s, c, conn);
    OtherWalks(s, SetConn(s, c, conn, DrainConns(s.owner.todo, current)));
    CallKeeps(s, c, conn, DrainConns(s.owner.todo, current));
  }

  lemma AskDrainKeeps(s: Server, c: ConnId)
    requires Inv(s) && OwnerEnabled(s, AskDrain(c))
    ensures Inv(OwnerStep(s, AskDrain(c)))
  {
    hide Inv, C.Inv, Called, CF.Sound, Asked;
    ConnOf(s, c);
    AskedCalls(s.conns[c]);
    DrainCallKeeps(s, c, Asked(s.conns[c]), Some(c));
  }

  lemma ConnOf(s: Server, c: ConnId)
    requires Inv(s) && c in s.conns
    ensures C.Inv(s.conns[c]) && CF.Sound(s.conns[c])
  {
    hide C.Inv, P.Inv, R.Inv, CF.Sound, LinkInv, WinsInv, GatesInv, AwaitedInv, WritersInv, WalkInv, AskInv;
  }

  lemma CurrentInTodo(s: Server)
    requires Inv(s) && s.owner.DrainConns? && s.owner.current.Some?
    ensures s.owner.current.value in s.owner.todo
  {
    hide P.Inv, R.Inv, LinkInv, ConnsInv, WritersInv, WinsInv, AwaitedInv, GatesInv, AskInv, QuiesceWalk, ForceWalk, LateWalk, FoundInv;
  }

  lemma GateShuts(conn: C.Conn)
    requires C.DrainEnabled(conn, C.ShutGate)
    ensures C.DrainStep(conn, C.ShutGate).gate.drain.GateShut?
  {
  }

  lemma ShutDrainKeeps(s: Server)
    requires Inv(s) && OwnerEnabled(s, ShutDrain)
    ensures Inv(OwnerStep(s, ShutDrain))
  {
    hide Inv, C.Inv, Called, CF.Sound, C.DrainStep, C.DrainEnabled;
    var c := s.owner.current.value;
    ConnOf(s, c);
    CurrentInTodo(s);
    GateShuts(s.conns[c]);
    DrainCalls(s.conns[c], C.ShutGate);
    DrainCallKeeps(s, c, C.DrainStep(s.conns[c], C.ShutGate), s.owner.current);
  }

  lemma SeeDrainedKeeps(s: Server)
    requires Inv(s) && OwnerEnabled(s, SeeDrained)
    ensures Inv(OwnerStep(s, SeeDrained))
  {
    hide C.Inv, P.Inv, R.Inv, LinkInv, ConnsInv, WinsInv, GatesInv, AwaitedInv, QuietConn, DownConn, DownOrLeft, AskInv;
    var s' := OwnerStep(s, SeeDrained);
    SameStage(s, s');
    assert AskInv(s') by { EverAsked(s'); }
    assert WriterDone(s.conns, s.owner.current.value);
    hide WriterDone;
  }

  lemma EverAsked(s: Server)
    requires s.owner.Rank() >= 9
    ensures AskInv(s)
  {
  }

  lemma CloseOneWalks(s: Server, c: ConnId, conn: C.Conn)
    requires WalkInv(s) && (s.owner.ForceClose? || s.owner.CloseLate?) && c in s.conns && s.owner.current.None?
    requires Stays(s.conns[c], conn) && conn.shut.phase.Shutting()
    ensures var s' := SetConn(s, c, conn, Closing(s.owner, s.owner.todo - {c}, Some(c)));
            (s.owner.ForceClose? ==> ForceWalk(s')) && (s.owner.CloseLate? ==> LateWalk(s'))
  {
    hide Stays, R.GroupOf, QuiesceWalk, FoundInv;
    OneChanges(s.conns, c, conn);
    hide DownConn, DownOrLeft, AllStay;
    PropertiesStay(s.conns, s.conns[c := conn]);
  }

  lemma CloseOneKeeps(s: Server, c: ConnId, cause: C.Cause)
    requires Inv(s) && OwnerEnabled(s, CloseOne(c, cause))
    ensures Inv(OwnerStep(s, CloseOne(c, cause)))
  {
    hide C.Inv, P.Inv, R.Inv, ConnsInv, LinkInv, WinsInv, GatesInv, AwaitedInv, QuiesceWalk, ForceWalk, LateWalk,
         FoundInv, C.CloseStep, Stays, CF.Sound, AllStay, ServerWins, AskInv;
    var conn := C.CloseStep(s.conns[c], ServerRequest(cause));
    ConnKept(s.conns, c);
    ServerCloses(s.conns[c], cause);
    ConnReplaced(s, c, conn);
    CloseOneWalks(s, c, conn);
    OtherWalks(s, OwnerStep(s, CloseOne(c, cause)));
    if !s.timedOut {
      assert WriterDone(s.conns, c);
    }
    CallKeeps(s, c, conn, Closing(s.owner, s.owner.todo - {c}, Some(c)));
  }

  lemma CloseReturnsWalks(s: Server)
    requires WalkInv(s) && OwnerEnabled(s, CloseReturns)
    ensures WalkInv(OwnerStep(s, CloseReturns))
  {
    assert s.owner.current.Some? && s.conns[s.owner.current.value].shut.phase.Shutting();
    assert DownConn(s.conns, s.owner.current.value);
    hide DownConn, DownOrLeft, QuietConn, C.Busy, R.GroupOf;
  }

  lemma CloseReturnsKeeps(s: Server)
    requires Inv(s) && OwnerEnabled(s, CloseReturns)
    ensures Inv(OwnerStep(s, CloseReturns))
  {
    hide C.Inv, P.Inv, R.Inv, LinkInv, ConnsInv, WinsInv, GatesInv, AwaitedInv, WalkInv, AskInv, WriterDone, C.Busy;
    var s' := OwnerStep(s, CloseReturns);
    SameStage(s, s');
    CloseReturnsWalks(s);
    assert AskInv(s') by { EverAsked(s'); }
  }

  // -- the owner waits

  lemma StartWaitKeeps(s: Server, id: nat)
    requires Inv(s) && OwnerEnabled(s, StartWait(id))
    ensures Inv(OwnerStep(s, StartWait(id)))
  {
    hide C.Inv, P.Inv, R.Inv, LinkInv, ConnsInv, WinsInv, QuietConn, DownConn, DownOrLeft, WriterDone, PR.Expired;
    R.InvStep(s.registry, R.Waits(id, R.Call));
    assert OwnerStep(s, StartWait(id)).registry.shards == s.registry.shards;
  }

  lemma SnapshotKeepsPool(p: P.Pool, call: nat)
    requires P.Inv(p) && P.CancelEnabled(p, P.Snapshot(call, true))
    ensures var p' := P.CancelStep(p, P.Snapshot(call, true));
            && P.Inv(p') && p'.intake == p.intake && call in p'.calls && p'.calls[call].expired
            && (PR.Expired(p) ==> PR.Expired(p')) && P.DrainOnceReturned(p.intake)
  {
    hide P.Inv, P.Registry;
    P.InvStep(p, P.Cancels(P.Snapshot(call, true)));
    if PR.Expired(p) {
      var c :| c in p.calls && p.calls[c] == P.Returned(true);
      assert P.CancelStep(p, P.Snapshot(call, true)).calls[c] == P.Returned(true);
    }
  }

  lemma StartCancelKeeps(s: Server, call: nat)
    requires Inv(s) && OwnerEnabled(s, StartCancel(call))
    ensures Inv(OwnerStep(s, StartCancel(call)))
  {
    hide C.Inv, P.Inv, R.Inv, LinkInv, ConnsInv, WinsInv, QuietConn, DownConn, DownOrLeft, WriterDone, PR.Expired,
         P.CancelStep, P.CancelEnabled, P.DrainOnceReturned;
    SnapshotKeepsPool(s.pool, call);
  }

  lemma TimeOutKeepsWalks(s: Server)
    requires WalkInv(s) && OwnerEnabled(s, TimeOut)
    ensures WalkInv(OwnerStep(s, TimeOut))
  {
    hide QuietConn, DownConn, DownOrLeft;
  }

  lemma TimeOutKeeps(s: Server)
    requires Inv(s) && OwnerEnabled(s, TimeOut)
    ensures Inv(OwnerStep(s, TimeOut))
  {
    hide C.Inv, P.Inv, R.Inv, LinkInv, ConnsInv, WritersInv, WinsInv, AwaitedInv, WalkInv, PR.Expired, P.DrainOnceReturned;
    TimeOutKeepsWalks(s);
  }

  lemma OwnerKeeps(s: Server, a: OwnerAction)
    requires Inv(s) && OwnerEnabled(s, a)
    ensures Inv(OwnerStep(s, a))
  {
    hide *;
    match a
    case Proceed => ProceedKeeps(s);
    case Scan => ScanKeeps(s);
    case QuiesceOne(c) => QuiesceOneKeeps(s, c);
    case CancelReads => CancelReadsKeeps(s);
    case AskDrain(c) => AskDrainKeeps(s, c);
    case ShutDrain => ShutDrainKeeps(s);
    case SeeDrained => SeeDrainedKeeps(s);
    case CloseOne(c, cause) => CloseOneKeeps(s, c, cause);
    case CloseReturns => CloseReturnsKeeps(s);
    case StartWait(id) => StartWaitKeeps(s, id);
    case StartCancel(call) => StartCancelKeeps(s, call);
    case TimeOut => TimeOutKeeps(s);
  }

  // -- the pool, the waits and the services

  /** A step of the pool that is not the owner's leaves intake and the start of the drain alone. */
  lemma PoolLeavesGates(p: P.Pool, step: P.Step)
    requires P.Inv(p) && P.Enabled(p, step) && p.intake.started
    requires step.Gates? ==> !step.intake.StopAccepting?
    ensures var i, i' := p.intake, P.Apply(p, step).intake;
            && (i.drainer.NotYet? && !(step.Gates? && step.intake.DrainEnter?) ==> i'.drainer.NotYet? && i'.accepting == i.accepting)
            && (P.DrainOnceReturned(i) ==> P.DrainOnceReturned(i'))
  {
    hide P.PlaceInv, P.CountInv, P.CancelInv, P.OrderInv, P.SubmitTask, P.SubmitCounters, P.HeldTask, P.HeldCounters,
         P.Underflows, P.LockFree, P.Registry, P.IndexOf;
  }

  lemma ExpiredStays(p: P.Pool, p': P.Pool)
    requires PR.Forward(p, p') && PR.Expired(p)
    ensures PR.Expired(p')
  {
    var c :| c in p.calls && p.calls[c] == P.Returned(true);
    assert p'.calls[c] == P.Returned(true);
  }

  lemma PoolKeepsGates(s: Server, step: P.Step)
    requires P.Inv(s.pool) && GatesInv(s) && PoolEnabled(s, step)
    ensures GatesInv(s.(pool := P.Apply(s.pool, step)))
  {
    hide P.Inv, P.Apply, P.Enabled, PR.Expired, P.DrainOnceReturned;
    PoolLeavesGates(s.pool, step);
    PR.ForwardStep(s.pool, step);
    if PR.Expired(s.pool) {
      ExpiredStays(s.pool, P.Apply(s.pool, step));
    }
  }

  lemma PoolKeeps(s: Server, step: P.Step)
    requires Inv(s) && PoolEnabled(s, step)
    ensures Inv(s.(pool := P.Apply(s.pool, step)))
  {
    hide C.Inv, P.Inv, R.Inv, P.Apply, P.Enabled, LinkInv, ConnsInv, GatesInv, WinsInv, QuietConn, DownConn, DownOrLeft, WriterDone;
    P.InvStep(s.pool, step);
    PoolKeepsGates(s, step);
  }

  /** The waits of a registry and the services do not matter to the walks. */
  ghost predicate SameForWalks(s: Server, s': Server)
  {
    && s'.conns == s.conns && s'.owner == s.owner && s'.timedOut == s.timedOut && s'.quieted == s.quieted
    && s'.closedLate == s.closedLate && |s'.registry.shards.groups| == |s.registry.shards.groups|
  }

  lemma SameWalks(s: Server, s': Server)
    requires SameForWalks(s, s') && WalkInv(s)
    ensures WalkInv(s')
  {
    hide QuietConn, DownConn, DownOrLeft, AskedConn, R.GroupOf, CloseWalk;
  }

  lemma SameAsks(s: Server, s': Server)
    requires SameForWalks(s, s')
    ensures AskInv(s) ==> AskInv(s')
    ensures WritersInv(s) ==> WritersInv(s')
  {
    hide WriterDone, R.GroupOf;
  }

  lemma WaitLoopShape(r: R.Registry, id: nat, a: R.WaitAction)
    requires !a.Call? && R.WaitEnabled(r, id, a)
    ensures var r' := R.WaitStep(r, id, a);
            && r'.shards == r.shards && r'.waits.Keys == r.waits.Keys
            && forall x :: x in r.waits ==> r'.waits[x].registered == r.waits[x].registered
  {
    hide R.Progressed;
  }

  lemma WaitLoopKeeps(s: Server, id: nat, a: R.WaitAction)
    requires Inv(s) && !a.Call? && R.WaitEnabled(s.registry, id, a)
    ensures Inv(s.(registry := R.WaitStep(s.registry, id, a)))
  {
    hide C.Inv, P.Inv, R.Inv, ConnsInv, WalkInv, AskInv, WritersInv, WinsInv, PR.Expired, R.WaitStep, R.WaitEnabled, R.AllFinalized,
         LinkInv, P.DrainOnceReturned;
    R.InvStep(s.registry, R.Waits(id, a));
    WaitLoopShape(s.registry, id, a);
    SameWalks(s, s.(registry := R.WaitStep(s.registry, id, a)));
    SameAsks(s, s.(registry := R.WaitStep(s.registry, id, a)));
  }

  lemma ServiceKeeps(s: Server, x: nat)
    requires Inv(s)
    ensures Inv(s.(serving := s.serving - {x}))
  {
    hide C.Inv, P.Inv, R.Inv, LinkInv, ConnsInv, WinsInv, WalkInv, AskInv, WritersInv, PR.Expired, P.DrainOnceReturned;
    SameWalks(s, s.(serving := s.serving - {x}));
    SameAsks(s, s.(serving := s.serving - {x}));
  }

  lemma InvStep(s: Server, step: Step)
    requires Inv(s) && Enabled(s, step)
    ensures Inv(Apply(s, step))
  {
    hide Inv, ConnStep, SetupStep, OwnerStep, ConnEnabled, SetupEnabled, OwnerEnabled, PoolEnabled, R.WaitEnabled;
    match step
    case Pools(a) =>
      PoolStepEnabled(s, a);
      PoolKeeps(s, a);
    case Conns(c, a) => ConnKeeps(s, c, a);
    case Setups(k, a) => SetupKeeps(s, k, a);
    case WaitLoop(id, a) => WaitLoopKeeps(s, id, a);
    case ServiceEnds(x) => ServiceKeeps(s, x);
    case Owns(a) => OwnerKeeps(s, a);
  }

  lemma PoolStepEnabled(s: Server, step: P.Step)
    requires PoolEnabled(s, step)
    ensures P.Enabled(s.pool, step)
  {
  }
}

