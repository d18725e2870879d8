/**
  The worker pool (worker_pool.go, worker.go): sharded bounded FIFO queues, an
  intake gate under a reader/writer lock, a task registry, drain and forced
  cancellation, as a transition system over every interleaving of `start`,
  `submit`, `stopAccepting`, `stopAcceptingAndDrain`, `forceCancel` and the
  workers. Handlers return normally.
 */
module WorkerPool {
  import opened Bytes

  type TaskId = nat
  datatype Transport = TCP | WebSocket

  /** How far a request has come. `InHand`: decoded by a reader; `Entered` to `Unsent3`: inside `submit`;
      `Got` to `Unregistered`: held by a worker. */
  datatype Phase =
    | InHand | Refused
    | Entered | Registered | Counted
    | Unsent1 | Unsent2 | Unsent3 | Rejected
    | InQueue
    | Got | Uncounted | Running | Ran | Completed | Skipping | Unregistered(ran: bool)
    | Finished(ran: bool)
  {
    predicate BeforeSend()
    {
      Entered? || Registered? || Counted? || Unsent1? || Unsent2? || Unsent3?
    }

    predicate Held()
    {
      Got? || Uncounted? || Running? || Ran? || Completed? || Skipping? || Unregistered?
    }

    predicate InRegistry()
    {
      || Registered? || Counted? || Unsent1? || Unsent2? || Unsent3? || InQueue?
      || (Held() && !Unregistered?)
    }

    /** The handler chain was started. */
    predicate Handled()
    {
      Running? || Ran? || Completed? || (Unregistered? && ran) || (Finished? && ran)
    }

    /** Accepted, and the cancellation check still lies ahead. */
    predicate Unchecked()
    {
      InQueue? || Got? || Uncounted?
    }
  }

  /** A request: its place in the registry, whether its `submit` call holds the read lock, and whether its
      context is cancelled are kept with it. */
  datatype Task = Task(
    conn: Option<nat>, transport: Transport, phase: Phase, registered: bool, holding: bool, cancelled: bool)

  /** A task in a queue or in the history, with the connection that decides its worker. */
  datatype Entry = Entry(task: TaskId, conn: Option<nat>)

  datatype Stage = Unstarted | Ready | Exited
  datatype Worker = Worker(stage: Stage, queue: seq<Entry>, closed: bool, current: Option<TaskId>)

  datatype PoolState = New | Started | Stopping | Stopped

  /** Progress of the one execution of `drainOnce` and of the goroutine it starts. `ClosingChannels` holds
      the write lock. */
  datatype Drainer = NotYet | StoppedUnstarted | ClosingChannels(next: nat) | AwaitingWorkers(next: nat) | Announcing | Complete

  datatype Intake = Intake(accepting: bool, state: PoolState, started: bool, drainer: Drainer, done: bool)

  /** A call that cancels every registered task: `stopAcceptingAndDrain` after its context expired, or `forceCancel`. */
  datatype Call = Cancelling(todo: set<TaskId>, expired: bool) | Returned(expired: bool)

  datatype Class = ReceivedMessages | QueuedTasks | RejectedTasks | CompletedRequests
  type Key = (Transport, Class)

  datatype Pool = Pool(
    capacity: nat,
    tasks: map<TaskId, Task>,
    workers: seq<Worker>,
    intake: Intake,
    calls: map<nat, Call>,
    counters: map<Key, nat>,
    panicked: bool,
    underflow: bool,
    // history: the order of successful sends and of receives
    accepted: seq<Entry>,
    received: seq<Entry>)

  function NewPool(count: nat, capacity: nat): Pool
  {
    Pool(capacity, map[], seq(count, _ => Worker(Unstarted, [], false, None)),
         Intake(false, New, false, NotYet, false), map[], map[], false, false, [], [])
  }

  function WorkerIndex(p: Pool, t: TaskId): nat
    requires t in p.tasks
  {
    IndexOf(p.tasks[t].conn, |p.workers|)
  }

  function EntryOf(p: Pool, t: TaskId): Entry
    requires t in p.tasks
  {
    Entry(t, p.tasks[t].conn)
  }

  /** `workerIndex`. */
  function IndexOf(conn: Option<nat>, count: nat): nat
  {
    if conn.None? || count == 0 then 0 else conn.value % count
  }

  // ---------------------------------------------------------------- counters

  function Get(counters: map<Key, nat>, k: Key): nat
  {
    if k in counters then counters[k] else 0
  }

  function Increment(counters: map<Key, nat>, k: Key): map<Key, nat>
  {
    counters[k := Get(counters, k) + 1]
  }

  /** `decrementGauge`, which stays at zero. */
  function Decrement(counters: map<Key, nat>, k: Key): map<Key, nat>
  {
    if Get(counters, k) == 0 then counters else counters[k := Get(counters, k) - 1]
  }

  predicate InClass(phase: Phase, c: Class)
  {
    match c
    case ReceivedMessages => true
    case QueuedTasks => phase.Counted? || phase.Unsent1? || phase.InQueue? || phase.Got?
    case RejectedTasks => phase.Unsent3? || phase.Rejected?
    case CompletedRequests => phase.Completed? || (phase.Unregistered? && phase.ran) || (phase.Finished? && phase.ran)
  }

  // ---------------------------------------------------------------- submit

  datatype SubmitAction =
    | Receive(conn: Option<nat>, transport: Transport)
    | Enter | Register | CountQueued | TrySend | UncountUnsent | CountRejected | UnregisterUnsent | Leave

  /** The write lock is free and no reader holds the lock. */
  predicate LockFree(p: Pool)
  {
    !p.intake.drainer.ClosingChannels? && forall t :: t in p.tasks ==> !p.tasks[t].holding
  }

  predicate SubmitEnabled(p: Pool, t: TaskId, a: SubmitAction)
  {
    match a
    case Receive(_, _) => t !in p.tasks
    case Enter => t in p.tasks && p.tasks[t].phase.InHand? && !p.intake.drainer.ClosingChannels?
    case Register => t in p.tasks && p.tasks[t].phase.Entered?
    case CountQueued => t in p.tasks && p.tasks[t].phase.Registered?
    case TrySend => t in p.tasks && p.tasks[t].phase.Counted? && WorkerIndex(p, t) < |p.workers|
    case UncountUnsent => t in p.tasks && p.tasks[t].phase.Unsent1?
    case CountRejected => t in p.tasks && p.tasks[t].phase.Unsent2?
    case UnregisterUnsent => t in p.tasks && p.tasks[t].phase.Unsent3?
    case Leave => t in p.tasks && p.tasks[t].holding && !p.tasks[t].phase.BeforeSend()
  }

  function Put(p: Pool, t: TaskId, task: Task): Pool
  {
    p.(tasks := p.tasks[t := task])
  }

  function SetPhase(p: Pool, t: TaskId, phase: Phase): Pool
    requires t in p.tasks
  {
    Put(p, t, p.tasks[t].(phase := phase))
  }

  /** `tasks`, the registry. */
  function Registry(p: Pool): set<TaskId>
  {
    set t | t in p.tasks && p.tasks[t].registered
  }

  /** The non-blocking send of `submit`; sending on a closed channel panics. */
  function Send(p: Pool, t: TaskId): Pool
    requires t in p.tasks && WorkerIndex(p, t) < |p.workers|
  {
    var w := WorkerIndex(p, t);
    var worker := p.workers[w];
    if worker.closed then p.(panicked := true)
    else if |worker.queue| < p.capacity then
      SetPhase(p, t, InQueue).(workers := p.workers[w := worker.(queue := worker.queue + [EntryOf(p, t)])],
                               accepted := p.accepted + [EntryOf(p, t)])
    else SetPhase(p, t, Unsent1)
  }

  /** What a step inside `submit` other than the send makes of its task. */
  function SubmitTask(p: Pool, t: TaskId, a: SubmitAction): Task
    requires SubmitEnabled(p, t, a) && !a.TrySend?
  {
    match a
    case Receive(conn, transport) => Task(conn, transport, InHand, false, false, false)
    case Enter =>
      if p.intake.accepting then p.tasks[t].(phase := Entered, holding := true) else p.tasks[t].(phase := Refused)
    case Register => p.tasks[t].(phase := Registered, registered := true)
    case CountQueued => p.tasks[t].(phase := Counted)
    case UncountUnsent => p.tasks[t].(phase := Unsent2)
    case CountRejected => p.tasks[t].(phase := Unsent3)
    case UnregisterUnsent => p.tasks[t].(phase := Rejected, registered := false)
    case Leave => p.tasks[t].(holding := false)
  }

  function SubmitCounters(p: Pool, task: Task, a: SubmitAction): map<Key, nat>
  {
    match a
    case Receive(_, _) => Increment(p.counters, (task.transport, ReceivedMessages))
    case CountQueued => Increment(p.counters, (task.transport, QueuedTasks))
    case UncountUnsent => Decrement(p.counters, (task.transport, QueuedTasks))
    case CountRejected => Increment(p.counters, (task.transport, RejectedTasks))
    case _ => p.counters
  }

  predicate Underflows(p: Pool, task: Task)
  {
    Get(p.counters, (task.transport, QueuedTasks)) == 0
  }

  function SubmitStep(p: Pool, t: TaskId, a: SubmitAction): Pool
    requires SubmitEnabled(p, t, a)
  {
    if a.TrySend? then Send(p, t) else
    var task := SubmitTask(p, t, a);
    p.(tasks := p.tasks[t := task], counters := SubmitCounters(p, task, a),
       underflow := p.underflow || (a.UncountUnsent? && Underflows(p, task)))
  }

  // ---------------------------------------------------------------- workers

  datatype WorkerAction =
    | Begin | Dequeue | UncountTaken | Check | HandlersReturn | CountCompleted | UnregisterTaken | Finish | Exit

  predicate Holds(p: Pool, w: nat, t: TaskId)
  {
    w < |p.workers| && p.workers[w].current == Some(t) && t in p.tasks
  }

  predicate WorkerEnabled(p: Pool, w: nat, a: WorkerAction)
  {
    && w < |p.workers|
    && var worker := p.workers[w];
       match a
       case Begin => worker.stage.Unstarted? && p.intake.started
       case Dequeue => worker.stage.Ready? && worker.current.None? && worker.queue != [] && worker.queue[0].task in p.tasks
       case Exit => worker.stage.Ready? && worker.current.None? && worker.queue == [] && worker.closed
       case _ =>
         && worker.current.Some? && worker.current.value in p.tasks
         && HeldPhase(p.tasks[worker.current.value].phase, a)
  }

  /** The phase in which a worker's step finds the task it holds. */
  predicate HeldPhase(phase: Phase, a: WorkerAction)
  {
    match a
    case UncountTaken => phase.Got?
    case Check => phase.Uncounted?
    case HandlersReturn => phase.Running?
    case CountCompleted => phase.Ran?
    case UnregisterTaken => phase.Completed? || phase.Skipping?
    case Finish => phase.Unregistered?
    case _ => false
  }

  function SetWorker(p: Pool, w: nat, worker: Worker): Pool
    requires w < |p.workers|
  {
    p.(workers := p.workers[w := worker])
  }

  /** What a worker's step makes of the task it holds. */
  function HeldTask(task: Task, a: WorkerAction): Task
  {
    match a
    case UncountTaken => task.(phase := Uncounted)
    case Check => task.(phase := if task.cancelled then Skipping else Running)
    case HandlersReturn => task.(phase := Ran)
    case CountCompleted => task.(phase := Completed)
    case UnregisterTaken => task.(phase := Unregistered(task.phase.Completed?), registered := false)
    case Finish => task.(phase := Finished(task.phase.Unregistered? && task.phase.ran), cancelled := true)
    case _ => task
  }

  function HeldCounters(p: Pool, task: Task, a: WorkerAction): map<Key, nat>
  {
    match a
    case UncountTaken => Decrement(p.counters, (task.transport, QueuedTasks))
    case CountCompleted => Increment(p.counters, (task.transport, CompletedRequests))
    case _ => p.counters
  }

  function TaskStep(p: Pool, w: nat, t: TaskId, a: WorkerAction): Pool
    requires Holds(p, w, t)
  {
    var task := HeldTask(p.tasks[t], a);
    var p' := p.(tasks := p.tasks[t := task], counters := HeldCounters(p, task, a),
                 underflow := p.underflow || (a.UncountTaken? && Underflows(p, task)));
    if a.Finish? then SetWorker(p', w, p.workers[w].(current := None)) else p'
  }

  function WorkerStep(p: Pool, w: nat, a: WorkerAction): Pool
    requires WorkerEnabled(p, w, a)
  {
    var worker := p.workers[w];
    match a
    case Begin => SetWorker(p, w, worker.(stage := Ready))
    case Dequeue =>
      var e := worker.queue[0];
      SetWorker(SetPhase(p, e.task, Got), w, worker.(queue := worker.queue[1..], current := Some(e.task))).(
        received := p.received + [e])
    case Exit => SetWorker(p, w, worker.(stage := Exited))
    case _ => TaskStep(p, w, worker.current.value, a)
  }

  // ---------------------------------------------------------------- start, stopAccepting, drain

  datatype IntakeAction = StartGate | StopAccepting | DrainEnter | CloseChannel | DrainUnlock | AwaitWorker | PublishStopped | CloseDone

  predicate IntakeEnabled(p: Pool, a: IntakeAction)
  {
    var d := p.intake.drainer;
    match a
    case StartGate => LockFree(p)
    case StopAccepting => LockFree(p)
    case DrainEnter => d.NotYet? && LockFree(p)
    case CloseChannel => d.ClosingChannels? && d.next < |p.workers|
    case DrainUnlock => d.ClosingChannels? && d.next >= |p.workers|
    case AwaitWorker => d.AwaitingWorkers? && d.next < |p.workers| && p.workers[d.next].stage.Exited?
    case PublishStopped => d.AwaitingWorkers? && d.next >= |p.workers| && LockFree(p)
    case CloseDone => d.StoppedUnstarted? || d.Announcing?
  }

  function EnterDrain(i: Intake): Intake
  {
    match i.state
    case New => i.(accepting := false, state := Stopped, drainer := StoppedUnstarted)
    case Started => i.(accepting := false, state := Stopping, drainer := ClosingChannels(0))
    case _ => i.(accepting := false)
  }

  function IntakeStep(p: Pool, a: IntakeAction): Pool
    requires IntakeEnabled(p, a)
  {
    var i := p.intake;
    match a
    case StartGate => if i.state.New? then p.(intake := i.(state := Started, accepting := true, started := true)) else p
    case StopAccepting => p.(intake := i.(accepting := false))
    case DrainEnter => p.(intake := EnterDrain(i))
    case CloseChannel =>
      p.(workers := p.workers[i.drainer.next := p.workers[i.drainer.next].(closed := true)],
         intake := i.(drainer := ClosingChannels(i.drainer.next + 1)))
    case DrainUnlock => p.(intake := i.(drainer := AwaitingWorkers(0)))
    case AwaitWorker => p.(intake := i.(drainer := AwaitingWorkers(i.drainer.next + 1)))
    case PublishStopped => p.(intake := i.(state := Stopped, drainer := Announcing))
    case CloseDone => p.(intake := i.(done := true, drainer := Complete))
  }

  // ---------------------------------------------------------------- forced cancellation

  datatype CancelAction =
    | Snapshot(call: nat, expired: bool)
    | CancelOne(call: nat, task: TaskId)
    | ReturnFrom(call: nat)
    | ParentCancelled(task: TaskId)

  /** A drain reaches its expiry branch only after `drainOnce.Do` has returned. */
  predicate DrainOnceReturned(i: Intake)
  {
    i.drainer.AwaitingWorkers? || i.drainer.Announcing? || i.drainer.Complete?
  }

  predicate CancelEnabled(p: Pool, a: CancelAction)
  {
    match a
    case Snapshot(c, expired) => c !in p.calls && (expired ==> DrainOnceReturned(p.intake))
    case CancelOne(c, t) => c in p.calls && p.calls[c].Cancelling? && t in p.calls[c].todo && t in p.tasks
    case ReturnFrom(c) => c in p.calls && p.calls[c].Cancelling? && p.calls[c].todo == {}
    case ParentCancelled(t) => t in p.tasks
  }

  function CancelStep(p: Pool, a: CancelAction): Pool
    requires CancelEnabled(p, a)
  {
    match a
    case Snapshot(c, expired) => p.(calls := p.calls[c := Cancelling(Registry(p), expired)])
    case CancelOne(c, t) =>
      Put(p, t, p.tasks[t].(cancelled := true)).(calls := p.calls[c := p.calls[c].(todo := p.calls[c].todo - {t})])
    case ReturnFrom(c) => p.(calls := p.calls[c := Returned(p.calls[c].expired)])
    case ParentCancelled(t) => Put(p, t, p.tasks[t].(cancelled := true))
  }

  // ---------------------------------------------------------------- runs

  datatype Step =
    | Submits(task: TaskId, submit: SubmitAction)
    | Works(worker: nat, work: WorkerAction)
    | Gates(intake: IntakeAction)
    | Cancels(cancel: CancelAction)

  predicate Enabled(p: Pool, step: Step)
  {
    match step
    case Submits(t, a) => SubmitEnabled(p, t, a)
    case Works(w, a) => WorkerEnabled(p, w, a)
    case Gates(a) => IntakeEnabled(p, a)
    case Cancels(a) => CancelEnabled(p, a)
  }

  function Apply(p: Pool, step: Step): Pool
    requires Enabled(p, step)
  {
    match step
    case Submits(t, a) => SubmitStep(p, t, a)
    case Works(w, a) => WorkerStep(p, w, a)
    case Gates(a) => IntakeStep(p, a)
    case Cancels(a) => CancelStep(p, a)
  }

  ghost predicate Next(p: Pool, p': Pool)
  {
    exists step :: Enabled(p, step) && p' == Apply(p, step)
  }

  ghost predicate IsRun(run: seq<Pool>)
  {
    && |run| > 0 && (exists count, capacity :: count > 0 && capacity > 0 && run[0] == NewPool(count, capacity))
    && forall i :: 0 < i < |run| ==> Next(run[i - 1], run[i])
  }

  // ---------------------------------------------------------------- every task is where its phase says

  type Tasks = map<TaskId, Task>
  type Workers = seq<Worker>

  /** The task's own flags agree with its phase, and its worker has it in the queue or in hand exactly when the
      phase says so. */
  ghost predicate Located(t: TaskId, task: Task, workers: Workers)
  {
    var w := IndexOf(task.conn, |workers|);
    && (task.registered <==> task.phase.InRegistry())
    && (task.phase.BeforeSend() ==> task.holding)
    && (task.phase.InHand? || task.phase.Refused? ==> !task.holding)
    && (task.phase.InQueue? ==> w < |workers| && Entry(t, task.conn) in workers[w].queue)
    && (task.phase.Held() ==> w < |workers| && workers[w].current == Some(t))
  }

  ghost predicate EntryOk(e: Entry, w: nat, n: nat, tasks: Tasks)
  {
    e.task in tasks && e.conn == tasks[e.task].conn && tasks[e.task].phase.InQueue? && IndexOf(e.conn, n) == w
  }

  ghost predicate Distinct(es: seq<Entry>)
  {
    forall i, j :: 0 <= i < j < |es| ==> es[i] != es[j]
  }

  ghost predicate WorkerOk(worker: Worker, w: nat, n: nat, tasks: Tasks)
  {
    && (forall e :: e in worker.queue ==> EntryOk(e, w, n, tasks))
    && Distinct(worker.queue)
    && (worker.current.Some? ==>
          var t := worker.current.value;
          t in tasks && tasks[t].phase.Held() && IndexOf(tasks[t].conn, n) == w)
    && (worker.stage.Exited? ==> worker.queue == [] && worker.closed && worker.current.None?)
    && (worker.stage.Unstarted? ==> worker.current.None?)
  }

  ghost predicate PlaceInv(tasks: Tasks, workers: Workers)
  {
    && |workers| > 0
    && (forall t :: t in tasks ==> Located(t, tasks[t], workers))
    && (forall w :: 0 <= w < |workers| ==> WorkerOk(workers[w], w, |workers|, tasks))
  }

  lemma IndexInRange(conn: Option<nat>, n: nat)
    requires n > 0
    ensures IndexOf(conn, n) < n
  {
  }

  /** Changing one task without moving it. */
  lemma PutKeeps(tasks: Tasks, workers: Workers, t: TaskId, task: Task)
    requires PlaceInv(tasks, workers) && Located(t, task, workers)
    requires t in tasks ==> task.conn == tasks[t].conn
                            && (tasks[t].phase.InQueue? ==> task.phase.InQueue?) && (tasks[t].phase.Held() ==> task.phase.Held())
    ensures PlaceInv(tasks[t := task], workers)
  {
    hide Located;
    var tasks' := tasks[t := task];
    forall w | 0 <= w < |workers|
      ensures WorkerOk(workers[w], w, |workers|, tasks')
    {
      assert WorkerOk(workers[w], w, |workers|, tasks);
      forall e | e in workers[w].queue
        ensures EntryOk(e, w, |workers|, tasks')
      {
        assert EntryOk(e, w, |workers|, tasks);
      }
    }
  }

  lemma EnqueueKeeps(tasks: Tasks, workers: Workers, t: TaskId)
    requires PlaceInv(tasks, workers) && t in tasks && tasks[t].phase.Counted?
    requires var w := IndexOf(tasks[t].conn, |workers|); w < |workers| && !workers[w].closed
    ensures var w := IndexOf(tasks[t].conn, |workers|);
            PlaceInv(tasks[t := tasks[t].(phase := InQueue)],
                     workers[w := workers[w].(queue := workers[w].queue + [Entry(t, tasks[t].conn)])])
  {
    var q, e := IndexOf(tasks[t].conn, |workers|), Entry(t, tasks[t].conn);
    var tasks' := tasks[t := tasks[t].(phase := InQueue)];
    var workers' := workers[q := workers[q].(queue := workers[q].queue + [e])];
    assert Located(t, tasks[t], workers);
    assert WorkerOk(workers[q], q, |workers|, tasks);
    forall x | x in tasks'
      ensures Located(x, tasks'[x], workers')
    {
      if x != t { assert Located(x, tasks[x], workers); }
    }
    forall w | 0 <= w < |workers'|
      ensures WorkerOk(workers'[w], w, |workers'|, tasks')
    {
      assert WorkerOk(workers[w], w, |workers|, tasks);
      forall f | f in workers'[w].queue
        ensures EntryOk(f, w, |workers'|, tasks')
      {
        if f in workers[w].queue { assert EntryOk(f, w, |workers|, tasks); }
      }
      assert !EntryOk(e, q, |workers|, tasks);
    }
  }

  lemma DequeueKeeps(tasks: Tasks, workers: Workers, q: nat)
    requires PlaceInv(tasks, workers) && q < |workers|
    requires workers[q].stage.Ready? && workers[q].current.None? && workers[q].queue != []
    ensures var t := workers[q].queue[0].task;
            t in tasks && tasks[t].phase.InQueue? &&
            PlaceInv(tasks[t := tasks[t].(phase := Got)],
                     workers[q := workers[q].(queue := workers[q].queue[1..], current := Some(t))])
  {
    assert WorkerOk(workers[q], q, |workers|, tasks);
    var e := workers[q].queue[0];
    assert EntryOk(e, q, |workers|, tasks);
    var t := e.task;
    var tasks' := tasks[t := tasks[t].(phase := Got)];
    var workers' := workers[q := workers[q].(queue := workers[q].queue[1..], current := Some(t))];
    assert Located(t, tasks[t], workers);
    forall x | x in tasks'
      ensures Located(x, tasks'[x], workers')
    {
      if x != t { assert Located(x, tasks[x], workers); }
    }
    forall w | 0 <= w < |workers'|
      ensures WorkerOk(workers'[w], w, |workers'|, tasks')
    {
      assert WorkerOk(workers[w], w, |workers|, tasks);
      forall f | f in workers'[w].queue
        ensures EntryOk(f, w, |workers'|, tasks')
      {
        assert f in workers[w].queue && EntryOk(f, w, |workers|, tasks);
        assert w == q ==> f != e;
      }
    }
  }

  lemma FinishKeeps(tasks: Tasks, workers: Workers, q: nat, t: TaskId, ran: bool)
    requires PlaceInv(tasks, workers) && q < |workers| && workers[q].current == Some(t)
    requires t in tasks && tasks[t].phase.Unregistered?
    ensures PlaceInv(tasks[t := tasks[t].(phase := Finished(ran), cancelled := true)],
                     workers[q := workers[q].(current := None)])
  {
    var tasks' := tasks[t := tasks[t].(phase := Finished(ran), cancelled := true)];
    var workers' := workers[q := workers[q].(current := None)];
    assert Located(t, tasks[t], workers);
    assert WorkerOk(workers[q], q, |workers|, tasks);
    forall x | x in tasks'
      ensures Located(x, tasks'[x], workers')
    {
      if x != t { assert Located(x, tasks[x], workers); }
    }
    forall w | 0 <= w < |workers'|
      ensures WorkerOk(workers'[w], w, |workers'|, tasks')
    {
      assert WorkerOk(workers[w], w, |workers|, tasks);
      forall f | f in workers'[w].queue
        ensures EntryOk(f, w, |workers'|, tasks')
      {
        assert EntryOk(f, w, |workers|, tasks);
      }
    }
  }

  /** Starting or ending a worker, or closing its channel. */
  lemma FlagKeeps(tasks: Tasks, workers: Workers, q: nat, worker: Worker)
    requires PlaceInv(tasks, workers) && q < |workers|
    requires worker.queue == workers[q].queue && worker.current == workers[q].current
    requires worker.stage.Exited? ==> worker.queue == [] && worker.closed && worker.current.None?
    requires worker.stage.Unstarted? ==> worker.current.None?
    ensures PlaceInv(tasks, workers[q := worker])
  {
    var workers' := workers[q := worker];
    forall x | x in tasks
      ensures Located(x, tasks[x], workers')
    {
      assert Located(x, tasks[x], workers);
    }
    forall w | 0 <= w < |workers'|
      ensures WorkerOk(workers'[w], w, |workers'|, tasks)
    {
      assert WorkerOk(workers[w], w, |workers|, tasks);
    }
  }

  // ---------------------------------------------------------------- the intake gate

  ghost predicate NoneHolding(tasks: Tasks)
  {
    forall t :: t in tasks ==> !tasks[t].holding
  }

  ghost predicate AllExited(workers: Workers)
  {
    forall w :: 0 <= w < |workers| ==> workers[w].stage.Exited?
  }

  ghost predicate ClosedBelow(workers: Workers, k: nat)
  {
    k <= |workers| && forall w :: 0 <= w < k ==> workers[w].closed
  }

  ghost predicate AllOpen(workers: Workers)
  {
    forall w :: 0 <= w < |workers| ==> !workers[w].closed
  }

  ghost predicate DrainerInv(i: Intake, workers: Workers)
  {
    match i.drainer
    case NotYet => (i.state.New? || i.state.Started?) && AllOpen(workers)
    case StoppedUnstarted => !i.started && i.state.Stopped?
    case ClosingChannels(k) => i.started && i.state.Stopping? && ClosedBelow(workers, k)
    case AwaitingWorkers(k) =>
      && i.started && i.state.Stopping? && ClosedBelow(workers, |workers|)
      && k <= |workers| && forall w :: 0 <= w < k ==> workers[w].stage.Exited?
    case Announcing => i.started && i.state.Stopped? && AllExited(workers)
    case Complete => i.state.Stopped? && (i.started ==> AllExited(workers))
  }

  /** Intake is open only between `start` and `stopAccepting` or the drain; while it is shut no submission is inside
      the lock. */
  ghost predicate GateInv(i: Intake, workers: Workers, tasks: Tasks)
  {
    && (i.accepting ==> i.state.Started? && i.drainer.NotYet?)
    && (i.started <==> !(i.state.New? || i.drainer.StoppedUnstarted? || (i.drainer.Complete? && !i.started)))
    && (i.done <==> i.drainer.Complete?)
    && DrainerInv(i, workers)
    && (!i.accepting ==> NoneHolding(tasks))
    && (!i.started ==> forall w :: 0 <= w < |workers| ==> workers[w].stage.Unstarted? && !workers[w].closed)
    && (!i.started ==> forall t :: t in tasks ==> tasks[t].phase.InHand? || tasks[t].phase.Refused?)
  }

  /** After a drain's expiry branch has cancelled its snapshot, every accepted task whose cancellation check
      lies ahead is cancelled. */
  ghost predicate CallInv(c: Call, i: Intake, tasks: Tasks)
  {
    && (c.Cancelling? ==> forall t :: t in c.todo ==> t in tasks)
    && (c.expired ==>
          && !i.drainer.NotYet?
          && forall t :: t in tasks && tasks[t].phase.Unchecked() ==> tasks[t].cancelled || (c.Cancelling? && t in c.todo))
  }

  ghost predicate CancelInv(calls: map<nat, Call>, i: Intake, tasks: Tasks)
  {
    forall c :: c in calls ==> CallInv(calls[c], i, tasks)
  }

  // ---------------------------------------------------------------- counting

  function Members(tasks: Tasks, k: Key): set<TaskId>
  {
    set t | t in tasks && Counts(tasks[t], k)
  }

  predicate Counts(task: Task, k: Key)
  {
    task.transport == k.0 && InClass(task.phase, k.1)
  }

  /** Every counter is the number of tasks in its class. */
  ghost predicate CountInv(tasks: Tasks, counters: map<Key, nat>)
  {
    forall k: Key :: Get(counters, k) == |Members(tasks, k)|
  }

  function One(b: bool): nat
  {
    if b then 1 else 0
  }

  lemma MembersPut(tasks: Tasks, t: TaskId, task: Task, k: Key)
    ensures |Members(tasks[t := task], k)| ==
            |Members(tasks, k)| - One(t in tasks && Counts(tasks[t], k)) + One(Counts(task, k))
  {
    hide Counts;
    var before, after := Members(tasks, k), Members(tasks[t := task], k);
    assert after - {t} == before - {t};
    assert t in after <==> Counts(task, k);
    assert t in before <==> t in tasks && Counts(tasks[t], k);
    Remove(before, t);
    Remove(after, t);
  }

  lemma Remove(s: set<TaskId>, t: TaskId)
    ensures |s| == |s - {t}| + One(t in s)
  {
    if t in s {
      assert s == (s - {t}) + {t};
    } else {
      assert s == s - {t};
    }
  }

  lemma CountPut(tasks: Tasks, counters: map<Key, nat>, t: TaskId, task: Task, counters': map<Key, nat>)
    requires CountInv(tasks, counters)
    requires forall k: Key :: Get(counters', k) ==
               Get(counters, k) - One(t in tasks && Counts(tasks[t], k)) + One(Counts(task, k))
    ensures CountInv(tasks[t := task], counters')
  {
    forall k: Key
      ensures Get(counters', k) == |Members(tasks[t := task], k)|
    {
      MembersPut(tasks, t, task, k);
    }
  }

  /** A counted task keeps its gauge above zero. */
  lemma GaugePositive(tasks: Tasks, counters: map<Key, nat>, t: TaskId, c: Class)
    requires CountInv(tasks, counters) && t in tasks && InClass(tasks[t].phase, c)
    ensures Get(counters, (tasks[t].transport, c)) > 0
  {
    assert t in Members(tasks, (tasks[t].transport, c));
  }

  /** `before` and `after` count alike in every class but `c`. */
  predicate SameBut(before: Phase, after: Phase, c: Class)
  {
    forall d :: d != c ==> (InClass(before, d) <==> InClass(after, d))
  }

  lemma CountSame(tasks: Tasks, counters: map<Key, nat>, t: TaskId, task: Task, c: Class)
    requires CountInv(tasks, counters) && t in tasks && task.transport == tasks[t].transport
    requires SameBut(tasks[t].phase, task.phase, c) && (InClass(tasks[t].phase, c) <==> InClass(task.phase, c))
    ensures CountInv(tasks[t := task], counters)
  {
    hide CountInv, InClass;
    CountPut(tasks, counters, t, task, counters);
  }

  lemma CountUp(tasks: Tasks, counters: map<Key, nat>, t: TaskId, task: Task, c: Class)
    requires CountInv(tasks, counters) && t in tasks && task.transport == tasks[t].transport
    requires SameBut(tasks[t].phase, task.phase, c) && !InClass(tasks[t].phase, c) && InClass(task.phase, c)
    ensures CountInv(tasks[t := task], Increment(counters, (task.transport, c)))
  {
    hide CountInv, InClass;
    CountPut(tasks, counters, t, task, Increment(counters, (task.transport, c)));
  }

  lemma CountDown(tasks: Tasks, counters: map<Key, nat>, t: TaskId, task: Task, c: Class)
    requires CountInv(tasks, counters) && t in tasks && task.transport == tasks[t].transport
    requires SameBut(tasks[t].phase, task.phase, c) && InClass(tasks[t].phase, c) && !InClass(task.phase, c)
    ensures CountInv(tasks[t := task], Decrement(counters, (task.transport, c)))
    ensures Get(counters, (task.transport, c)) > 0
  {
    hide CountInv, InClass;
    GaugePositive(tasks, counters, t, c);
    CountPut(tasks, counters, t, task, Decrement(counters, (task.transport, c)));
  }

  // ---------------------------------------------------------------- order

  function OfWorker(log: seq<Entry>, w: nat, n: nat): (r: seq<Entry>)
  {
    if log == [] then [] else
    var rest := OfWorker(log[..|log| - 1], w, n);
    if IndexOf(log[|log| - 1].conn, n) == w then rest + [log[|log| - 1]] else rest
  }

  predicate Sent(phase: Phase)
  {
    phase.InQueue? || Taken(phase)
  }

  predicate Taken(phase: Phase)
  {
    phase.Held() || phase.Finished?
  }

  ghost predicate LogOf(log: seq<Entry>, tasks: Tasks, f: Phase -> bool)
  {
    && (forall e :: e in log ==> e.task in tasks && e.conn == tasks[e.task].conn && f(tasks[e.task].phase))
    && (forall t :: t in tasks && f(tasks[t].phase) ==> Entry(t, tasks[t].conn) in log)
    && Distinct(log)
  }

  /** The history lists every accepted task once and every received task once, and a worker's queue is what it
      was sent and has not received, in order. */
  ghost predicate OrderInv(p: Pool)
  {
    && LogOf(p.accepted, p.tasks, Sent) && LogOf(p.received, p.tasks, Taken)
    && forall w :: 0 <= w < |p.workers| ==>
         OfWorker(p.accepted, w, |p.workers|) == OfWorker(p.received, w, |p.workers|) + p.workers[w].queue
  }

  lemma LogSame(log: seq<Entry>, tasks: Tasks, t: TaskId, task: Task, f: Phase -> bool)
    requires LogOf(log, tasks, f)
    requires if t in tasks then task.conn == tasks[t].conn && f(task.phase) == f(tasks[t].phase) else !f(task.phase)
    ensures LogOf(log, tasks[t := task], f)
  {
  }

  lemma LogAdd(log: seq<Entry>, tasks: Tasks, t: TaskId, task: Task, f: Phase -> bool)
    requires LogOf(log, tasks, f) && t in tasks && task.conn == tasks[t].conn && !f(tasks[t].phase) && f(task.phase)
    ensures LogOf(log + [Entry(t, task.conn)], tasks[t := task], f)
  {
    var log' := log + [Entry(t, task.conn)];
    assert Entry(t, task.conn) !in log;
    assert forall e :: e in log' <==> e in log || e == Entry(t, task.conn);
  }

  ghost predicate Inv(p: Pool)
  {
    && PlaceInv(p.tasks, p.workers) && GateInv(p.intake, p.workers, p.tasks)
    && CancelInv(p.calls, p.intake, p.tasks) && CountInv(p.tasks, p.counters) && OrderInv(p)
    && !p.panicked && !p.underflow
  }

  lemma NewInv(count: nat, capacity: nat)
    requires count > 0
    ensures Inv(NewPool(count, capacity))
  {
    var p := NewPool(count, capacity);
    forall k: Key
      ensures Get(p.counters, k) == |Members(p.tasks, k)|
    {
      assert Members(p.tasks, k) == {};
    }
  }

  // ---------------------------------------------------------------- what every step keeps: submit

  lemma SubmitKeepsPlaces(p: Pool, t: TaskId, a: SubmitAction)
    requires PlaceInv(p.tasks, p.workers) && SubmitEnabled(p, t, a) && !a.TrySend?
    ensures var p' := SubmitStep(p, t, a); PlaceInv(p'.tasks, p'.workers)
  {
    hide WorkerOk, PlaceInv, IndexOf;
    if t in p.tasks {
      PlaceOf(p.tasks, p.workers, t);
    }
    PutKeeps(p.tasks, p.workers, t, SubmitTask(p, t, a));
  }

  lemma SendKeepsPlaces(p: Pool, t: TaskId)
    requires PlaceInv(p.tasks, p.workers) && SubmitEnabled(p, t, TrySend)
    requires !p.workers[WorkerIndex(p, t)].closed
    ensures var p' := Send(p, t); PlaceInv(p'.tasks, p'.workers)
  {
    hide WorkerOk, PlaceInv;
    PlaceOf(p.tasks, p.workers, t);
    if |p.workers[WorkerIndex(p, t)].queue| < p.capacity {
      EnqueueKeeps(p.tasks, p.workers, t);
    } else {
      PutKeeps(p.tasks, p.workers, t, p.tasks[t].(phase := Unsent1));
    }
  }

  lemma PlaceOf(tasks: Tasks, workers: Workers, t: TaskId)
    requires PlaceInv(tasks, workers) && t in tasks
    ensures Located(t, tasks[t], workers) && |workers| > 0
  {
  }

  lemma SubmitKeepsGate(p: Pool, t: TaskId, a: SubmitAction)
    requires PlaceInv(p.tasks, p.workers) && GateInv(p.intake, p.workers, p.tasks) && SubmitEnabled(p, t, a)
    ensures var p' := SubmitStep(p, t, a); GateInv(p'.intake, p'.workers, p'.tasks)
    ensures a.TrySend? ==> !p.workers[WorkerIndex(p, t)].closed
  {
    hide WorkerOk, PlaceInv;
    if t in p.tasks {
      PlaceOf(p.tasks, p.workers, t);
    }
  }

  lemma SubmitKeepsCalls(p: Pool, t: TaskId, a: SubmitAction)
    requires Inv(p) && SubmitEnabled(p, t, a)
    ensures var p' := SubmitStep(p, t, a); CancelInv(p'.calls, p'.intake, p'.tasks)
  {
    hide WorkerOk, PlaceInv, CountInv, OrderInv;
    if t in p.tasks {
      PlaceOf(p.tasks, p.workers, t);
    }
    var p' := SubmitStep(p, t, a);
    forall c | c in p'.calls
      ensures CallInv(p'.calls[c], p'.intake, p'.tasks)
    {
      assert CallInv(p.calls[c], p.intake, p.tasks);
    }
  }

  lemma SubmitKeepsCounts(p: Pool, t: TaskId, a: SubmitAction)
    requires CountInv(p.tasks, p.counters) && SubmitEnabled(p, t, a) && !a.TrySend?
    ensures var p' := SubmitStep(p, t, a); CountInv(p'.tasks, p'.counters) && p'.underflow == p.underflow
  {
    hide CountInv, IndexOf, Increment, Decrement;
    var task := SubmitTask(p, t, a);
    match a
    case Receive(_, transport) => ReceiveCounts(p, t, task);
    case CountQueued => CountUp(p.tasks, p.counters, t, task, QueuedTasks);
    case UncountUnsent => CountDown(p.tasks, p.counters, t, task, QueuedTasks);
    case CountRejected => CountUp(p.tasks, p.counters, t, task, RejectedTasks);
    case _ => CountSame(p.tasks, p.counters, t, task, QueuedTasks);
  }

  lemma SendKeepsCounts(p: Pool, t: TaskId)
    requires CountInv(p.tasks, p.counters) && SubmitEnabled(p, t, TrySend)
    ensures var p' := Send(p, t); CountInv(p'.tasks, p'.counters) && p'.underflow == p.underflow
  {
    hide CountInv, IndexOf;
    if !p.workers[WorkerIndex(p, t)].closed {
      CountSame(p.tasks, p.counters, t, Send(p, t).tasks[t], QueuedTasks);
    }
  }

  lemma ReceiveCounts(p: Pool, t: TaskId, task: Task)
    requires CountInv(p.tasks, p.counters) && t !in p.tasks && task.phase.InHand?
    ensures CountInv(p.tasks[t := task], Increment(p.counters, (task.transport, ReceivedMessages)))
  {
    hide CountInv;
    CountPut(p.tasks, p.counters, t, task, Increment(p.counters, (task.transport, ReceivedMessages)));
  }

  lemma SubmitKeepsOrder(p: Pool, t: TaskId, a: SubmitAction)
    requires OrderInv(p) && SubmitEnabled(p, t, a) && !a.TrySend?
    ensures OrderInv(SubmitStep(p, t, a))
  {
    hide LogOf;
    var task := SubmitTask(p, t, a);
    LogSame(p.accepted, p.tasks, t, task, Sent);
    LogSame(p.received, p.tasks, t, task, Taken);
  }

  lemma SendKeepsOrder(p: Pool, t: TaskId)
    requires OrderInv(p) && SubmitEnabled(p, t, TrySend)
    ensures OrderInv(Send(p, t))
  {
    hide LogOf, IndexOf, OfWorker;
    var p' := Send(p, t);
    if p' != p.(panicked := true) {
      LogSame(p.received, p.tasks, t, p'.tasks[t], Taken);
      if p'.accepted == p.accepted {
        LogSame(p.accepted, p.tasks, t, p'.tasks[t], Sent);
      } else {
        LogAdd(p.accepted, p.tasks, t, p'.tasks[t], Sent);
        forall w | 0 <= w < |p.workers|
          ensures OfWorker(p'.accepted, w, |p.workers|) == OfWorker(p'.received, w, |p.workers|) + p'.workers[w].queue
        {
          OfWorkerNext(p.accepted, EntryOf(p, t), w, |p.workers|);
        }
      }
    }
  }

  lemma OfWorkerNext(log: seq<Entry>, e: Entry, w: nat, n: nat)
    ensures OfWorker(log + [e], w, n) == if IndexOf(e.conn, n) == w then OfWorker(log, w, n) + [e] else OfWorker(log, w, n)
  {
    assert (log + [e])[..|log|] == log;
  }

  lemma SubmitKeeps(p: Pool, t: TaskId, a: SubmitAction)
    requires Inv(p) && SubmitEnabled(p, t, a)
    ensures Inv(SubmitStep(p, t, a))
  {
    hide PlaceInv, GateInv, CancelInv, CountInv, OrderInv;
    SubmitKeepsGate(p, t, a);
    SubmitKeepsCalls(p, t, a);
    if a.TrySend? {
      SendKeepsCounts(p, t);
      SendKeepsPlaces(p, t);
      SendKeepsOrder(p, t);
    } else {
      SubmitKeepsCounts(p, t, a);
      SubmitKeepsPlaces(p, t, a);
      SubmitKeepsOrder(p, t, a);
    }
  }

  // ---------------------------------------------------------------- what every step keeps: workers

  /** The steps a worker takes on the task in its hand. */
  predicate OnHeld(a: WorkerAction)
  {
    !(a.Begin? || a.Dequeue? || a.Exit?)
  }

  lemma HeldBy(p: Pool, w: nat, a: WorkerAction) returns (t: TaskId)
    requires PlaceInv(p.tasks, p.workers) && WorkerEnabled(p, w, a) && OnHeld(a)
    ensures p.workers[w].current == Some(t) && t in p.tasks && Located(t, p.tasks[t], p.workers)
    ensures p.tasks[t].phase.Held() && WorkerStep(p, w, a) == TaskStep(p, w, t, a)
    ensures HeldPhase(p.tasks[t].phase, a)
  {
    hide TaskStep;
    t := p.workers[w].current.value;
    PlaceOf(p.tasks, p.workers, t);
  }

  lemma HeldKeepsPlaces(p: Pool, w: nat, a: WorkerAction)
    requires PlaceInv(p.tasks, p.workers) && WorkerEnabled(p, w, a) && OnHeld(a)
    ensures var p' := WorkerStep(p, w, a); PlaceInv(p'.tasks, p'.workers)
  {
    var t := HeldBy(p, w, a);
    hide PlaceInv, WorkerEnabled, WorkerStep;
    if a.Finish? {
      FinishKeeps(p.tasks, p.workers, w, t, p.tasks[t].phase.ran);
    } else {
      PutKeeps(p.tasks, p.workers, t, HeldTask(p.tasks[t], a));
    }
  }

  lemma HeldKeepsCounts(p: Pool, w: nat, a: WorkerAction)
    requires Inv(p) && WorkerEnabled(p, w, a) && OnHeld(a)
    ensures var p' := WorkerStep(p, w, a); CountInv(p'.tasks, p'.counters) && !p'.underflow
  {
    hide GateInv, CancelInv, OrderInv, CountInv;
    var t := HeldBy(p, w, a);
    hide WorkerEnabled, WorkerStep, PlaceInv, Increment, Decrement, Located;
    var task := HeldTask(p.tasks[t], a);
    match a
    case UncountTaken => CountDown(p.tasks, p.counters, t, task, QueuedTasks);
    case CountCompleted => CountUp(p.tasks, p.counters, t, task, CompletedRequests);
    case _ => CountSame(p.tasks, p.counters, t, task, QueuedTasks);
  }

  lemma HeldKeepsOrder(p: Pool, w: nat, a: WorkerAction)
    requires Inv(p) && WorkerEnabled(p, w, a) && OnHeld(a)
    ensures OrderInv(WorkerStep(p, w, a))
  {
    hide GateInv, CancelInv, CountInv, LogOf;
    var t := HeldBy(p, w, a);
    hide WorkerEnabled, WorkerStep, PlaceInv, Located, HeldCounters;
    LogSame(p.accepted, p.tasks, t, HeldTask(p.tasks[t], a), Sent);
    LogSame(p.received, p.tasks, t, HeldTask(p.tasks[t], a), Taken);
  }

  lemma HeldKeepsGate(p: Pool, w: nat, a: WorkerAction)
    requires Inv(p) && WorkerEnabled(p, w, a) && OnHeld(a)
    ensures var p' := WorkerStep(p, w, a); GateInv(p'.intake, p'.workers, p'.tasks)
  {
    hide CancelInv, CountInv, OrderInv;
    var t := HeldBy(p, w, a);
    hide WorkerEnabled, WorkerStep, PlaceInv, Located, HeldCounters;
  }

  lemma HeldKeepsCalls(p: Pool, w: nat, a: WorkerAction)
    requires Inv(p) && WorkerEnabled(p, w, a) && OnHeld(a)
    ensures var p' := WorkerStep(p, w, a); CancelInv(p'.calls, p'.intake, p'.tasks)
  {
    hide GateInv, CountInv, OrderInv;
    var t := HeldBy(p, w, a);
    hide WorkerEnabled, WorkerStep, PlaceInv, Located, HeldCounters;
    var p' := TaskStep(p, w, t, a);
    forall c | c in p'.calls
      ensures CallInv(p'.calls[c], p'.intake, p'.tasks)
    {
      assert CallInv(p.calls[c], p.intake, p.tasks);
    }
  }

  lemma HeldKeeps(p: Pool, w: nat, a: WorkerAction)
    requires Inv(p) && WorkerEnabled(p, w, a) && OnHeld(a)
    ensures Inv(WorkerStep(p, w, a))
  {
    hide GateInv, CancelInv, CountInv, OrderInv, PlaceInv;
    HeldKeepsPlaces(p, w, a);
    HeldKeepsCounts(p, w, a);
    HeldKeepsOrder(p, w, a);
    HeldKeepsGate(p, w, a);
    HeldKeepsCalls(p, w, a);
  }

  /** Beginning and ending a worker change only its stage. */
  lemma StageKeeps(p: Pool, w: nat, a: WorkerAction)
    requires Inv(p) && WorkerEnabled(p, w, a) && (a.Begin? || a.Exit?)
    ensures Inv(WorkerStep(p, w, a))
  {
    hide CancelInv, CountInv, PlaceInv, LogOf, OfWorker;
    FlagKeeps(p.tasks, p.workers, w, WorkerStep(p, w, a).workers[w]);
  }

  lemma DequeueKeepsOrder(p: Pool, w: nat)
    requires OrderInv(p) && PlaceInv(p.tasks, p.workers) && WorkerEnabled(p, w, Dequeue)
    ensures OrderInv(WorkerStep(p, w, Dequeue))
  {
    hide LogOf;
    var e := p.workers[w].queue[0];
    assert WorkerOk(p.workers[w], w, |p.workers|, p.tasks);
    assert EntryOk(e, w, |p.workers|, p.tasks);
    hide PlaceInv, WorkerOk;
    var p' := WorkerStep(p, w, Dequeue);
    LogSame(p.accepted, p.tasks, e.task, p'.tasks[e.task], Sent);
    LogAdd(p.received, p.tasks, e.task, p'.tasks[e.task], Taken);
    assert p.workers[w].queue == [e] + p.workers[w].queue[1..];
    hide OfWorker;
    forall v | 0 <= v < |p.workers|
      ensures OfWorker(p'.accepted, v, |p.workers|) == OfWorker(p'.received, v, |p.workers|) + p'.workers[v].queue
    {
      OfWorkerNext(p.received, e, v, |p.workers|);
    }
  }

  lemma DequeueKeepsRest(p: Pool, w: nat)
    requires Inv(p) && WorkerEnabled(p, w, Dequeue)
    ensures var p' := WorkerStep(p, w, Dequeue);
            && GateInv(p'.intake, p'.workers, p'.tasks) && CancelInv(p'.calls, p'.intake, p'.tasks)
            && CountInv(p'.tasks, p'.counters) && PlaceInv(p'.tasks, p'.workers)
  {
    hide OrderInv, CountInv, IndexOf;
    var t := p.workers[w].queue[0].task;
    var p' := WorkerStep(p, w, Dequeue);
    DequeueKeeps(p.tasks, p.workers, w);
    hide PlaceInv;
    CountSame(p.tasks, p.counters, t, p'.tasks[t], QueuedTasks);
    forall c | c in p'.calls
      ensures CallInv(p'.calls[c], p'.intake, p'.tasks)
    {
      assert CallInv(p.calls[c], p.intake, p.tasks);
    }
  }

  lemma WorkerKeeps(p: Pool, w: nat, a: WorkerAction)
    requires Inv(p) && WorkerEnabled(p, w, a)
    ensures Inv(WorkerStep(p, w, a))
  {
    hide GateInv, CancelInv, CountInv, OrderInv, PlaceInv;
    if OnHeld(a) {
      HeldKeeps(p, w, a);
    } else if a.Dequeue? {
      DequeueKeepsOrder(p, w);
      DequeueKeepsRest(p, w);
    } else {
      StageKeeps(p, w, a);
    }
  }

  // ---------------------------------------------------------------- what every step keeps: intake and cancellation

  lemma IntakeKeepsGate(p: Pool, a: IntakeAction)
    requires Inv(p) && IntakeEnabled(p, a)
    ensures var p' := IntakeStep(p, a); GateInv(p'.intake, p'.workers, p'.tasks)
  {
    hide PlaceInv, CancelInv, CountInv, OrderInv;
  }

  lemma IntakeKeeps(p: Pool, a: IntakeAction)
    requires Inv(p) && IntakeEnabled(p, a)
    ensures Inv(IntakeStep(p, a))
  {
    hide PlaceInv, CountInv, LogOf, OfWorker, GateInv;
    IntakeKeepsGate(p, a);
    var p' := IntakeStep(p, a);
    if a.CloseChannel? {
      var k := p.intake.drainer.next;
      StageOk(p, k);
      FlagKeeps(p.tasks, p.workers, k, p.workers[k].(closed := true));
    }
    forall c | c in p'.calls
      ensures CallInv(p'.calls[c], p'.intake, p'.tasks)
    {
      assert CallInv(p.calls[c], p.intake, p.tasks);
    }
  }

  lemma StageOk(p: Pool, w: nat)
    requires PlaceInv(p.tasks, p.workers) && w < |p.workers|
    ensures p.workers[w].stage.Exited? ==> p.workers[w].queue == [] && p.workers[w].current.None?
    ensures p.workers[w].stage.Unstarted? ==> p.workers[w].current.None?
  {
    assert WorkerOk(p.workers[w], w, |p.workers|, p.tasks);
  }

  /** Cancelling one task moves nothing. */
  lemma CancelPut(p: Pool, t: TaskId)
    requires Inv(p) && t in p.tasks
    ensures Inv(Put(p, t, p.tasks[t].(cancelled := true)))
  {
    hide PlaceInv, CountInv, LogOf, OfWorker, IndexOf, DrainerInv;
    var task := p.tasks[t].(cancelled := true);
    PlaceOf(p.tasks, p.workers, t);
    PutKeeps(p.tasks, p.workers, t, task);
    CountSame(p.tasks, p.counters, t, task, QueuedTasks);
    LogSame(p.accepted, p.tasks, t, task, Sent);
    LogSame(p.received, p.tasks, t, task, Taken);
    forall c | c in p.calls
      ensures CallInv(p.calls[c], p.intake, p.tasks[t := task])
    {
      assert CallInv(p.calls[c], p.intake, p.tasks);
    }
  }

  lemma SnapshotCovers(p: Pool, c: nat, expired: bool)
    requires Inv(p) && CancelEnabled(p, Snapshot(c, expired))
    ensures CallInv(Cancelling(Registry(p), expired), p.intake, p.tasks)
  {
    hide CountInv, OrderInv, CancelInv, WorkerOk;
    forall t | t in p.tasks && p.tasks[t].phase.Unchecked()
      ensures t in Registry(p)
    {
      assert Located(t, p.tasks[t], p.workers);
    }
  }

  lemma CancelKeeps(p: Pool, a: CancelAction)
    requires Inv(p) && CancelEnabled(p, a)
    ensures Inv(CancelStep(p, a))
  {
    hide PlaceInv, CountInv, LogOf, OfWorker, GateInv;
    match a
    case Snapshot(c, expired) => SnapshotCovers(p, c, expired);
    case CancelOne(c, t) => CancelPut(p, t);
    case ReturnFrom(c) =>
    case ParentCancelled(t) => CancelPut(p, t);
    var p' := CancelStep(p, a);
    forall d | d in p'.calls
      ensures CallInv(p'.calls[d], p'.intake, p'.tasks)
    {
      if d in p.calls {
        assert CallInv(p.calls[d], p.intake, p.tasks);
      }
    }
  }

  lemma InvStep(p: Pool, step: Step)
    requires Inv(p) && Enabled(p, step)
    ensures Inv(Apply(p, step))
  {
    hide Inv, SubmitStep, WorkerStep, IntakeStep, CancelStep, SubmitEnabled, WorkerEnabled, IntakeEnabled, CancelEnabled;
    match step
    case Submits(t, a) => SubmitKeeps(p, t, a);
    case Works(w, a) => WorkerKeeps(p, w, a);
    case Gates(a) => IntakeKeeps(p, a);
    case Cancels(a) => CancelKeeps(p, a);
  }
}

