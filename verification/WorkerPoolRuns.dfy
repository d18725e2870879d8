/** What every run of the worker pool keeps. */
module WorkerPoolRuns {
  import opened Bytes
  import opened WorkerPool

  lemma {:induction false} RunInv(run: seq<Pool>, i: nat)
    requires IsRun(run) && i < |run|
    ensures Inv(run[i])
  {
    hide Inv, Apply, Enabled;
    if i == 0 {
      var count, capacity :| count > 0 && capacity > 0 && run[0] == NewPool(count, capacity);
      NewInv(count, capacity);
    } else {
      RunInv(run, i - 1);
      assert Next(run[i - 1], run[i]);
      var step :| Enabled(run[i - 1], step) && run[i] == Apply(run[i - 1], step);
      InvStep(run[i - 1], step);
    }
  }

  /** No run sends on a closed task channel, and the queued-tasks gauge is never decremented at zero. */
  lemma NoPanic(run: seq<Pool>, i: nat)
    requires IsRun(run) && i < |run|
    ensures !run[i].panicked && !run[i].underflow
    ensures forall t :: t in run[i].tasks && run[i].tasks[t].phase.Counted? ==>
              WorkerIndex(run[i], t) < |run[i].workers| && !run[i].workers[WorkerIndex(run[i], t)].closed
  {
    RunInv(run, i);
    var p := run[i];
    forall t | t in p.tasks && p.tasks[t].phase.Counted?
      ensures WorkerIndex(p, t) < |p.workers| && !p.workers[WorkerIndex(p, t)].closed
    {
      PlaceOf(p.tasks, p.workers, t);
      IndexInRange(p.tasks[t].conn, |p.workers|);
    }
  }

  // ---------------------------------------------------------------- one way only

  predicate WasHandled(p: Pool, t: TaskId)
  {
    t in p.tasks && p.tasks[t].phase.Handled()
  }

  /** What only ever grows or settles. Once a started pool stops accepting, intake stays shut and nothing is accepted;
      once a drain has returned on expiry, no further handler chain is started. */
  ghost predicate Forward(p: Pool, p': Pool)
  {
    && |p'.workers| == |p.workers| && p.accepted <= p'.accepted && p.received <= p'.received
    && (!p.intake.drainer.NotYet? ==> !p'.intake.drainer.NotYet?) && (p.intake.started ==> p'.intake.started)
    && (ShutForGood(p) ==> !p'.intake.accepting && p'.accepted == p.accepted)
    && (p.intake.done ==> p'.intake.done)
    && (forall t :: WasHandled(p, t) ==> WasHandled(p', t))
    && (forall c :: c in p.calls ==>
          && c in p'.calls && p'.calls[c].expired == p.calls[c].expired
          && (p.calls[c].Returned? ==> p'.calls[c] == p.calls[c]))
    && (Expired(p) ==> forall t :: WasHandled(p', t) ==> WasHandled(p, t))
  }

  /** A started pool that has stopped accepting, or a pool whose drain has begun. */
  predicate ShutForGood(p: Pool)
  {
    (p.intake.started && !p.intake.accepting) || !p.intake.drainer.NotYet?
  }

  /** Some `stopAcceptingAndDrain` has returned because its context expired. */
  ghost predicate Expired(p: Pool)
  {
    exists c :: c in p.calls && p.calls[c] == Returned(true)
  }

  /** A step that touches only task `t` settles the handled tasks if it settles `t`. */
  lemma OnlyOneHandled(p: Pool, p': Pool, t: TaskId)
    requires forall x :: x in p.tasks && x != t ==> x in p'.tasks && p'.tasks[x] == p.tasks[x]
    requires forall x :: x in p'.tasks && x != t ==> x in p.tasks
    requires WasHandled(p, t) ==> WasHandled(p', t)
    requires Expired(p) && WasHandled(p', t) ==> WasHandled(p, t)
    ensures forall x :: WasHandled(p, x) ==> WasHandled(p', x)
    ensures Expired(p) ==> forall x :: WasHandled(p', x) ==> WasHandled(p, x)
  {
  }

  lemma ForwardSend(p: Pool, t: TaskId)
    requires Inv(p) && SubmitEnabled(p, t, TrySend)
    ensures Forward(p, Send(p, t))
  {
    hide CountInv, OrderInv, CancelInv, WorkerOk, DrainerInv, IndexOf;
    PlaceOf(p.tasks, p.workers, t);
    hide PlaceInv, Located;
    OnlyOneHandled(p, Send(p, t), t);
    hide WasHandled;
  }

  lemma ForwardSubmit(p: Pool, t: TaskId, a: SubmitAction)
    requires Inv(p) && SubmitEnabled(p, t, a)
    ensures Forward(p, SubmitStep(p, t, a))
  {
    hide CountInv, OrderInv, CancelInv, PlaceInv, DrainerInv, SubmitCounters, Underflows, Send;
    if a.TrySend? {
      ForwardSend(p, t);
    } else {
      OnlyOneHandled(p, SubmitStep(p, t, a), t);
      hide WasHandled;
    }
  }

  /** A task still before its check is cancelled once some drain has returned on expiry. */
  lemma ExpiredCancels(p: Pool, t: TaskId)
    requires CancelInv(p.calls, p.intake, p.tasks) && Expired(p) && t in p.tasks && p.tasks[t].phase.Unchecked()
    ensures p.tasks[t].cancelled
  {
    var c :| c in p.calls && p.calls[c] == Returned(true);
    assert CallInv(p.calls[c], p.intake, p.tasks);
  }

  lemma TaskStepShape(p: Pool, w: nat, t: TaskId, a: WorkerAction)
    requires Holds(p, w, t)
    ensures var p' := TaskStep(p, w, t, a);
            && p'.intake == p.intake && p'.calls == p.calls && p'.accepted == p.accepted && p'.received == p.received
            && |p'.workers| == |p.workers| && p'.tasks == p.tasks[t := HeldTask(p.tasks[t], a)]
  {
    hide HeldTask, HeldCounters, Underflows;
  }

  lemma ForwardTask(p: Pool, w: nat, t: TaskId, a: WorkerAction)
    requires GateInv(p.intake, p.workers, p.tasks) && Holds(p, w, t) && OnHeld(a) && HeldPhase(p.tasks[t].phase, a)
    requires a.Check? && Expired(p) ==> p.tasks[t].cancelled
    ensures Forward(p, TaskStep(p, w, t, a))
  {
    hide DrainerInv, TaskStep, Expired, NoneHolding;
    TaskStepShape(p, w, t, a);
    OnlyOneHandled(p, TaskStep(p, w, t, a), t);
  }

  lemma ForwardHeld(p: Pool, w: nat, a: WorkerAction)
    requires Inv(p) && WorkerEnabled(p, w, a) && OnHeld(a)
    ensures Forward(p, WorkerStep(p, w, a))
  {
    hide CountInv, OrderInv, GateInv, IndexOf, TaskStep, Forward, CancelInv;
    var t := HeldBy(p, w, a);
    if a.Check? && Expired(p) {
      ExpiredCancels(p, t);
    }
    ForwardTask(p, w, t, a);
  }

  lemma ForwardWorker(p: Pool, w: nat, a: WorkerAction)
    requires Inv(p) && WorkerEnabled(p, w, a)
    ensures Forward(p, WorkerStep(p, w, a))
  {
    hide CountInv, OrderInv, DrainerInv, CancelInv, IndexOf, TaskStep;
    if OnHeld(a) {
      ForwardHeld(p, w, a);
    } else if a.Dequeue? {
      DequeueKeeps(p.tasks, p.workers, w);
      hide PlaceInv;
      OnlyOneHandled(p, WorkerStep(p, w, a), p.workers[w].queue[0].task);
    }
  }

  lemma ForwardIntake(p: Pool, a: IntakeAction)
    requires Inv(p) && IntakeEnabled(p, a)
    ensures Forward(p, IntakeStep(p, a))
  {
    hide CountInv, OrderInv, CancelInv, PlaceInv, LockFree;
  }

  lemma ForwardCancel(p: Pool, a: CancelAction)
    requires Inv(p) && CancelEnabled(p, a)
    ensures Forward(p, CancelStep(p, a))
  {
    hide CountInv, OrderInv, CancelInv, PlaceInv, DrainerInv;
  }

  lemma ForwardStep(p: Pool, step: Step)
    requires Inv(p) && Enabled(p, step)
    ensures Forward(p, Apply(p, step))
  {
    hide Inv, Forward, SubmitStep, WorkerStep, IntakeStep, CancelStep, SubmitEnabled, WorkerEnabled, IntakeEnabled, CancelEnabled;
    match step
    case Submits(t, a) => ForwardSubmit(p, t, a);
    case Works(w, a) => ForwardWorker(p, w, a);
    case Gates(a) => ForwardIntake(p, a);
    case Cancels(a) => ForwardCancel(p, a);
  }

  lemma ForwardSelf(p: Pool)
    requires Inv(p)
    ensures Forward(p, p)
  {
    hide PlaceInv, CancelInv, CountInv, OrderInv;
  }

  lemma {:induction false} RunForward(run: seq<Pool>, i: nat, j: nat)
    requires IsRun(run) && i <= j < |run|
    ensures Forward(run[i], run[j])
    decreases j - i
  {
    hide Forward, Inv, Apply, Enabled;
    RunInv(run, i);
    if i < j {
      RunInv(run, j - 1);
      RunForward(run, i, j - 1);
      assert Next(run[j - 1], run[j]);
      var step :| Enabled(run[j - 1], step) && run[j] == Apply(run[j - 1], step);
      ForwardStep(run[j - 1], step);
      ForwardTwice(run[i], run[j - 1], run[j]);
    } else {
      ForwardSelf(run[i]);
    }
  }

  lemma ForwardTwice(p: Pool, q: Pool, r: Pool)
    requires Forward(p, q) && Forward(q, r)
    ensures Forward(p, r)
  {
    if Expired(p) {
      var c :| c in p.calls && p.calls[c] == Returned(true);
      assert q.calls[c] == Returned(true);
    }
  }

  /** Once a started pool has stopped accepting, and in particular once any task channel is closed, intake never
      reopens and no task is accepted any more, not even by a submission that was under way. */
  lemma IntakeNeverReopens(run: seq<Pool>, i: nat, j: nat)
    requires IsRun(run) && i <= j < |run|
    requires (run[i].intake.started && !run[i].intake.accepting)
             || exists w :: 0 <= w < |run[i].workers| && run[i].workers[w].closed
    ensures !run[j].intake.accepting && run[j].accepted == run[i].accepted
  {
    RunInv(run, i);
    RunForward(run, i, j);
  }

  /** After a drain returns because its context expired, no task that had not passed its cancellation check by
      then ever runs its handlers. */
  lemma NoHandlersAfterExpiry(run: seq<Pool>, i: nat, j: nat, call: nat, t: TaskId)
    requires IsRun(run) && i <= j < |run|
    requires call in run[i].calls && run[i].calls[call] == Returned(true)
    ensures WasHandled(run[j], t) ==> WasHandled(run[i], t)
  {
    RunForward(run, i, j);
  }

  // ---------------------------------------------------------------- exactly once, in order, one at a time

  /** The entries of one connection, in order. */
  function OfConn(log: seq<Entry>, conn: Option<nat>): (r: seq<Entry>)
  {
    if log == [] then [] else
    var rest := OfConn(log[..|log| - 1], conn);
    if log[|log| - 1].conn == conn then rest + [log[|log| - 1]] else rest
  }

  lemma {:induction false} OfConnAppend(a: seq<Entry>, b: seq<Entry>, conn: Option<nat>)
    ensures OfConn(a + b, conn) == OfConn(a, conn) + OfConn(b, conn)
  {
    if b == [] {
      assert a + b == a;
    } else {
      assert (a + b)[..|a + b| - 1] == a + b[..|b| - 1];
      OfConnAppend(a, b[..|b| - 1], conn);
    }
  }

  /** A connection's entries all go to its worker. */
  lemma {:induction false} OfConnOfWorker(log: seq<Entry>, conn: Option<nat>, n: nat)
    ensures OfConn(OfWorker(log, IndexOf(conn, n), n), conn) == OfConn(log, conn)
  {
    if log == [] {
    } else {
      var last, rest := log[|log| - 1], log[..|log| - 1];
      OfConnOfWorker(rest, conn, n);
      var w := IndexOf(conn, n);
      if IndexOf(last.conn, n) == w {
        assert OfWorker(log, w, n) == OfWorker(rest, w, n) + [last];
        OfConnAppend(OfWorker(rest, w, n), [last], conn);
        assert OfConn([last], conn) == if last.conn == conn then [last] else [];
      }
    }
  }

  /** In every run each accepted task is in the acceptance order exactly once and is received at most once; for
      every connection the tasks received are the first of the tasks accepted, in the same order, and what
      remains is what its worker's queue holds. */
  lemma ConnectionOrder(run: seq<Pool>, i: nat, conn: Option<nat>)
    requires IsRun(run) && i < |run|
    ensures Distinct(run[i].accepted) && Distinct(run[i].received)
    ensures OfConn(run[i].received, conn) <= OfConn(run[i].accepted, conn)
    ensures var w := IndexOf(conn, |run[i].workers|);
            && w < |run[i].workers|
            && OfConn(run[i].accepted, conn) == OfConn(run[i].received, conn) + OfConn(run[i].workers[w].queue, conn)
  {
    RunInv(run, i);
    var p := run[i];
    var n := |p.workers|;
    var w := IndexOf(conn, n);
    IndexInRange(conn, n);
    OfConnOfWorker(p.accepted, conn, n);
    OfConnOfWorker(p.received, conn, n);
    OfConnAppend(OfWorker(p.received, w, n), p.workers[w].queue, conn);
  }

  /** At most one handler chain per connection is running. */
  lemma MutualExclusion(run: seq<Pool>, i: nat, t: TaskId, u: TaskId)
    requires IsRun(run) && i < |run|
    requires t in run[i].tasks && run[i].tasks[t].phase.Running?
    requires u in run[i].tasks && run[i].tasks[u].phase.Running?
    requires run[i].tasks[t].conn == run[i].tasks[u].conn
    ensures t == u
  {
    RunInv(run, i);
    PlaceOf(run[i].tasks, run[i].workers, t);
    PlaceOf(run[i].tasks, run[i].workers, u);
  }

  /** The registry is exactly the tasks being submitted, queued or in a worker's hands. */
  lemma RegistryIsExact(run: seq<Pool>, i: nat, t: TaskId)
    requires IsRun(run) && i < |run|
    ensures t in Registry(run[i]) <==> t in run[i].tasks && run[i].tasks[t].phase.InRegistry()
  {
    RunInv(run, i);
    if t in run[i].tasks {
      PlaceOf(run[i].tasks, run[i].workers, t);
    }
  }

  // ---------------------------------------------------------------- a completed drain

  predicate Settled(phase: Phase)
  {
    phase.InHand? || phase.Refused? || phase.Rejected? || phase.Finished?
  }

  lemma DoneSettles(p: Pool)
    requires Inv(p) && p.intake.done
    ensures Registry(p) == {} && !p.intake.accepting
    ensures forall t :: t in p.tasks ==> Settled(p.tasks[t].phase)
    ensures forall e :: e in p.accepted ==> e in p.received && e.task in p.tasks && p.tasks[e.task].phase.Finished?
  {
    forall t | t in p.tasks
      ensures Settled(p.tasks[t].phase) && !p.tasks[t].registered
    {
      PlaceOf(p.tasks, p.workers, t);
      var w := IndexOf(p.tasks[t].conn, |p.workers|);
      IndexInRange(p.tasks[t].conn, |p.workers|);
      assert WorkerOk(p.workers[w], w, |p.workers|, p.tasks);
    }
  }

  /** When the pool reports that it has drained, the registry is empty and every task ever accepted has been
      received exactly once and finished, and that never changes afterwards. */
  lemma CompletedDrain(run: seq<Pool>, i: nat, j: nat)
    requires IsRun(run) && i <= j < |run| && run[i].intake.done
    ensures Registry(run[j]) == {} && run[j].accepted == run[i].accepted
    ensures Distinct(run[j].received)
    ensures forall e :: e in run[j].accepted ==>
              e in run[j].received && e.task in run[j].tasks && run[j].tasks[e.task].phase.Finished?
  {
    RunInv(run, i);
    RunInv(run, j);
    RunForward(run, i, j);
    DoneSettles(run[j]);
  }

  // ---------------------------------------------------------------- accounting

  /** Where a received message stands. `WithReader`: decoded and not yet submitted; `Declined`: refused because the server
      is stopping; `Submitting`: inside `submit`; `TurnedAway`: rejected because the queue was full; `Waiting`: queued, or
      taken and not yet uncounted. */
  datatype Standing = WithReader | Declined | Submitting | TurnedAway | Waiting | InProgress | Done | Skipped

  function StandingOf(x: Phase): Standing
  {
    match x
    case InHand => WithReader
    case Refused => Declined
    case Entered | Registered | Counted | Unsent1 | Unsent2 => Submitting
    case Unsent3 | Rejected => TurnedAway
    case InQueue | Got => Waiting
    case Uncounted | Running | Ran => InProgress
    case Completed => Done
    case Skipping => Skipped
    case Unregistered(ran) => if ran then Done else Skipped
    case Finished(ran) => if ran then Done else Skipped
  }

  /** The tasks of one transport with a given standing. */
  function With(p: Pool, tr: Transport, s: Standing): (r: set<TaskId>)
  {
    set t | t in p.tasks && p.tasks[t].transport == tr && StandingOf(p.tasks[t].phase) == s
  }

  /** The tasks of one transport whose `submit` returned nil or whose send has succeeded. */
  function AcceptedTasks(p: Pool, tr: Transport): (r: set<TaskId>)
  {
    set t | t in p.tasks && p.tasks[t].transport == tr && Sent(p.tasks[t].phase)
  }

  /** Counted by a `submit` call that has not sent or uncounted its task yet. */
  function BeingSent(p: Pool, tr: Transport): (r: set<TaskId>)
  {
    set t | t in p.tasks && p.tasks[t].transport == tr && (p.tasks[t].phase.Counted? || p.tasks[t].phase.Unsent1?)
  }

  predicate IsAccepted(s: Standing)
  {
    s.Waiting? || s.InProgress? || s.Done? || s.Skipped?
  }

  lemma StandingFacts(x: Phase)
    ensures Sent(x) <==> IsAccepted(StandingOf(x))
    ensures InClass(x, QueuedTasks) <==> StandingOf(x).Waiting? || x.Counted? || x.Unsent1?
    ensures x.Counted? || x.Unsent1? ==> StandingOf(x).Submitting?
    ensures InClass(x, RejectedTasks) <==> StandingOf(x).TurnedAway?
    ensures InClass(x, CompletedRequests) <==> StandingOf(x).Done?
  {
  }

  /** Four sets without common elements add up. */
  lemma Sum4(all: set<TaskId>, a: set<TaskId>, b: set<TaskId>, c: set<TaskId>, d: set<TaskId>)
    requires forall t :: t in all <==> t in a || t in b || t in c || t in d
    requires forall t :: t in a ==> t !in b && t !in c && t !in d
    requires forall t :: t in b ==> t !in c && t !in d
    requires forall t :: t in c ==> t !in d
    ensures |all| == |a| + |b| + |c| + |d|
  {
    assert all == (a + b) + (c + d);
    assert (a + b) * (c + d) == {} && a * b == {} && c * d == {};
  }

  lemma PartitionAccepted(p: Pool, tr: Transport)
    ensures |AcceptedTasks(p, tr)| ==
            |With(p, tr, Waiting)| + |With(p, tr, InProgress)| + |With(p, tr, Done)| + |With(p, tr, Skipped)|
  {
    hide StandingOf, Sent;
    forall t | t in p.tasks ensures Sent(p.tasks[t].phase) <==> IsAccepted(StandingOf(p.tasks[t].phase)) {
      StandingFacts(p.tasks[t].phase);
    }
    var all, a, b := AcceptedTasks(p, tr), With(p, tr, Waiting), With(p, tr, InProgress);
    var c, d := With(p, tr, Done), With(p, tr, Skipped);
    forall t ensures t in all <==> t in a || t in b || t in c || t in d {
    }
    Sum4(all, a, b, c, d);
  }

  /** The tasks of one transport that are not accepted. */
  function Unaccepted(p: Pool, tr: Transport): (r: set<TaskId>)
  {
    set t | t in p.tasks && p.tasks[t].transport == tr && !Sent(p.tasks[t].phase)
  }

  lemma PartitionUnaccepted(p: Pool, tr: Transport)
    ensures |Unaccepted(p, tr)| ==
            |With(p, tr, WithReader)| + |With(p, tr, Declined)| + |With(p, tr, Submitting)| + |With(p, tr, TurnedAway)|
  {
    hide StandingOf, Sent;
    forall t | t in p.tasks ensures Sent(p.tasks[t].phase) <==> IsAccepted(StandingOf(p.tasks[t].phase)) {
      StandingFacts(p.tasks[t].phase);
    }
    var all, a, b := Unaccepted(p, tr), With(p, tr, WithReader), With(p, tr, Declined);
    var c, d := With(p, tr, Submitting), With(p, tr, TurnedAway);
    forall t ensures t in all <==> t in a || t in b || t in c || t in d {
    }
    Sum4(all, a, b, c, d);
  }

  lemma PartitionReceived(p: Pool, tr: Transport)
    ensures |Members(p.tasks, (tr, ReceivedMessages))| == |Unaccepted(p, tr)| + |AcceptedTasks(p, tr)|
  {
    hide Sent;
    assert Unaccepted(p, tr) * AcceptedTasks(p, tr) == {};
    assert Members(p.tasks, (tr, ReceivedMessages)) == Unaccepted(p, tr) + AcceptedTasks(p, tr);
  }

  lemma PartitionQueued(p: Pool, tr: Transport)
    ensures |Members(p.tasks, (tr, QueuedTasks))| == |With(p, tr, Waiting)| + |BeingSent(p, tr)|
  {
    hide StandingOf, InClass;
    var waiting, sending := With(p, tr, Waiting), BeingSent(p, tr);
    forall t | t in p.tasks
      ensures var x := p.tasks[t].phase;
              && (InClass(x, QueuedTasks) <==> StandingOf(x).Waiting? || x.Counted? || x.Unsent1?)
              && (x.Counted? || x.Unsent1? ==> StandingOf(x).Submitting?)
    {
      StandingFacts(p.tasks[t].phase);
    }
    assert Members(p.tasks, (tr, QueuedTasks)) == waiting + sending;
    assert waiting * sending == {};
  }

  /** Conservation, per transport and in every state of every run: every received message is with its reader, declined
      while stopping, inside `submit`, rejected or accepted, and every accepted task is waiting, in progress, completed or
      skipped as cancelled. The gauge counts the waiting tasks and those being sent. */
  lemma Accounting(run: seq<Pool>, i: nat, tr: Transport)
    requires IsRun(run) && i < |run|
    ensures var p := run[i];
            && Get(p.counters, (tr, ReceivedMessages)) ==
               |With(p, tr, WithReader)| + |With(p, tr, Declined)| + |With(p, tr, Submitting)|
               + Get(p.counters, (tr, RejectedTasks)) + |AcceptedTasks(p, tr)|
            && |AcceptedTasks(p, tr)| ==
               |With(p, tr, Waiting)| + |With(p, tr, InProgress)| + Get(p.counters, (tr, CompletedRequests))
               + |With(p, tr, Skipped)|
            && Get(p.counters, (tr, QueuedTasks)) == |With(p, tr, Waiting)| + |BeingSent(p, tr)|
  {
    RunInv(run, i);
    CountsOf(run[i], tr);
    PartitionAccepted(run[i], tr);
    PartitionReceived(run[i], tr);
    PartitionUnaccepted(run[i], tr);
    PartitionQueued(run[i], tr);
    hide Inv;
  }

  lemma CountsOf(p: Pool, tr: Transport)
    requires CountInv(p.tasks, p.counters)
    ensures Get(p.counters, (tr, ReceivedMessages)) == |Members(p.tasks, (tr, ReceivedMessages))|
    ensures Get(p.counters, (tr, QueuedTasks)) == |Members(p.tasks, (tr, QueuedTasks))|
    ensures Get(p.counters, (tr, RejectedTasks)) == |With(p, tr, TurnedAway)|
    ensures Get(p.counters, (tr, CompletedRequests)) == |With(p, tr, Done)|
  {
    hide StandingOf, InClass;
    forall t | t in p.tasks
      ensures var x := p.tasks[t].phase;
              && (InClass(x, RejectedTasks) <==> StandingOf(x).TurnedAway?)
              && (InClass(x, CompletedRequests) <==> StandingOf(x).Done?)
    {
      StandingFacts(p.tasks[t].phase);
    }
    assert Members(p.tasks, (tr, RejectedTasks)) == With(p, tr, TurnedAway);
    assert Members(p.tasks, (tr, CompletedRequests)) == With(p, tr, Done);
  }

  /** After a completed drain the queued-tasks gauge is zero and every received message is in a reader's hands,
      refused, rejected, completed or skipped. */
  lemma AccountingAfterDrain(run: seq<Pool>, i: nat, tr: Transport)
    requires IsRun(run) && i < |run| && run[i].intake.done
    ensures var p := run[i];
            && Get(p.counters, (tr, QueuedTasks)) == 0
            && Get(p.counters, (tr, ReceivedMessages)) ==
               |With(p, tr, WithReader)| + |With(p, tr, Declined)| + Get(p.counters, (tr, RejectedTasks))
               + Get(p.counters, (tr, CompletedRequests)) + |With(p, tr, Skipped)|
  {
    RunInv(run, i);
    DoneSettles(run[i]);
    Accounting(run, i, tr);
    hide Inv;
    SettledSets(run[i], tr);
  }

  lemma SettledSets(p: Pool, tr: Transport)
    requires forall t :: t in p.tasks ==> Settled(p.tasks[t].phase)
    ensures |With(p, tr, Waiting)| == 0 && |BeingSent(p, tr)| == 0 && |With(p, tr, InProgress)| == 0
    ensures |With(p, tr, Submitting)| == 0
  {
    assert With(p, tr, Waiting) == {};
    assert BeingSent(p, tr) == {};
    assert With(p, tr, InProgress) == {};
    assert With(p, tr, Submitting) == {};
  }

  // ---------------------------------------------------------------- forced cancellation

  /** A cancelled task stays cancelled, and a call of `forceCancel` has cancelled what it no longer has before it. */
  ghost predicate CancelForward(p: Pool, p': Pool)
  {
    && (forall t :: t in p.tasks ==> t in p'.tasks && (p.tasks[t].cancelled ==> p'.tasks[t].cancelled))
    && (forall c :: c in p.calls ==> c in p'.calls)
    && (forall c, t :: c in p.calls && p.calls[c].Cancelling? && t in p.calls[c].todo && t in p.tasks ==>
          p'.tasks[t].cancelled || (p'.calls[c].Cancelling? && t in p'.calls[c].todo))
  }

  /** What the other steps leave alone. */
  ghost predicate FlagsKept(p: Pool, p': Pool)
  {
    && p'.calls == p.calls
    && forall t :: t in p.tasks ==> t in p'.tasks && (p.tasks[t].cancelled ==> p'.tasks[t].cancelled)
  }

  lemma SubmitKeepsFlags(p: Pool, t: TaskId, a: SubmitAction)
    requires SubmitEnabled(p, t, a)
    ensures FlagsKept(p, SubmitStep(p, t, a))
  {
    hide LockFree, IndexOf, Underflows, SubmitCounters, EntryOf;
  }

  lemma WorkerKeepsFlags(p: Pool, w: nat, a: WorkerAction)
    requires WorkerEnabled(p, w, a)
    ensures FlagsKept(p, WorkerStep(p, w, a))
  {
    hide Underflows, HeldCounters;
  }

  lemma IntakeKeepsFlags(p: Pool, a: IntakeAction)
    requires IntakeEnabled(p, a)
    ensures FlagsKept(p, IntakeStep(p, a))
  {
    hide LockFree;
  }

  lemma OthersKeepFlags(p: Pool, step: Step)
    requires Enabled(p, step) && !step.Cancels?
    ensures FlagsKept(p, Apply(p, step))
  {
    hide FlagsKept, SubmitStep, WorkerStep, IntakeStep, CancelStep, SubmitEnabled, WorkerEnabled, IntakeEnabled, CancelEnabled;
    match step
    case Submits(t, a) => SubmitKeepsFlags(p, t, a);
    case Works(w, a) => WorkerKeepsFlags(p, w, a);
    case Gates(a) => IntakeKeepsFlags(p, a);
  }

  lemma CancelForwardStep(p: Pool, step: Step)
    requires Enabled(p, step)
    ensures CancelForward(p, Apply(p, step))
  {
    hide SubmitStep, WorkerStep, IntakeStep, SubmitEnabled, WorkerEnabled, IntakeEnabled;
    if !step.Cancels? {
      OthersKeepFlags(p, step);
    }
  }

  lemma {:induction false} RunCancelForward(run: seq<Pool>, i: nat, j: nat)
    requires IsRun(run) && i <= j < |run|
    ensures CancelForward(run[i], run[j])
    decreases j - i
  {
    hide Apply, Enabled, CancelForward;
    if i == j {
      CancelForwardSelf(run[i]);
    } else {
      RunCancelForward(run, i, j - 1);
      assert Next(run[j - 1], run[j]);
      var step :| Enabled(run[j - 1], step) && run[j] == Apply(run[j - 1], step);
      CancelForwardStep(run[j - 1], step);
      CancelForwardTwice(run[i], run[j - 1], run[j]);
    }
  }

  lemma CancelForwardSelf(p: Pool)
    ensures CancelForward(p, p)
  {
  }

  lemma CancelForwardTwice(p: Pool, q: Pool, r: Pool)
    requires CancelForward(p, q) && CancelForward(q, r)
    ensures CancelForward(p, r)
  {
    forall c, t | c in p.calls && p.calls[c].Cancelling? && t in p.calls[c].todo && t in p.tasks
      ensures r.tasks[t].cancelled || (r.calls[c].Cancelling? && t in r.calls[c].todo)
    {
      assert t in q.tasks && c in q.calls;
    }
  }

  /** `forceCancel` under interference: by the time a call returns, every task that was registered when it took its
      snapshot is cancelled, whatever workers, submissions and other calls did meanwhile. */
  lemma ForceCancelCovers(run: seq<Pool>, i: nat, j: nat, call: nat)
    requires IsRun(run) && i + 1 <= j < |run|
    requires call !in run[i].calls && call in run[i + 1].calls
    requires call in run[j].calls && run[j].calls[call].Returned?
    ensures forall t :: t in Registry(run[i]) ==> t in run[j].tasks && run[j].tasks[t].cancelled
  {
    assert Next(run[i], run[i + 1]);
    SnapshotTaken(run[i], run[i + 1], call);
    RunCancelForward(run, i + 1, j);
    hide Next, IsRun;
  }

  lemma SnapshotTaken(p: Pool, p': Pool, call: nat)
    requires Next(p, p') && call !in p.calls && call in p'.calls
    ensures p'.calls[call].Cancelling? && p'.calls[call].todo == Registry(p) && p'.tasks == p.tasks
  {
    hide SubmitStep, WorkerStep, IntakeStep, SubmitEnabled, WorkerEnabled, IntakeEnabled, DrainOnceReturned;
    var step :| Enabled(p, step) && p' == Apply(p, step);
    if !step.Cancels? {
      OthersKeepFlags(p, step);
    }
  }
}

