/**
  How a task moves through the pool (worker_pool.go, worker.go): which way it
  goes at each point where the code decides, in every run.
 */
module WorkerPoolFlow {
  import opened Bytes
  import opened WorkerPool
  import opened WorkerPoolRuns

  /** Where a task goes next, given the pool it is in. Three points decide: the gate, the room in the queue, and the
      cancellation check. */
  predicate GoesTo(p: Pool, t: TaskId, next: Phase)
    requires t in p.tasks
  {
    match p.tasks[t].phase
    case InHand => next == if p.intake.accepting then Entered else Refused
    case Entered => next.Registered?
    case Registered => next.Counted?
    case Counted =>
      var w := WorkerIndex(p, t);
      w < |p.workers| && next == if |p.workers[w].queue| < p.capacity then InQueue else Unsent1
    case Unsent1 => next.Unsent2?
    case Unsent2 => next.Unsent3?
    case Unsent3 => next.Rejected?
    case InQueue => next.Got?
    case Got => next.Uncounted?
    case Uncounted => next == if p.tasks[t].cancelled then Skipping else Running
    case Running => next.Ran?
    case Ran => next.Completed?
    case Completed => next == Unregistered(true)
    case Skipping => next == Unregistered(false)
    case Unregistered(ran) => next == Finished(ran)
    case Refused | Rejected | Finished(_) => false
  }

  /** What a step may do to a task: nothing to its connection, and to its phase at most the move that is due. */
  ghost predicate Moves(p: Pool, p': Pool, t: TaskId)
    requires t in p.tasks
  {
    && t in p'.tasks && p'.tasks[t].conn == p.tasks[t].conn && p'.tasks[t].transport == p.tasks[t].transport
    && (p'.tasks[t].phase != p.tasks[t].phase ==> GoesTo(p, t, p'.tasks[t].phase))
  }

  lemma SubmitMoves(p: Pool, s: TaskId, a: SubmitAction, t: TaskId)
    requires Inv(p) && SubmitEnabled(p, s, a) && t in p.tasks
    ensures Moves(p, SubmitStep(p, s, a), t)
  {
    hide PlaceInv, CountInv, CancelInv, OrderInv, IndexOf, SubmitCounters, Underflows, LockFree;
    SubmitKeepsGate(p, s, a);
  }

  lemma HeldMoves(p: Pool, w: nat, a: WorkerAction, t: TaskId)
    requires Inv(p) && WorkerEnabled(p, w, a) && OnHeld(a) && t in p.tasks
    ensures Moves(p, WorkerStep(p, w, a), t)
  {
    hide CountInv, CancelInv, OrderInv, GateInv, IndexOf, TaskStep;
    var s := HeldBy(p, w, a);
    TaskStepShape(p, w, s, a);
  }

  lemma TakeMoves(p: Pool, w: nat, a: WorkerAction, t: TaskId)
    requires Inv(p) && WorkerEnabled(p, w, a) && !OnHeld(a) && t in p.tasks
    ensures Moves(p, WorkerStep(p, w, a), t)
  {
    hide CountInv, CancelInv, OrderInv, GateInv, IndexOf, TaskStep, Distinct, Located;
    if a.Dequeue? {
      assert WorkerOk(p.workers[w], w, |p.workers|, p.tasks);
      assert EntryOk(p.workers[w].queue[0], w, |p.workers|, p.tasks);
    }
  }

  lemma OthersMove(p: Pool, step: Step, t: TaskId)
    requires Enabled(p, step) && (step.Gates? || step.Cancels?) && t in p.tasks
    ensures Moves(p, Apply(p, step), t)
  {
    hide LockFree, IndexOf, SubmitStep, WorkerStep;
  }

  lemma StepMoves(p: Pool, step: Step, t: TaskId)
    requires Inv(p) && Enabled(p, step) && t in p.tasks
    ensures Moves(p, Apply(p, step), t)
  {
    hide Inv, Moves, SubmitStep, WorkerStep, IntakeStep, CancelStep, SubmitEnabled, WorkerEnabled, IntakeEnabled, CancelEnabled;
    match step
    case Submits(s, a) => SubmitMoves(p, s, a, t);
    case Works(w, a) =>
      if OnHeld(a) {
        HeldMoves(p, w, a, t);
      } else {
        TakeMoves(p, w, a, t);
      }
    case Gates(_) => OthersMove(p, step, t);
    case Cancels(_) => OthersMove(p, step, t);
  }

  /** In every run a task only ever makes the move that is due. So a message is declined if and only if it found intake
      shut, a submission is rejected if and only if it found its worker's queue full, and a task taken off a queue has its
      handlers run if and only if it is not cancelled at its check. */
  lemma Flow(run: seq<Pool>, i: nat, t: TaskId)
    requires IsRun(run) && i + 1 < |run| && t in run[i].tasks
    ensures Moves(run[i], run[i + 1], t)
  {
    hide Inv, Moves, Apply, Enabled;
    RunInv(run, i);
    assert Next(run[i], run[i + 1]);
    var step :| Enabled(run[i], step) && run[i + 1] == Apply(run[i], step);
    StepMoves(run[i], step, t);
  }

  /** The same at the cancellation check. */
  lemma HandledUnlessCancelled(run: seq<Pool>, i: nat, t: TaskId)
    requires IsRun(run) && i + 1 < |run| && t in run[i].tasks && run[i].tasks[t].phase.Uncounted?
    requires t in run[i + 1].tasks && !run[i + 1].tasks[t].phase.Uncounted?
    ensures WasHandled(run[i + 1], t) <==> !run[i].tasks[t].cancelled
  {
    Flow(run, i, t);
  }

  // ---------------------------------------------------------------- skipped means cancelled

  predicate WasSkipped(p: Pool, t: TaskId)
  {
    t in p.tasks && StandingOf(p.tasks[t].phase).Skipped?
  }

  /** The task stood before its check, cancelled. */
  predicate FoundCancelled(p: Pool, t: TaskId)
  {
    t in p.tasks && p.tasks[t].phase.Uncounted? && p.tasks[t].cancelled
  }

  lemma WorkerAddsNone(p: Pool, w: nat, a: WorkerAction)
    requires WorkerEnabled(p, w, a)
    ensures WorkerStep(p, w, a).tasks.Keys == p.tasks.Keys
  {
    hide HeldCounters, Underflows, HeldTask;
  }

  lemma SubmitAddsInHand(p: Pool, s: TaskId, a: SubmitAction, t: TaskId)
    requires SubmitEnabled(p, s, a) && t !in p.tasks && t in SubmitStep(p, s, a).tasks
    ensures SubmitStep(p, s, a).tasks[t].phase.InHand?
  {
    hide LockFree, IndexOf, SubmitCounters, Underflows, EntryOf;
  }

  lemma FirstPhase(p: Pool, step: Step, t: TaskId)
    requires Enabled(p, step) && t !in p.tasks && t in Apply(p, step).tasks
    ensures Apply(p, step).tasks[t].phase.InHand?
  {
    hide LockFree, SubmitStep, WorkerStep, SubmitEnabled, WorkerEnabled, Registry;
    match step
    case Submits(s, a) => SubmitAddsInHand(p, s, a, t);
    case Works(w, a) => WorkerAddsNone(p, w, a);
    case Gates(_) =>
    case Cancels(_) =>
  }

  /** A task is skipped only because it was cancelled when its worker looked. */
  lemma {:induction false} SkippedWasCancelled(run: seq<Pool>, i: nat, t: TaskId) returns (j: nat)
    requires IsRun(run) && i < |run| && WasSkipped(run[i], t)
    ensures j < i && FoundCancelled(run[j], t)
  {
    hide Apply, Enabled;
    if i == 0 {
      assert false;
    } else if WasSkipped(run[i - 1], t) {
      j := SkippedWasCancelled(run, i - 1, t);
    } else {
      assert Next(run[i - 1], run[i]);
      var step :| Enabled(run[i - 1], step) && run[i] == Apply(run[i - 1], step);
      if t in run[i - 1].tasks {
        Flow(run, i - 1, t);
      } else {
        FirstPhase(run[i - 1], step, t);
      }
      j := i - 1;
    }
  }

  /** If no task is ever cancelled before its check, a completed drain has run the handlers of every accepted task. */
  lemma EveryAcceptedTaskRuns(run: seq<Pool>, i: nat, tr: Transport)
    requires IsRun(run) && i < |run| && run[i].intake.done
    requires forall j, t :: 0 <= j <= i ==> !FoundCancelled(run[j], t)
    ensures Get(run[i].counters, (tr, CompletedRequests)) == |AcceptedTasks(run[i], tr)|
    ensures forall e :: e in run[i].accepted ==> WasHandled(run[i], e.task)
  {
    hide IsRun, Inv;
    var p := run[i];
    forall t | t in p.tasks
      ensures !WasSkipped(p, t)
    {
      if WasSkipped(p, t) {
        var j := SkippedWasCancelled(run, i, t);
      }
    }
    assert With(p, tr, Skipped) == {};
    RunInv(run, i);
    Accounting(run, i, tr);
    DoneSettles(p);
    SettledSets(p, tr);
  }

  // ---------------------------------------------------------------- bounds and workers

  ghost predicate Bounded(p: Pool)
  {
    forall w :: 0 <= w < |p.workers| ==> |p.workers[w].queue| <= p.capacity
  }

  lemma SubmitKeepsBound(p: Pool, t: TaskId, a: SubmitAction)
    requires Bounded(p) && SubmitEnabled(p, t, a)
    ensures Bounded(SubmitStep(p, t, a)) && SubmitStep(p, t, a).capacity == p.capacity
  {
    hide LockFree, IndexOf, SubmitCounters, Underflows, EntryOf;
  }

  lemma WorkerKeepsBound(p: Pool, w: nat, a: WorkerAction)
    requires Bounded(p) && WorkerEnabled(p, w, a)
    ensures Bounded(WorkerStep(p, w, a)) && WorkerStep(p, w, a).capacity == p.capacity
  {
    hide HeldCounters, Underflows, HeldTask;
  }

  lemma BoundedStep(p: Pool, step: Step)
    requires Bounded(p) && Enabled(p, step)
    ensures Bounded(Apply(p, step)) && Apply(p, step).capacity == p.capacity
  {
    hide LockFree, SubmitStep, WorkerStep, SubmitEnabled, WorkerEnabled, Registry;
    match step
    case Submits(t, a) => SubmitKeepsBound(p, t, a);
    case Works(w, a) => WorkerKeepsBound(p, w, a);
    case Gates(_) =>
    case Cancels(_) =>
  }

  /** No queue ever holds more than its capacity. */
  lemma {:induction false} QueuesAreBounded(run: seq<Pool>, i: nat)
    requires IsRun(run) && i < |run|
    ensures Bounded(run[i]) && run[i].capacity == run[0].capacity
  {
    hide Apply, Enabled;
    if i == 0 {
    } else {
      QueuesAreBounded(run, i - 1);
      assert Next(run[i - 1], run[i]);
      var step :| Enabled(run[i - 1], step) && run[i] == Apply(run[i - 1], step);
      BoundedStep(run[i - 1], step);
    }
  }

  /** Connections are spread over the workers by their number, round and round; requests without one go to the first. */
  lemma ConnectionsGoRound(c: nat, count: nat)
    requires count > 0
    ensures c < count ==> IndexOf(Some(c), count) == c
    ensures IndexOf(Some(c + count), count) == IndexOf(Some(c), count) < count
    ensures IndexOf(None, count) == 0
  {
    var q, r := c / count, c % count;
    assert c + count == (q + 1) * count + r;
    SameRemainder(q + 1, r, c + count, count);
  }

  lemma SameRemainder(q: nat, r: nat, n: nat, count: nat)
    requires r < count && n == q * count + r
    ensures n % count == r
  {
    var d := n / count - q;
    assert n % count - r == -(d * count);
    assert d == 0 || d * count >= count || d * count + count <= 0;
  }
}

