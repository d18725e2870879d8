/**
  The pool never gets stuck (worker_pool.go, worker.go): from any state it can
  reach once started, its drain can complete.
 */
module WorkerPoolProgress {
  import opened Bytes
  import opened WorkerPool
  import opened WorkerPoolRuns

  ghost predicate Path(p: Pool, steps: seq<Step>, q: Pool)
    decreases |steps|
  {
    if steps == [] then q == p else Enabled(p, steps[0]) && Path(Apply(p, steps[0]), steps[1..], q)
  }

  lemma {:induction false} PathThen(p: Pool, a: seq<Step>, m: Pool, b: seq<Step>, q: Pool)
    requires Path(p, a, m) && Path(m, b, q)
    ensures Path(p, a + b, q)
    decreases |a|
  {
    hide Enabled, Apply;
    if a == [] {
      assert a + b == b;
    } else {
      PathThen(Apply(p, a[0]), a[1..], m, b, q);
      assert (a + b)[1..] == a[1..] + b;
    }
  }

  lemma PathOne(p: Pool, step: Step)
    requires Enabled(p, step)
    ensures Path(p, [step], Apply(p, step))
  {
    hide Enabled, Apply;
    assert [step][1..] == [];
  }

  lemma PathNone(p: Pool)
    ensures Path(p, [], p)
  {
  }

  lemma {:induction false} RunsOn(run: seq<Pool>, steps: seq<Step>, q: Pool) returns (longer: seq<Pool>)
    requires IsRun(run) && Path(run[|run| - 1], steps, q)
    ensures IsRun(longer) && run <= longer && longer[|longer| - 1] == q
    decreases |steps|
  {
    hide Enabled, Apply;
    if steps == [] {
      longer := run;
    } else {
      var next := Apply(run[|run| - 1], steps[0]);
      longer := run + [next];
      assert Next(run[|run| - 1], next);
      forall i | 0 < i < |longer|
        ensures Next(longer[i - 1], longer[i])
      {
        if i < |run| {
          assert Next(run[i - 1], run[i]);
        }
      }
      longer := RunsOn(longer, steps[1..], q);
    }
  }

  ghost predicate Good(p: Pool)
  {
    Inv(p) && p.intake.started
  }

  // ---------------------------------------------------------------- submissions leave the lock

  function Holding(p: Pool): set<TaskId>
  {
    set t | t in p.tasks && p.tasks[t].holding
  }

  function SubmitLeft(x: Phase): nat
  {
    match x
    case Entered => 7 case Registered => 6 case Counted => 5 case Unsent1 => 4 case Unsent2 => 3 case Unsent3 => 2
    case _ => 1
  }

  function SubmitNext(x: Phase): SubmitAction
  {
    match x
    case Entered => Register
    case Registered => CountQueued
    case Counted => TrySend
    case Unsent1 => UncountUnsent
    case Unsent2 => CountRejected
    case Unsent3 => UnregisterUnsent
    case _ => SubmitAction.Leave
  }

  lemma SubmitGoesOn(p: Pool, t: TaskId)
    requires Good(p) && t in Holding(p)
    ensures SubmitEnabled(p, t, SubmitNext(p.tasks[t].phase))
    ensures var q := SubmitStep(p, t, SubmitNext(p.tasks[t].phase));
            && Good(q) && q.intake == p.intake && t in q.tasks
            && (if SubmitNext(p.tasks[t].phase).Leave? then Holding(q) == Holding(p) - {t}
                else Holding(q) == Holding(p) && SubmitLeft(q.tasks[t].phase) < SubmitLeft(p.tasks[t].phase))
  {
    hide CountInv, CancelInv, OrderInv, WorkerOk, SubmitCounters, Underflows, IndexOf, LockFree;
    var a := SubmitNext(p.tasks[t].phase);
    PlaceOf(p.tasks, p.workers, t);
    IndexInRange(p.tasks[t].conn, |p.workers|);
    SubmitKeepsGate(p, t, a);
    SubmitKeeps(p, t, a);
    hide PlaceInv, Located, GateInv;
  }

  /** Steps that the pool's own parts take: none of them stops intake, begins a drain or takes a snapshot. */
  predicate Own(steps: seq<Step>)
  {
    forall i :: 0 <= i < |steps| ==>
      (steps[i].Gates? ==> !steps[i].intake.StopAccepting? && !steps[i].intake.DrainEnter?)
      && (steps[i].Cancels? ==> !steps[i].cancel.Snapshot?)
  }

  lemma {:induction false} TaskLeaves(p: Pool, t: TaskId) returns (steps: seq<Step>, q: Pool)
    requires Good(p) && t in Holding(p)
    ensures Own(steps) && Path(p, steps, q) && Good(q) && q.intake == p.intake && Holding(q) == Holding(p) - {t}
    decreases SubmitLeft(p.tasks[t].phase)
  {
    hide Good, Path, SubmitStep, SubmitEnabled, SubmitNext, SubmitLeft;
    var a := SubmitNext(p.tasks[t].phase);
    SubmitGoesOn(p, t);
    PathOne(p, Submits(t, a));
    var m := SubmitStep(p, t, a);
    if a.Leave? {
      steps, q := [Submits(t, a)], m;
    } else {
      var more;
      more, q := TaskLeaves(m, t);
      PathThen(p, [Submits(t, a)], m, more, q);
      steps := [Submits(t, a)] + more;
    }
  }

  lemma {:induction false} AllLeave(p: Pool) returns (steps: seq<Step>, q: Pool)
    requires Good(p)
    ensures Own(steps) && Path(p, steps, q) && Good(q) && q.intake == p.intake && Holding(q) == {}
    decreases |Holding(p)|
  {
    hide Good, Path, Holding;
    if Holding(p) == {} {
      steps, q := [], p;
      PathNone(p);
    } else {
      var t :| t in Holding(p);
      var a, m := TaskLeaves(p, t);
      var b;
      b, q := AllLeave(m);
      PathThen(p, a, m, b, q);
      steps := a + b;
    }
  }

  lemma NobodyHolds(p: Pool)
    requires Holding(p) == {}
    ensures forall t :: t in p.tasks ==> !p.tasks[t].holding
  {
    forall t | t in p.tasks
      ensures !p.tasks[t].holding
    {
      assert t !in Holding(p);
    }
  }

  // ---------------------------------------------------------------- a worker runs out of work

  function HeldLeft(x: Phase): nat
  {
    match x
    case Got => 7 case Uncounted => 6 case Running => 5 case Ran => 4 case Completed => 3 case Skipping => 3
    case Unregistered(_) => 2
    case _ => 1
  }

  function HeldNext(x: Phase): WorkerAction
  {
    match x
    case Got => UncountTaken
    case Uncounted => Check
    case Running => HandlersReturn
    case Ran => CountCompleted
    case Completed => UnregisterTaken
    case Skipping => UnregisterTaken
    case _ => WorkerAction.Finish
  }

  function WorkerNext(p: Pool, w: nat): WorkerAction
    requires w < |p.workers|
  {
    var worker := p.workers[w];
    if worker.stage.Unstarted? then Begin
    else if worker.current.Some? && worker.current.value in p.tasks then HeldNext(p.tasks[worker.current.value].phase)
    else if worker.queue != [] then Dequeue
    else Exit
  }

  function StageLeft(s: Stage): nat
  {
    match s case Unstarted => 2 case Ready => 1 case Exited => 0
  }

  function CurrentLeft(p: Pool, w: nat): nat
    requires w < |p.workers|
  {
    var c := p.workers[w].current;
    if c.Some? && c.value in p.tasks then HeldLeft(p.tasks[c.value].phase) else 0
  }

  /** The worker's channel is closed and the drain waits for it. */
  ghost predicate Draining(p: Pool, w: nat)
  {
    Good(p) && p.intake.drainer.AwaitingWorkers? && w < |p.workers| && p.workers[w].closed
  }

  lemma WorkerNextEnabled(p: Pool, w: nat)
    requires Draining(p, w) && !p.workers[w].stage.Exited?
    ensures WorkerEnabled(p, w, WorkerNext(p, w))
  {
    hide CountInv, CancelInv, OrderInv, GateInv, Located, IndexOf, Distinct;
    assert WorkerOk(p.workers[w], w, |p.workers|, p.tasks);
    if p.workers[w].queue != [] {
      assert EntryOk(p.workers[w].queue[0], w, |p.workers|, p.tasks);
    }
  }

  /** What a step of one worker leaves alone. */
  ghost predicate OthersSame(p: Pool, q: Pool, w: nat)
  {
    && |q.workers| == |p.workers| && q.intake == p.intake && Holding(q) == Holding(p)
    && forall v :: 0 <= v < |p.workers| && v != w ==> q.workers[v] == p.workers[v]
  }

  lemma HeldShape(p: Pool, w: nat, t: TaskId, a: WorkerAction)
    requires Holds(p, w, t) && OnHeld(a)
    ensures var q := TaskStep(p, w, t, a);
            && OthersSame(p, q, w) && t in q.tasks && q.tasks[t] == HeldTask(p.tasks[t], a)
            && q.workers[w] == if a.Finish? then p.workers[w].(current := None) else p.workers[w]
  {
    hide HeldCounters, Underflows, HeldTask;
    SameHolding(p.tasks[t], a);
  }

  lemma SameHolding(task: Task, a: WorkerAction)
    ensures HeldTask(task, a).holding == task.holding
  {
  }

  lemma OwnShape(p: Pool, w: nat, a: WorkerAction)
    requires WorkerEnabled(p, w, a) && !OnHeld(a)
    ensures OthersSame(p, WorkerStep(p, w, a), w)
    ensures WorkerStep(p, w, a).workers[w].closed == p.workers[w].closed
  {
    hide TaskStep;
  }

  lemma NextHolds(p: Pool, w: nat)
    requires w < |p.workers| && WorkerEnabled(p, w, WorkerNext(p, w)) && OnHeld(WorkerNext(p, w))
    ensures p.workers[w].current.Some? && Holds(p, w, p.workers[w].current.value)
    ensures var t := p.workers[w].current.value;
            && WorkerNext(p, w) == HeldNext(p.tasks[t].phase) && HeldPhase(p.tasks[t].phase, WorkerNext(p, w))
            && WorkerStep(p, w, WorkerNext(p, w)) == TaskStep(p, w, t, WorkerNext(p, w))
  {
    hide TaskStep;
  }

  lemma WorkerStepShape(p: Pool, w: nat)
    requires w < |p.workers| && WorkerEnabled(p, w, WorkerNext(p, w))
    ensures OthersSame(p, WorkerStep(p, w, WorkerNext(p, w)), w)
    ensures WorkerStep(p, w, WorkerNext(p, w)).workers[w].closed == p.workers[w].closed
  {
    hide WorkerNext, WorkerEnabled, WorkerStep, TaskStep, HeldTask;
    var a := WorkerNext(p, w);
    if OnHeld(a) {
      NextHolds(p, w);
      HeldShape(p, w, p.workers[w].current.value, a);
    } else {
      OwnShape(p, w, a);
    }
  }

  /** Nearer to its end: it has come to a later stage, has fewer tasks in its queue, or less to do with the one it holds. */
  ghost predicate Nearer(p: Pool, q: Pool, w: nat)
    requires w < |p.workers| && w < |q.workers|
  {
    var s, s' := p.workers[w], q.workers[w];
    || StageLeft(s'.stage) < StageLeft(s.stage)
    || (s'.stage == s.stage && |s'.queue| < |s.queue|)
    || (s'.stage == s.stage && s'.queue == s.queue && CurrentLeft(q, w) < CurrentLeft(p, w))
  }

  lemma HeldNearer(p: Pool, w: nat, t: TaskId, a: WorkerAction)
    requires Holds(p, w, t) && a == HeldNext(p.tasks[t].phase) && HeldPhase(p.tasks[t].phase, a)
    ensures w < |TaskStep(p, w, t, a).workers| && Nearer(p, TaskStep(p, w, t, a), w)
  {
    hide TaskStep;
    HeldShape(p, w, t, a);
  }

  lemma OwnNearer(p: Pool, w: nat)
    requires w < |p.workers| && WorkerEnabled(p, w, WorkerNext(p, w)) && !OnHeld(WorkerNext(p, w))
    requires !p.workers[w].stage.Exited?
    ensures w < |WorkerStep(p, w, WorkerNext(p, w)).workers| && Nearer(p, WorkerStep(p, w, WorkerNext(p, w)), w)
  {
    hide TaskStep, HeldLeft;
  }

  lemma WorkerNearer(p: Pool, w: nat)
    requires w < |p.workers| && WorkerEnabled(p, w, WorkerNext(p, w)) && !p.workers[w].stage.Exited?
    ensures w < |WorkerStep(p, w, WorkerNext(p, w)).workers| && Nearer(p, WorkerStep(p, w, WorkerNext(p, w)), w)
  {
    hide WorkerNext, WorkerEnabled, WorkerStep, TaskStep, Nearer;
    var a := WorkerNext(p, w);
    if OnHeld(a) {
      NextHolds(p, w);
      HeldNearer(p, w, p.workers[w].current.value, a);
    } else {
      OwnNearer(p, w);
    }
  }

  lemma WorkerGoesOn(p: Pool, w: nat)
    requires Draining(p, w) && !p.workers[w].stage.Exited?
    ensures WorkerEnabled(p, w, WorkerNext(p, w))
    ensures var q := WorkerStep(p, w, WorkerNext(p, w));
            Draining(q, w) && OthersSame(p, q, w) && Nearer(p, q, w)
  {
    hide CountInv, CancelInv, OrderInv, GateInv, Located, IndexOf, Distinct, WorkerStep, WorkerEnabled, WorkerNext, CurrentLeft,
         OthersSame, EntryOk, Nearer, PlaceInv;
    WorkerNextEnabled(p, w);
    WorkerStepShape(p, w);
    WorkerNearer(p, w);
    WorkerKeeps(p, w, WorkerNext(p, w));
    SameIntake(p, WorkerStep(p, w, WorkerNext(p, w)), w);
  }

  lemma SameIntake(p: Pool, q: Pool, w: nat)
    requires OthersSame(p, q, w)
    ensures q.intake == p.intake && |q.workers| == |p.workers|
  {
  }

  lemma OthersSameTwice(p: Pool, q: Pool, r: Pool, w: nat)
    requires OthersSame(p, q, w) && OthersSame(q, r, w)
    ensures OthersSame(p, r, w)
  {
    hide Holding;
  }

  lemma {:induction false} WorkerExits(p: Pool, w: nat) returns (steps: seq<Step>, q: Pool)
    requires Draining(p, w)
    ensures Own(steps) && Path(p, steps, q) && Draining(q, w) && OthersSame(p, q, w) && q.workers[w].stage.Exited?
    decreases StageLeft(p.workers[w].stage), |p.workers[w].queue|, CurrentLeft(p, w)
  {
    hide Path, Good, WorkerStep, WorkerEnabled, WorkerNext, CurrentLeft, OthersSame;
    if p.workers[w].stage.Exited? {
      steps, q := [], p;
      PathNone(p);
      OthersSameSelf(p, w);
    } else {
      WorkerGoesOn(p, w);
      var step := Works(w, WorkerNext(p, w));
      PathOne(p, step);
      var m := WorkerStep(p, w, WorkerNext(p, w));
      var more;
      more, q := WorkerExits(m, w);
      PathThen(p, [step], m, more, q);
      OthersSameTwice(p, m, q, w);
      steps := [step] + more;
    }
  }

  lemma OthersSameSelf(p: Pool, w: nat)
    ensures OthersSame(p, p, w)
  {
  }

  // ---------------------------------------------------------------- a forced cancellation returns

  lemma CancelGoesOn(p: Pool, a: CancelAction)
    requires Good(p) && CancelEnabled(p, a) && !a.Snapshot?
    ensures Path(p, [Cancels(a)], CancelStep(p, a)) && Good(CancelStep(p, a)) && CancelStep(p, a).intake == p.intake
  {
    hide Inv;
    CancelKeeps(p, a);
    PathOne(p, Cancels(a));
  }

  lemma {:induction false} CancelReturns(p: Pool, call: nat) returns (steps: seq<Step>, q: Pool)
    requires Good(p) && call in p.calls
    ensures Own(steps) && Path(p, steps, q) && Good(q) && q.intake == p.intake && call in q.calls && q.calls[call].Returned?
    decreases if p.calls[call].Cancelling? then 1 else 0, if p.calls[call].Cancelling? then p.calls[call].todo else {}
  {
    hide Good, Path;
    if p.calls[call].Returned? {
      steps, q := [], p;
      PathNone(p);
    } else {
      var a: CancelAction;
      if p.calls[call].todo == {} {
        a := ReturnFrom(call);
      } else {
        var t :| t in p.calls[call].todo;
        TodoThere(p, call, t);
        a := CancelOne(call, t);
      }
      CancelGoesOn(p, a);
      var m := CancelStep(p, a);
      var more;
      more, q := CancelReturns(m, call);
      PathThen(p, [Cancels(a)], m, more, q);
      steps := [Cancels(a)] + more;
    }
  }

  lemma TodoThere(p: Pool, call: nat, t: TaskId)
    requires Good(p) && call in p.calls && p.calls[call].Cancelling? && t in p.calls[call].todo
    ensures t in p.tasks
  {
    hide PlaceInv, GateInv, CountInv, OrderInv;
    assert CallInv(p.calls[call], p.intake, p.tasks);
  }

  // ---------------------------------------------------------------- the drain completes

  lemma IntakeGoesOn(p: Pool, a: IntakeAction)
    requires Good(p) && IntakeEnabled(p, a)
    ensures Path(p, [Gates(a)], IntakeStep(p, a)) && Good(IntakeStep(p, a)) && Holding(IntakeStep(p, a)) == Holding(p)
    ensures |IntakeStep(p, a).workers| == |p.workers|
  {
    hide Inv, LockFree;
    IntakeKeeps(p, a);
    PathOne(p, Gates(a));
  }

  lemma DrainFacts(p: Pool)
    requires Good(p)
    ensures p.intake.drainer.NotYet? ==> p.intake.state.Started?
    ensures p.intake.drainer.AwaitingWorkers? ==> forall w :: 0 <= w < |p.workers| ==> p.workers[w].closed
    ensures p.intake.drainer.Complete? ==> p.intake.done
    ensures !p.intake.drainer.StoppedUnstarted?
    ensures p.intake.drainer.ClosingChannels? ==> p.intake.drainer.next <= |p.workers| && Holding(p) == {}
  {
    hide PlaceInv, CountInv, CancelInv, OrderInv;
  }

  /** A drain that has been entered closes every channel. */
  lemma {:induction false} ChannelsClose(p: Pool) returns (steps: seq<Step>, q: Pool)
    requires Good(p) && p.intake.drainer.ClosingChannels?
    ensures Own(steps) && Path(p, steps, q) && Good(q) && q.intake.drainer == AwaitingWorkers(0) && Holding(q) == {}
    decreases |p.workers| - p.intake.drainer.next
  {
    hide Good, Path, Holding;
    DrainFacts(p);
    var a := if p.intake.drainer.next < |p.workers| then CloseChannel else DrainUnlock;
    IntakeGoesOn(p, a);
    var m := IntakeStep(p, a);
    if a.DrainUnlock? {
      steps, q := [Gates(a)], m;
    } else {
      var more;
      more, q := ChannelsClose(m);
      PathThen(p, [Gates(a)], m, more, q);
      steps := [Gates(a)] + more;
    }
  }

  /** The drain is entered and every channel closed. */
  lemma WayToAwaiting(p: Pool) returns (steps: seq<Step>, q: Pool)
    requires Good(p) && (Holding(p) == {} || p.intake.drainer.ClosingChannels?)
    requires p.intake.drainer.NotYet? || p.intake.drainer.ClosingChannels?
    ensures Path(p, steps, q) && Good(q) && q.intake.drainer == AwaitingWorkers(0) && Holding(q) == {}
  {
    hide Good, Path, Holding;
    DrainFacts(p);
    if p.intake.drainer.NotYet? {
      NobodyHolds(p);
      IntakeGoesOn(p, DrainEnter);
      var m := IntakeStep(p, DrainEnter);
      var more;
      more, q := ChannelsClose(m);
      PathThen(p, [Gates(DrainEnter)], m, more, q);
      steps := [Gates(DrainEnter)] + more;
    } else {
      steps, q := ChannelsClose(p);
    }
  }

  /** The workers run out of work one after another. */
  lemma {:induction false} AwaitAll(p: Pool) returns (steps: seq<Step>, q: Pool)
    requires Good(p) && p.intake.drainer.AwaitingWorkers? && p.intake.drainer.next <= |p.workers| && Holding(p) == {}
    ensures Own(steps) && Path(p, steps, q) && Good(q) && q.intake.drainer.AwaitingWorkers? && q.intake.drainer.next >= |q.workers|
    ensures Holding(q) == {}
    decreases |p.workers| - p.intake.drainer.next
  {
    hide Good, Path, Holding;
    var k := p.intake.drainer.next;
    if k == |p.workers| {
      steps, q := [], p;
      PathNone(p);
    } else {
      DrainFacts(p);
      var a, m := WorkerExits(p, k);
      IntakeGoesOn(m, AwaitWorker);
      var n := IntakeStep(m, AwaitWorker);
      PathThen(p, a, m, [Gates(AwaitWorker)], n);
      var b;
      b, q := AwaitAll(n);
      PathThen(p, a + [Gates(AwaitWorker)], n, b, q);
      steps := a + [Gates(AwaitWorker)] + b;
    }
  }

  lemma WayToDone(p: Pool) returns (steps: seq<Step>, q: Pool)
    requires Good(p) && Holding(p) == {} && p.intake.drainer.AwaitingWorkers? && p.intake.drainer.next >= |p.workers|
    ensures Own(steps) && Path(p, steps, q) && Good(q) && q.intake.done
  {
    hide Good, Path, Holding;
    NobodyHolds(p);
    IntakeGoesOn(p, PublishStopped);
    var m := IntakeStep(p, PublishStopped);
    IntakeGoesOn(m, CloseDone);
    q := IntakeStep(m, CloseDone);
    PathThen(p, [Gates(PublishStopped)], m, [Gates(CloseDone)], q);
    steps := [Gates(PublishStopped)] + [Gates(CloseDone)];
  }

  lemma Announced(p: Pool) returns (steps: seq<Step>, q: Pool)
    requires Good(p) && (p.intake.drainer.Announcing? || p.intake.drainer.Complete?)
    ensures Own(steps) && Path(p, steps, q) && Good(q) && q.intake.done
  {
    hide Good, Path;
    DrainFacts(p);
    if p.intake.drainer.Complete? {
      steps, q := [], p;
      PathNone(p);
    } else {
      IntakeGoesOn(p, CloseDone);
      steps, q := [Gates(CloseDone)], IntakeStep(p, CloseDone);
    }
  }

  lemma AwaitingInRange(p: Pool)
    requires Good(p) && p.intake.drainer.AwaitingWorkers?
    ensures p.intake.drainer.next <= |p.workers|
  {
    hide PlaceInv, CountInv, CancelInv, OrderInv;
  }

  /** A drain whose `Do` has returned completes by the pool's own steps. */
  lemma CompleteEntered(p: Pool) returns (steps: seq<Step>, q: Pool)
    requires Good(p) && DrainOnceReturned(p.intake)
    ensures Own(steps) && Path(p, steps, q) && Good(q) && q.intake.done
  {
    hide Good, Path, Holding;
    if p.intake.drainer.Announcing? || p.intake.drainer.Complete? {
      steps, q := Announced(p);
    } else {
      var a, m := AllLeave(p);
      AwaitingInRange(m);
      var c, r := AwaitAll(m);
      PathThen(p, a, m, c, r);
      var d;
      d, q := WayToDone(r);
      PathThen(p, a + c, r, d, q);
      steps := a + c + d;
    }
  }

  lemma CompleteDrain(p: Pool) returns (steps: seq<Step>, q: Pool)
    requires Good(p)
    ensures Path(p, steps, q) && Good(q) && q.intake.done
  {
    hide Good, Path, Holding;
    DrainFacts(p);
    var a, m := [], p;
    PathNone(p);
    if p.intake.drainer.NotYet? || p.intake.drainer.ClosingChannels? {
      var b, n := AllLeave(p);
      a, m := WayToAwaiting(n);
      PathThen(p, b, n, a, m);
      a := b + a;
    }
    var c;
    c, q := CompleteEntered(m);
    PathThen(p, a, m, c, q);
    steps := a + c;
  }

  /** From any state of any run of a started pool the drain can complete, with every accepted task received once and
      finished: no submission, worker or drain ever waits for something that cannot happen. */
  lemma CanAlwaysDrain(run: seq<Pool>) returns (longer: seq<Pool>)
    requires IsRun(run) && run[|run| - 1].intake.started
    ensures IsRun(longer) && run <= longer && longer[|longer| - 1].intake.done
    ensures Registry(longer[|longer| - 1]) == {}
    ensures var q := longer[|longer| - 1]; forall e :: e in q.accepted ==> e in q.received
  {
    hide Inv, Path, Enabled, Apply;
    RunInv(run, |run| - 1);
    var steps, q := CompleteDrain(run[|run| - 1]);
    longer := RunsOn(run, steps, q);
    DoneSettles(q);
  }
}

