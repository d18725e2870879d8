/** The counters' loops (stats.go) make progress: no call waits for another, and a retry means that somebody else got through. */
module StatsProgress {
  import opened Stats

  lemma Extend(run: seq<Counter>, id: nat, a: Action) returns (longer: seq<Counter>)
    requires IsRun(run) && Enabled(run[|run| - 1], id, a)
    ensures IsRun(longer) && run <= longer && longer == run + [Apply(run[|run| - 1], id, a)]
  {
    hide Enabled, Apply;
    longer := run + [Apply(run[|run| - 1], id, a)];
    assert Next(run[|run| - 1], longer[|run|]);
    forall i | 0 < i < |longer|
      ensures Next(longer[i - 1], longer[i])
    {
      if i < |run| {
        assert Next(run[i - 1], run[i]);
      }
    }
  }

  /** Only the given call has moved. */
  ghost predicate OnlyMoved(c: Counter, c': Counter, id: nat)
  {
    forall x :: x in c.threads && x != id ==> x in c'.threads && c'.threads[x] == c.threads[x]
  }

  lemma FromIdle(run: seq<Counter>, id: nat) returns (longer: seq<Counter>)
    requires IsRun(run) && id in run[|run| - 1].threads && run[|run| - 1].threads[id].Idle?
    ensures IsRun(longer) && run <= longer && |longer| <= |run| + 2
    ensures id in longer[|longer| - 1].threads && longer[|longer| - 1].threads[id].Done?
    ensures OnlyMoved(run[|run| - 1], longer[|longer| - 1], id)
  {
    hide Next, Replay, SaturatedSum;
    longer := Extend(run, id, Load);
    if longer[|longer| - 1].threads[id].Loaded? {
      longer := Extend(longer, id, CompareAndSwap);
    }
  }

  /** In any state of any run a call that has begun can return by at most three steps of its own, whatever point all the
      others have reached. */
  lemma CallCanReturn(run: seq<Counter>, id: nat) returns (longer: seq<Counter>)
    requires IsRun(run) && id in run[|run| - 1].threads
    ensures IsRun(longer) && run <= longer && |longer| <= |run| + 3
    ensures id in longer[|longer| - 1].threads && longer[|longer| - 1].threads[id].Done?
    ensures OnlyMoved(run[|run| - 1], longer[|longer| - 1], id)
  {
    hide Next, Replay, SaturatedSum, NoEffect, Effect;
    match run[|run| - 1].threads[id] {
      case Done(_, _) => longer := run;
      case Idle(_) => longer := FromIdle(run, id);
      case Loaded(_, _) =>
        longer := Extend(run, id, CompareAndSwap);
        if longer[|longer| - 1].threads[id].Idle? {
          longer := FromIdle(longer, id);
        }
    }
  }

  lemma LoadReads(c: Counter, id: nat, a: Action, x: nat)
    requires Enabled(c, id, a) && x in c.threads && c.threads[x].Idle?
    requires x in Apply(c, id, a).threads && Apply(c, id, a).threads[x].Loaded?
    ensures Apply(c, id, a).threads[x] == Loaded(c.threads[x].call, c.value) && !NoEffect(c.threads[x].call, c.value)
    ensures Apply(c, id, a).value == c.value && Apply(c, id, a).history == c.history
  {
    hide Effect;
  }

  lemma RetryFinds(c: Counter, id: nat, a: Action, x: nat)
    requires Enabled(c, id, a) && x in c.threads && c.threads[x].Loaded?
    requires x in Apply(c, id, a).threads && Apply(c, id, a).threads[x].Idle?
    ensures c.value != c.threads[x].current || NoEffect(c.threads[x].call, c.threads[x].current)
  {
    hide Effect, NoEffect;
  }

  /** Lock freedom: a call that has to try again, having loaded the counter by `i + 1` and found it changed at `j`, was
      beaten by a call that took effect in between. */
  lemma RetryMeansProgress(run: seq<Counter>, i: nat, j: nat, id: nat)
    requires IsRun(run) && i < j && j + 1 < |run|
    requires id in run[i].threads && run[i].threads[id].Idle?
    requires id in run[i + 1].threads && run[i + 1].threads[id].Loaded?
    requires id in run[j].threads && run[j].threads[id] == run[i + 1].threads[id]
    requires id in run[j + 1].threads && run[j + 1].threads[id].Idle?
    ensures |run[j].history| > |run[i + 1].history|
  {
    hide Apply, Enabled, Replay, NoEffect;
    RunForward(run, i + 1, j);
    assert |run[j].history| == |run[i + 1].history| ==> run[j].history == run[i + 1].history;
    RunInv(run, i + 1);
    RunInv(run, j);
    assert Next(run[i], run[i + 1]) && Next(run[j], run[j + 1]);
    var x, a :| Enabled(run[i], x, a) && run[i + 1] == Apply(run[i], x, a);
    LoadReads(run[i], x, a, id);
    var y, b :| Enabled(run[j], y, b) && run[j + 1] == Apply(run[j], y, b);
    RetryFinds(run[j], y, b, id);
  }
}

