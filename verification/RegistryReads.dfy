/**
  `snapshot` and `connectionsCount` (manager.go) under interference: the shards
  are read one after another, each under its own lock, and anything may happen
  between two of them.
 */
module RegistryReads {
  import opened Registry

  /** Shard number `g` is read in state number `times[g]` of the run. */
  ghost predicate IsReading(run: seq<Registry>, times: seq<nat>)
  {
    && IsRun(run) && |times| == |run[0].shards.groups|
    && (forall g :: 0 <= g < |times| ==> times[g] < |run|)
    && forall g, h :: 0 <= g <= h < |times| ==> times[g] <= times[h]
  }

  /** What only moves one way: the shards stay, and a connection goes through its states in order. */
  ghost predicate Forward(s: Shards, s': Shards)
  {
    && |s.groups| == |s'.groups|
    && forall c :: c in s.life ==> c in s'.life && LifeRank(s.life[c]) <= LifeRank(s'.life[c])
  }

  function LifeRank(l: Life): nat
  {
    match l
    case Listed => 0
    case InBoth => 1
    case Leaving => 2
    case DoneClosed => 3
    case Finalized => 4
  }

  lemma ForwardStep(r: Registry, step: Step)
    requires Enabled(r, step)
    ensures Forward(r.shards, Apply(r, step).shards)
  {
  }

  lemma {:induction false} RunForward(run: seq<Registry>, i: nat, j: nat)
    requires IsRun(run) && i <= j < |run|
    ensures Forward(run[i].shards, run[j].shards)
    decreases j - i
  {
    hide Apply, Enabled;
    if i == j {
    } else {
      RunForward(run, i, j - 1);
      assert Next(run[j - 1], run[j]);
      var step :| Enabled(run[j - 1], step) && run[j] == Apply(run[j - 1], step);
      ForwardStep(run[j - 1], step);
    }
  }

  lemma SameGroups(run: seq<Registry>, times: seq<nat>, g: nat)
    requires IsReading(run, times) && g < |times|
    ensures |run[times[g]].shards.groups| == |times|
  {
    RunForward(run, 0, times[g]);
  }

  /** What the first `n` shards held when they were read. */
  ghost function ReadSet(run: seq<Registry>, times: seq<nat>, n: nat): set<ConnId>
    requires IsReading(run, times) && n <= |times|
  {
    if n == 0 then {} else
    SameGroups(run, times, n - 1);
    ReadSet(run, times, n - 1) + run[times[n - 1]].shards.groups[n - 1]
  }

  /** The sum that `connectionsCount` adds up. */
  ghost function ReadCount(run: seq<Registry>, times: seq<nat>, n: nat): nat
    requires IsReading(run, times) && n <= |times|
  {
    if n == 0 then 0 else
    SameGroups(run, times, n - 1);
    ReadCount(run, times, n - 1) + |run[times[n - 1]].shards.groups[n - 1]|
  }

  ghost predicate ReadFrom(run: seq<Registry>, times: seq<nat>, g: nat, c: ConnId)
    requires IsReading(run, times) && g < |times|
  {
    SameGroups(run, times, g);
    c in run[times[g]].shards.groups[g]
  }

  lemma {:induction false} InReadSet(run: seq<Registry>, times: seq<nat>, n: nat, c: ConnId)
    requires IsReading(run, times) && n <= |times|
    ensures c in ReadSet(run, times, n) <==> exists g :: 0 <= g < n && ReadFrom(run, times, g, c)
  {
    hide IsRun;
    if n == 0 {
    } else {
      InReadSet(run, times, n - 1, c);
      SameGroups(run, times, n - 1);
      assert c in run[times[n - 1]].shards.groups[n - 1] <==> ReadFrom(run, times, n - 1, c);
    }
  }

  lemma ReadFromItsShard(run: seq<Registry>, times: seq<nat>, g: nat, c: ConnId)
    requires IsReading(run, times) && g < |times| && ReadFrom(run, times, g, c)
    ensures GroupOf(c, |times|) == g && InItsShard(run[times[g]].shards, c)
  {
    RunInv(run, times[g]);
    SameGroups(run, times, g);
    hide IsRun, WaitInv;
  }

  /** Undisturbed or not, the sum of the shards' sizes is the number of connections read: none is counted twice. */
  lemma {:induction false} CountIsSize(run: seq<Registry>, times: seq<nat>, n: nat)
    requires IsReading(run, times) && n <= |times|
    ensures ReadCount(run, times, n) == |ReadSet(run, times, n)|
  {
    hide IsRun, GroupOf, InItsShard;
    if n == 0 {
    } else {
      CountIsSize(run, times, n - 1);
      SameGroups(run, times, n - 1);
      var before, group := ReadSet(run, times, n - 1), run[times[n - 1]].shards.groups[n - 1];
      forall c | c in before
        ensures c !in group
      {
        InReadSet(run, times, n - 1, c);
        var g :| 0 <= g < n - 1 && ReadFrom(run, times, g, c);
        ReadFromItsShard(run, times, g, c);
        if c in group {
          ReadFromItsShard(run, times, n - 1, c);
        }
      }
      assert before * group == {};
    }
  }

  lemma StaysInShard(run: seq<Registry>, i: nat, t: nat, j: nat, c: ConnId)
    requires IsRun(run) && i <= t <= j < |run| && InItsShard(run[i].shards, c) && InItsShard(run[j].shards, c)
    ensures InItsShard(run[t].shards, c)
  {
    RunForward(run, i, t);
    RunForward(run, t, j);
    RunInv(run, i);
    RunInv(run, t);
    RunInv(run, j);
    hide IsRun, WaitInv, FinalizingInv;
  }

  /** A snapshot taken shard by shard, whatever happens meanwhile: it holds every connection that was registered when the
      first shard was read and still is when the last one is, and only connections that were registered at some moment
      in between; and the count taken the same way is the number of connections it holds. */
  lemma SnapshotUnderInterference(run: seq<Registry>, times: seq<nat>, c: ConnId)
    requires IsReading(run, times) && times != []
    ensures InItsShard(run[times[0]].shards, c) && InItsShard(run[times[|times| - 1]].shards, c) ==>
              c in ReadSet(run, times, |times|)
    ensures c in ReadSet(run, times, |times|) ==>
              exists t :: times[0] <= t <= times[|times| - 1] && InItsShard(run[t].shards, c)
    ensures ReadCount(run, times, |times|) == |ReadSet(run, times, |times|)|
  {
    var first, last := times[0], times[|times| - 1];
    CountIsSize(run, times, |times|);
    InReadSet(run, times, |times|, c);
    if InItsShard(run[first].shards, c) && InItsShard(run[last].shards, c) {
      SameGroups(run, times, 0);
      var g := GroupOf(c, |times|);
      StaysInShard(run, first, times[g], last, c);
      SameGroups(run, times, g);
      assert ReadFrom(run, times, g, c);
    }
    if c in ReadSet(run, times, |times|) {
      var g :| 0 <= g < |times| && ReadFrom(run, times, g, c);
      ReadFromItsShard(run, times, g, c);
      assert first <= times[g] <= last;
    }
  }
}

