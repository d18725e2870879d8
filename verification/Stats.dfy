/**
  The lock-free counters (stats.go). Threads run `saturatingAdd`,
  `decrementGauge` and `updateMaximum` as separate load and compare-and-swap
  steps in any interleaving; the counter's value is always what the completed
  calls would have produced one after another.
 */
module Stats {
  import opened Bytes

  function Min(a: int, b: int): int
  {
    if a <= b then a else b
  }

  function Max(a: int, b: int): int
  {
    if a <= b then b else a
  }

  /** `saturatedSum`, which never overflows 64 bits. */
  function SaturatedSum(first: Uint64, second: Uint64, limit: Uint64): (r: Uint64)
    ensures r == Min(limit, first + second)
  {
    if first >= limit || second > limit - first then limit else first + second
  }

  datatype Call = Add(delta: Uint64, limit: Uint64) | Decrement | Raise(candidate: Uint64)

  /** The call returns without changing a counter that holds `current`. */
  predicate NoEffect(call: Call, current: Uint64)
  {
    match call
    case Add(delta, limit) => delta == 0 || current >= limit
    case Decrement => current == 0
    case Raise(candidate) => candidate <= current
  }

  /** The value the call swaps in. */
  function Effect(call: Call, current: Uint64): Uint64
    requires !NoEffect(call, current)
  {
    match call
    case Add(delta, limit) => SaturatedSum(current, delta, limit)
    case Decrement => current - 1
    case Raise(candidate) => candidate
  }

  function Sequential(call: Call, current: Uint64): Uint64
  {
    if NoEffect(call, current) then current else Effect(call, current)
  }

  /** The calls one after another on a counter that starts at zero. */
  function Replay(calls: seq<Call>): Uint64
  {
    if calls == [] then 0 else Sequential(calls[|calls| - 1], Replay(calls[..|calls| - 1]))
  }

  // ---------------------------------------------------------------- the machine

  datatype Thread = Idle(call: Call) | Loaded(call: Call, current: Uint64) | Done(call: Call, at: nat)

  datatype Counter = Counter(value: Uint64, threads: map<nat, Thread>, history: seq<Call>)

  datatype Action = Begin(call: Call) | Load | CompareAndSwap

  predicate Enabled(c: Counter, id: nat, a: Action)
  {
    match a
    case Begin(_) => id !in c.threads
    case Load => id in c.threads && c.threads[id].Idle?
    case CompareAndSwap => id in c.threads && c.threads[id].Loaded?
  }

  function Finish(c: Counter, id: nat, call: Call, value: Uint64): Counter
  {
    Counter(value, c.threads[id := Done(call, |c.history|)], c.history + [call])
  }

  function Apply(c: Counter, id: nat, a: Action): Counter
    requires Enabled(c, id, a)
  {
    match a
    case Begin(call) => c.(threads := c.threads[id := Idle(call)])
    case Load =>
      var call := c.threads[id].call;
      if NoEffect(call, c.value) then Finish(c, id, call, c.value)
      else c.(threads := c.threads[id := Loaded(call, c.value)])
    case CompareAndSwap =>
      var t := c.threads[id];
      if c.value == t.current && !NoEffect(t.call, t.current) then Finish(c, id, t.call, Effect(t.call, t.current))
      else c.(threads := c.threads[id := Idle(t.call)])
  }

  ghost predicate Next(c: Counter, c': Counter)
  {
    exists id, a :: Enabled(c, id, a) && c' == Apply(c, id, a)
  }

  ghost predicate IsRun(run: seq<Counter>)
  {
    && |run| > 0 && run[0] == Counter(0, map[], [])
    && forall i :: 0 < i < |run| ==> Next(run[i - 1], run[i])
  }

  /** Every returned call is in the history at its own place, and the value is the replay of the history. */
  ghost predicate Inv(c: Counter)
  {
    && c.value == Replay(c.history)
    && (forall id :: id in c.threads && c.threads[id].Done? ==>
          c.threads[id].at < |c.history| && c.history[c.threads[id].at] == c.threads[id].call)
    && (forall i: nat, j: nat, n: nat :: At(c, i, n) && At(c, j, n) ==> i == j)
    && (forall n :: 0 <= n < |c.history| ==> Returned(c, n))
  }

  ghost predicate Returned(c: Counter, n: nat)
  {
    exists id :: At(c, id, n)
  }

  ghost predicate At(c: Counter, id: nat, n: nat)
  {
    id in c.threads && c.threads[id].Done? && c.threads[id].at == n
  }

  lemma ReplayNext(calls: seq<Call>, call: Call)
    ensures Replay(calls + [call]) == Sequential(call, Replay(calls))
  {
    assert (calls + [call])[..|calls|] == calls;
  }

  lemma InvStep(c: Counter, id: nat, a: Action)
    requires Inv(c) && Enabled(c, id, a)
    ensures Inv(Apply(c, id, a))
  {
    hide Replay, SaturatedSum;
    var c' := Apply(c, id, a);
    if c'.history != c.history {
      ReplayNext(c.history, c.threads[id].call);
    }
    assert forall k: nat, n: nat :: At(c', k, n) ==> At(c, k, n) || (k == id && n == |c.history|);
    forall n | 0 <= n < |c'.history|
      ensures Returned(c', n)
    {
      if n < |c.history| {
        assert Returned(c, n);
        var k :| At(c, k, n);
        assert At(c', k, n);
      } else {
        assert At(c', id, n);
      }
    }
  }

  lemma {:induction false} RunInv(run: seq<Counter>, i: nat)
    requires IsRun(run) && i < |run|
    ensures Inv(run[i])
  {
    hide Inv, Apply, Enabled;
    if i == 0 {
      EmptyInv();
    } else {
      RunInv(run, i - 1);
      assert Next(run[i - 1], run[i]);
      var id, a :| Enabled(run[i - 1], id, a) && run[i] == Apply(run[i - 1], id, a);
      InvStep(run[i - 1], id, a);
    }
  }

  lemma EmptyInv()
    ensures Inv(Counter(0, map[], []))
  {
  }

  /** What only ever grows: calls stay what they are, returned calls keep their place, and a call that returns later takes
      a later place. */
  ghost predicate Forward(c: Counter, c': Counter)
  {
    && c.history <= c'.history
    && (forall id :: id in c.threads ==> id in c'.threads && c'.threads[id].call == c.threads[id].call)
    && (forall id: nat, n: nat :: At(c, id, n) ==> At(c', id, n))
    && (forall id: nat, n: nat :: At(c', id, n) && !At(c, id, n) ==> n >= |c.history|)
  }

  lemma ForwardStep(c: Counter, id: nat, a: Action)
    requires Inv(c) && Enabled(c, id, a)
    ensures Forward(c, Apply(c, id, a))
  {
    hide Replay, SaturatedSum, Effect;
  }

  lemma {:induction false} RunForward(run: seq<Counter>, i: nat, j: nat)
    requires IsRun(run) && i <= j < |run|
    ensures Forward(run[i], run[j])
    decreases j - i
  {
    hide Inv, Apply, Enabled;
    if i == j {
    } else {
      RunForward(run, i, j - 1);
      RunInv(run, j - 1);
      assert Next(run[j - 1], run[j]);
      var id, a :| Enabled(run[j - 1], id, a) && run[j] == Apply(run[j - 1], id, a);
      ForwardStep(run[j - 1], id, a);
    }
  }

  /** Linearizability. Under every interleaving of loads and compare-and-swaps the value is what the calls in the history
      produce one after another. The history holds exactly the returned calls: every returned call has its own place,
      and every place a returned call. The order respects time: a call that has returned by `i` stands before every
      call that had not begun by `i`, and keeps its place for ever. */
  lemma Linearizable(run: seq<Counter>, i: nat, j: nat)
    requires IsRun(run) && i <= j < |run|
    ensures run[j].value == Replay(run[j].history) && run[i].history <= run[j].history
    ensures forall id :: id in run[j].threads && run[j].threads[id].Done? ==>
              && At(run[j], id, run[j].threads[id].at) && run[j].threads[id].at < |run[j].history|
              && run[j].history[run[j].threads[id].at] == run[j].threads[id].call
    ensures forall a: nat, b: nat, n: nat :: At(run[j], a, n) && At(run[j], b, n) ==> a == b
    ensures forall n: nat :: n < |run[j].history| ==> Returned(run[j], n)
    ensures forall a: nat, b: nat, m: nat, n: nat ::
              At(run[i], a, m) && b !in run[i].threads && At(run[j], b, n) ==> At(run[j], a, m) && m < n
  {
    RunInv(run, i);
    RunInv(run, j);
    RunForward(run, i, j);
    hide Replay, Next;
  }

  // ---------------------------------------------------------------- what the replays are

  /** Every call adds under the same limit. */
  predicate Additive(calls: seq<Call>, limit: Uint64)
  {
    forall i :: 0 <= i < |calls| ==> calls[i].Add? && calls[i].limit == limit
  }

  function Sum(calls: seq<Call>): (r: nat)
  {
    if calls == [] then 0 else
    var last := calls[|calls| - 1];
    Sum(calls[..|calls| - 1]) + (if last.Add? then last.delta else 0)
  }

  /** A counter that is only added to holds the sum of the completed deltas, capped at the limit. */
  lemma {:induction false} AdditiveCounter(calls: seq<Call>, limit: Uint64)
    requires Additive(calls, limit)
    ensures Replay(calls) == Min(limit, Sum(calls))
  {
    if calls == [] {
    } else {
      AdditiveCounter(calls[..|calls| - 1], limit);
    }
  }

  /** A maximum holds the largest completed candidate: one of them, and none is larger. */
  lemma {:induction false} MaximumCounter(calls: seq<Call>)
    requires Raises(calls)
    ensures forall i :: 0 <= i < |calls| ==> calls[i].candidate <= Replay(calls)
    ensures Replay(calls) == 0 || exists i :: 0 <= i < |calls| && calls[i].candidate == Replay(calls)
  {
    if calls == [] {
    } else {
      var rest := calls[..|calls| - 1];
      MaximumCounter(rest);
      if calls[|rest|].candidate > Replay(rest) {
        assert calls[|rest|].candidate == Replay(calls);
      } else if Replay(rest) != 0 {
        var i :| 0 <= i < |rest| && rest[i].candidate == Replay(rest);
        assert calls[i].candidate == Replay(calls);
      }
    }
  }

  predicate Raises(calls: seq<Call>)
  {
    forall i :: 0 <= i < |calls| ==> calls[i].Raise?
  }

  // ---------------------------------------------------------------- the counters of a run

  /** The calls that have returned. */
  function DoneIds(c: Counter): set<nat>
  {
    set id | id in c.threads && c.threads[id].Done?
  }

  function Delta(c: Counter, id: nat): nat
    requires id in c.threads
  {
    if c.threads[id].call.Add? then c.threads[id].call.delta else 0
  }

  /** The sum of the deltas of some of the calls. */
  ghost function SumOver(c: Counter, ids: set<nat>): nat
    requires ids <= c.threads.Keys
  {
    if ids == {} then 0 else
    var id :| id in ids;
    Delta(c, id) + SumOver(c, ids - {id})
  }

  lemma {:induction false} SumOverSplit(c: Counter, ids: set<nat>, id: nat)
    requires ids <= c.threads.Keys && id in ids
    ensures SumOver(c, ids) == Delta(c, id) + SumOver(c, ids - {id})
  {
    var first :| first in ids && SumOver(c, ids) == Delta(c, first) + SumOver(c, ids - {first});
    if first != id {
      SumOverSplit(c, ids - {first}, id);
      SumOverSplit(c, ids - {id}, first);
      assert ids - {first} - {id} == ids - {id} - {first};
    }
  }

  /** The returned calls among the first `n` places of the history. */
  function DoneBelow(c: Counter, n: nat): set<nat>
  {
    set id | id in c.threads && c.threads[id].Done? && c.threads[id].at < n
  }

  /** The call at the last of the first `n` places. */
  lemma LastPlace(c: Counter, n: nat) returns (id: nat)
    requires Inv(c) && 0 < n <= |c.history|
    ensures id !in DoneBelow(c, n - 1) && DoneBelow(c, n) == DoneBelow(c, n - 1) + {id}
    ensures c.threads[id].call == c.history[n - 1]
  {
    hide Replay;
    assert Returned(c, n - 1);
    id :| At(c, id, n - 1);
    assert forall k: nat :: k in DoneBelow(c, n) && k != id ==> !At(c, k, n - 1);
  }

  lemma {:induction false} SumOfPlaces(c: Counter, n: nat)
    requires Inv(c) && n <= |c.history|
    ensures Sum(c.history[..n]) == SumOver(c, DoneBelow(c, n))
  {
    hide Inv;
    if n == 0 {
      assert DoneBelow(c, 0) == {};
    } else {
      SumOfPlaces(c, n - 1);
      var id := LastPlace(c, n);
      assert DoneBelow(c, n) - {id} == DoneBelow(c, n - 1);
      SumOverSplit(c, DoneBelow(c, n), id);
      assert c.history[..n][..n - 1] == c.history[..n - 1];
    }
  }

  /** Every call ever begun on the counter adds under the same limit, or raises. */
  predicate OnlyAdds(c: Counter, limit: Uint64)
  {
    forall id :: id in c.threads ==> c.threads[id].call.Add? && c.threads[id].call.limit == limit
  }

  predicate OnlyRaises(c: Counter)
  {
    forall id :: id in c.threads ==> c.threads[id].call.Raise?
  }

  lemma HistoryCall(c: Counter, n: nat) returns (id: nat)
    requires Inv(c) && n < |c.history|
    ensures id in DoneIds(c) && c.threads[id].call == c.history[n]
  {
    hide Replay;
    assert Returned(c, n);
    id :| At(c, id, n);
  }

  /** Under every interleaving a counter that is only added to holds min(limit, sum of the deltas of the calls that have
      returned). */
  lemma AdditiveRun(run: seq<Counter>, i: nat, limit: Uint64)
    requires IsRun(run) && i < |run| && OnlyAdds(run[i], limit)
    ensures run[i].value == Min(limit, SumOver(run[i], DoneIds(run[i])))
  {
    RunInv(run, i);
    var c := run[i];
    hide Replay, SumOver, Next, Sum, IsRun;
    forall n | 0 <= n < |c.history|
      ensures c.history[n].Add? && c.history[n].limit == limit
    {
      var id := HistoryCall(c, n);
    }
    AdditiveCounter(c.history, limit);
    SumOfPlaces(c, |c.history|);
    assert c.history[..|c.history|] == c.history;
    assert DoneBelow(c, |c.history|) == DoneIds(c);
  }

  /** Under every interleaving a maximum is the largest candidate of the calls that have returned, and zero before. */
  lemma MaximumRun(run: seq<Counter>, i: nat)
    requires IsRun(run) && i < |run| && OnlyRaises(run[i])
    ensures forall id :: id in DoneIds(run[i]) ==> run[i].threads[id].call.candidate <= run[i].value
    ensures run[i].value == 0 || exists id :: id in DoneIds(run[i]) && run[i].threads[id].call.candidate == run[i].value
  {
    RunInv(run, i);
    var c := run[i];
    hide Replay, Next, IsRun;
    forall n | 0 <= n < |c.history|
      ensures c.history[n].Raise?
    {
      var id := HistoryCall(c, n);
    }
    MaximumCounter(c.history);
    forall id | id in DoneIds(c)
      ensures c.threads[id].call.candidate <= c.value
    {
      assert c.history[c.threads[id].at] == c.threads[id].call;
    }
    if c.value != 0 {
      var n :| 0 <= n < |c.history| && c.history[n].candidate == c.value;
      var id := HistoryCall(c, n);
      assert id in DoneIds(c) && c.threads[id].call.candidate == c.value;
    }
  }

  /** The increments minus the decrements of a gauge. */
  function Balance(calls: seq<Call>): (r: int)
  {
    if calls == [] then 0 else Balance(calls[..|calls| - 1]) + (if calls[|calls| - 1].Decrement? then -1 else 1)
  }

  /** A gauge is the number of increments minus decrements, as long as that stays within range at every point. */
  lemma {:induction false} GaugeCounter(calls: seq<Call>)
    requires forall i :: 0 <= i < |calls| ==> calls[i].Decrement? || calls[i] == Add(1, MAX_UINT64)
    requires forall n :: 0 <= n <= |calls| ==> 0 <= Balance(calls[..n]) <= MAX_UINT64
    ensures Replay(calls) == Balance(calls)
  {
    assert calls[..|calls|] == calls;
    if calls == [] {
    } else {
      var rest := calls[..|calls| - 1];
      forall n | 0 <= n <= |rest| ensures 0 <= Balance(rest[..n]) <= MAX_UINT64 {
        assert rest[..n] == calls[..n];
      }
      GaugeCounter(rest);
    }
  }

  /** The returned increments and decrements among the first `n` places of the history. */
  function DoneAdds(c: Counter, n: nat): set<nat>
  {
    set id | id in DoneBelow(c, n) && !c.threads[id].call.Decrement?
  }

  function DoneDecrements(c: Counter, n: nat): set<nat>
  {
    set id | id in DoneBelow(c, n) && c.threads[id].call.Decrement?
  }

  lemma {:induction false} BalanceOfPlaces(c: Counter, n: nat)
    requires Inv(c) && n <= |c.history|
    ensures Balance(c.history[..n]) == |DoneAdds(c, n)| - |DoneDecrements(c, n)|
  {
    hide Inv, Balance;
    if n == 0 {
      assert DoneAdds(c, 0) == {} && DoneDecrements(c, 0) == {};
      assert Balance([]) == 0 by { BalanceNext([], Decrement); }
    } else {
      BalanceOfPlaces(c, n - 1);
      var id := LastPlace(c, n);
      BalanceNext(c.history[..n - 1], c.history[n - 1]);
      assert c.history[..n] == c.history[..n - 1] + [c.history[n - 1]];
      hide DoneBelow;
      if c.threads[id].call.Decrement? {
        assert DoneAdds(c, n) == DoneAdds(c, n - 1);
        assert DoneDecrements(c, n) == DoneDecrements(c, n - 1) + {id};
      } else {
        assert DoneAdds(c, n) == DoneAdds(c, n - 1) + {id};
        assert DoneDecrements(c, n) == DoneDecrements(c, n - 1);
      }
    }
  }

  lemma BalanceNext(calls: seq<Call>, call: Call)
    ensures Balance([]) == 0 && Balance(calls + [call]) == Balance(calls) + (if call.Decrement? then -1 else 1)
  {
    assert (calls + [call])[..|calls|] == calls;
  }

  /** The increments that have returned minus the decrements that have. */
  function Outstanding(c: Counter): int
  {
    |DoneAdds(c, |c.history|)| - |DoneDecrements(c, |c.history|)|
  }

  lemma OutstandingIsBalance(run: seq<Counter>, i: nat)
    requires IsRun(run) && i < |run|
    ensures Outstanding(run[i]) == Balance(run[i].history)
  {
    RunInv(run, i);
    BalanceOfPlaces(run[i], |run[i].history|);
    assert run[i].history[..|run[i].history|] == run[i].history;
  }

  /** Every prefix of the history was the history at some moment. */
  lemma {:induction false} PrefixReached(run: seq<Counter>, i: nat, n: nat) returns (j: nat)
    requires IsRun(run) && i < |run| && n <= |run[i].history|
    ensures j <= i && run[j].history == run[i].history[..n]
  {
    if n == |run[i].history| {
      j := i;
      assert run[i].history[..n] == run[i].history;
    } else {
      assert Next(run[i - 1], run[i]);
      j := PrefixReached(run, i - 1, n);
    }
  }

  predicate OnlyCounts(c: Counter)
  {
    forall id :: id in c.threads ==> c.threads[id].call.Decrement? || c.threads[id].call == Add(1, MAX_UINT64)
  }

  /** Under every interleaving, as long as no more decrements than increments have returned at any moment, a gauge holds the
      number of increments that have returned minus the number of decrements that have. */
  lemma GaugeRun(run: seq<Counter>, i: nat)
    requires IsRun(run) && i < |run| && OnlyCounts(run[i])
    requires forall j :: 0 <= j <= i ==> 0 <= Outstanding(run[j]) <= MAX_UINT64
    ensures run[i].value == Outstanding(run[i])
  {
    hide Replay, Next, Outstanding, Balance, Inv;
    RunInv(run, i);
    var calls := run[i].history;
    forall n | 0 <= n <= |calls|
      ensures 0 <= Balance(calls[..n]) <= MAX_UINT64
    {
      var j := PrefixReached(run, i, n);
      OutstandingIsBalance(run, j);
    }
    forall n | 0 <= n < |calls|
      ensures calls[n].Decrement? || calls[n] == Add(1, MAX_UINT64)
    {
      var id := HistoryCall(run[i], n);
    }
    GaugeCounter(calls);
    OutstandingIsBalance(run, i);
    ValueIsReplay(run[i]);
  }

  lemma ValueIsReplay(c: Counter)
    requires Inv(c)
    ensures c.value == Replay(c.history)
  {
  }

  // ---------------------------------------------------------------- totals

  /** `merged` interleaves `a` and `b`. */
  ghost predicate IsMerge(a: seq<Call>, b: seq<Call>, merged: seq<Call>)
    decreases |merged|
  {
    if merged == [] then a == [] && b == [] else
    var last, rest := merged[|merged| - 1], merged[..|merged| - 1];
    || (a != [] && a[|a| - 1] == last && IsMerge(a[..|a| - 1], b, rest))
    || (b != [] && b[|b| - 1] == last && IsMerge(a, b[..|b| - 1], rest))
  }

  lemma {:induction false} MergeAdds(a: seq<Call>, b: seq<Call>, merged: seq<Call>, limit: Uint64)
    requires IsMerge(a, b, merged) && Additive(a, limit) && Additive(b, limit)
    ensures Sum(merged) == Sum(a) + Sum(b) && Additive(merged, limit)
    decreases |merged|
  {
    if merged == [] {
    } else {
      var last, rest := merged[|merged| - 1], merged[..|merged| - 1];
      if a != [] && a[|a| - 1] == last && IsMerge(a[..|a| - 1], b, rest) {
        MergeAdds(a[..|a| - 1], b, rest, limit);
      } else {
        MergeAdds(a, b[..|b| - 1], rest, limit);
      }
      assert merged == rest + [last];
    }
  }

  /** On a quiet system an additive field of `Total` is what one saturating counter would hold after both transports'
      whole histories, however they interleave. */
  lemma TotalIsOneCounter(tcp: seq<Call>, webSocket: seq<Call>, merged: seq<Call>, limit: Uint64)
    requires Additive(tcp, limit) && Additive(webSocket, limit) && IsMerge(tcp, webSocket, merged)
    ensures SaturatedSum(Replay(tcp), Replay(webSocket), limit) == Replay(merged)
  {
    AdditiveCounter(tcp, limit);
    AdditiveCounter(webSocket, limit);
    MergeAdds(tcp, webSocket, merged, limit);
    AdditiveCounter(merged, limit);
  }

  // ---------------------------------------------------------------- request durations

  /** The calls one `requestCompleted` after another makes on each of its three counters. */
  function CompletedCalls(durations: seq<Int64>): seq<Call>
  {
    seq(|durations|, _ => Add(1, MAX_UINT64))
  }

  function TotalCalls(durations: seq<Int64>): (calls: seq<Call>)
  {
    if durations == [] then [] else
    var last := durations[|durations| - 1];
    TotalCalls(durations[..|durations| - 1]) + (if last <= 0 then [] else [Add(last, MAX_INT64)])
  }

  function MaximumCalls(durations: seq<Int64>): (calls: seq<Call>)
  {
    if durations == [] then [] else
    var last := durations[|durations| - 1];
    MaximumCalls(durations[..|durations| - 1]) + (if last <= 0 then [] else [Raise(last)])
  }

  /** `counterDuration`: a counter read as a signed duration. */
  function CounterDuration(value: Uint64): (r: Int64)
  {
    if value > MAX_INT64 then MAX_INT64 else value
  }

  function MaxDuration(first: Int64, second: Int64): Int64
  {
    if first >= second then first else second
  }

  /** The time spent, clocks that ran backwards counting as none. */
  function Spent(durations: seq<Int64>): (r: nat)
  {
    if durations == [] then 0 else Spent(durations[..|durations| - 1]) + Max(0, durations[|durations| - 1])
  }

  function Longest(durations: seq<Int64>): (r: Int64)
    ensures r >= 0 && forall i :: 0 <= i < |durations| ==> durations[i] <= r
    ensures r == 0 || r in durations
  {
    if durations == [] then 0 else
    var last := durations[|durations| - 1];
    assert durations == durations[..|durations| - 1] + [last];
    Max(Longest(durations[..|durations| - 1]), last)
  }

  lemma {:induction false} CompletedCount(durations: seq<Int64>)
    ensures Replay(CompletedCalls(durations)) == Min(MAX_UINT64, |durations|)
  {
    if durations == [] {
    } else {
      var rest := durations[..|durations| - 1];
      CompletedCount(rest);
      assert CompletedCalls(durations) == CompletedCalls(rest) + [Add(1, MAX_UINT64)];
      ReplayNext(CompletedCalls(rest), Add(1, MAX_UINT64));
    }
  }

  lemma {:induction false} TimeSpent(durations: seq<Int64>)
    ensures Replay(TotalCalls(durations)) == Min(MAX_INT64, Spent(durations))
  {
    if durations == [] {
    } else {
      var rest, last := durations[..|durations| - 1], durations[|durations| - 1];
      TimeSpent(rest);
      if last > 0 {
        ReplayNext(TotalCalls(rest), Add(last, MAX_INT64));
      } else {
        assert TotalCalls(durations) == TotalCalls(rest);
      }
    }
  }

  lemma {:induction false} LongestSeen(durations: seq<Int64>)
    ensures Replay(MaximumCalls(durations)) == Longest(durations)
  {
    if durations == [] {
    } else {
      var rest, last := durations[..|durations| - 1], durations[|durations| - 1];
      LongestSeen(rest);
      if last > 0 {
        ReplayNext(MaximumCalls(rest), Raise(last));
      } else {
        assert MaximumCalls(durations) == MaximumCalls(rest);
      }
    }
  }

  // -- workers make these calls concurrently, so each counter sees them in an order of its own

  lemma {:induction false} SumAppend(a: seq<Call>, b: seq<Call>)
    ensures Sum(a + b) == Sum(a) + Sum(b)
  {
    if b == [] {
      assert a + b == a;
    } else {
      assert (a + b)[..|a + b| - 1] == a + b[..|b| - 1];
      SumAppend(a, b[..|b| - 1]);
    }
  }

  function Without(calls: seq<Call>, i: nat): seq<Call>
    requires i < |calls|
  {
    calls[..i] + calls[i + 1..]
  }

  lemma WithoutOne(calls: seq<Call>, i: nat)
    requires i < |calls|
    ensures multiset(Without(calls, i)) == multiset(calls) - multiset{calls[i]}
  {
    assert calls == calls[..i] + ([calls[i]] + calls[i + 1..]);
  }

  lemma SumWithout(calls: seq<Call>, i: nat)
    requires i < |calls|
    ensures Sum(calls) == Sum(Without(calls, i)) + Sum([calls[i]])
  {
    hide Sum;
    assert calls == calls[..i] + ([calls[i]] + calls[i + 1..]);
    SumAppend(calls[..i], calls[i + 1..]);
    SumAppend(calls[..i], [calls[i]] + calls[i + 1..]);
    SumAppend([calls[i]], calls[i + 1..]);
  }

  lemma {:induction false} SumPermuted(a: seq<Call>, b: seq<Call>)
    requires multiset(a) == multiset(b)
    ensures Sum(a) == Sum(b)
    decreases |a|
  {
    hide Sum, Without;
    if a == [] {
      assert |multiset(b)| == 0;
    } else {
      assert a[0] in multiset(b);
      var i :| 0 <= i < |b| && b[i] == a[0];
      WithoutOne(a, 0);
      WithoutOne(b, i);
      assert |Without(a, 0)| == |multiset(Without(a, 0))| < |multiset(a)| == |a|;
      SumPermuted(Without(a, 0), Without(b, i));
      SumWithout(a, 0);
      SumWithout(b, i);
    }
  }

  lemma SameMembers(a: seq<Call>, b: seq<Call>)
    requires multiset(a) == multiset(b)
    ensures forall i :: 0 <= i < |a| ==> a[i] in b
  {
    forall i | 0 <= i < |a|
      ensures a[i] in b
    {
      assert a[i] in multiset(a);
      assert a[i] in multiset(b);
    }
  }

  lemma AdditivePermuted(a: seq<Call>, b: seq<Call>, limit: Uint64)
    requires multiset(a) == multiset(b) && Additive(a, limit)
    ensures Replay(b) == Replay(a)
  {
    hide Replay;
    SameMembers(b, a);
    SumPermuted(a, b);
    AdditiveCounter(a, limit);
    AdditiveCounter(b, limit);
  }

  lemma MaximumPermuted(a: seq<Call>, b: seq<Call>)
    requires multiset(a) == multiset(b) && Raises(a)
    ensures Replay(b) == Replay(a)
  {
    hide Replay;
    SameMembers(a, b);
    SameMembers(b, a);
    MaximumCounter(a);
    MaximumCounter(b);
    assert forall i :: 0 <= i < |a| ==> a[i] in b && a[i].candidate <= Replay(b);
    assert forall i :: 0 <= i < |b| ==> b[i] in a && b[i].candidate <= Replay(a);
  }

  lemma {:induction false} RequestCalls(durations: seq<Int64>)
    ensures Additive(TotalCalls(durations), MAX_INT64) && Raises(MaximumCalls(durations))
  {
    if durations == [] {
    } else {
      RequestCalls(durations[..|durations| - 1]);
    }
  }

  /** The value of a counter after some run in which exactly these calls have returned, in whatever order. */
  ghost predicate Reached(value: Uint64, calls: seq<Call>)
  {
    exists run: seq<Counter> :: IsRun(run) && multiset(run[|run| - 1].history) == multiset(calls) && run[|run| - 1].value == value
  }

  /** The three request counters of a transport. */
  datatype Requests = Requests(completed: Uint64, total: Uint64, maximum: Uint64)

  /** They hold what concurrent calls of `requestCompleted`, one for each duration, have left in them. */
  ghost predicate Recorded(r: Requests, durations: seq<Int64>)
  {
    && Reached(r.completed, CompletedCalls(durations)) && Reached(r.total, TotalCalls(durations))
    && Reached(r.maximum, MaximumCalls(durations))
  }

  lemma ReachedAdditive(value: Uint64, calls: seq<Call>, limit: Uint64)
    requires Reached(value, calls) && Additive(calls, limit)
    ensures value == Replay(calls)
  {
    hide Replay, Next;
    var run: seq<Counter> :| IsRun(run) && multiset(run[|run| - 1].history) == multiset(calls) && run[|run| - 1].value == value;
    RunInv(run, |run| - 1);
    AdditivePermuted(calls, run[|run| - 1].history, limit);
  }

  lemma ReachedMaximum(value: Uint64, calls: seq<Call>)
    requires Reached(value, calls) && Raises(calls)
    ensures value == Replay(calls)
  {
    hide Replay, Next;
    var run: seq<Counter> :| IsRun(run) && multiset(run[|run| - 1].history) == multiset(calls) && run[|run| - 1].value == value;
    RunInv(run, |run| - 1);
    MaximumPermuted(calls, run[|run| - 1].history);
  }

  /** However many requests complete and however their workers' calls interleave on the three counters, these are the
      number of requests, the time spent and the longest of them, each at its own limit; reading them as signed durations
      cuts nothing off. */
  lemma RequestDurations(r: Requests, durations: seq<Int64>)
    requires Recorded(r, durations)
    ensures r.completed == Min(MAX_UINT64, |durations|)
    ensures CounterDuration(r.total) == r.total == Min(MAX_INT64, Spent(durations))
    ensures CounterDuration(r.maximum) == r.maximum == Longest(durations)
  {
    hide Replay, TotalCalls, MaximumCalls, Spent, Reached;
    RequestCalls(durations);
    ReachedAdditive(r.completed, CompletedCalls(durations), MAX_UINT64);
    ReachedAdditive(r.total, TotalCalls(durations), MAX_INT64);
    ReachedMaximum(r.maximum, MaximumCalls(durations));
    CompletedCount(durations);
    TimeSpent(durations);
    LongestSeen(durations);
  }

  lemma {:induction false} SpentIsBounded(durations: seq<Int64>)
    ensures Spent(durations) <= |durations| * Longest(durations)
  {
    if durations == [] {
    } else {
      var rest := durations[..|durations| - 1];
      SpentIsBounded(rest);
      OneMore(|rest|, Longest(rest), Max(0, durations[|rest|]), Longest(durations));
    }
  }

  lemma OneMore(n: nat, mean: nat, last: nat, max: nat)
    requires mean <= max && last <= max
    ensures n * mean + last <= (n + 1) * max
  {
    assert n * mean <= n * max;
  }

  lemma {:induction false} SpentTogether(first: seq<Int64>, second: seq<Int64>)
    ensures Spent(first + second) == Spent(first) + Spent(second)
    ensures Longest(first + second) == MaxDuration(Longest(first), Longest(second))
  {
    if second == [] {
      assert first + second == first;
    } else {
      var rest := second[..|second| - 1];
      SpentTogether(first, rest);
      assert (first + second)[..|first + second| - 1] == first + rest;
    }
  }

  /** The request fields of `Total` describe both transports' requests as one series: their number, the time spent, the
      longest; and while the number is below its limit the time is at most the number times the longest, so the mean
      that a reader computes from the three never exceeds the maximum. */
  lemma TotalRequests(tcp: Requests, webSocket: Requests, first: seq<Int64>, second: seq<Int64>)
    requires Recorded(tcp, first) && Recorded(webSocket, second)
    ensures SaturatedSum(tcp.completed, webSocket.completed, MAX_UINT64) == Min(MAX_UINT64, |first + second|)
    ensures SaturatedSum(CounterDuration(tcp.total), CounterDuration(webSocket.total), MAX_INT64)
            == Min(MAX_INT64, Spent(first + second))
    ensures MaxDuration(CounterDuration(tcp.maximum), CounterDuration(webSocket.maximum)) == Longest(first + second)
    ensures Min(MAX_INT64, Spent(first + second)) <= |first + second| * Longest(first + second)
  {
    hide Recorded, Spent;
    RequestDurations(tcp, first);
    RequestDurations(webSocket, second);
    SpentTogether(first, second);
    SpentIsBounded(first + second);
  }
}

