/** The re-entrant middleware chain (context.go): handlers may call `Next` any number of times. */
module HandlerChain {

  /** The numbers 0 to n - 1, in order. */
  function Upto(n: nat): (r: seq<nat>)
    ensures |r| == n && forall i :: 0 <= i < n ==> r[i] == i
  {
    seq(n, i => i)
  }

  class Context {
    /** How often each handler calls `Next`, at whatever depth of its own code. */
    const calls: seq<nat>
    var step: int
    /** The handlers started so far. */
    var started: seq<nat>

    ghost predicate Valid()
      reads this
    {
      && step >= -1
      && started == Upto(if step < |calls| then step + 1 else |calls|)
    }

    function Left(): (r: nat)
      requires step >= -1
      reads this
    {
      if step < |calls| then |calls| - step else 0
    }

    /** `newContext`. */
    constructor (calls: seq<nat>)
      ensures Valid() && this.calls == calls && step == -1 && started == []
    {
      this.calls, step, started := calls, -1, [];
    }

    /** `Next` terminates having started every handler exactly once, in index order, whoever calls it and however
        often. */
    method Next()
      requires Valid()
      modifies this
      ensures Valid() && step >= |calls| && step > old(step)
      ensures started == Upto(|calls|)
      decreases Left(), 0
    {
      step := step + 1;
      while step < |calls|
        invariant step > old(step) && started == Upto(if step < |calls| then step else |calls|)
        decreases |calls| - step
      {
        Handle();
        step := step + 1;
      }
    }

    /** Handler number `step` starts, and calls `Next` as often as it likes. */
    method Handle()
      requires 0 <= step < |calls| && started == Upto(step)
      modifies this
      ensures Valid() && step >= old(step)
      decreases Left(), 1
    {
      var i := step;
      started := started + [i];
      for k := 0 to calls[i]
        invariant Valid() && step >= i
        invariant k == 0 ==> step == i
        invariant k > 0 ==> step >= |calls|
      {
        Next();
      }
    }
  }

  /** The whole chain of a fresh context. */
  method RunChain(calls: seq<nat>) returns (started: seq<nat>)
    ensures started == Upto(|calls|)
  {
    var c := new Context(calls);
    c.Next();
    started := c.started;
  }
}

