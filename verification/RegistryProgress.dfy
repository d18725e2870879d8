/** `waitAll` never gets stuck (manager.go): from any state it can still return nil. */
module RegistryProgress {
  import opened Registry
  import RR = RegistryReads

  lemma Extend(run: seq<Registry>, step: Step) returns (longer: seq<Registry>)
    requires IsRun(run) && Enabled(run[|run| - 1], step)
    ensures IsRun(longer) && run <= longer && longer == run + [Apply(run[|run| - 1], step)]
  {
    hide Enabled, Apply;
    longer := run + [Apply(run[|run| - 1], step)];
    assert Next(run[|run| - 1], longer[|run|]);
    forall i | 0 < i < |longer|
      ensures Next(longer[i - 1], longer[i])
    {
      if i < |run| {
        assert Next(run[i - 1], run[i]);
      }
    }
  }

  // ---------------------------------------------------------------- connections come to their end

  function Unfinalized(s: Shards): set<ConnId>
  {
    set c | c in s.life && !s.life[c].Finalized?
  }

  function NextMove(l: Life): ShardAction
  {
    match l case Listed => AddFinalizing case InBoth => LeaveShard case Leaving => CloseDone case _ => ShardAction.MarkFinalized
  }

  lemma MoveGoesOn(r: Registry, c: ConnId)
    requires Inv(r) && c in Unfinalized(r.shards)
    ensures ShardEnabled(r.shards, c, NextMove(r.shards.life[c]))
    ensures var s := ShardStep(r.shards, c, NextMove(r.shards.life[c]));
            && c in s.life && RR.LifeRank(s.life[c]) == RR.LifeRank(r.shards.life[c]) + 1
            && (s.life[c].Finalized? ==> Unfinalized(s) == Unfinalized(r.shards) - {c})
            && (!s.life[c].Finalized? ==> Unfinalized(s) == Unfinalized(r.shards))
  {
    hide WaitInv, FinalizingInv;
  }

  lemma {:induction false} FinalizeOne(run: seq<Registry>, c: ConnId) returns (longer: seq<Registry>)
    requires IsRun(run) && c in Unfinalized(run[|run| - 1].shards)
    ensures IsRun(longer) && run <= longer && longer[|longer| - 1].waits == run[|run| - 1].waits
    ensures Unfinalized(longer[|longer| - 1].shards) == Unfinalized(run[|run| - 1].shards) - {c}
    decreases 4 - RR.LifeRank(run[|run| - 1].shards.life[c])
  {
    hide Next, Inv, ShardStep, ShardEnabled, NextMove;
    var r := run[|run| - 1];
    RunInv(run, |run| - 1);
    MoveGoesOn(r, c);
    longer := Extend(run, Moves(c, NextMove(r.shards.life[c])));
    if !longer[|longer| - 1].shards.life[c].Finalized? {
      longer := FinalizeOne(longer, c);
    }
  }

  lemma {:induction false} FinalizeAll(run: seq<Registry>) returns (longer: seq<Registry>)
    requires IsRun(run)
    ensures IsRun(longer) && run <= longer && longer[|longer| - 1].waits == run[|run| - 1].waits
    ensures Unfinalized(longer[|longer| - 1].shards) == {}
    decreases |Unfinalized(run[|run| - 1].shards)|
  {
    hide IsRun, Unfinalized;
    RunNotEmpty(run);
    if Unfinalized(run[|run| - 1].shards) == {} {
      longer := run;
    } else {
      var c :| c in Unfinalized(run[|run| - 1].shards);
      longer := FinalizeOne(run, c);
      RunNotEmpty(longer);
      longer := FinalizeAll(longer);
    }
  }

  lemma RunNotEmpty(run: seq<Registry>)
    requires IsRun(run)
    ensures |run| > 0
  {
  }

  // ---------------------------------------------------------------- and the call returns

  /** Every connection there ever was is finalized. */
  lemma NoneLeft(r: Registry)
    requires Inv(r) && Unfinalized(r.shards) == {}
    ensures Deserted(r.shards) && forall c :: c in r.shards.life ==> r.shards.life[c].Done()
  {
    hide WaitInv;
    forall c | c in r.shards.life
      ensures r.shards.life[c].Finalized?
    {
      assert c !in Unfinalized(r.shards);
    }
    assert forall g, c :: 0 <= g < |r.shards.groups| && c in r.shards.groups[g] ==> InItsShard(r.shards, c);
  }

  predicate Returned(p: Progress)
  {
    p.ReturnedNil? || p.ReturnedError?
  }

  function WaitLeft(p: Progress): nat
  {
    match p case Parked(_, _) => 3 case Scanning(_, _) => 2 case Waiting(_) => 1 case _ => 0
  }

  /** A step of the call on a deserted registry. */
  lemma WaitGoesOn(r: Registry, id: nat) returns (a: WaitAction)
    requires Inv(r) && Deserted(r.shards) && (forall c :: c in r.shards.life ==> r.shards.life[c].Done())
    requires id in r.waits && !Returned(r.waits[id].progress)
    ensures WaitEnabled(r, id, a)
    ensures var p, p' := r.waits[id].progress, WaitStep(r, id, a).waits[id].progress;
            && WaitStep(r, id, a).shards == r.shards && !p'.ReturnedError?
            && (|| WaitLeft(p') < WaitLeft(p)
                || (p.Scanning? && p'.Scanning? && p.group < p'.group <= |r.shards.groups|)
                || (p.Waiting? && p'.Waiting? && p'.todo < p.todo))
  {
    hide ShardInv, FinalizedOnes, GroupOf, InItsShard;
    assert WaitInv(r.shards, r.waits[id]);
    match r.waits[id].progress {
      case Scanning(g, _) => a := if g < |r.shards.groups| then ScanGroup else ReadFinalizing;
      case Waiting(todo) =>
        if todo == {} {
          a := Recheck;
        } else {
          var c :| c in todo;
          a := WaitOne(c);
        }
      case Parked(_, _) => a := Wake;
    }
  }

  function GroupsLeft(r: Registry, p: Progress): nat
  {
    if p.Scanning? && p.group <= |r.shards.groups| then |r.shards.groups| - p.group else 0
  }

  function TodoLeft(p: Progress): set<ConnId>
  {
    if p.Waiting? then p.todo else {}
  }

  lemma {:induction false} CallReturns(run: seq<Registry>, id: nat) returns (longer: seq<Registry>)
    requires IsRun(run) && Unfinalized(run[|run| - 1].shards) == {}
    requires id in run[|run| - 1].waits && !run[|run| - 1].waits[id].progress.ReturnedError?
    ensures IsRun(longer) && run <= longer && id in longer[|longer| - 1].waits
    ensures longer[|longer| - 1].waits[id].progress.ReturnedNil?
    decreases WaitLeft(run[|run| - 1].waits[id].progress), GroupsLeft(run[|run| - 1], run[|run| - 1].waits[id].progress),
      TodoLeft(run[|run| - 1].waits[id].progress)
  {
    hide Next, Inv, WaitStep, WaitEnabled;
    var r := run[|run| - 1];
    if r.waits[id].progress.ReturnedNil? {
      longer := run;
    } else {
      RunInv(run, |run| - 1);
      NoneLeft(r);
      var a := WaitGoesOn(r, id);
      StillThere(r, id, a);
      longer := Extend(run, Waits(id, a));
      longer := CallReturns(longer, id);
    }
  }

  lemma StillThere(r: Registry, id: nat, a: WaitAction)
    requires WaitEnabled(r, id, a)
    ensures id in WaitStep(r, id, a).waits
  {
  }

  /** From any state of any run a `waitAll` call that has not returned can return nil: once the connections have come to
      their end nothing holds it up. */
  lemma CanAlwaysReturn(run: seq<Registry>, id: nat) returns (longer: seq<Registry>)
    requires IsRun(run) && id in run[|run| - 1].waits && !run[|run| - 1].waits[id].progress.ReturnedError?
    ensures IsRun(longer) && run <= longer && id in longer[|longer| - 1].waits
    ensures longer[|longer| - 1].waits[id].progress.ReturnedNil?
  {
    hide Next;
    longer := FinalizeAll(run);
    longer := CallReturns(longer, id);
  }
}

