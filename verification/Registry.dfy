/**
  The connection registry (manager.go): sharded maps, the `finalizing` map and
  its change channel, and the `waitAll` loop, under every interleaving with the
  supervisors that take connections through it.
 */
module Registry {
  type ConnId = nat

  /** A connection's way out: listed in its shard; also in `finalizing`; only in `finalizing`; its `done` channel
      closed after its close hook; marked finalized. */
  datatype Life = Listed | InBoth | Leaving | DoneClosed | Finalized
  {
    predicate InFinalizing()
    {
      InBoth? || Leaving? || DoneClosed?
    }

    predicate Done()
    {
      DoneClosed? || Finalized?
    }
  }

  /** The `finalizingChange` channel is replaced each time a connection is finalized: `generation` numbers the
      current one, and every earlier one is closed. */
  datatype Shards = Shards(groups: seq<set<ConnId>>, finalizing: set<ConnId>, generation: nat, life: map<ConnId, Life>)

  datatype Progress =
    | Scanning(group: nat, seen: set<ConnId>)
    | Waiting(todo: set<ConnId>)
    | Parked(generation: nat, saw: set<ConnId>)
    | ReturnedNil
    | ReturnedError

  /** A `waitAll` call: what was registered when it began, the generation then, and how often it went round. */
  datatype Wait = Wait(progress: Progress, registered: set<ConnId>, since: nat, rounds: nat)

  datatype Registry = Registry(shards: Shards, waits: map<nat, Wait>)

  function NewRegistry(groups: nat): Registry
  {
    Registry(Shards(seq(groups, _ => {}), {}, 0, map[]), map[])
  }

  function GroupOf(c: ConnId, groups: nat): nat
  {
    if groups == 0 then 0 else c % groups
  }

  // ---------------------------------------------------------------- steps

  datatype ShardAction = Add | AddFinalizing | LeaveShard | CloseDone | MarkFinalized
  datatype WaitAction = Call | ScanGroup | ReadFinalizing | WaitOne(conn: ConnId) | Recheck | Wake | Expire

  predicate ShardEnabled(s: Shards, c: ConnId, a: ShardAction)
  {
    match a
    case Add => c !in s.life && GroupOf(c, |s.groups|) < |s.groups|
    case AddFinalizing => c in s.life && s.life[c].Listed?
    case LeaveShard => c in s.life && s.life[c].InBoth? && GroupOf(c, |s.groups|) < |s.groups|
    case CloseDone => c in s.life && s.life[c].Leaving?
    case MarkFinalized => c in s.life && s.life[c].DoneClosed?
  }

  function ShardStep(s: Shards, c: ConnId, a: ShardAction): Shards
    requires ShardEnabled(s, c, a)
  {
    var g := GroupOf(c, |s.groups|);
    match a
    case Add => s.(groups := s.groups[g := s.groups[g] + {c}], life := s.life[c := Listed])
    case AddFinalizing => s.(finalizing := s.finalizing + {c}, life := s.life[c := InBoth])
    case LeaveShard => s.(groups := s.groups[g := s.groups[g] - {c}], life := s.life[c := Leaving])
    case CloseDone => s.(life := s.life[c := DoneClosed])
    case MarkFinalized => s.(finalizing := s.finalizing - {c}, generation := s.generation + 1, life := s.life[c := Finalized])
  }

  predicate WaitEnabled(r: Registry, id: nat, a: WaitAction)
  {
    if a.Call? then id !in r.waits else
    && id in r.waits
    && var p := r.waits[id].progress;
       match a
       case ScanGroup => p.Scanning? && p.group < |r.shards.groups|
       case ReadFinalizing => p.Scanning? && p.group >= |r.shards.groups|
       case WaitOne(c) => p.Waiting? && c in p.todo && c in r.shards.life && r.shards.life[c].Done()
       case Recheck => p.Waiting? && p.todo == {}
       case Wake => p.Parked? && p.generation < r.shards.generation
       case Expire => p.Waiting? || p.Parked?
  }

  /** One step of the loop of `waitAll`. */
  function Progressed(s: Shards, p: Progress, a: WaitAction): Progress
  {
    match (a, p)
    case (ScanGroup, Scanning(g, seen)) => if g < |s.groups| then Scanning(g + 1, seen + s.groups[g]) else p
    case (ReadFinalizing, Scanning(_, seen)) =>
      if seen + s.finalizing == {} then ReturnedNil else Waiting(seen + s.finalizing)
    case (WaitOne(c), Waiting(todo)) => Waiting(todo - {c})
    case (Recheck, Waiting(_)) => if s.finalizing == {} then ReturnedNil else Parked(s.generation, s.finalizing)
    case (Wake, Parked(_, _)) => Scanning(0, {})
    case (Expire, _) => ReturnedError
    case _ => p
  }

  function WaitStep(r: Registry, id: nat, a: WaitAction): Registry
    requires WaitEnabled(r, id, a)
  {
    if a.Call? then
      r.(waits := r.waits[id := Wait(Scanning(0, {}), r.shards.life.Keys, r.shards.generation, 0)])
    else
      var w := r.waits[id];
      r.(waits := r.waits[id := w.(progress := Progressed(r.shards, w.progress, a),
                                   rounds := if a.Wake? then w.rounds + 1 else w.rounds)])
  }

  datatype Step = Moves(conn: ConnId, move: ShardAction) | Waits(id: nat, wait: WaitAction)

  predicate Enabled(r: Registry, step: Step)
  {
    match step
    case Moves(c, a) => ShardEnabled(r.shards, c, a)
    case Waits(id, a) => WaitEnabled(r, id, a)
  }

  function Apply(r: Registry, step: Step): Registry
    requires Enabled(r, step)
  {
    match step
    case Moves(c, a) => r.(shards := ShardStep(r.shards, c, a))
    case Waits(id, a) => WaitStep(r, id, a)
  }

  ghost predicate Next(r: Registry, r': Registry)
  {
    exists step :: Enabled(r, step) && r' == Apply(r, step)
  }

  ghost predicate IsRun(run: seq<Registry>)
  {
    && |run| > 0 && (exists groups :: groups > 0 && run[0] == NewRegistry(groups))
    && forall i :: 0 < i < |run| ==> Next(run[i - 1], run[i])
  }

  // ---------------------------------------------------------------- what every step keeps

  function FinalizedOnes(life: map<ConnId, Life>): set<ConnId>
  {
    set c | c in life && life[c].Finalized?
  }

  ghost predicate InItsShard(s: Shards, c: ConnId)
  {
    GroupOf(c, |s.groups|) < |s.groups| && c in s.groups[GroupOf(c, |s.groups|)]
  }

  ghost predicate GroupsInv(s: Shards)
  {
    && (forall c :: c in s.life ==> (InItsShard(s, c) <==> s.life[c].Listed? || s.life[c].InBoth?))
    && (forall g, c :: 0 <= g < |s.groups| && c in s.groups[g] ==> c in s.life && GroupOf(c, |s.groups|) == g)
  }

  ghost predicate FinalizingInv(s: Shards)
  {
    && (forall c :: c in s.finalizing <==> c in s.life && s.life[c].InFinalizing())
    && s.generation == |FinalizedOnes(s.life)|
  }

  /** A connection is in its shard or in `finalizing` from registration until it is marked finalized. */
  ghost predicate ShardInv(s: Shards)
  {
    |s.groups| > 0 && GroupsInv(s) && FinalizingInv(s)
  }

  ghost predicate AllDone(s: Shards, cs: set<ConnId>)
  {
    forall c :: c in cs ==> c in s.life && s.life[c].Done()
  }

  ghost predicate AllFinalized(s: Shards, cs: set<ConnId>)
  {
    forall c :: c in cs ==> c in s.life && s.life[c].Finalized?
  }

  /** What a `waitAll` call knows at each point of its loop about the connections registered when it began. */
  ghost predicate Knows(s: Shards, w: Wait)
  {
    match w.progress
    case Scanning(g, seen) =>
      && (forall c :: c in w.registered && c in s.life && s.life[c].Listed? && GroupOf(c, |s.groups|) < g ==> c in seen)
      && seen <= s.life.Keys
    case Waiting(todo) =>
      && todo <= s.life.Keys
      && AllDone(s, w.registered - todo)
    case Parked(g, saw) =>
      && AllDone(s, w.registered) && g <= s.generation && saw != {}
      && (g == s.generation ==> saw <= s.finalizing)
    case ReturnedNil => AllFinalized(s, w.registered)
    case ReturnedError => true
  }

  /** Every round of the loop was ended by a connection being finalized. */
  ghost predicate RoundsInv(s: Shards, w: Wait)
  {
    && w.since + w.rounds <= s.generation
    && (w.progress.Parked? ==> w.since + w.rounds <= w.progress.generation)
  }

  ghost predicate WaitInv(s: Shards, w: Wait)
  {
    w.registered <= s.life.Keys && Knows(s, w) && RoundsInv(s, w)
  }

  ghost predicate Inv(r: Registry)
  {
    ShardInv(r.shards) && forall id :: id in r.waits ==> WaitInv(r.shards, r.waits[id])
  }

  lemma NewInv(groups: nat)
    requires groups > 0
    ensures Inv(NewRegistry(groups))
  {
    assert FinalizedOnes(map[]) == {};
  }

  lemma FinalizedPut(life: map<ConnId, Life>, c: ConnId, l: Life)
    requires c in life ==> !life[c].Finalized?
    ensures |FinalizedOnes(life[c := l])| == |FinalizedOnes(life)| + (if l.Finalized? then 1 else 0)
  {
    var before, after := FinalizedOnes(life), FinalizedOnes(life[c := l]);
    assert c !in before;
    if l.Finalized? {
      assert after == before + {c};
    } else {
      assert after == before;
    }
  }

  lemma ShardKeepsGroups(s: Shards, c: ConnId, a: ShardAction)
    requires GroupsInv(s) && ShardEnabled(s, c, a)
    ensures GroupsInv(ShardStep(s, c, a))
  {
    hide GroupOf;
    var s' := ShardStep(s, c, a);
    forall x | x in s.life && x != c
      ensures InItsShard(s', x) <==> InItsShard(s, x)
    {
    }
    assert InItsShard(s', c) <==> a.Add? || (InItsShard(s, c) && !a.LeaveShard?);
  }

  lemma ShardKeeps(s: Shards, c: ConnId, a: ShardAction)
    requires ShardInv(s) && ShardEnabled(s, c, a)
    ensures ShardInv(ShardStep(s, c, a))
  {
    hide FinalizedOnes, GroupOf, GroupsInv;
    FinalizedPut(s.life, c, ShardStep(s, c, a).life[c]);
    ShardKeepsGroups(s, c, a);
  }

  lemma ShardKeepsWait(s: Shards, c: ConnId, a: ShardAction, w: Wait)
    requires ShardInv(s) && ShardEnabled(s, c, a) && WaitInv(s, w)
    ensures WaitInv(ShardStep(s, c, a), w)
  {
    hide FinalizedOnes, GroupOf;
  }

  lemma ScanKeeps(s: Shards, w: Wait)
    requires ShardInv(s) && WaitInv(s, w) && w.progress.Scanning? && w.progress.group < |s.groups|
    ensures WaitInv(s, w.(progress := Progressed(s, w.progress, ScanGroup)))
  {
    hide FinalizedOnes, GroupOf;
    assert forall c :: c in w.registered && s.life[c].Listed? ==> InItsShard(s, c);
  }

  lemma ReadKeeps(s: Shards, w: Wait)
    requires ShardInv(s) && WaitInv(s, w) && w.progress.Scanning? && w.progress.group >= |s.groups|
    ensures WaitInv(s, w.(progress := Progressed(s, w.progress, ReadFinalizing)))
  {
    hide FinalizedOnes, GroupOf;
    var todo := w.progress.seen + s.finalizing;
    assert forall c :: c in w.registered && s.life[c].Listed? ==> InItsShard(s, c);
    assert forall c :: c in w.registered && c !in todo ==> s.life[c].Finalized?;
    hide ShardInv, InItsShard;
  }

  lemma RecheckKeeps(s: Shards, w: Wait)
    requires ShardInv(s) && WaitInv(s, w) && w.progress.Waiting? && w.progress.todo == {}
    ensures WaitInv(s, w.(progress := Progressed(s, w.progress, Recheck)))
  {
    hide FinalizedOnes, GroupOf, InItsShard;
    assert w.registered - {} == w.registered;
  }

  lemma WaitKeeps(r: Registry, id: nat, a: WaitAction)
    requires Inv(r) && WaitEnabled(r, id, a)
    ensures WaitInv(r.shards, WaitStep(r, id, a).waits[id])
  {
    hide FinalizedOnes, GroupOf, ShardInv, InItsShard;
    if !a.Call? {
      assert WaitInv(r.shards, r.waits[id]);
      match a
      case ScanGroup => ScanKeeps(r.shards, r.waits[id]);
      case ReadFinalizing => ReadKeeps(r.shards, r.waits[id]);
      case Recheck => RecheckKeeps(r.shards, r.waits[id]);
      case _ =>
    }
  }

  lemma InvStep(r: Registry, step: Step)
    requires Inv(r) && Enabled(r, step)
    ensures Inv(Apply(r, step))
  {
    hide ShardInv, WaitInv, ShardStep, ShardEnabled;
    match step
    case Moves(c, a) =>
      ShardKeeps(r.shards, c, a);
      forall id | id in r.waits ensures WaitInv(ShardStep(r.shards, c, a), r.waits[id]) {
        ShardKeepsWait(r.shards, c, a, r.waits[id]);
      }
    case Waits(id, a) =>
      WaitKeeps(r, id, a);
  }

  lemma {:induction false} RunInv(run: seq<Registry>, i: nat)
    requires IsRun(run) && i < |run|
    ensures Inv(run[i])
  {
    hide Inv, Apply, Enabled;
    if i == 0 {
      var groups :| groups > 0 && run[0] == NewRegistry(groups);
      NewInv(groups);
    } else {
      RunInv(run, i - 1);
      assert Next(run[i - 1], run[i]);
      var step :| Enabled(run[i - 1], step) && run[i] == Apply(run[i - 1], step);
      InvStep(run[i - 1], step);
    }
  }

  // ---------------------------------------------------------------- theorems about waitAll

  /** When `waitAll` returns nil, every connection registered before the call has closed its `done` channel and been
      marked finalized. */
  lemma WaitAllMeansFinalized(run: seq<Registry>, i: nat, id: nat, c: ConnId)
    requires IsRun(run) && i < |run|
    requires id in run[i].waits && run[i].waits[id].progress.ReturnedNil? && c in run[i].waits[id].registered
    ensures c in run[i].shards.life && run[i].shards.life[c].Finalized?
    ensures c !in run[i].shards.finalizing && !InItsShard(run[i].shards, c)
  {
    RunInv(run, i);
    assert WaitInv(run[i].shards, run[i].waits[id]);
  }

  /** No wake-up is lost: a parked call whose channel is still open is waiting for a connection that has yet to be
      marked finalized, which will close that channel. */
  lemma NoLostWakeup(run: seq<Registry>, i: nat, id: nat) returns (c: ConnId)
    requires IsRun(run) && i < |run| && id in run[i].waits && run[i].waits[id].progress.Parked?
    requires !WaitEnabled(run[i], id, Wake)
    ensures c in run[i].shards.finalizing && c in run[i].shards.life && run[i].shards.life[c].InFinalizing()
  {
    RunInv(run, i);
    assert WaitInv(run[i].shards, run[i].waits[id]);
    c :| c in run[i].waits[id].progress.saw;
  }

  /** The loop of `waitAll` ends: it goes round no more often than connections are finalized during the call, so
      never more often than there are connections not yet finalized when it began or added since. */
  lemma RoundsAreBounded(run: seq<Registry>, i: nat, id: nat)
    requires IsRun(run) && i < |run| && id in run[i].waits
    ensures run[i].waits[id].rounds <= run[i].shards.generation - run[i].waits[id].since
    ensures run[i].waits[id].rounds <= |run[i].shards.life.Keys| - run[i].waits[id].since
  {
    RunInv(run, i);
    assert WaitInv(run[i].shards, run[i].waits[id]);
    SubsetSize(FinalizedOnes(run[i].shards.life), run[i].shards.life.Keys);
  }

  /** What a `waitAll` call decides at each step of its own: it stops with nil if and only if it finds no connection left,
      at the end of a scan or after waiting for all it had found; it goes round again only when a connection has been
      finalized since it looked; and only a wait can end in an error. */
  ghost predicate Decides(s: Shards, p: Progress, p': Progress)
  {
    match p
    case Scanning(g, seen) =>
      if g < |s.groups| then p' == Scanning(g + 1, seen + s.groups[g])
      else if seen == {} && s.finalizing == {} then p'.ReturnedNil?
      else p' == Waiting(seen + s.finalizing)
    case Waiting(todo) =>
      || p'.ReturnedError?
      || (todo == {} && s.finalizing == {} && p'.ReturnedNil?)
      || (todo == {} && s.finalizing != {} && p' == Parked(s.generation, s.finalizing))
      || (p'.Waiting? && exists c :: c in todo && p'.todo == todo - {c} && c in s.life && s.life[c].Done())
    case Parked(g, _) => p'.ReturnedError? || (g < s.generation && p' == Scanning(0, {}))
    case ReturnedNil | ReturnedError => false
  }

  lemma WaitDecides(r: Registry, step: Step, id: nat)
    requires Enabled(r, step) && id in r.waits
    ensures var r' := Apply(r, step);
            && id in r'.waits
            && (r'.waits[id].progress != r.waits[id].progress ==> Decides(r.shards, r.waits[id].progress, r'.waits[id].progress))
  {
    hide ShardStep, ShardEnabled;
  }

  lemma WaitAllDecides(run: seq<Registry>, i: nat, id: nat)
    requires IsRun(run) && i + 1 < |run| && id in run[i].waits
    ensures id in run[i + 1].waits
    ensures run[i + 1].waits[id].progress != run[i].waits[id].progress ==>
              Decides(run[i].shards, run[i].waits[id].progress, run[i + 1].waits[id].progress)
  {
    hide Apply, Enabled;
    assert Next(run[i], run[i + 1]);
    var step :| Enabled(run[i], step) && run[i + 1] == Apply(run[i], step);
    WaitDecides(run[i], step, id);
  }

  /** No connection is in any shard or in `finalizing`. */
  ghost predicate Deserted(s: Shards)
  {
    s.finalizing == {} && forall g :: 0 <= g < |s.groups| ==> s.groups[g] == {}
  }

  /** On a registry without connections `waitAll` never waits and never fails: it can only return nil. */
  lemma {:induction false} NothingToWaitFor(run: seq<Registry>, i: nat, j: nat, id: nat)
    requires IsRun(run) && i <= j < |run|
    requires id in run[i].waits && run[i].waits[id].progress == Scanning(0, {})
    requires forall k :: i <= k <= j ==> Deserted(run[k].shards)
    ensures id in run[j].waits
    ensures run[j].waits[id].progress.ReturnedNil? ||
              (run[j].waits[id].progress.Scanning? && run[j].waits[id].progress.seen == {})
    decreases j - i
  {
    if i == j {
    } else {
      NothingToWaitFor(run, i, j - 1, id);
      assert Deserted(run[j - 1].shards);
      WaitAllDecides(run, j - 1, id);
    }
  }

  lemma {:induction false} SubsetSize(a: set<ConnId>, b: set<ConnId>)
    requires a <= b
    ensures |a| <= |b|
  {
    if a == {} {
    } else {
      var x :| x in a;
      SubsetSize(a - {x}, b - {x});
    }
  }
}

