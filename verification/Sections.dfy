/**
  The objects whose critical sections the transition systems take as steps, in
  the imperative form of the source: fields updated in place, loops over shards,
  channels and snapshots. Every section is proved to be the step, or the series
  of steps, that the transition systems say it is.
 */
module Sections {
  import opened Bytes
  import C = Connection
  import P = WorkerPool
  import R = Registry

  // ---------------------------------------------------------------- manager.go

  function Union(groups: seq<set<R.ConnId>>): (r: set<R.ConnId>)
  {
    if groups == [] then {} else Union(groups[..|groups| - 1]) + groups[|groups| - 1]
  }

  lemma {:induction false} InUnion(groups: seq<set<R.ConnId>>, c: R.ConnId)
    ensures c in Union(groups) <==> exists g :: 0 <= g < |groups| && c in groups[g]
  {
    if groups == [] {
    } else {
      InUnion(groups[..|groups| - 1], c);
    }
  }

  /** The connections in the shards are the registered ones that have not left. */
  function Registered(s: R.Shards): (r: set<R.ConnId>)
  {
    set c | c in s.life && (s.life[c].Listed? || s.life[c].InBoth?)
  }

  lemma ShardsHoldTheRegistered(s: R.Shards)
    requires R.ShardInv(s)
    ensures Union(s.groups) == Registered(s)
  {
    forall c
      ensures c in Union(s.groups) <==> c in Registered(s)
    {
      InUnion(s.groups, c);
      if c in Registered(s) {
        assert R.InItsShard(s, c);
      }
      if exists g :: 0 <= g < |s.groups| && c in s.groups[g] {
        assert R.InItsShard(s, c);
      }
    }
  }

  lemma NoUnion()
    ensures Union([]) == {}
  {
  }

  lemma UnionCount(s: R.Shards, i: nat)
    requires R.GroupsInv(s) && i < |s.groups|
    ensures |Union(s.groups[..i + 1])| == |Union(s.groups[..i])| + |s.groups[i]|
  {
    var before, group := Union(s.groups[..i]), s.groups[i];
    assert s.groups[..i + 1][..i] == s.groups[..i];
    assert Union(s.groups[..i + 1]) == before + group;
    forall c | c in before
      ensures c !in group
    {
      hide Union, R.GroupOf, R.InItsShard;
      InUnion(s.groups[..i], c);
      var g :| 0 <= g < i && c in s.groups[..i][g];
      assert c in s.groups[g] && R.GroupOf(c, |s.groups|) == g;
    }
    assert before * group == {};
  }

  class ConnectionManager {
    var groups: seq<set<R.ConnId>>
    var finalizing: set<R.ConnId>
    var generation: nat
    ghost var life: map<R.ConnId, R.Life>

    ghost function View(): R.Shards
      reads this
    {
      R.Shards(groups, finalizing, generation, life)
    }

    constructor (groupsCount: nat)
      ensures View() == R.NewRegistry(groupsCount).shards
    {
      groups, finalizing, generation, life := seq(groupsCount, _ => {}), {}, 0, map[];
    }

    /** A new connection is in its shard and in no other. */
    method AddConnection(c: R.ConnId)
      requires R.ShardInv(View()) && R.ShardEnabled(View(), c, R.Add)
      modifies this
      ensures R.ShardInv(View()) && View() == R.ShardStep(old(View()), c, R.Add)
      ensures Registered(View()) == old(Registered(View())) + {c} && finalizing == old(finalizing)
    {
      R.ShardKeeps(View(), c, R.Add);
      var g := R.GroupOf(c, |groups|);
      groups := groups[g := groups[g] + {c}];
      life := life[c := R.Listed];
    }

    /** First into `finalizing`, then out of the shard: at no point in neither. */
    method RemoveConnection(c: R.ConnId)
      requires R.ShardInv(View()) && R.ShardEnabled(View(), c, R.AddFinalizing)
      modifies this
      ensures R.ShardEnabled(R.ShardStep(old(View()), c, R.AddFinalizing), c, R.LeaveShard)
      ensures View() == R.ShardStep(R.ShardStep(old(View()), c, R.AddFinalizing), c, R.LeaveShard)
      ensures R.ShardInv(View())
    {
      R.ShardKeeps(View(), c, R.AddFinalizing);
      assert R.InItsShard(View(), c);
      finalizing := finalizing + {c};
      life := life[c := R.InBoth];
      R.ShardKeeps(View(), c, R.LeaveShard);
      var g := R.GroupOf(c, |groups|);
      groups := groups[g := groups[g] - {c}];
      life := life[c := R.Leaving];
    }

    /** Marking takes the connection out of the last place it was in, and leaves none parked: a call that read the
        finalizing set before has its channel closed. */
    method MarkFinalized(c: R.ConnId)
      requires R.ShardInv(View()) && R.ShardEnabled(View(), c, R.MarkFinalized)
      modifies this
      ensures R.ShardInv(View()) && View() == R.ShardStep(old(View()), c, R.MarkFinalized)
      ensures !R.InItsShard(View(), c) && c !in finalizing && Registered(View()) == old(Registered(View()))
      ensures forall registry: R.Registry, id: nat ::
                (registry.shards == View() && id in registry.waits && registry.waits[id].progress.Parked?
                 && registry.waits[id].progress.generation <= old(generation)) ==> R.WaitEnabled(registry, id, R.Wake)
    {
      R.ShardKeeps(View(), c, R.MarkFinalized);
      finalizing := finalizing - {c};
      generation := generation + 1;
      life := life[c := R.Finalized];
    }

    /** Undisturbed, the count over the shards is the number of registered connections. */
    method ConnectionsCount() returns (total: nat)
      requires R.ShardInv(View())
      ensures total == |Registered(View())|
    {
      hide Union;
      total := 0;
      assert Union(groups[..0]) == {} by { NoUnion(); }
      for i := 0 to |groups|
        invariant total == |Union(groups[..i])|
      {
        UnionCount(View(), i);
        total := total + |groups[i]|;
      }
      assert groups[..|groups|] == groups;
      ShardsHoldTheRegistered(View());
    }

    /** Undisturbed, the snapshot is exactly the registered connections. */
    method Snapshot() returns (all: set<R.ConnId>)
      requires R.ShardInv(View())
      ensures all == Registered(View())
    {
      all := {};
      for i := 0 to |groups|
        invariant all == Union(groups[..i])
      {
        assert groups[..i + 1][..i] == groups[..i];
        all := all + groups[i];
      }
      assert groups[..|groups|] == groups;
      ShardsHoldTheRegistered(View());
    }
  }

  // ---------------------------------------------------------------- worker_pool.go

  /** The drain's entry, one closed channel and the unlock are steps of the pool. */
  lemma DrainEntered(p: P.Pool)
    requires P.Inv(p) && P.LockFree(p) && p.intake.drainer.NotYet? && p.intake.state.Started?
    ensures P.Inv(p.(intake := p.intake.(accepting := false, state := P.Stopping, drainer := P.ClosingChannels(0))))
  {
    P.IntakeKeeps(p, P.DrainEnter);
    hide P.Inv;
  }

  lemma ChannelClosed(p: P.Pool, k: nat)
    requires P.Inv(p) && p.intake.drainer == P.ClosingChannels(k) && k < |p.workers|
    ensures P.Inv(p.(workers := p.workers[k := p.workers[k].(closed := true)],
                     intake := p.intake.(drainer := P.ClosingChannels(k + 1))))
  {
    P.IntakeKeeps(p, P.CloseChannel);
    hide P.Inv;
  }

  lemma DrainUnlocked(p: P.Pool, k: nat)
    requires P.Inv(p) && p.intake.drainer == P.ClosingChannels(k) && k == |p.workers|
    ensures P.Inv(p.(intake := p.intake.(drainer := P.AwaitingWorkers(0))))
  {
    P.IntakeKeeps(p, P.DrainUnlock);
    hide P.Inv;
  }

  class WorkerPool {
    var tasks: P.Tasks
    var workers: P.Workers
    var intake: P.Intake
    ghost var rest: P.Pool

    ghost function View(): P.Pool
      reads this
    {
      rest.(tasks := tasks, workers := workers, intake := intake)
    }

    constructor (count: nat, capacity: nat)
      ensures View() == P.NewPool(count, capacity)
    {
      var pool := P.NewPool(count, capacity);
      tasks, workers, intake, rest := pool.tasks, pool.workers, pool.intake, pool;
    }

    /** The gate section of `start`: it opens intake only on a pool that is new, so never on one with a closed channel. */
    method StartGate() returns (starts: bool)
      requires P.Inv(View()) && P.LockFree(View())
      modifies this`intake
      ensures P.Inv(View()) && View() == P.IntakeStep(old(View()), P.StartGate)
      ensures starts == old(intake.state.New?) && (starts ==> intake.accepting && P.AllOpen(workers))
      ensures !starts ==> intake == old(intake)
    {
      P.IntakeKeeps(View(), P.StartGate);
      if intake.state != P.New {
        return false;
      }
      intake := intake.(state := P.Started, accepting := true, started := true);
      return true;
    }

    method StopAccepting()
      requires P.Inv(View()) && P.LockFree(View())
      modifies this`intake
      ensures P.Inv(View()) && View() == P.IntakeStep(old(View()), P.StopAccepting) && !intake.accepting
    {
      P.IntakeKeeps(View(), P.StopAccepting);
      intake := intake.(accepting := false);
    }

    /** The write-locked section of `drainOnce` on a started pool: intake is shut and then every channel closed, with
        no submission inside the lock at any point, so the pool's invariant holds throughout. */
    method DrainSection()
      requires P.Inv(View()) && P.LockFree(View()) && intake.drainer.NotYet? && intake.state.Started?
      modifies this`intake, this`workers
      ensures P.Inv(View()) && !intake.accepting && intake.state.Stopping? && intake.drainer == P.AwaitingWorkers(0)
      ensures |workers| == |old(workers)|
      ensures forall w :: 0 <= w < |workers| ==> workers[w] == old(workers)[w].(closed := true)
    {
      hide P.Inv, P.LockFree;
      DrainEntered(View());
      intake := intake.(accepting := false, state := P.Stopping, drainer := P.ClosingChannels(0));
      for k := 0 to |workers|
        invariant |workers| == |old(workers)| && P.Inv(View())
        invariant intake == old(intake).(accepting := false, state := P.Stopping, drainer := P.ClosingChannels(k))
        invariant forall w :: 0 <= w < k ==> workers[w] == old(workers)[w].(closed := true)
        invariant forall w :: k <= w < |workers| ==> workers[w] == old(workers)[w]
      {
        ChannelClosed(View(), k);
        workers := workers[k := workers[k].(closed := true)];
        intake := intake.(drainer := P.ClosingChannels(k + 1));
      }
      DrainUnlocked(View(), |workers|);
      intake := intake.(drainer := P.AwaitingWorkers(0));
    }

    /** `forceCancel`: undisturbed, exactly the registered tasks are cancelled and nothing else changes. */
    method ForceCancel()
      modifies this`tasks
      ensures tasks.Keys == old(tasks).Keys
      ensures forall t :: t in tasks ==>
                tasks[t] == old(tasks)[t].(cancelled := old(tasks)[t].cancelled || old(tasks)[t].registered)
    {
      var todo := set t | t in tasks && tasks[t].registered;
      ghost var snapshot := todo;
      while todo != {}
        invariant todo <= snapshot && tasks.Keys == old(tasks).Keys
        invariant forall t :: t in tasks ==>
                    tasks[t] == old(tasks)[t].(cancelled := old(tasks)[t].cancelled || t in snapshot - todo)
        decreases todo
      {
        var t :| t in todo;
        tasks := tasks[t := tasks[t].(cancelled := true)];
        todo := todo - {t};
      }
    }
  }

  // ---------------------------------------------------------------- connection.go

  /** The connection after a winning request has run to its end, undisturbed. */
  function AfterClose(conn: C.Conn, c: C.Closer): C.Conn
  {
    conn.(gate := conn.gate.(accepting := false, sendCancelled := true),
          shut := C.Shut(C.Closing, [c.(stage := C.Returned)], true, Some(c.reason), conn.shut.reports, true, true, true))
  }

  function Winner(conn: C.Conn, a: C.CloseAction): C.Closer
    requires a.Request?
  {
    C.Closer(a.actor, C.Reason(a.op, a.cause), a.reports, C.Won, conn.line.writer == C.Exited(C.Drained))
  }

  lemma OneAdvance(conn: C.Conn)
    requires C.Inv(conn) && |conn.shut.winners| == 1 && !conn.shut.winners[0].stage.Finished?
    ensures C.Inv(C.AdvanceCloser(conn, 0)) && |C.AdvanceCloser(conn, 0).shut.winners| == 1
  {
    C.AdvanceKeeps(conn, 0);
    hide C.Inv;
  }

  /** `closeOnce` from the reason to the end of the cancellation of sends and reads. */
  lemma CloseBegins(conn: C.Conn, c: C.Closer)
    requires C.Inv(conn) && conn.shut.winners == [c] && c.stage.Won? && !conn.shut.closeOnce
    ensures C.Inv(conn.(gate := conn.gate.(accepting := false, sendCancelled := true),
                        shut := conn.shut.(winners := [c.(stage := C.ReadsCancelled)], closeOnce := true,
                                           reason := Some(c.reason), readCancelled := true)))
  {
    hide C.Inv;
    OneAdvance(conn);
    var s1 := C.AdvanceCloser(conn, 0);
    OneAdvance(s1);
    var s2 := C.AdvanceCloser(s1, 0);
    OneAdvance(s2);
    assert C.AdvanceCloser(s2, 0).shut.winners == [c.(stage := C.ReadsCancelled)];
  }

  lemma CloseEnds(conn: C.Conn, c: C.Closer)
    requires C.Inv(conn) && conn.shut.winners == [c] && c.stage.ReadsCancelled?
    ensures C.Inv(conn.(shut := conn.shut.(winners := [c.(stage := C.Returned)], forced := true, transportClosed := true)))
  {
    hide C.Inv;
    OneAdvance(conn);
    var s1 := C.AdvanceCloser(conn, 0);
    OneAdvance(s1);
    assert C.AdvanceCloser(s1, 0).shut.winners == [c.(stage := C.Returned)];
  }

  /** A winning request is five steps of `closeOnce` after the section that won. */
  lemma CloseRunsThrough(conn: C.Conn, a: C.CloseAction)
    requires C.Inv(conn) && C.CloseEnabled(conn, a) && a.Request? && !C.Loses(conn.shut, a.onlyOpen)
    ensures !conn.shut.closeOnce && C.Inv(AfterClose(conn, Winner(conn, a)))
  {
    C.CloseKeeps(conn, a);
    assert conn.shut.winners == [] && !conn.shut.closeOnce;
    hide C.Inv, C.CloseEnabled;
    var s0 := C.CloseStep(conn, a);
    assert s0.shut.winners == [Winner(conn, a)];
    var c := Winner(conn, a);
    CloseBegins(s0, c);
    CloseEnds(s0.(gate := s0.gate.(accepting := false, sendCancelled := true),
                  shut := s0.shut.(winners := [c.(stage := C.ReadsCancelled)], closeOnce := true,
                                   reason := Some(c.reason), readCancelled := true)),
              c.(stage := C.ReadsCancelled));
  }

  class NetConnection {
    var phase: C.Phase
    var accepting: bool
    var sendCancelled: bool
    var readCancelled: bool
    var forced: bool
    var transportClosed: bool
    var closeOnce: bool
    var reason: Option<C.Reason>
    ghost var winners: seq<C.Closer>
    ghost var rest: C.Conn

    ghost function View(): C.Conn
      reads this
    {
      rest.(gate := rest.gate.(accepting := accepting, sendCancelled := sendCancelled),
            shut := C.Shut(phase, winners, closeOnce, reason, rest.shut.reports, readCancelled, forced, transportClosed))
    }

    constructor (transport: C.Transport, capacity: nat)
      ensures View() == C.Fresh(transport, capacity)
    {
      phase, accepting, sendCancelled, readCancelled, forced := C.Open, true, false, false, false;
      transportClosed, closeOnce, reason, winners, rest := false, false, None, [], C.Fresh(transport, capacity);
    }

    /** The `stateMu` section of `quiesceReads` and of `stopSendsAndDrain`: afterwards the connection is not open, a close
        request under way keeps its phase, and requests that want an open connection lose. */
    method MarkDraining()
      requires C.Inv(View())
      modifies this`phase
      ensures C.Inv(View()) && View() == C.DrainStep(old(View()), C.QuiesceMark)
      ensures phase != C.Open && C.Loses(View().shut, true) && old(phase).Rank() <= phase.Rank()
      ensures C.Loses(View().shut, false) <==> old(C.Loses(View().shut, false))
    {
      C.DrainKeeps(View(), C.QuiesceMark);
      if phase == C.Open {
        phase := C.Draining;
      }
    }

    /** `requestCloseMatching`: a request that loses changes nothing; one that wins records its reason, shuts the gate,
        cancels everything and closes the transport, keeping the connection's invariant at every point. */
    method RequestClose(actor: C.Actor, op: C.Operation, cause: C.Cause, onlyOpen: bool, reports: bool) returns (won: bool)
      requires C.Inv(View()) && C.CloseEnabled(View(), C.Request(actor, op, cause, onlyOpen, reports))
      modifies this`phase, this`closeOnce, this`reason, this`accepting, this`sendCancelled, this`readCancelled, this`forced,
               this`transportClosed, this`winners
      ensures C.Inv(View())
      ensures won <==> !old(C.Loses(View().shut, onlyOpen))
      ensures !won ==> View() == old(View())
      ensures won ==>
                && phase == C.Closing && reason == Some(C.Reason(op, cause))
                && !accepting && sendCancelled && readCancelled && forced && transportClosed
    {
      hide C.Inv, C.CloseEnabled;
      ghost var a := C.Request(actor, op, cause, onlyOpen, reports);
      if phase == C.Closed || phase == C.Closing || (onlyOpen && phase != C.Open) {
        return false;
      }
      ghost var c := Winner(View(), a);
      CloseRunsThrough(View(), a);
      phase := C.Closing;
      if !closeOnce {
        closeOnce, reason := true, Some(C.Reason(op, cause));
        accepting, sendCancelled := false, true;
        readCancelled := true;
        forced := true;
        transportClosed := true;
      }
      winners := [c.(stage := C.Returned)];
      assert View() == AfterClose(old(View()), c);
      return true;
    }
  }
}

