/**
  One connection (connection.go): senders, a writer, closers and a supervisor
  sharing a send gate, a bounded queue, a force flag and a four-state machine.
  One step is one critical section, one channel operation, one cancellation or
  one write on the transport; a run is any interleaving of steps.

  A `Send` may be released by its own context at any moment, and a reader may
  stop or ask to close at any moment; the heartbeat stops only when cancelled.
 */
module Connection {
  import opened Bytes
  import opened FrameDecoding
  import opened MessageCodec

  datatype Phase = Open | Draining | Closing | Closed
  {
    predicate Shutting()
    {
      Closing? || Closed?
    }

    function Rank(): nat
    {
      match this case Open => 0 case Draining => 1 case Closing => 2 case Closed => 3
    }
  }

  datatype Transport = TCP | WebSocket
  datatype Operation = OpRead | OpWrite | OpProtocol | OpHeartbeat | OpTask | OpOpenHook | OpCloseHook
  /** An error value; only its identity matters here. */
  type Cause = nat
  datatype Reason = Reason(op: Operation, cause: Cause)

  /** A `Send` call past its encoding. `Waiting`, `Queued` and `Failing` calls are counted in `sendWG`;
      `at` is the call's place in the order of enqueues. */
  datatype SendPhase = Waiting | Queued(at: nat) | Failing | Accepted(at: nat) | Refused
  {
    predicate Returned()
    {
      Accepted? || Refused?
    }
  }
  datatype SendCall = SendCall(message: Message, phase: SendPhase)

  datatype DrainStage = NotAsked | StateMarked | GateShut | WriterTold

  /** The send gate: `acceptingSends`, the progress of `stopSendsAndDrain`, and every `Send` call so far. */
  datatype Gate = Gate(accepting: bool, sendCancelled: bool, drain: DrainStage, sends: map<nat, SendCall>)

  datatype ExitReason = Drained | Forced | WriteFailed
  datatype Writer =
    | Unborn
    | Top
    | Select
    | DrainLoop
    | Writing(rest: ByteString, draining: bool)
    | Failed
    | AwaitsOwnClose
    | Exited(why: ExitReason)

  /** The outgoing queue and the writer, with the history of what was enqueued, taken off the queue, written
      completely, and put on the socket. */
  datatype Line = Line(
    queue: seq<Message>, writer: Writer, enqueued: seq<Message>, taken: nat, written: nat, wire: ByteString)

  datatype Actor = WriterActor | ReaderActor | HeartbeatActor | HookActor | ServerActor

  /** Progress of a winning close request through `closeOnce` and the report that may follow it. */
  datatype CloseStage = Won | ReasonSet | SendsStopped | ReadsCancelled | ForceCancelled | Returned | Finished
  {
    predicate StoppedSends()
    {
      SendsStopped? || ReadsCancelled? || StoppedAll()
    }

    predicate StoppedAll()
    {
      ForceCancelled? || Returned? || Finished?
    }
  }
  datatype Closer = Closer(actor: Actor, reason: Reason, reports: bool, stage: CloseStage, drained: bool)

  datatype Shut = Shut(
    phase: Phase, winners: seq<Closer>, closeOnce: bool, reason: Option<Reason>, reports: seq<Reason>,
    readCancelled: bool, forced: bool, transportClosed: bool)

  datatype Child = Absent | Running | Ended

  /** The supervisor's next action. */
  datatype Supervisor =
    | AwaitChildren | CancelRead | CancelSend | CancelForce | CloseTransport | AddFinalizing | LeaveShard
    | CountClosed | StartCloseHook | EndCloseHook | MarkClosed | CloseDone | MarkFinalized | Gone
  {
    predicate HookStarted()
    {
      EndCloseHook? || MarkClosed? || PastClosed()
    }

    predicate PastClosed()
    {
      CloseDone? || MarkFinalized? || Gone?
    }

    predicate BeforeTransport()
    {
      AwaitChildren? || CancelRead? || CancelSend? || CancelForce? || CloseTransport?
    }
  }

  datatype Life = Life(reader: Child, heartbeat: Child, openHook: Child, supervisor: Supervisor, closeHooks: nat)

  datatype Conn = Conn(transport: Transport, capacity: nat, gate: Gate, line: Line, shut: Shut, life: Life)

  /** `newNetConnection`. */
  function Fresh(transport: Transport, capacity: nat): Conn
  {
    Conn(transport, capacity, Gate(true, false, NotAsked, map[]), Line([], Unborn, [], 0, 0, []),
         Shut(Open, [], false, None, [], false, false, false), Life(Absent, Absent, Absent, AwaitChildren, 0))
  }

  // ---------------------------------------------------------------- Send

  datatype SendAction = PassGate(message: Message) | Enqueue | GiveUp | Return

  predicate SendEnabled(s: Conn, id: nat, a: SendAction)
  {
    match a
    case PassGate(m) => id !in s.gate.sends && Encodable(m)
    case Enqueue => id in s.gate.sends && s.gate.sends[id].phase.Waiting? && |s.line.queue| < s.capacity
    case GiveUp => id in s.gate.sends && s.gate.sends[id].phase.Waiting?
    case Return => id in s.gate.sends && (s.gate.sends[id].phase.Queued? || s.gate.sends[id].phase.Failing?)
  }

  function SetCall(g: Gate, id: nat, call: SendCall): Gate
  {
    g.(sends := g.sends[id := call])
  }

  function SendStep(s: Conn, id: nat, a: SendAction): Conn
    requires SendEnabled(s, id, a)
  {
    match a
    case PassGate(m) =>
      var refused := !s.gate.accepting || s.shut.phase.Shutting();
      s.(gate := SetCall(s.gate, id, SendCall(m, if refused then Refused else Waiting)))
    case Enqueue =>
      var m := s.gate.sends[id].message;
      s.(gate := SetCall(s.gate, id, SendCall(m, Queued(|s.line.enqueued|))),
         line := s.line.(queue := s.line.queue + [m], enqueued := s.line.enqueued + [m]))
    case GiveUp => s.(gate := SetCall(s.gate, id, s.gate.sends[id].(phase := Failing)))
    case Return =>
      var call := s.gate.sends[id];
      s.(gate := SetCall(s.gate, id, call.(phase := if call.phase.Queued? then Accepted(call.phase.at) else Refused)))
  }

  // ---------------------------------------------------------------- the writer

  datatype WriterAction =
    | CheckForce
    | SeeForce
    | Take
    | SeeDrain
    | FindNone
    | WriteChunk(put: nat, reported: int, failed: bool)
    | AskClose(cause: Cause)
    | Leave

  /** The outcome of one `Write` inside `writeFull`: the bytes still to write, or failure. */
  function AfterWrite(rest: ByteString, reported: int, failed: bool): Option<ByteString>
  {
    if reported < 0 || reported > |rest| || failed || reported == 0 then None else Some(rest[reported..])
  }

  /** A transport puts a prefix of what it is given on the wire, and a count in range is the true one. */
  predicate Truthful(rest: ByteString, put: nat, reported: int)
  {
    put <= |rest| && (0 <= reported <= |rest| ==> reported == put)
  }

  predicate Busy(s: Shut, actor: Actor)
  {
    exists i :: 0 <= i < |s.winners| && s.winners[i].actor == actor && !s.winners[i].stage.Finished?
  }

  predicate WriterEnabled(s: Conn, a: WriterAction)
  {
    var w := s.line.writer;
    match a
    case CheckForce => w.Top?
    case SeeForce => w.Select? && s.shut.forced
    case Take => (w.Select? || w.DrainLoop?) && s.line.queue != []
    case SeeDrain => w.Select? && s.gate.drain.WriterTold?
    case FindNone => w.DrainLoop? && s.line.queue == []
    case WriteChunk(put, reported, _) => w.Writing? && Truthful(w.rest, put, reported)
    case AskClose(_) => w.Failed?
    case Leave => w.AwaitsOwnClose? && !Busy(s.shut, WriterActor)
  }

  function TakeOne(l: Line): Line
    requires l.queue != []
  {
    l.(writer := Writing(Wire(l.queue[0]), l.writer.DrainLoop?), queue := l.queue[1..], taken := l.taken + 1)
  }

  function Chunk(l: Line, put: nat, reported: int, failed: bool): Line
    requires l.writer.Writing? && Truthful(l.writer.rest, put, reported)
  {
    var l' := l.(wire := l.wire + l.writer.rest[..put]);
    match AfterWrite(l.writer.rest, reported, failed)
    case None => l'.(writer := Failed)
    case Some(rest) =>
      if rest != [] then l'.(writer := Writing(rest, l.writer.draining))
      else l'.(written := l.written + 1, writer := if l.writer.draining then DrainLoop else Top)
  }

  function WriterStep(s: Conn, a: WriterAction): Conn
    requires WriterEnabled(s, a)
  {
    match a
    case CheckForce => s.(line := s.line.(writer := if s.shut.forced then Exited(Forced) else Select))
    case SeeForce => s.(line := s.line.(writer := Exited(Forced)))
    case Take => s.(line := TakeOne(s.line))
    case SeeDrain => s.(line := s.line.(writer := DrainLoop))
    case FindNone => s.(line := s.line.(writer := Exited(Drained)))
    case WriteChunk(put, reported, failed) => s.(line := Chunk(s.line, put, reported, failed))
    case AskClose(cause) =>
      if Loses(s.shut, false) then s.(line := s.line.(writer := Exited(WriteFailed)))
      else s.(shut := Win(s.shut, WriterActor, Reason(OpWrite, cause), true, false),
              line := s.line.(writer := AwaitsOwnClose))
    case Leave => s.(line := s.line.(writer := Exited(WriteFailed)))
  }

  // ---------------------------------------------------------------- quiescing and draining

  datatype DrainAction = QuiesceMark | QuiesceCancel | DrainMark | ShutGate | TellWriter

  predicate NoneInFlight(sends: map<nat, SendCall>)
  {
    forall id :: id in sends ==> sends[id].phase.Returned()
  }

  predicate DrainEnabled(s: Conn, a: DrainAction)
  {
    match a
    case QuiesceMark => true
    case QuiesceCancel => !s.shut.phase.Open?
    case DrainMark => s.gate.drain.NotAsked?
    case ShutGate => s.gate.drain.StateMarked?
    case TellWriter => s.gate.drain.GateShut? && NoneInFlight(s.gate.sends)
  }

  function MarkDraining(s: Shut): Shut
  {
    if s.phase.Open? then s.(phase := Draining) else s
  }

  function DrainStep(s: Conn, a: DrainAction): Conn
    requires DrainEnabled(s, a)
  {
    match a
    case QuiesceMark => s.(shut := MarkDraining(s.shut))
    case QuiesceCancel => s.(shut := s.shut.(readCancelled := true))
    case DrainMark => s.(shut := MarkDraining(s.shut), gate := s.gate.(drain := StateMarked))
    case ShutGate => s.(gate := s.gate.(drain := GateShut, accepting := false, sendCancelled := true))
    case TellWriter => s.(gate := s.gate.(drain := WriterTold))
  }

  // ---------------------------------------------------------------- closing

  datatype CloseAction =
    | Request(actor: Actor, op: Operation, cause: Cause, onlyOpen: bool, reports: bool)
    | Advance(i: nat)
    | EarlyReport(op: Operation, cause: Cause)

  /** Which close requests the readers, the heartbeat, the hooks and the server make. */
  predicate MayRequest(s: Conn, actor: Actor, op: Operation, onlyOpen: bool, reports: bool)
  {
    match actor
    case WriterActor => false
    case ReaderActor =>
      && s.life.reader.Running? && !onlyOpen && (reports ==> s.transport.WebSocket?)
      && (op.OpRead? || op.OpProtocol? || op.OpTask? || (op.OpWrite? && s.transport.WebSocket?))
    case HeartbeatActor => s.life.heartbeat.Running? && op.OpHeartbeat? && onlyOpen && !reports
    case HookActor => s.life.openHook.Running? && op.OpOpenHook? && !onlyOpen && !reports
    case ServerActor => op.OpRead? && !onlyOpen && !reports
  }

  predicate CloseEnabled(s: Conn, a: CloseAction)
  {
    match a
    case Request(actor, op, _, onlyOpen, reports) => MayRequest(s, actor, op, onlyOpen, reports)
    case Advance(i) => i < |s.shut.winners| && !s.shut.winners[i].stage.Finished?
    case EarlyReport(op, _) =>
      || op.OpOpenHook? || op.OpCloseHook?
      || (s.transport.TCP? && (op.OpRead? || op.OpProtocol? || op.OpTask?))
  }

  /** The `stateMu` section of `requestCloseMatching`. */
  predicate Loses(s: Shut, onlyOpen: bool)
  {
    s.phase.Shutting() || (onlyOpen && !s.phase.Open?)
  }

  function Win(s: Shut, actor: Actor, reason: Reason, reports: bool, drained: bool): Shut
  {
    s.(phase := Closing, winners := s.winners + [Closer(actor, reason, reports, Won, drained)])
  }

  function SetStage(s: Shut, i: nat, stage: CloseStage): Shut
    requires i < |s.winners|
  {
    s.(winners := s.winners[i := s.winners[i].(stage := stage)])
  }

  /** The body of `closeOnce` in `requestCloseMatching`, then the report of a winner that reports. */
  function AdvanceCloser(s: Conn, i: nat): Conn
    requires i < |s.shut.winners| && !s.shut.winners[i].stage.Finished?
  {
    var c := s.shut.winners[i];
    match c.stage
    case Won =>
      if s.shut.closeOnce then s.(shut := SetStage(s.shut, i, Returned))
      else s.(shut := SetStage(s.shut, i, ReasonSet).(closeOnce := true, reason := Some(c.reason)))
    case ReasonSet =>
      s.(shut := SetStage(s.shut, i, SendsStopped), gate := s.gate.(accepting := false, sendCancelled := true))
    case SendsStopped => s.(shut := SetStage(s.shut, i, ReadsCancelled).(readCancelled := true))
    case ReadsCancelled => s.(shut := SetStage(s.shut, i, ForceCancelled).(forced := true))
    case ForceCancelled => s.(shut := SetStage(s.shut, i, Returned).(transportClosed := true))
    case Returned =>
      s.(shut := SetStage(s.shut, i, Finished).(
           reports := if c.reports then s.shut.reports + [c.reason] else s.shut.reports))
  }

  function CloseStep(s: Conn, a: CloseAction): Conn
    requires CloseEnabled(s, a)
  {
    match a
    case Request(actor, op, cause, onlyOpen, reports) =>
      if Loses(s.shut, onlyOpen) then s
      else s.(shut := Win(s.shut, actor, Reason(op, cause), reports, s.line.writer == Exited(Drained)))
    case Advance(i) => AdvanceCloser(s, i)
    case EarlyReport(op, cause) => s.(shut := s.shut.(reports := s.shut.reports + [Reason(op, cause)]))
  }

  // ---------------------------------------------------------------- start and supervise

  datatype LifeAction = Start | OpenHookReturns | ReaderEnds | HeartbeatEnds | Supervise

  predicate ChildrenGone(s: Conn)
  {
    s.life.openHook.Ended? && s.line.writer.Exited? && s.life.reader.Ended? && s.life.heartbeat.Ended?
  }

  predicate LifeEnabled(s: Conn, a: LifeAction)
  {
    match a
    case Start => s.line.writer.Unborn?
    case OpenHookReturns => s.life.openHook.Running? && !Busy(s.shut, HookActor)
    case ReaderEnds => s.life.reader.Running? && !Busy(s.shut, ReaderActor)
    case HeartbeatEnds =>
      s.life.heartbeat.Running? && (s.shut.readCancelled || s.shut.forced) && !Busy(s.shut, HeartbeatActor)
    case Supervise => !s.life.supervisor.Gone? && (s.life.supervisor.AwaitChildren? ==> ChildrenGone(s))
  }

  function SetSupervisor(s: Conn, next: Supervisor): Conn
  {
    s.(life := s.life.(supervisor := next))
  }

  function SuperviseOne(s: Conn): Conn
    requires !s.life.supervisor.Gone?
  {
    match s.life.supervisor
    case AwaitChildren => SetSupervisor(s, CancelRead)
    case CancelRead => SetSupervisor(s, CancelSend).(shut := s.shut.(readCancelled := true))
    case CancelSend => SetSupervisor(s, CancelForce).(gate := s.gate.(sendCancelled := true))
    case CancelForce => SetSupervisor(s, CloseTransport).(shut := s.shut.(forced := true))
    case CloseTransport => SetSupervisor(s, AddFinalizing).(shut := s.shut.(transportClosed := true))
    case AddFinalizing => SetSupervisor(s, LeaveShard)
    case LeaveShard => SetSupervisor(s, CountClosed)
    case CountClosed => SetSupervisor(s, StartCloseHook)
    case StartCloseHook => s.(life := s.life.(supervisor := EndCloseHook, closeHooks := s.life.closeHooks + 1))
    case EndCloseHook => SetSupervisor(s, MarkClosed)
    case MarkClosed => SetSupervisor(s, CloseDone).(shut := s.shut.(phase := Closed))
    case CloseDone => SetSupervisor(s, MarkFinalized)
    case MarkFinalized => SetSupervisor(s, Gone)
  }

  function LifeStep(s: Conn, a: LifeAction): Conn
    requires LifeEnabled(s, a)
  {
    match a
    case Start =>
      s.(line := s.line.(writer := Top), life := s.life.(reader := Running, heartbeat := Running, openHook := Running))
    case OpenHookReturns => s.(life := s.life.(openHook := Ended))
    case ReaderEnds => s.(life := s.life.(reader := Ended))
    case HeartbeatEnds => s.(life := s.life.(heartbeat := Ended))
    case Supervise => SuperviseOne(s)
  }

  // ---------------------------------------------------------------- runs

  datatype Step =
    | Sender(id: nat, send: SendAction)
    | WriterDoes(write: WriterAction)
    | Drains(drain: DrainAction)
    | Closes(close: CloseAction)
    | Lives(life: LifeAction)

  predicate Enabled(s: Conn, step: Step)
  {
    match step
    case Sender(id, a) => SendEnabled(s, id, a)
    case WriterDoes(a) => WriterEnabled(s, a)
    case Drains(a) => DrainEnabled(s, a)
    case Closes(a) => CloseEnabled(s, a)
    case Lives(a) => LifeEnabled(s, a)
  }

  function Apply(s: Conn, step: Step): Conn
    requires Enabled(s, step)
  {
    match step
    case Sender(id, a) => SendStep(s, id, a)
    case WriterDoes(a) => WriterStep(s, a)
    case Drains(a) => DrainStep(s, a)
    case Closes(a) => CloseStep(s, a)
    case Lives(a) => LifeStep(s, a)
  }

  ghost predicate Next(s: Conn, s': Conn)
  {
    exists step :: Enabled(s, step) && s' == Apply(s, step)
  }

  /** A run: any interleaving of the steps of one connection. */
  ghost predicate IsRun(run: seq<Conn>)
  {
    && |run| > 0 && (exists t, n :: run[0] == Fresh(t, n))
    && forall i :: 0 < i < |run| ==> Next(run[i - 1], run[i])
  }

  // ---------------------------------------------------------------- what every step keeps

  function BytesOf(ms: seq<Message>): ByteString
  {
    Concat(Wires(ms))
  }

  /** The queue is what was enqueued and not taken; the socket holds whole frames of the first messages and at
      most one frame in progress. */
  ghost predicate LineInv(l: Line)
  {
    && l.written <= l.taken <= |l.enqueued| && l.queue == l.enqueued[l.taken..]
    && (forall i :: 0 <= i < |l.enqueued| ==> Encodable(l.enqueued[i]))
    && match l.writer
       case Writing(rest, _) =>
         && l.taken == l.written + 1 && 0 < |rest| <= |Wire(l.enqueued[l.written])|
         && l.wire + rest == BytesOf(l.enqueued[..l.taken])
       case Failed => l.taken == l.written + 1 && HalfWritten(l)
       case AwaitsOwnClose => l.taken == l.written + 1 && HalfWritten(l)
       case Exited(WriteFailed) => l.taken == l.written + 1 && HalfWritten(l)
       case _ => l.taken == l.written && l.wire == BytesOf(l.enqueued[..l.written])
  }

  ghost predicate HalfWritten(l: Line)
    requires l.written < |l.enqueued|
  {
    exists k :: 0 <= k <= |Wire(l.enqueued[l.written])|
                && l.wire == BytesOf(l.enqueued[..l.written]) + Wire(l.enqueued[l.written])[..k]
  }

  ghost predicate Place(sends: map<nat, SendCall>, id: nat, at: nat)
  {
    id in sends && (sends[id].phase == Queued(at) || sends[id].phase == Accepted(at))
  }

  ghost predicate Taken(sends: map<nat, SendCall>, at: nat)
  {
    exists id :: Place(sends, id, at)
  }

  /** Every accepted send has its own place in the order of enqueues, its message is there, and there is no place
      without its send. */
  ghost predicate SendInv(sends: map<nat, SendCall>, enqueued: seq<Message>)
  {
    && (forall id :: id in sends ==> Encodable(sends[id].message))
    && (forall id: nat, at: nat :: Place(sends, id, at) ==> at < |enqueued| && enqueued[at] == sends[id].message)
    && (forall i: nat, j: nat, at: nat :: Place(sends, i, at) && Place(sends, j, at) ==> i == j)
    && (forall at: nat :: at < |enqueued| ==> Taken(sends, at))
  }

  predicate InDrain(w: Writer)
  {
    w.DrainLoop? || (w.Writing? && w.draining) || w == Exited(Drained)
  }

  /** Once the writer is told to drain, no send is in flight and none can start. */
  ghost predicate DrainInv(g: Gate, l: Line)
  {
    && (g.drain.GateShut? || g.drain.WriterTold? ==> !g.accepting)
    && (g.drain.WriterTold? ==> NoneInFlight(g.sends))
    && (InDrain(l.writer) ==> g.drain.WriterTold?)
    && (l.writer == Exited(Drained) ==> l.queue == [])
  }

  /** At most one close request wins; it, and only it, writes the reason. */
  ghost predicate CloseInv(s: Shut)
  {
    && |s.winners| <= 1
    && (s.phase.Closing? ==> |s.winners| == 1)
    && (|s.winners| == 1 ==> s.phase.Shutting())
    && (s.closeOnce <==> |s.winners| == 1 && !s.winners[0].stage.Won?)
    && s.reason == (if s.closeOnce then Some(s.winners[0].reason) else None)
  }

  predicate OwnError(r: Reason)
  {
    r.op.OpRead? || r.op.OpWrite? || r.op.OpProtocol? || r.op.OpTask?
  }

  /** The reported read, write, protocol and task errors, in order. */
  function OwnErrors(rs: seq<Reason>): (r: seq<Reason>)
  {
    if rs == [] then [] else
    var rest := OwnErrors(rs[..|rs| - 1]);
    if OwnError(rs[|rs| - 1]) then rest + [rs[|rs| - 1]] else rest
  }

  ghost predicate ReportInv(t: Transport, s: Shut)
  {
    && (forall i :: 0 <= i < |s.winners| && s.winners[i].reports ==> OwnError(s.winners[i].reason))
    && (t.WebSocket? ==>
          OwnErrors(s.reports) ==
          if |s.winners| == 1 && s.winners[0].stage.Finished? && s.winners[0].reports then [s.winners[0].reason] else [])
  }

  /** Why the writer stopped, and who cancels and closes: the winning close request or, after every child, the
      supervisor. */
  ghost predicate ExitInv(w: Writer, s: Shut, sup: Supervisor)
  {
    && (w.AwaitsOwnClose? ==> |s.winners| == 1)
    && (w.Exited? && !w.why.Drained? ==> |s.winners| == 1)
    && (|s.winners| == 1 && s.winners[0].drained ==> w == Exited(Drained))
    && (s.forced && sup.AwaitChildren? ==> |s.winners| == 1)
    && (s.transportClosed && sup.AwaitChildren? ==> |s.winners| == 1)
    && (s.transportClosed && |s.winners| == 0 ==> !sup.BeforeTransport())
    && (!sup.BeforeTransport() ==> s.transportClosed)
  }

  /** A close request does all it is for: by the time it has returned, no new send is admitted, waiting sends, reads
      and the heartbeat are cancelled, the writer is told to stop and the transport is closed. */
  ghost predicate EffectInv(g: Gate, s: Shut)
  {
    && (g.drain.GateShut? || g.drain.WriterTold? ==> g.sendCancelled)
    && (!g.drain.NotAsked? ==> !s.phase.Open?)
    && (|s.winners| == 1 ==>
          var stage := s.winners[0].stage;
          && (stage.StoppedSends() ==> !g.accepting && g.sendCancelled)
          && (stage.ReadsCancelled? || stage.StoppedAll() ==> s.readCancelled)
          && (stage.StoppedAll() ==> s.forced)
          && (stage.Returned? || stage.Finished? ==> s.transportClosed))
  }

  ghost predicate LifeInv(s: Conn)
  {
    && (!s.life.supervisor.AwaitChildren? ==> ChildrenGone(s))
    && (s.line.writer.Unborn? ==> s.life.openHook.Absent?)
    && (s.shut.phase.Closed? <==> s.life.supervisor.PastClosed())
    && s.life.closeHooks == (if s.life.supervisor.HookStarted() then 1 else 0)
  }

  ghost predicate Inv(s: Conn)
  {
    && LineInv(s.line) && SendInv(s.gate.sends, s.line.enqueued) && DrainInv(s.gate, s.line)
    && CloseInv(s.shut) && ReportInv(s.transport, s.shut) && ExitInv(s.line.writer, s.shut, s.life.supervisor)
    && EffectInv(s.gate, s.shut) && LifeInv(s)
  }

  lemma FreshInv(t: Transport, n: nat)
    ensures Inv(Fresh(t, n))
  {
  }

  lemma BytesOfNext(ms: seq<Message>, n: nat)
    requires n < |ms|
    ensures BytesOf(ms[..n + 1]) == BytesOf(ms[..n]) + Wire(ms[n])
  {
    assert Wires(ms[..n + 1]) == Wires(ms[..n]) + [Wire(ms[n])];
    ConcatAppend(Wires(ms[..n]), [Wire(ms[n])]);
    assert Concat([Wire(ms[n])]) == Wire(ms[n]);
  }

  // -- sends

  lemma EnqueueKeepsLine(l: Line, m: Message)
    requires LineInv(l) && Encodable(m)
    ensures LineInv(l.(queue := l.queue + [m], enqueued := l.enqueued + [m]))
  {
    hide Wire, BytesOf, Encodable;
    var l' := l.(queue := l.queue + [m], enqueued := l.enqueued + [m]);
    assert l'.enqueued[..l.taken] == l.enqueued[..l.taken];
    assert l'.enqueued[..l.written] == l.enqueued[..l.written];
  }

  lemma SendKeepsPlaces(s: Conn, id: nat, a: SendAction)
    requires SendInv(s.gate.sends, s.line.enqueued) && SendEnabled(s, id, a)
    ensures var s' := SendStep(s, id, a); SendInv(s'.gate.sends, s'.line.enqueued)
  {
    hide Encodable;
    var s' := SendStep(s, id, a);
    assert forall i: nat, at: nat :: Place(s'.gate.sends, i, at) ==>
        Place(s.gate.sends, i, at) || (i == id && a.Enqueue? && at == |s.line.enqueued|);
    forall at: nat | at < |s'.line.enqueued|
      ensures Taken(s'.gate.sends, at)
    {
      if at < |s.line.enqueued| {
        assert Taken(s.gate.sends, at);
        var i :| Place(s.gate.sends, i, at);
        assert Place(s'.gate.sends, i, at);
      } else {
        assert Place(s'.gate.sends, id, at);
      }
    }
  }

  lemma SendKeeps(s: Conn, id: nat, a: SendAction)
    requires Inv(s) && SendEnabled(s, id, a)
    ensures Inv(SendStep(s, id, a))
  {
    hide LineInv, SendInv, CloseInv, ReportInv, ExitInv, Wire, Encodable;
    SendKeepsPlaces(s, id, a);
    if a.Enqueue? {
      assert Encodable(s.gate.sends[id].message) by { MessagesEncodable(s, id); }
      EnqueueKeepsLine(s.line, s.gate.sends[id].message);
    }
  }

  lemma MessagesEncodable(s: Conn, id: nat)
    requires SendInv(s.gate.sends, s.line.enqueued) && id in s.gate.sends
    ensures Encodable(s.gate.sends[id].message)
  {
  }

  // -- the writer

  lemma TakeKeepsLine(l: Line)
    requires LineInv(l) && (l.writer.Select? || l.writer.DrainLoop?) && l.queue != []
    ensures LineInv(TakeOne(l))
  {
    hide BytesOf, Encodable;
    BytesOfNext(l.enqueued, l.taken);
  }

  lemma ChunkKeepsLine(l: Line, put: nat, reported: int, failed: bool)
    requires LineInv(l) && l.writer.Writing? && Truthful(l.writer.rest, put, reported)
    ensures LineInv(Chunk(l, put, reported, failed))
  {
    hide BytesOf, Encodable, Wire;
    var l', rest := Chunk(l, put, reported, failed), l.writer.rest;
    BytesOfNext(l.enqueued, l.written);
    var w, done := Wire(l.enqueued[l.written]), BytesOf(l.enqueued[..l.written]);
    Split(l.wire, rest, put, done, w);
  }

  /** Putting `put` more bytes of `rest` on the wire leaves a whole number of frames and a prefix of `w`. */
  lemma Split(wire: ByteString, rest: ByteString, put: nat, done: ByteString, w: ByteString)
    requires wire + rest == done + w && put <= |rest| <= |w|
    ensures wire + rest[..put] + rest[put..] == done + w
    ensures var k := |w| - |rest| + put; wire + rest[..put] == done + w[..k]
    ensures put == |rest| ==> wire + rest[..put] == done + w
  {
    var k := |w| - |rest| + put;
    assert rest == rest[..put] + rest[put..];
    assert wire + rest[..put] == (wire + rest)[..|done| + k];
    assert (done + w)[..|done| + k] == done + w[..k];
  }

  lemma WriterKeeps(s: Conn, a: WriterAction)
    requires Inv(s) && WriterEnabled(s, a)
    ensures Inv(WriterStep(s, a))
  {
    hide SendInv, Wire, Encodable, BytesOf, LineInv, NoneInFlight;
    WriterKeepsLine(s, a);
    WriterKeepsShut(s, a);
  }

  lemma WriterKeepsLine(s: Conn, a: WriterAction)
    requires LineInv(s.line) && WriterEnabled(s, a)
    ensures LineInv(WriterStep(s, a).line)
  {
    hide Wire, Encodable, BytesOf, Chunk, TakeOne, Busy, Win;
    match a
    case Take => TakeKeepsLine(s.line);
    case WriteChunk(put, reported, failed) => ChunkKeepsLine(s.line, put, reported, failed);
    case _ =>
  }

  lemma WriterKeepsShut(s: Conn, a: WriterAction)
    requires Inv(s) && WriterEnabled(s, a)
    ensures CloseInv(WriterStep(s, a).shut) && ReportInv(s.transport, WriterStep(s, a).shut)
  {
    hide SendInv, Wire, Encodable, BytesOf, LineInv, NoneInFlight, Chunk, TakeOne, DrainInv;
  }

  // -- draining

  lemma DrainKeeps(s: Conn, a: DrainAction)
    requires Inv(s) && DrainEnabled(s, a)
    ensures Inv(DrainStep(s, a))
  {
    hide LineInv, Wire, Encodable;
  }

  // -- closing

  lemma RequestKeeps(s: Conn, a: CloseAction)
    requires Inv(s) && CloseEnabled(s, a) && a.Request?
    ensures Inv(CloseStep(s, a))
  {
    hide SendInv, Wire, Encodable, BytesOf, LineInv, NoneInFlight, OwnErrors;
  }

  lemma OwnErrorsNext(rs: seq<Reason>, r: Reason)
    ensures OwnErrors(rs + [r]) == if OwnError(r) then OwnErrors(rs) + [r] else OwnErrors(rs)
  {
    assert (rs + [r])[..|rs|] == rs;
  }

  lemma ReportKeeps(s: Conn, a: CloseAction)
    requires Inv(s) && CloseEnabled(s, a) && a.EarlyReport?
    ensures Inv(CloseStep(s, a))
  {
    hide SendInv, LineInv, DrainInv, OwnErrors;
    OwnErrorsNext(s.shut.reports, Reason(a.op, a.cause));
  }

  lemma UnfinishedReports(t: Transport, s: Shut, s': Shut, stage: CloseStage)
    requires ReportInv(t, s) && |s.winners| == 1 && !s.winners[0].stage.Finished? && !stage.Finished?
    requires s'.reports == s.reports && s'.winners == [s.winners[0].(stage := stage)]
    ensures ReportInv(t, s')
  {
  }

  lemma FinishedReports(t: Transport, s: Shut)
    requires ReportInv(t, s) && |s.winners| == 1 && !s.winners[0].stage.Finished?
    ensures var c := s.winners[0];
            ReportInv(t, s.(winners := [c.(stage := Finished)], reports := if c.reports then s.reports + [c.reason] else s.reports))
  {
    hide OwnErrors;
    OwnErrorsNext(s.reports, s.winners[0].reason);
  }

  lemma AdvanceKeepsReports(s: Conn, i: nat)
    requires |s.shut.winners| <= 1 && ReportInv(s.transport, s.shut) && CloseEnabled(s, Advance(i))
    ensures ReportInv(s.transport, AdvanceCloser(s, i).shut)
  {
    hide ReportInv;
    var s' := AdvanceCloser(s, i);
    var c := s.shut.winners[0];
    if c.stage.Returned? {
      FinishedReports(s.transport, s.shut);
      assert s'.shut.winners == [c.(stage := Finished)];
    } else {
      var stage := s'.shut.winners[0].stage;
      assert s'.shut.winners == [c.(stage := stage)];
      UnfinishedReports(s.transport, s.shut, s'.shut, stage);
    }
  }

  lemma AdvanceKeepsRest(s: Conn, i: nat)
    requires DrainInv(s.gate, s.line) && LifeInv(s) && CloseEnabled(s, Advance(i))
    ensures var s' := AdvanceCloser(s, i);
            && DrainInv(s'.gate, s.line) && LifeInv(s')
            && s'.line == s.line && s'.transport == s.transport && s'.life == s.life && s'.gate.sends == s.gate.sends
  {
    hide NoneInFlight;
  }

  lemma AdvanceKeepsShut(s: Conn, i: nat)
    requires CloseInv(s.shut) && EffectInv(s.gate, s.shut) && CloseEnabled(s, Advance(i))
    ensures CloseInv(AdvanceCloser(s, i).shut) && EffectInv(AdvanceCloser(s, i).gate, AdvanceCloser(s, i).shut)
  {
  }

  lemma AdvanceKeepsExits(s: Conn, i: nat)
    requires Inv(s) && CloseEnabled(s, Advance(i))
    ensures ExitInv(s.line.writer, AdvanceCloser(s, i).shut, s.life.supervisor)
  {
    hide SendInv, LineInv, DrainInv, LifeInv, EffectInv, ReportInv;
    assert i == 0;
  }

  lemma AdvanceKeeps(s: Conn, i: nat)
    requires Inv(s) && CloseEnabled(s, Advance(i))
    ensures Inv(AdvanceCloser(s, i))
  {
    hide SendInv, LineInv, ReportInv, EffectInv, ExitInv, DrainInv, LifeInv, AdvanceCloser;
    AdvanceKeepsReports(s, i);
    AdvanceKeepsRest(s, i);
    AdvanceKeepsShut(s, i);
    AdvanceKeepsExits(s, i);
  }

  lemma CloseKeeps(s: Conn, a: CloseAction)
    requires Inv(s) && CloseEnabled(s, a)
    ensures Inv(CloseStep(s, a))
  {
    hide Inv, AdvanceCloser;
    match a
    case Request(_, _, _, _, _) => RequestKeeps(s, a);
    case Advance(i) => AdvanceKeeps(s, i);
    case EarlyReport(_, _) => ReportKeeps(s, a);
  }

  // -- start and supervise

  lemma SuperviseKeepsShut(s: Conn)
    requires CloseInv(s.shut) && ReportInv(s.transport, s.shut) && EffectInv(s.gate, s.shut) && DrainInv(s.gate, s.line)
    requires !s.life.supervisor.Gone?
    ensures var s' := SuperviseOne(s);
            && CloseInv(s'.shut) && ReportInv(s.transport, s'.shut) && EffectInv(s'.gate, s'.shut)
            && s'.line == s.line && s'.transport == s.transport
            && DrainInv(s'.gate, s.line) && s'.gate.sends == s.gate.sends
  {
    hide OwnErrors, NoneInFlight, InDrain, OwnError;
  }

  lemma SuperviseKeeps(s: Conn)
    requires Inv(s) && LifeEnabled(s, Supervise)
    ensures Inv(SuperviseOne(s))
  {
    hide SendInv, LineInv, DrainInv, CloseInv, ReportInv, EffectInv;
    SuperviseKeepsShut(s);
  }

  lemma LifeKeeps(s: Conn, a: LifeAction)
    requires Inv(s) && LifeEnabled(s, a)
    ensures Inv(LifeStep(s, a))
  {
    hide SendInv, Wire, Encodable, BytesOf, NoneInFlight, Busy, ReportInv, SuperviseOne;
    if a.Supervise? {
      SuperviseKeeps(s);
    }
  }

  lemma InvStep(s: Conn, step: Step)
    requires Inv(s) && Enabled(s, step)
    ensures Inv(Apply(s, step))
  {
    hide Inv, SendStep, WriterStep, DrainStep, CloseStep, LifeStep, SendEnabled, WriterEnabled, DrainEnabled, CloseEnabled, LifeEnabled;
    match step
    case Sender(id, a) => SendKeeps(s, id, a);
    case WriterDoes(a) => WriterKeeps(s, a);
    case Drains(a) => DrainKeeps(s, a);
    case Closes(a) => CloseKeeps(s, a);
    case Lives(a) => LifeKeeps(s, a);
  }
}

