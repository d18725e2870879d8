# Ramix in Dafny

Ramix is a framed message server over TCP and WebSocket. This project models its concurrent and arithmetic core and
proves what its design promises: the streaming frame decoder, the send/drain/close protocol of a connection, the worker
pool, the connection registry, phased shutdown, the server's life cycle, and the lock-free counters.

## How it is modelled

- Code that runs undisturbed and works step by step is imperative Dafny: the frame decoder's `Decode` over its carry-over
  buffer, `Encode` filling an array, the two read loops, `writeFull`, the re-entrant `Next` of a handler chain, and the
  critical sections of the connection, the pool and the connection manager (module `Sections`).
- Code that runs concurrently is a transition system over a value that holds the shared fields. A step is one mutex
  section, one channel operation, one cancellation, one load or compare-and-swap, or one write on a transport. A run is
  any sequence of steps, so a statement about a run is a statement about every interleaving. Timers, the callers'
  contexts, the peer and the operating system are steps that may happen at any moment, or values of any kind.
- `Shutdown` composes the pool, every connection, the registry, the owner's phases and the connection setups into one
  system whose runs interleave the steps of all parts. Its parts' invariants are used there, not proved again.
  `WholeServer` runs that system inside the life cycle of `Run` and `Shutdown` calls.
- Three kinds of statement are proved of each transition system: what holds in every state of every run; which move each
  part makes, so that nothing is refused, skipped or given up without its reason; and, in place of liveness, that from
  every state of every run the end can still be reached, so that nothing ever waits for what cannot happen.
- Go's `int` and `uint64` are 64 bits wide. The frame decoder states wrap-around and overflow guards explicitly.

Modules: `Bytes` (byte order), `FrameDecoding`, `MessageCodec`, `Readers`, `SocketWrite`, `Connection`, `WorkerPool`,
`Registry`, `Shutdown`, `Lifecycle`, `WholeServer`, `Stats`, `HandlerChain`, `Sections`, and beside the transition systems
up to four modules about their runs: `…Runs` with what always holds, `…Flow` with which way things go where the code
decides, `…Progress` with what can always still be reached, and `ConnectionLoss`, `RegistryReads` and `ShutdownCleanly`. `dafny verify dfyconfig.toml` checks everything.

## What the proofs brought to light

- The configuration check does not compare the number of bytes to strip with the frame limit, so it accepts decoders
  that refuse every frame. `FrameDecoding.DeliversSomething` gives the exact condition under which an accepted decoder can
  deliver a frame at all.
- A call of `Decode` that fails discards the good frames it found before the bad one, so what a receiver gets before an
  error depends on how the stream was cut. `FrameDecoding.CutsMatterHere` shows one stream and two cuts of it;
  `FrameDecoding.DeliveredBeforeError` says, for every cut, what is delivered and exactly when it is everything.
- Delivery of accepted messages holds for a connection that drains before any close request wins. A request that wins
  earlier can drop any accepted message: `ConnectionLoss.AcceptedMessageLost` builds the run, and
  `ConnectionLoss.ExactDelivery` says in every state of every run which accepted messages are on the socket.

## Model

| member | source | states |
|---|---|---|
| FrameDecoding.ValidationIsExact | frame_decoder.go:98-159 | For a given byte order, supported width and non-negative offset and strip, the configuration is accepted if and only if some value of the length field passes every length check |
| FrameDecoding.AdjustmentIsExact | frame_decoder.go:252-278 | Under an accepted configuration the guarded 64-bit sum is the exact integer sum, and it is refused only when that is negative: the positive-overflow branches are unreachable |
| FrameDecoding.ReadLengthField | frame_decoder.go:226-250 | The value read is the field's bytes in the configured byte order, and only a value above the signed maximum is refused |
| FrameDecoding.TwoBytes | frame_decoder.go:232-233 | Two bytes in either order, byte by byte |
| FrameDecoding.FourBytes | frame_decoder.go:239-240 | Four bytes in either order, byte by byte |
| FrameDecoding.EightBytes | frame_decoder.go:241-246 | Eight bytes are two fields of four, low one first or last |
| FrameDecoding.DecodeOneMeaning | frame_decoder.go:184-224 | In exact arithmetic: which announced length gives which refusal, when a frame is incomplete, and which bytes are delivered otherwise |
| FrameDecoding.DecodeOne | frame_decoder.go:184-224 | A frame consumes at least one byte and no more than the input has, so the decoding loop ends and no slice is out of range; an input left incomplete is shorter than the frame limit |
| FrameDecoding.DecodeOneIsStable | frame_decoder.go:184-224 | Bytes that arrive later never change a frame or an error already decided |
| FrameDecoding.PendingIsShort | frame_decoder.go:161-182 | After success fewer than the frame limit's bytes are pending and no complete frame is among them |
| FrameDecoding.NothingIsLost | frame_decoder.go:161-224 | A successfully decoded input is its raw frames followed by the pending bytes, and each delivered frame is its raw frame decoded by itself |
| FrameDecoding.StreamSplits | frame_decoder.go:161-182 | Decoding a stream in two parts, with the carry-over in between, is decoding it at once |
| FrameDecoding.ChunkIndependence | frame_decoder.go:161-224 | However a stream is cut, the chunks and the whole both succeed with the same frames and pending bytes, or both fail with the same error, the delivered frames being a prefix of the good ones |
| FrameDecoding.FeedBreaksAt | frame_decoder.go:161-182 | A feed breaks at the first chunk that completes a bad frame, and has then delivered exactly the frames complete in the chunks before it |
| FrameDecoding.PrefixYieldsAll | frame_decoder.go:184-224 | A prefix of a stream yields all its good frames if and only if it reaches the end of their bytes |
| FrameDecoding.DeliveredBeforeError | frame_decoder.go:161-182 | What is delivered of a broken stream, for every cut, and that it is every good frame if and only if the chunks before the failing one reach the end of the good frames |
| FrameDecoding.CutsMatter | frame_decoder.go:168-173 | A stream that breaks after a clean part delivers nothing in one chunk and the frames of that part when cut behind it |
| FrameDecoding.CutsMatterHere | frame_decoder.go:168-173 | A concrete stream, an empty frame and a header beyond the limit, with two cuts that deliver differently |
| FrameDecoding.DeliversSomething | frame_decoder.go:98-159 | An accepted configuration can deliver a frame if and only if it strips no more than its longest frame |
| FrameDecoding.UselessConfiguration | frame_decoder.go:98-159 | A concrete accepted configuration, a limit of 10 bytes and 11 to strip, that delivers no frame of any input |
| FrameDecoding.FrameDecoder.Decode | frame_decoder.go:161-182 | The call returns the frames of carry-over and input and keeps the pending bytes; an error empties the buffer and returns nothing |
| FrameDecoding.NewFrameDecoder | frame_decoder.go:66-87 | Options apply in order, a nil one is refused, and the result is a fresh decoder exactly when the configuration is accepted |
| FrameDecoding.SettingsAreIndependent | frame_decoder.go:30-64 | Each option sets its own field and no other; of two for one field the later wins, and two for different fields commute |
| FrameDecoding.LastSettingLast | frame_decoder.go:69-74 | One more option is applied after all the others |
| MessageCodec.Encode | encoder.go:16-50 | The bytes written are the message's wire image, and a body is refused exactly when its length exceeds the limit |
| MessageCodec.PutUint32 | encoder.go:23-24 | Four array bytes become the little-endian image of the value and the rest of the array stays |
| MessageCodec.MessageRoundTrip | decoder.go:20-50 | Decoding an encoded message gives back its event and body and the body's true size |
| MessageCodec.MessageRoundTripBack | decoder.go:20-50 | Whatever decodes is the encoding of what it decodes to |
| MessageCodec.ConnectionSettings | connection.go:91-95 | The three options a connection passes give little-endian lengths at offset 4, four bytes wide, with the server's limit |
| MessageCodec.ServerOptionsValid | connection.go:91-98 | That configuration is accepted exactly when the limit admits the eight-byte header |
| MessageCodec.DecodeOneWire | frame_decoder.go:184-224 | Whatever follows it, an encoded message within the limit is read as one frame |
| MessageCodec.DecodeOnePartial | frame_decoder.go:184-224 | A proper prefix of an encoded message is neither a frame nor an error |
| MessageCodec.RoundTrip | frame_decoder.go:161-224 | Messages within the limit, encoded, concatenated and cut arbitrarily, come back as the same frames and messages with nothing pending |
| MessageCodec.RoundTripBack | decoder.go:20-50 | Under the server's configuration no delivered frame is refused by the message decoder, and encoding its message gives the frame back |
| Readers.Reader.HandOver | tcp_connection.go:67-91 | Messages go to the request handler in frame order, up to and including the first not accepted, or up to the first frame that is no message |
| Readers.Reader.ProcessInput | tcp_connection.go:61-92 | After one input everything complete has been handed over and accepted, or the stream is broken, or the last message handed over is the one not accepted |
| Readers.Reader.EndTcp | tcp_connection.go:39-57 | Which ending a failed read gives: cancelled, failed, ended by the peer with or without a partial frame |
| Readers.Reader.ReadTcp | tcp_connection.go:15-59 | For every series of reads: why the reader ended, tied to what the last read returned, what all bytes read are and what was answered; all reads before it let it go on |
| Readers.OneEnding | tcp_connection.go:15-59 | The reasons exclude each other: what was read and answered decides the ending |
| Readers.Reader.ReadMessage | ws_connection.go:45-112 | One WebSocket message is handed over only if it is binary, non-empty and a series of whole frames by itself; otherwise nothing of it is |
| Readers.Reader.ReadWebSocket | ws_connection.go:43-113 | For every series of messages: which were handed over completely, and why the reader ended at the next |
| Readers.GoodFramesAreMessages | tcp_connection.go:67-71 | Under the server's configuration the message decoder accepts every frame the reader is given |
| Readers.SentIsHandedOver | tcp_connection.go:61-92 | When the peer has sent encodings of messages and part of one more, the reader hands over the first of those messages in order |
| SocketWrite.WriteFull | tcp_connection.go:97-112 | Nil exactly when every write made progress until the whole frame was out; otherwise all writes but the last did, and the error names why the last did not: count out of range, failure or no progress; a prefix of the frame is on the wire |
| SocketWrite.WriteOut | tcp_connection.go:97-112 | A frame goes out whole if and only if the writes get it through piece by piece before any that makes no progress |
| Connection.InvStep | connection.go:149-370 | Every step of a connection keeps its invariant: queue and socket contents, send places, drain gate, single winner, reports, exits, effects of closing, and life |
| Connection.SendKeeps | connection.go:163-181 | An accepted send has its own place in the order of enqueues, its message is there, and the gate lets none in once the writer is told to drain |
| Connection.WriterKeeps | connection.go:211-257 | Between any two writes the socket holds whole frames of the messages written and at most the written part of one more |
| Connection.DrainKeeps | connection.go:259-303 | Quiescing and draining keep the invariant: the writer is told to drain only with the gate shut and no send in flight |
| Connection.CloseKeeps | connection.go:305-343 | Requests, the body of `closeOnce` and error reports keep the invariant: one winner, its reason, its effects, its report |
| Connection.LifeKeeps | connection.go:345-370 | Start, the children's ends and the supervisor keep the invariant |
| ConnectionRuns.GracefulDelivery | connection.go:211-247 | If no close request wins before the writer has stopped, then by the time the transport closes the socket holds exactly the frames of the `Send` calls that returned nil, one for each, whole and in enqueue order, and no frame of a refused one |
| ConnectionLoss.ExactDelivery | connection.go:211-257 | In every state of every run the frame of an accepted send is wholly on the socket if and only if its place is below the number of messages a peer reads from it, which is the number written or one more |
| ConnectionLoss.AcceptedMessageLost | connection.go:214-223 | For any message, a run in which its `Send` returned nil, a close request of the reader won first, and at the end nothing is on the closed socket |
| ConnectionRuns.NothingAfterDrain | connection.go:280-295 | From the moment the writer is told to drain nothing is ever enqueued again, so an empty queue stays empty |
| ConnectionRuns.WholeFramesAndOnePart | connection.go:211-257 | At every moment the socket holds the frames of the first messages and a proper prefix of the next |
| ConnectionRuns.PeerReadsAPrefix | connection.go:211-257 | In every state of every run, forced closes and failed writes included, a peer with the server's layout decodes exactly a prefix of the enqueued messages from the socket, in whatever chunks it reads |
| ConnectionRuns.CloseProtocol | connection.go:317-370 | The phase only moves forward, at most one close request wins, its reason is never overwritten, and the close hook runs at most once and only after the open hook and every child have ended |
| ConnectionRuns.ClosedForGood | connection.go:327-341 | Once a drain has shut the gate or a winning request has returned, every new send is refused; the latter also has cancelled reads and writer and closed the transport |
| ConnectionRuns.OneReport | ws_connection.go:115-119 | A WebSocket connection reports at most one read, write, protocol or task error in its life, equal to the recorded close reason |
| ConnectionFlow.Flow | connection.go:149-370 | In every run every part of a connection makes only the move that is due: a new send is refused if and only if the gate is shut or the connection closing; the writer looks at the force flag between messages, drains when told, stops in the drain if and only if nothing is queued, fails only when a write does, and then asks to close with a report; a request wins only on a connection not yet closing, goes through its stages in order and is reported when through; the supervisor takes its actions in order after all children |
| ConnectionFlow.QuiescedStillSends | connection.go:163-169 | As long as the drain has not shut the gate and no request has won, every new send passes, quiesced or not |
| ConnectionFlow.RefusedGaveUp | connection.go:172-181 | A send that passed the gate ends in a refusal only after giving up waiting for the queue |
| ConnectionFlow.ForcedWriterStops | connection.go:214-223 | Once forced, a writer that is not told to drain takes at most one message more |
| ConnectionFlow.Settled | connection.go:345-353 | When a connection leaves its shard its reads, sends and writer are cancelled and its transport closed, whether or not a request ever won |
| ConnectionFlow.QueueIsBounded | connection.go:119-119 | The outgoing queue never exceeds its capacity |
| ConnectionProgress.CanAlwaysFinish | connection.go:184-370 | From any state of any run the connection can come to its end, with its close hook run once and its transport closed |
| ConnectionProgress.CanAlwaysDrain | connection.go:211-303 | From any state in which no request has won and no write has failed, the drain can complete with all accepted messages on the socket |
| WorkerPool.InvStep | worker_pool.go:50-177 | Every step of the pool keeps its invariant: places of tasks, gate and channels, cancellation, counters, order |
| WorkerPool.SubmitKeeps | worker_pool.go:66-88 | Every step of a submission, the send and its refusals included, keeps the invariant |
| WorkerPool.WorkerKeeps | worker.go:12-37 | Every step of a worker keeps the invariant |
| WorkerPool.IntakeKeeps | worker_pool.go:90-143 | Starting, stopping and every stage of a drain keep the invariant |
| WorkerPool.CancelKeeps | worker_pool.go:145-149 | Every step of a forced cancellation, and a parent's cancellation, keep the invariant |
| WorkerPool.SnapshotCovers | worker_pool.go:179-189 | A snapshot taken after intake is shut covers every task that has not passed its cancellation check |
| WorkerPoolRuns.NoPanic | worker_pool.go:66-88 | In no run is anything sent on a closed task channel, and the queued-tasks gauge is never decremented at zero |
| WorkerPoolRuns.IntakeNeverReopens | worker_pool.go:90-143 | Once a started pool stops accepting, or any channel is closed, intake never reopens and nothing is accepted any more |
| WorkerPoolRuns.NoHandlersAfterExpiry | worker_pool.go:130-149 | After a drain has returned because its context expired, no task that had not passed its cancellation check ever runs its handlers |
| WorkerPoolRuns.ConnectionOrder | worker_pool.go:157-163 | Each accepted task is received at most once, and for every connection the tasks received are the first of those accepted, in order, the rest being in its worker's queue |
| WorkerPoolRuns.MutualExclusion | worker.go:16-33 | At most one handler chain per connection runs at a time |
| WorkerPoolRuns.RegistryIsExact | worker_pool.go:165-177 | The task registry is exactly the tasks being submitted, queued or in a worker's hands |
| WorkerPoolRuns.CompletedDrain | worker_pool.go:117-127 | When the pool has drained the registry is empty and every accepted task was received exactly once and finished, for good |
| WorkerPoolRuns.Accounting | stats.go:138-160 | Per transport, received messages are those with a reader, those declined while stopping, those inside `submit`, those rejected and those accepted; accepted tasks are waiting, in progress, completed or skipped; the gauge counts those waiting or being sent |
| WorkerPoolRuns.AccountingAfterDrain | worker.go:21-33 | After a completed drain the gauge is zero and received messages are those with a reader, declined, rejected, completed and skipped |
| WorkerPoolRuns.ForceCancelCovers | worker_pool.go:145-149 | Whatever happens meanwhile, when a call of `forceCancel` returns every task registered at its snapshot is cancelled |
| WorkerPoolFlow.Flow | worker_pool.go:66-88 | In every run a task makes only the move that is due: declined if and only if intake was shut, rejected if and only if its worker's queue was full, run if and only if not cancelled at its check |
| WorkerPoolFlow.HandledUnlessCancelled | worker.go:26-32 | A task that leaves its cancellation check has its handlers started if and only if it was not cancelled there |
| WorkerPoolFlow.SkippedWasCancelled | worker.go:26-28 | A task is skipped only because it was cancelled when its worker looked |
| WorkerPoolFlow.EveryAcceptedTaskRuns | worker.go:21-33 | If no task is cancelled before its check, a completed drain has run the handlers of every accepted task and the completed count is the accepted count |
| WorkerPoolFlow.QueuesAreBounded | worker.go:42-48 | No worker's queue exceeds its capacity |
| WorkerPoolFlow.ConnectionsGoRound | worker_pool.go:157-163 | Connections are spread over the workers by number, round and round, and requests without one go to the first |
| WorkerPoolProgress.CanAlwaysDrain | worker_pool.go:90-137 | From any state of any run of a started pool the drain can complete with every accepted task received |
| Registry.InvStep | manager.go:38-142 | Every step keeps a connection in its shard or in the finalizing set until it is marked finalized, and what each `waitAll` knows |
| Registry.WaitAllMeansFinalized | manager.go:102-126 | When `waitAll` returns nil every connection registered before the call has closed its `done` channel and been marked finalized |
| Registry.NoLostWakeup | manager.go:133-142 | A parked `waitAll` whose channel is open waits for a connection that has yet to be marked finalized |
| Registry.RoundsAreBounded | manager.go:102-126 | `waitAll` goes round at most once for each connection finalized during the call |
| Registry.WaitAllDecides | manager.go:102-126 | `waitAll` stops with nil if and only if it finds no connection left, goes round again only when one has been finalized since it looked, and only a wait ends in an error |
| Registry.NothingToWaitFor | manager.go:104-109 | On a registry without connections it never waits and never fails |
| RegistryProgress.CanAlwaysReturn | manager.go:102-126 | From any state of any run a call that has not failed can return nil |
| RegistryReads.SnapshotUnderInterference | manager.go:64-84 | Read shard by shard while anything happens, a snapshot holds every connection registered from its first to its last read and only connections registered at some moment between, and the count is the size of such a snapshot |
| Shutdown.InvStep | server.go:371-464 | Every step of the whole server keeps the link between connections and registry, what each phase of the owner has established, what its walks have quiesced, asked and closed, and the invariants of all parts |
| Shutdown.ProceedKeeps | server.go:371-421 | Every phase change of the owner keeps that invariant |
| Shutdown.WinnerKept | server.go:384-393 | No step of a connection itself undoes that the server's own close request, if it won, won only after the connection had drained |
| ShutdownRuns.CleanShutdown | server.go:371-421 | Without a timeout, at Stopped nothing is registered or finalizing, every connection is finished and the frames on its socket are those of its accepted sends, one for one, unless it closed for a reason of its own, every accepted task was received exactly once and finished, every service has exited and every listener is closed |
| ShutdownRuns.WaitAllMeansClosed | manager.go:102-126 | When any `waitAll` returns nil, every connection registered before the call has run its close hook once, after its open hook and its children ended, has closed its transport and is marked finalized |
| ShutdownRuns.NoTaskAfterStop | server.go:376-377 | From the owner's first step on no task is accepted, timed out or not |
| ShutdownRuns.NoConnectionAfterQuiesce | server.go:377-382 | From the quiesce snapshot on no connection is added unless the shutdown has timed out |
| ShutdownFlow.OwnersWalks | manager.go:86-100 | After quiescing no connection is open and all reads are cancelled; after forced closing each is closing or closed with the server's request through, or has left its shard; timed out or not, so is each that the walk found |
| ShutdownFlow.BroughtDown | connection.go:327-341 | A connection that the server's own request closed has everything cancelled, its transport closed and that reason recorded |
| ShutdownFlow.NothingShutsEarly | server.go:371-393 | Intake, setups, the pool's drain and the connections' drains are untouched until the owner reaches each in turn |
| ShutdownFlow.RepliesPass | server.go:382-388 | While the pool drains handlers can still reply: no send is refused on a connection on which no close request has won |
| ShutdownFlow.PhasesInOrder | server.go:371-421 | The owner leaves out no phase, takes the late ones only after a timeout, and only its waits time out |
| ShutdownFlow.NoHandlersAfterTimedOutShutdown | server.go:409-420 | After a shutdown that timed out no task whose handlers had not started ever runs them |
| ShutdownProgress.CanAlwaysStop | server.go:371-421 | From any state of any run the owner can publish Stopped, whatever connections, pool and registry are doing |
| ShutdownCleanly.CanAlwaysStopCleanly | server.go:371-421 | From any state of any run in which no wait of the owner has failed, the shutdown can still end in the clean state |
| ShutdownCleanly.CanSetUp | server.go:432-440 | Until the owner stops setups, a connection can be set up and registered in its shard |
| ShutdownCleanly.DrainsRest | server.go:387-392 | The owner can drain every connection it found, one after another, whatever state each is in |
| Lifecycle.InvStep | server.go:101-421 | Every step of any number of `Run` and `Shutdown` calls and of the owner keeps the life cycle's invariant |
| Lifecycle.StartupProtocol | server.go:101-192 | The state only moves forward, at most one `Run` claims the server, rollback and the owner never both happen, and Running is published only with every transport bound |
| Lifecycle.RollbackClosesListeners | server.go:350-360 | If startup ends without Running, every bound listener is closed before `startupDone` |
| Lifecycle.EarlyShutdownWins | server.go:204-213 | A `Shutdown` that observes Starting keeps the server from ever running |
| Lifecycle.ShutdownResultIsStable | server.go:194-242 | Every `Shutdown` that returns after completion returns the same result |
| LifecycleFlow.Flow | server.go:101-262 | In every run every `Run` and `Shutdown` call makes only the move that is due, and a new call gets what the state of the server says |
| LifecycleFlow.StoppingHasOwner | server.go:214-218 | A stopping server has its owner, or some call is about to spawn it |
| LifecycleFlow.StartupCanSucceed | server.go:101-167 | However many transports there are, startup can reach Running with all of them bound |
| LifecycleFlow.CanAlwaysStop | server.go:101-421 | From any state in which a `Run` has claimed the server it can be brought to Stopped |
| WholeServer.InvStep | server.go:101-470 | Every step of calls, components and owner together keeps the life cycle and the phases in agreement about publication and result |
| WholeServer.NilShutdownMeansClean | server.go:194-242 | A `Shutdown` that returns after completion returns nil if and only if no wait of the owner timed out; nil after serving means the clean state, nil without it that nothing was started and every bound listener is closed |
| Stats.SaturatedSum | stats.go:267-272 | The sum capped at the limit, without overflow |
| Stats.InvStep | stats.go:227-265 | Every load and compare-and-swap keeps the counter equal to its completed calls one after another |
| Stats.Linearizable | stats.go:227-265 | Under every interleaving the value is what the calls of the history produce one after another; the history and the returned calls correspond one to one; a call that returned before another began stands before it |
| Stats.AdditiveRun | stats.go:227-241 | In every state of every run a counter only added to is min(limit, sum of the deltas of the returned calls) |
| Stats.MaximumRun | stats.go:255-265 | In every state of every run a maximum is the largest candidate of the returned calls |
| Stats.GaugeRun | stats.go:243-253 | In every run in which no more decrements than increments have returned at any moment, a gauge is the difference of their numbers |
| StatsProgress.CallCanReturn | stats.go:227-265 | In any state of any run a call can return by at most three steps of its own, whatever the others are doing |
| StatsProgress.RetryMeansProgress | stats.go:227-265 | A call that has to try again was beaten by one that took effect since it loaded |
| Stats.TotalIsOneCounter | stats.go:211-225 | On a quiet system an additive field of the total is one saturating counter fed by both transports' histories in any merge |
| Stats.RequestDurations | stats.go:170-183 | However the calls of concurrent requests interleave on the three counters, these are the number of requests, the time spent and the longest, each at its own limit, and reading them as durations cuts nothing off |
| Stats.TotalRequests | stats.go:211-225 | The request fields of the total describe both transports' concurrent requests as one series, and the total time is at most the number times the longest |
| HandlerChain.Context.Next | context.go:25-31 | Whoever calls it and however often, `Next` ends having started every handler exactly once, in index order |
| HandlerChain.RunChain | context.go:91-105 | A fresh context's outer `Next` starts the handlers 0, 1, 2 and so on to the last |
| Sections.ShardsHoldTheRegistered | manager.go:38-62 | The shards together hold exactly the registered connections that have not left |
| Sections.ConnectionManager.RemoveConnection | manager.go:45-54 | Removal is two steps of the registry, first into the finalizing set and then out of the shard, and at no point is the connection in neither |
| Sections.ConnectionManager.AddConnection | manager.go:38-43 | A new connection joins the registered ones in its own shard, keeping the registry's invariant |
| Sections.ConnectionManager.MarkFinalized | manager.go:56-62 | Marking keeps the registry's invariant, leaves the connection in no shard and no set, and wakes every `waitAll` parked before it |
| Sections.ConnectionManager.ConnectionsCount | manager.go:64-72 | Undisturbed, the count over all shards is the number of registered connections |
| Sections.ConnectionManager.Snapshot | manager.go:74-84 | Undisturbed, the snapshot is exactly the registered connections |
| Sections.WorkerPool.StartGate | worker_pool.go:50-60 | The gate keeps the pool's invariant and opens only on a new pool, all of whose channels are open |
| Sections.WorkerPool.DrainSection | worker_pool.go:95-115 | The write-locked section of a drain shuts intake and closes every channel, keeping the pool's invariant at every iteration |
| Sections.WorkerPool.ForceCancel | worker_pool.go:145-149 | Undisturbed, exactly the registered tasks are cancelled |
| Sections.NetConnection.MarkDraining | connection.go:281-285 | Keeps the connection's invariant; afterwards it is not open, requests for open connections lose, and whether other requests lose has not changed |
| Sections.NetConnection.RequestClose | connection.go:317-343 | A request that loses changes nothing; one that wins leaves the reason, the shut gate, all cancellations and the closed transport, and the connection's invariant holds |
| Sections.CloseRunsThrough | connection.go:327-341 | The body of `closeOnce` run to its end keeps the connection's invariant |

## Left out

- Sockets, TLS, the HTTP upgrade and WebSocket framing itself: foreign code, here any outcome of a read, write or close.
- heartbeat.go timers and wall-clock time: an expiry is a close request that may come at any moment and is refused unless the connection is open.
- option.go validation and setters, the router, mode, logging, recovery, statistics export: independent field checks, copying and formatting.
- Handlers that panic: an unrecovered panic ends the process, so handlers return normally here.
- A single error report on TCP: the TCP reader reports before it asks to close, so only the WebSocket form is a property of the code.
- `MaxConnectionsCount`: WebSocket upgrades read the count and add later without a common lock, so it is no invariant across transports.
- Liveness under fairness: handlers and I/O that never return are possible; the rows about progress state that the end can still be reached, not that it will be.
- Connection, WorkerPool, Registry, Shutdown, Lifecycle and the counters are transition systems on values, because Dafny's methods run undisturbed; Sections ties their critical sections to fields updated in place, and does not capture aliasing between the objects.
- Sections.ConnectionManager.ConnectionsCount: undisturbed only, since a method runs alone; interference is in RegistryReads.SnapshotUnderInterference.
- Sections.ConnectionManager.Snapshot: undisturbed only; interference is in RegistryReads.SnapshotUnderInterference.
- Sections.WorkerPool.ForceCancel: undisturbed only; interference is in WorkerPoolRuns.ForceCancelCovers.
- WorkerPoolRuns.Accounting: counters there are unbounded; saturation at 64 bits is in Stats.
- HandlerChain.Context.Next: the index does not wrap around at 64 bits, which would take that many calls of `Next`.
- SocketWrite.WriteFull: the transport reports its counts truthfully when they are in range; a count out of range may hide any prefix.
- Ownership of the bytes of a frame: sequences are values, so a handler that keeps and overwrites a slice is not modelled.
- Byte and message counts of the traffic counters, and the addresses and hooks registered before `Run`.
