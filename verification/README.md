# A verified model of the zmux Python binding's own machinery

The binding leaves the protocol to crates of its own and adds what runs between
them and Python: a gate at interpreter exit, bridges between Rust futures and
asyncio, layers over carriers with an asyncio transport below them, a buffered
stream writer, a request and reply loop between two threads, stream handles that
can be used up, and a small seeded generator. This project models that machinery
in Dafny and proves what it promises, over every interleaving and every input.

## How it is built

Concurrent and asynchronous code is a machine (`Runs.dfy`): a state, events that
may happen in it, and the one next state of each. A run is any legal sequence of
events, so a statement about runs covers every interleaving, any number of
threads, tasks, requests or handles, and any length. asyncio runs one piece of
code at a time, from one `await` to the next, so a piece is an event; a callback
made from inside a loop, which may call the object again before it returns, is a
position of its own. Sequentially consistent atomics make each access an event,
and a lock makes what is done under it one.

Beside a machine stands the object the source has, a class whose methods update
its fields step by step, each proved to do exactly what the machine's event does
and to keep the machine's invariant.

| file | what it models |
|---|---|
| `Runs.dfy`, `Octets.dfy` | runs, invariants and budgets of a machine; bytes and messages |
| `Gate.dfy`, `GateObject.dfy` | `attach` and `_shutdown`: EXITING and INFLIGHT |
| `TaskBridge.dfy`, `Bridges.dfy`, `BridgeObjects.dfy` | `into_future`, and `future_into_py` around it |
| `TransportMachine.dfy`, `TransportSafety.dfy`, `TransportTheorems.dfy`, `TransportObject.dfy` | `_CarrierTransport` |
| `LayerChannel.dfy` | `ChanIo` and `LayerEnd` |
| `Outbound.dfy`, `OutboundEnd.dfy`, `Inbound.dfy`, `Duplex.dfy`, `LayerLink.dfy` | the whole way out, the whole way in, both over one transport, and the channel ends in them |
| `WriterMachine.dfy`, `WriterTheorems.dfy`, `WriterObject.dfy` | `StreamWriter` |
| `Exporter.dfy` | `with_info` and `CarrierInfo.export` |
| `Words.dfy`, `SplitMix.dfy` | SplitMix64 and seed folding |
| `Handles.dfy` | stream handles, `pair` and `splice` |

## What the proofs found

Some statements one would expect do not hold of the code as it is. The code is
kept as it is; the lemmas named show a case that fails and say exactly when the
statement holds:

- A runtime thread refused inside a closure of its own parks with its outer level
  still counted: INFLIGHT then never reaches 0, and the exit hook waits its whole
  second (`Gate.NestedNeverDrains`, `Gate.DrainsUnlessNested`).
- An empty session write reads as the end in `down`: what follows it never reaches
  the carrier (`OutboundEnd.EmptyWriteLosesTheRest`). While only the layer closes the
  transport, all writes arrive exactly when none is empty
  (`OutboundEnd.AllWritesArrive`).
- A protocol that closes the transport at the carrier's end, or any other close, cuts
  the way out off without an error (`OutboundEnd.ClosingProtocolLosesWrites`): where
  nothing fails, all writes arrive exactly when the transport had accepted the last one before it closed
  (`OutboundEnd.ClosingCutsThere`).
- The session's shutdown ends its reads: it loses the transport, and the session's read
  then comes back empty and clean though the carrier has not ended and a chunk it gave
  was dropped (`Duplex.ShutdownCutsReads`, `Duplex.ShutdownEndsReads`). A clean end is
  the carrier's, with every byte, exactly when `eof_received` was called before the
  loss (`Inbound.EveryByteIfEofFirst`).
- A transport lost inside `data_received`, as by `abort()`, keeps reading: more can
  always be delivered after `connection_lost` was scheduled. Lost anywhere else, it
  delivers nothing more (`TransportTheorems.LossInsideDelivery`,
  `TransportTheorems.AbortInsideDelivery`, `TransportTheorems.LossStopsReading`).
- A call that panics while Python still holds its view leaves `with_info` waiting
  until the view is dropped (`Exporter.PanicHoldsTheServer`,
  `Exporter.NobodyIsStuck`).
- `splice` takes its first stream before it looks at the second: if that is refused,
  the first is used up though the call failed (`Handles.SpliceUsesUpTheFirst`,
  `Handles.SpliceTakes`).
- After a failed stream write `StreamWriter` can still go on and finish the stream,
  with the bytes of the failed write missing (`WriterTheorems.FinishAfterFailure`). A
  finished stream misses bytes exactly when a flush task failed before the stream had
  taken its buffer and a later write made another (`WriterTheorems.FinishMisses`).
- With two producers `drain` can return with more than its limit queued
  (`WriterTheorems.DrainWithTwo`): exactly when more than the limit was written, and
  not yet sent off, since the flush task it waited for was over
  (`WriterTheorems.DrainLeaves`). With one producer it cannot
  (`WriterTheorems.DrainAlone`).
- The documentation of `future_into_py` says that cancelling the asyncio future, or
  dropping it unawaited, drops the Rust one. Letting go of it drops nothing, for the
  spawned task has a reference too (`Bridges.LetGoDropsNothing`); and other code that
  sets it drops the Rust one uncancelled (`Bridges.SetByOthersDrops`). With gate and
  loop open and nothing left to do, the Rust future was dropped unfinished exactly when
  the asyncio future is done and the Rust one never finished
  (`Bridges.DroppedIfDoneFirst`).
- Seed folding is injective on the seeds of one length exactly up to eight bytes
  (`SplitMix.InjectiveUpToEight`). It always separates seeds that differ in the last
  chunk only; when the last chunk is full it can hide any difference before it
  (`SplitMix.FoldCollides`).

## Model

| member | source | states |
|---|---|---|
| Gate.GateIsSafe | src/rt.rs:55-92 | For any number of threads and nested calls INFLIGHT is the number of open levels, positive whenever a level will take one off; once the hook read 0 no runtime thread is attached, then or in any later state |
| Gate.NothingAttachesAfterExit | src/rt.rs:68-76 | After EXITING is stored no thread has more attached levels than it had then, in any run, whether or not the hook timed out |
| Gate.ExitIsBounded | src/rt.rs:68-92 | After EXITING is stored the thread steps of any run are bounded by a measure of the state then and three for each thread spawned later, nested and late entries included |
| Gate.NotAtRest | src/rt.rs:68-78 | While an `attach` is under way some step of it can be taken |
| Gate.DrainsUnlessNested | src/rt.rs:68-76 | For every run that ends with no `attach` under way: INFLIGHT is 0 if and only if no level inside another read EXITING as set, anywhere in the run |
| Gate.PollDrains | src/rt.rs:86-91 | In every reachable state a poll of the hook ends it if and only if no thread has an open level, and else changes nothing |
| Gate.HookIs | src/rt.rs:83-92 | In every run the gate is closed if and only if the hook stored EXITING, and the hook gave up if and only if its time was up |
| Gate.FlatDrains | src/rt.rs:68-92 | Without re-entry at most four steps for each thread there is and three for each spawned later follow EXITING; INFLIGHT is 0 whenever no `attach` is under way, and a poll then ends the hook |
| Gate.NestedNeverDrains | src/rt.rs:70-74 | A thread parked inside a closure keeps INFLIGHT above 0 in every later state, so the hook never reads 0 |
| Gate.NestedIsReached | src/rt.rs:55-92 | A run that reaches such a state |
| Gate.LevelAlone | src/rt.rs:68-78 | A level that nothing interrupts leaves everything as it was, or, refused, parks its thread and leaves all else as it was |
| GateObject.Interpreter.EnterLevel | src/rt.rs:68-69 | The increment is the machine's event and keeps the invariant |
| GateObject.Interpreter.ReadGate | src/rt.rs:70 | The load answers EXITING and attaches or refuses the level |
| GateObject.Interpreter.LeaveLevel | src/rt.rs:62-67 | The decrement of a level left or refused; INFLIGHT does not go below 0 |
| GateObject.Interpreter.Attach | src/rt.rs:55-79 | Uninterrupted, the closure runs exactly if the thread is Python's own or the gate is open, and INFLIGHT is restored either way |
| GateObject.Interpreter.StoreExitingFlag | src/rt.rs:85 | The store is the machine's event |
| GateObject.Interpreter.PollInflight | src/rt.rs:88 | The poll answers yes if and only if INFLIGHT is 0, and then no runtime thread is attached |
| TaskBridge.StartedOrClosed | src/rt.rs:203-220 | However often `Start` is called the awaitable is started at most once or closed at most once, never both, and closed only after the Rust side was dropped |
| TaskBridge.DropReachesTheTask | src/rt.rs:203-262 | After a drop without a result, with `Start` called through: closed, or started with a cancel asked of the loop, unless the interpreter exits or the loop is closed |
| TaskBridge.ResultHandedOnce | src/rt.rs:229-234 | The result is sent at most once, and a returned result is the task's own |
| TaskBridge.NoCancelAfterResult | src/rt.rs:244-296 | In every run after the future returned no cancel is asked for |
| TaskBridge.CallsAre | src/rt.rs:203-220 | In every run the awaitable became a task if and only if a call of `Start` had the lock of a slot not dropped and `ensure_future` did not raise; was closed if and only if the slot was dropped and it has a `close`; was neither if and only if it raised, has no `close`, or was let go of unrun |
| TaskBridge.SenderIs | src/rt.rs:203-234 | In every run the result was sent if and only if `Done` ran for a waiting future, and the sender is gone if and only if it was let go of unused or used for no one |
| TaskBridge.NeverLeftWaiting | src/rt.rs:203-296 | Once the loop let go of `Start`, and of the task's callbacks if there is a task, a poll of the Rust future is ready |
| TaskBridge.RunTells | src/rt.rs:223-296 | In every run the task's outcome is the one it ended with, and the future returned, was dropped, parked, asked for a cancel or found the loop closed just as the run has it |
| TaskBridge.StepKeeps | src/rt.rs:187-297 | Every event keeps the one use of awaitable, sender and guard |
| Bridges.StepKeeps | src/rt.rs:108-297 | Every event of loop, runtime and environment keeps both bridges' invariants |
| Bridges.SetOnce | src/rt.rs:115-125 | The asyncio future is set at most once, and one that is cancelled or set never changes again |
| Bridges.CancelIsPassedOn | src/rt.rs:132-181 | Cancelled, or set by other code, and at rest: the Rust future was dropped and its awaitable closed, told to cancel or never a task; or it had finished and its outcome was discarded |
| Bridges.OutcomeIsSet | src/rt.rs:146-183 | Not cancelled and at rest: the task still runs, or the value set is the Rust outcome, the task's own if there was a task |
| Bridges.OutcomeArrives | src/rt.rs:115-297 | In every run with gate and loop open, no one else cancelling or setting the asyncio future and no awaitable lost, in which the task ends: once nothing is left to do the asyncio future has the task's outcome, or an exception for a value that does not convert |
| Bridges.TasksOutcomeIsSet | src/rt.rs:166-180 | In every run that loses no awaitable a future that was set has the task's outcome, or an exception for a value that does not convert |
| Bridges.SpoiledIfSpoils | src/rt.rs:203-220 | An awaitable never became a task and was not closed if and only if `ensure_future` raised, it has no `close`, or the loop let go of it |
| Bridges.TargetTells | src/rt.rs:132-181 | In every run the asyncio future is cancelled or set by others if and only if that happened |
| Bridges.EnvTells | src/rt.rs:160-181 | In every run gate and loop are open if and only if they were not closed, and the runtime task saw the sender go, parked or gave up just as the run has it |
| Bridges.ReadyGoesOn | src/rt.rs:166-180 | Runs from a finished Rust future to a set asyncio future, to a thread parked at the closed gate, and to a closed loop |
| Bridges.OutcomeIsReady | src/rt.rs:144-165 | A run to such a state with no Python code left that has the asyncio future |
| Bridges.DroppedIfDoneFirst | src/rt.rs:144-165 | At rest, with gate and loop open, the Rust future was dropped unfinished if and only if the asyncio future is done and the Rust one never finished |
| Bridges.LetGoDropsNothing | src/rt.rs:144-165 | Once no Python code has the pending asyncio future, no run drops the Rust one, and nothing but `Complete` ends it |
| Bridges.SetByOthersDrops | src/rt.rs:162-165 | A run in which other code sets the asyncio future and the Rust one is dropped, uncancelled |
| Bridges.ComesToRest | src/rt.rs:113-297 | No run, whatever else happens in it, has more than 11 events that the bridges had to do |
| BridgeObjects.TaskBridgeCell.constructor | src/rt.rs:266-286 | A new bridge is the machine's initial state |
| BridgeObjects.TaskBridgeCell.StartTakes | src/rt.rs:204-206 | A call takes the awaitable only if it is still there |
| BridgeObjects.TaskBridgeCell.StartUnderLock | src/rt.rs:207-219 | Under the lock it closes, fails or starts, as the machine's event does |
| BridgeObjects.TaskBridgeCell.DoneRuns | src/rt.rs:229-234 | The sender is used once, for a future that still waits |
| BridgeObjects.TaskBridgeCell.PollFuture | src/rt.rs:287-296 | Ready just when the sender sent or is gone, and then the guard is disarmed |
| BridgeObjects.TaskBridgeCell.DropFuture | src/rt.rs:245-253 | A disarmed guard does nothing; an armed one marks the slot dropped and takes its task |
| BridgeObjects.TaskBridgeCell.AskCancel | src/rt.rs:254-260 | The loop is asked once to cancel the task |
| BridgeObjects.AsyncioFuture.constructor | src/rt.rs:151-161 | A new future is the machine's initial state |
| BridgeObjects.AsyncioFuture.OnCancel | src/rt.rs:134-141 | The sender fires for a cancelled future only |
| BridgeObjects.AsyncioFuture.DropOnCancel | src/rt.rs:128-130 | The done-callback let go of has no unused sender left |
| BridgeObjects.AsyncioFuture.Complete | src/rt.rs:115-125 | The future is set if it was pending, else nothing |
| TransportTheorems.WritesInOrder | python/zmux/_layer.py:98-139 | In every reachable state the carrier's writes, the one in progress and the queue are the accepted writes; a shutdown comes last, once, and after all of them |
| TransportTheorems.BackPressure | python/zmux/_layer.py:98-139 | The count is the bytes queued or in progress; paused means above low, not paused at most high; pause and resume alternate; a paused protocol has a write pending |
| TransportTheorems.LimitsDecide | python/zmux/_layer.py:111-139 | For every event: the protocol is paused exactly by a write that takes the count above high, resumed exactly by an acknowledged write that takes it to low or below, and told of nothing else |
| TransportTheorems.DrainedWriterIsBounded | python/zmux/_layer.py:130-139 | A caller that writes only when not paused never has more than high and one write queued; that `down` is such a caller is `OutboundEnd.PumpIsBounded` |
| TransportTheorems.NoLostWakeUp | python/zmux/_layer.py:98-109 | A loop parked with its event clear has an empty queue, no end of file and no close |
| TransportTheorems.SomethingIsDue | python/zmux/_layer.py:98-128 | Closed and not lost, or paused and not lost: the loop, the carrier or a callback has something to do |
| TransportTheorems.CloseCompletes | python/zmux/_layer.py:98-156 | In every run after `close()` the loop and the carrier do a bounded number of things, and in each state `connection_lost` was scheduled exactly once or something is due |
| TransportTheorems.PausedIsNotStuck | python/zmux/_layer.py:109-114 | A paused protocol is never left waiting while the transport is not lost |
| TransportTheorems.WorkIsPaid | python/zmux/_layer.py:98-118 | Every event of the loop or the carrier lowers a measure that only an accepted write raises |
| TransportTheorems.LostAtMostOnce | python/zmux/_layer.py:120-128 | `connection_lost` is scheduled at most once, exactly when the transport is lost |
| TransportTheorems.LossHasACause | python/zmux/_layer.py:69-156 | In every run the transport is closing if and only if it was closed, aborted, failed or not kept open by its protocol; so `write_eof` alone does not close it; an abort or a failure loses it, and it is lost with an error if and only if a failure of the carrier came first |
| TransportTheorems.CloseIsOnce | python/zmux/_layer.py:148-153 | Closing a closing transport changes nothing |
| TransportTheorems.EofCompletes | python/zmux/_layer.py:98-146 | In every run after `write_eof` nothing more is accepted, and once nothing is left to do, the transport not lost, the carrier has every write accepted before it and then one shutdown |
| TransportTheorems.ReadsInOrder | python/zmux/_layer.py:69-96 | Chunks are delivered in order, all but one in the loop's hands |
| TransportTheorems.ReaderIsNotStuck | python/zmux/_layer.py:69-82 | While reading is not paused and the transport is not lost, the read loop's next piece, the carrier's next chunk or the return of a callback can happen |
| TransportTheorems.OneChunkWhilePaused | python/zmux/_layer.py:161-165 | In every run without `resume_reading` at most one chunk is delivered after `pause_reading` |
| TransportTheorems.PauseHolds | python/zmux/_layer.py:161-162 | Whatever the state, after the call of `pause_reading` at most one more chunk is delivered in any run without `resume_reading` |
| TransportTheorems.WakeIsNotTakenBack | python/zmux/_layer.py:71-73 | A read loop that was woken reads though reading was paused again before it ran |
| TransportTheorems.LossStopsReading | python/zmux/_layer.py:69-128 | Whatever event loses the transport outside `data_received`, nothing more is delivered in any run after it |
| TransportTheorems.LossInsideDelivery | python/zmux/_layer.py:69-128 | Whatever event loses it inside `data_received`, there is a run after it that delivers any given chunk |
| TransportTheorems.AbortInsideDelivery | python/zmux/_layer.py:155-156 | A run to such a loss: `abort()` inside the first `data_received` |
| TransportSafety.StepKeeps | python/zmux/_layer.py:45-165 | Every event keeps order, back pressure, wake-ups, the one loss and the order of reads |
| TransportSafety.Invariant | python/zmux/_layer.py:45-165 | So does every run |
| TransportObject.CarrierTransport.constructor | python/zmux/_layer.py:51-67 | A new transport is the machine's initial state |
| TransportObject.CarrierTransport.Write | python/zmux/_layer.py:130-139 | Queues, counts, wakes and pauses; refused after close or end of file, and for empty data |
| TransportObject.CarrierTransport.WriteEof | python/zmux/_layer.py:144-146 | Marks the end and wakes the loop |
| TransportObject.CarrierTransport.Close | python/zmux/_layer.py:148-153 | Closes once, wakes the loop, and loses at once when the loop is over |
| TransportObject.CarrierTransport.Abort | python/zmux/_layer.py:155-156 | Loses the transport |
| TransportObject.CarrierTransport.Lose | python/zmux/_layer.py:120-128 | The transport is lost and `connection_lost` scheduled once, for the reason that came first; nothing is written, delivered or taken off the queue by it; every other loop that is not over is cancelled |
| TransportObject.CarrierTransport.PauseReading | python/zmux/_layer.py:161-162 | Clears the reading event |
| TransportObject.CarrierTransport.ResumeReading | python/zmux/_layer.py:164-165 | Sets it, and wakes a waiting loop |
| TransportObject.CarrierTransport.WriteLoopRuns | python/zmux/_layer.py:98-110 | A loop that starts or wakes goes to its head |
| TransportObject.CarrierTransport.WriteLoopContinues | python/zmux/_layer.py:103-114 | What follows each carrier call |
| TransportObject.CarrierTransport.WriteLoopResumes | python/zmux/_layer.py:109-114 | Goes on at the head after `resume_writing` |
| TransportObject.CarrierTransport.WriteLoopFails | python/zmux/_layer.py:117-118 | A carrier error loses the transport and ends the loop |
| TransportObject.CarrierTransport.ReadLoopRuns | python/zmux/_layer.py:71-73 | Waits at the gate or reads |
| TransportObject.CarrierTransport.ReadLoopContinues | python/zmux/_layer.py:73-77 | Delivers a chunk, or reports the end |
| TransportObject.CarrierTransport.ReadLoopDelivered | python/zmux/_layer.py:71-76 | Goes round again |
| TransportObject.CarrierTransport.ReadLoopEnds | python/zmux/_layer.py:77-78 | Closes unless the protocol keeps the transport open |
| TransportObject.CarrierTransport.ReadLoopFails | python/zmux/_layer.py:81-82 | A read error loses the transport |
| TransportObject.Deliver | python/zmux/_layer.py:84-94 | The pieces given to a buffered protocol are the chunk, none empty, each filling its buffer but the last |
| LayerChannel.ReadIsFaithful | src/layer.rs:121-139 | A read loses and repeats nothing; with room it comes back empty if and only if the senders are gone and all was read |
| LayerChannel.ChanIo.PollRead | src/layer.rs:121-139 | The filling loop and the copy are that read |
| LayerChannel.ChanIo.PollWrite | src/layer.rs:142-167 | One message for the whole write; pending exactly when the channel is full, broken exactly after a shutdown or without a receiver |
| LayerChannel.ChanIo.PollShutdown | src/layer.rs:171-175 | No sender is left, a reservation's included |
| LayerChannel.LayerEnd.Read | src/layer.rs:207-213 | The next message; empty once the senders are gone and all was taken |
| LayerChannel.LayerEnd.Write | src/layer.rs:215-225 | One message, none for empty data; an error once closed |
| LayerChannel.LayerEnd.Close | src/layer.rs:227-229 | The sender is dropped once |
| LayerChannel.ChanPair | src/layer.rs:187-202 | Two ends over two channels, each end's sender the only one |
| Outbound.CarrierSeesAPrefix | src/layer.rs:107-175 | At every moment of every run, failures, aborts and closes by anyone included, the carrier's writes are a prefix of what the transport accepted, and that is the images of the session's first writes, one for one and in order; a shutdown comes after all that was accepted |
| Outbound.NothingIsLost | src/layer.rs:107-175 | In every reachable state the carrier's writes, then what the transport has, what it refused, what the layer holds and what the pump has not read, are the images of the session's writes up to the first empty one |
| Outbound.IsOneQueue | src/layer.rs:107-175 | For every event, failures included, the chain is one queue: a session write enters at the back, a carrier write leaves at the front, nothing else changes it |
| Outbound.Invariant | python/zmux/_layer.py:227-256 | The composed invariant holds after every run |
| Outbound.StepKeeps | python/zmux/_layer.py:227-256 | Every event of channel, pump, layer and transport, but a write by others, keeps the composed invariant |
| OutboundEnd.CarrierSeesAccepted | python/zmux/_layer.py:227-256 | Without a failure, once the session shut down and nothing is left to run: the carrier has all that was accepted, then one shutdown, `connection_lost` was scheduled once, without an error, and what is missing is what was refused or never read |
| OutboundEnd.ClosingCutsThere | python/zmux/_layer.py:77-78 | In runs without a failure or an abort, whoever closes the transport, what it had accepted by then arrives and nothing else; so all writes arrive if and only if it had accepted as many by then as the session ever made |
| OutboundEnd.ClosingProtocolLosesWrites | python/zmux/_layer.py:77-78 | A run without a failure in which the protocol closes at the carrier's end and the session's write is refused |
| OutboundEnd.CarrierSeesAll | python/zmux/_layer.py:227-256 | When only the layer closes the transport: once the session shut down and nothing is left to run, the carrier has the image of every write up to the first empty one, then one shutdown, and `connection_lost` was scheduled once |
| OutboundEnd.AllWritesArrive | python/zmux/_layer.py:245-253 | Then all writes arrived if and only if none was empty |
| OutboundEnd.EmptyWriteLosesTheRest | python/zmux/_layer.py:245-253 | A run at rest, with only the layer closing, in which the session wrote nothing and then data, and the carrier was shut down without a write |
| OutboundEnd.QuietIsOver | python/zmux/_layer.py:245-253 | In every run, failures included: once the session shut down and nothing is left to run the pump is over, the layer holds nothing, and the transport is lost, once |
| OutboundEnd.WorkIsBounded | python/zmux/_layer.py:245-256 | In every run, failures included, the work is bounded by the session's writes and the carrier's chunks: a pipeline left to itself comes to rest |
| OutboundEnd.PumpIsBounded | python/zmux/_layer.py:245-253 | Over a layer that passes each write on at once, in every run, failures included, the pump never has more queued in the transport than its high limit and one write |
| Inbound.SessionReadsInOrder | python/zmux/_layer.py:236-243 | In every run, failures included, the session has read a prefix of the layer's image of the carrier's bytes; an empty read means the sender is gone and all it sent was read; without a failure of the layer's reader it means the carrier's end was reported and every byte was read, or the transport was lost without an error and all that was fed by then was read |
| Inbound.EveryByteIfEofFirst | python/zmux/_layer.py:69-82 | Over a layer that feeds at once, as asyncio's stream protocol does, such a clean end is the carrier's, with every byte read, if and only if `eof_received` was called before the transport was lost |
| Inbound.NothingIsLost | python/zmux/_layer.py:236-243 | In every reachable state what the session read, its buffer and channel, the pump's hand and what it has not taken are, in that order, what the layer's reader was fed, and that is the image of the first bytes delivered |
| Inbound.SessionReadsAll | python/zmux/_layer.py:236-243 | Once nothing is left to run, the layer's reader did not fail and the session has read on, it has read all that was fed; all the carrier gave if the reader ended with it, or if the layer and the read loop hold nothing back |
| Inbound.PromptReadsAll | python/zmux/_layer.py:236-243 | Over a layer that feeds at once, at rest with the session having read on and the reader not ended at a loss, the session has the image of every byte delivered |
| Inbound.CatchesUpThere | python/zmux/_layer.py:84-96 | In every reachable state such a layer can feed all it was given, and nothing else changes |
| Inbound.WorkIsBounded | python/zmux/_layer.py:236-243 | In every run, failures included, the pump does at most two things for each byte of the image of what the carrier gave, and four more |
| Inbound.NoEmptyReadBeforeTheEnd | src/layer.rs:121-139 | A read that finds bytes gets some; none comes back empty before the end |
| Inbound.Invariant | python/zmux/_layer.py:227-243 | The composed invariant holds after every run |
| Inbound.StepKeeps | src/layer.rs:215-229 | Every event of transport, layer, pump, channel and session keeps the composed invariant |
| Duplex.StepKeeps | python/zmux/_layer.py:227-256 | Every event of either way keeps the invariants of both, over one transport |
| Duplex.Invariant | python/zmux/_layer.py:227-256 | They hold together after every run |
| Duplex.ShutdownEndsReads | python/zmux/_layer.py:227-256 | Without a failure, once the session shut down and nothing is left to run: the transport is lost, the layer's reader ended, the pump `up` is over or waits only for the session to read on, and a session that read all there was finds the end; that end is the carrier's if and only if `eof_received` came before the loss |
| Duplex.ShutdownCutsReads | python/zmux/_layer.py:103-128 | A run without a failure in which the session shuts down, its read comes back empty and clean, the carrier has not ended, and a chunk it gave is dropped |
| LayerLink.SessionWrites | src/layer.rs:142-167 | `poll_write` goes through exactly where the way out lets the session write, and leaves the channel as that event does |
| LayerLink.SessionShutsDown | src/layer.rs:171-175 | `poll_shutdown` is the session's shutdown of the way out |
| LayerLink.PumpReads | src/layer.rs:207-213 | `LayerEnd.read` returns exactly where the pump may read, with the write it gets, or empty at the end |
| LayerLink.SessionReads | src/layer.rs:121-139 | `poll_read` is the session's read of the way in, with the same bytes |
| LayerLink.UpWrites | src/layer.rs:215-225 | `LayerEnd.write` goes through exactly where the way in lets the pump write |
| LayerLink.UpEnds | src/layer.rs:227-229 | `LayerEnd.close` ends the way in as the pump's end or failure does |
| LayerLink.Begin | src/layer.rs:187-202 | `chan_pair` begins both ways |
| WriterTheorems.BytesInOrder | python/zmux/__init__.py:496-515 | What the stream was handed, what is in flight and what is buffered are all bytes written; the count is the last two; buffered bytes have a live task unless the last failed |
| WriterTheorems.SentIsAPrefix | python/zmux/__init__.py:508-515 | Without a failed write the bytes sent are a prefix of those written, all of them when no task is live |
| WriterTheorems.FinishIsLast | python/zmux/__init__.py:536-544 | The stream is finished at most once, with nothing left; every byte was sent if and only if the stream took every buffer |
| WriterTheorems.FinishMisses | python/zmux/__init__.py:508-544 | A finished stream misses bytes if and only if a flush task failed before the stream had taken its buffer, and a later one was made |
| WriterTheorems.FinishAfterFailure | python/zmux/__init__.py:508-544 | A run in which the stream refuses the first buffer, takes the second and is finished |
| WriterTheorems.NothingAfterClose | python/zmux/__init__.py:496-502 | Once closing was asked for no run takes another byte |
| WriterTheorems.DrainLeaves | python/zmux/__init__.py:517-528 | What a drain leaves queued when it returns is exactly the bytes written since the flush task it waited for was over, less those whose stream write has ended since; so it is above the limit if and only if that is |
| WriterTheorems.DrainReturnsLow | python/zmux/__init__.py:517-528 | It is above the limit only if another flush task was made since the drain began |
| WriterTheorems.DrainThatDoesNotWait | python/zmux/__init__.py:517-528 | A drain that does not wait finds at most the limit queued, or a failed task |
| WriterTheorems.DrainAlone | python/zmux/__init__.py:517-528 | With one producer a drain that returns leaves at most the limit queued |
| WriterTheorems.DrainWithTwo | python/zmux/__init__.py:517-528 | A run with two producers in which it does not |
| WriterTheorems.AllIsSent | python/zmux/__init__.py:508-544 | At rest and without a failure every byte was sent, and a stream asked to close was finished, unless that failed |
| WriterTheorems.CloseFinishes | python/zmux/__init__.py:536-544 | In every run, once nothing is left to do after closing was asked for: closing failed if and only if the last flush task failed or the stream's finish did, and else the stream was finished exactly once |
| WriterTheorems.WorkIsBounded | python/zmux/__init__.py:496-544 | A write brings at most six pieces of work |
| WriterMachine.StepKeeps | python/zmux/__init__.py:488-544 | Every event keeps the accounts, the one live task and the order of closing |
| WriterObject.StreamWriter.constructor | python/zmux/__init__.py:488-494 | A new writer is the machine's initial state |
| WriterObject.StreamWriter.Write | python/zmux/__init__.py:496-502 | Buffers, counts and has a live task; an error after closing |
| WriterObject.StreamWriter.FlushTaskRuns | python/zmux/__init__.py:508-509 | A new task goes to the head of its loop |
| WriterObject.StreamWriter.FlushTaskContinues | python/zmux/__init__.py:509-515 | The count goes down and the loop goes round |
| WriterObject.StreamWriter.FlushTaskFails | python/zmux/__init__.py:512-515 | The count goes down and the task is over |
| WriterObject.StreamWriter.DrainStarts | python/zmux/__init__.py:517-522 | Waits just when a live task is behind the limit |
| WriterObject.StreamWriter.Finishing | python/zmux/__init__.py:536-539 | The closing task is made once |
| WriterObject.StreamWriter.FinishTaskRuns | python/zmux/__init__.py:541-543 | Waits for a live flush task |
| WriterObject.StreamWriter.FinishTaskContinues | python/zmux/__init__.py:541-544 | Finishes the stream, or fails with the task |
| Exporter.NobodyIsStuck | src/admission.rs:87-151 | A waiting request always has the server at work; else the server waits if and only if the call has not returned, or panicked with its view still held |
| Exporter.PanicHoldsTheServer | src/admission.rs:136-149 | A run to such a wait: the call is over and the server can do nothing |
| Exporter.ServerComesBack | src/admission.rs:134-150 | In every run at whose end the server has nothing to do, it has returned if and only if the call returned, or panicked and its view was dropped |
| Exporter.RunTells | src/admission.rs:134-150 | In every run the view is held, the call is over and the server has returned just as the run has it |
| Exporter.StepKeeps | src/admission.rs:87-151 | Every event keeps what each request's reply is and that Done is the last message taken |
| Exporter.ServingIsBounded | src/admission.rs:145-149 | The server does one thing for each message and two more |
| Exporter.AnsweredIfBeforeDone | src/admission.rs:145-147 | After the return each request had the exporter's answer exactly if it was sent before Done, else None |
| Exporter.NoValueAfterDone | src/admission.rs:144-149 | What waits when the server stops serving never gets a value |
| Exporter.NoneAfterReturn | src/admission.rs:94-99 | Every request after the return gets None |
| Exporter.Serve | src/admission.rs:144-147 | The loop answers each message up to Done in order and takes nothing after Done |
| SplitMix.MixIsBijective | src/shaping.rs:57-60 | The output step has an inverse, both ways |
| SplitMix.FullPeriod | src/shaping.rs:54-61 | Two draws are equal if and only if their numbers agree modulo 2^64 |
| SplitMix.EveryWordIsDrawn | src/shaping.rs:54-61 | Every word is drawn, at a number given in closed form |
| SplitMix.StateIsLinear | src/shaping.rs:56 | The state after n draws is the start plus n increments modulo 2^64 |
| SplitMix.DrawIs | src/shaping.rs:55-61 | Draw n in plain arithmetic: the start plus n + 1 increments modulo 2^64, xored with its quotient by 2^30, times the first factor, xored with its quotient by 2^27, times the second, xored with its quotient by 2^31 |
| SplitMix.Generator.NextU64 | src/shaping.rs:55-61 | From the state after n draws it returns draw n and adds the increment modulo 2^64 |
| SplitMix.Fold | src/shaping.rs:65-75 | The loop over the chunks computes the fold |
| SplitMix.FoldIs | src/shaping.rs:65-75 | The fold is the exclusive or of one draw for the length and one for each chunk of eight bytes, lowest first, xored into the state before its draw |
| SplitMix.ChunkIs | src/shaping.rs:70-72 | The zeros behind a short chunk add nothing to its number |
| SplitMix.LittleEndianByte | src/shaping.rs:72 | Byte i of a chunk is the one of weight 256 to the i |
| SplitMix.FoldSeparates | src/shaping.rs:65-75 | Seeds of one length that differ in the last chunk only fold to different states, whatever precedes |
| SplitMix.ShortSeedsDiffer | src/shaping.rs:65-75 | For each length from 1 to 8 the fold is injective |
| SplitMix.FoldCollides | src/shaping.rs:65-75 | Whatever whole chunks two seeds of one length begin with, and however one ends, the other has a full last chunk with which it folds to the same state |
| SplitMix.LongSeedsCollide | src/shaping.rs:65-75 | For every length above eight, two different seeds that fold to the same state |
| SplitMix.InjectiveUpToEight | src/shaping.rs:65-75 | The fold is injective on the seeds of length n if and only if n is at most 8 |
| Words.WrapMulUndone | src/shaping.rs:58-59 | A product modulo 2^64 is undone by the factor's inverse |
| Words.XorShiftUndone | src/shaping.rs:58-60 | A xor-shift by k is undone by two further terms if 3k is at least 64, both ways |
| Words.ShrIs | src/shaping.rs:58-60 | A shift right by k is the quotient by 2 to the k |
| Words.XorBit | src/shaping.rs:58-60 | Each bit of an exclusive or is set if and only if it is set in exactly one of the two |
| Handles.StepKeeps | src/lib.rs:2827-2848 | Every event keeps the locks exclusive and each part in one place |
| Handles.LeavesOnce | src/lib.rs:2834-2848 | Over any history a part leaves its handle at most once |
| Handles.HeldStays | src/lib.rs:2834-2843 | A part an operation holds stays where it is for as long as the operation lasts |
| Handles.PairTakesBothOrNeither | src/helpers.rs:91-110 | A `pair` that has both locks ends with just the two parts it found, whatever else happens |
| Handles.TwoOrNone | src/helpers.rs:91-110 | Every operation that ended took two parts that fit, or none |
| Handles.NothingIsLost | src/lib.rs:2827-2848 | In every run the parts in the handles and those taken out are, with their numbers, the parts there were |
| Handles.PairAlone | src/helpers.rs:91-110 | Uninterrupted, `pair` of two free handles whose parts fit takes both, in order, and frees the handles |
| Handles.PairAloneRefused | src/helpers.rs:91-110 | Uninterrupted, `pair` of a busy receiver or of parts that do not fit leaves everything as it was |
| Handles.HoldAlone | src/lib.rs:2834-2843 | An operation has the handle's lock while it lasts and leaves the handle as it was |
| Handles.TakeNowAlone | src/lib.rs:2845-2848 | `take_now` of a free handle takes its part and changes nothing else |
| Handles.Handle.TakeNow | src/lib.rs:2845-2848 | Takes the part, or says busy or closed |
| Handles.Pair | src/helpers.rs:91-110 | Takes the two parts or changes neither; busy, closed, or of two known and different streams, each exactly when it is, in the source's order |
| Handles.SpliceTakes | src/helpers.rs:143-172 | A call that nothing interrupts takes all four parts or none, unless the first stream was taken and the second, as it was before the call, is refused |
| Handles.SpliceUsesUpTheFirst | src/helpers.rs:143-172 | That case: the call fails and the first stream is used up |

## Left out

- Everything decided in the crates the binding forwards to: sessions, pools, modes, shaping machines, TLS, QUIC, HTTP.
- Dialers, listeners, statistics and event conversion, enum and dataclass mapping, the option round trip of pool options: one-branch plumbing.
- Panics other than the exporter call's, poisoned mutexes, wall-clock time (the hook's time-out may come at any moment), and counters wrapping at 2^64.
- Partial writes: a carrier or stream write that failed or was cancelled either happened or did not.
- Data a carrier read had taken when it was cancelled: the model says nothing of it.
- `set_write_buffer_limits` and `set_protocol`: limits are fixed with low at most high, as the transport sets them.
- Calls of the transport from inside `connection_made`, and exceptions raised by protocol callbacks.
- Protocol buffers of length zero in `_deliver`, on which the source would loop for ever.
- Cancellation of `StreamWriter`'s own tasks from outside, and of the transport's tasks by others than the transport.
- Inside asyncio: events, tasks, futures, `shield` and stream readers are taken as their documentation has them.
- The layer itself is user code. On the way out it gives one non-empty write for each, any function of all the writes so far; on the way in its bytes are any function of the bytes so far that takes nothing back. A layer that joins, splits or invents writes, which the source does not allow, is not modelled.
- Spawn failure in `with_info`, and carriers without an exporter, whose call runs on the spot.
- The fairness of the channel's permits, and a limiter's calls in `splice`.
- OutboundEnd.CarrierSeesAll: for runs in which only the layer closes the transport, without a failure or an abort; other closes are in `OutboundEnd.ClosingCutsThere`, and of runs with a failure `Outbound.CarrierSeesAPrefix` says what the carrier has seen.
- OutboundEnd.AllWritesArrive: for the same runs.
- A failure of `down` with the transport not lost: a layer that fails on its way out is one that loses the transport.
- Inbound.PromptReadsAll: for a layer that feeds its reader at once.
- Inbound.EveryByteIfEofFirst: for a layer that feeds its reader at once; of a layer that holds bytes back `Inbound.SessionReadsInOrder` says what an empty read means.
- Bridges.CancelIsPassedOn: the Rust future awaits one awaitable and nothing else; gate and loop are open, for a closed one drops what is given to it.
- Bridges.OutcomeIsSet: the same.
- Bridges.DroppedIfDoneFirst: the same.
- Handles.SpliceTakes: what others do to the second stream while the first is taken is not in its contract; `Handles.PairTakesBothOrNeither` is about each `pair` among others.
- OutboundEnd.PumpIsBounded: for a layer that passes each write on at once; one that holds writes back can release several together.
- Exporter.Serve: the loop over a fixed sequence of messages; threads that ask meanwhile are in the machine beside it.
