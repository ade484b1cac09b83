# taotu in Dafny

A model of the concurrent and asynchronous core of taotu, a reactor library on io_uring, with machine-checked proofs.
`dafny verify dfyconfig.toml` checks everything.

| file | models |
|---|---|
| `LogRing.dfy` | the logger's bounded lock-free ring, one atomic access per step, any number of threads |
| `LogThread.dfy` | the log thread on that ring: write-down loop, mutex, condition variable, shutdown |
| `Poller.dfy` | the table of io_uring operations: keys, contexts, logical cancellation, poll arming |
| `EventLoop.dfy` | connections on that table: submit, complete, cancel, close, destroy, with re-entrant user callbacks |
| `ConnectionLife.dfy` | what holds of connections over every run of that loop |
| `ConnectionEffects.dfy` | what each event leaves of the connection it concerns: stage, operations in flight, callbacks |
| `EventManager.dfy` | the event manager as an object that refines `EventLoop.dfy`; the destroy sweep and the shutdown |
| `IoBuffer.dfy` | the byte buffer with its two indices |
| `SendPath.dfy` | the double-buffered send path, on abstract byte sequences and on real buffers |
| `RpcCodec.dfy`, `Adler32.dfy` | RPC framing, reassembly and checksum |
| `RpcChannel.dfy` | matching of RPC calls and responses between two peers |
| `Timer.dfy` | the timer queue and the pass over expired tasks |
| `MemoryPool.dfy` | the free-list allocator |
| `Bytes.dfy`, `Modulo.dfy`, `Shared.dfy` | big-endian integers; remainders; common types |

Objects that change in place are classes with `modifies` clauses. Each of their methods is proved equal to a function on
values (`View() == AfterX(old(View()))`), and the laws are lemmas about those functions over every run.

How the environment appears:

- The scheduler of the log ring is a sequence of thread identifiers. It may fail a weak compare-exchange and wake a
  waiting thread spuriously.
- The kernel answers any key at any time. It is assumed that only an accept is answered more than once, and that it does
  not hand out a descriptor that is still open. A `slot` argument says whether a submission entry is free.
- User callbacks may call back into the library in any order and to any depth. In `EventLoop.dfy` a callback in progress
  is a frame on a stack, and every event in between is one of its calls.
- The kernel executes a write at some moment while it is in flight, takes a prefix of it, and takes nothing from a socket
  whose write side is shut down; the loop handles the completion later.
- `malloc` returns a region that overlaps none it returned before. Time, the payload library, the raw-message callback,
  the services and the continue predicates of periodic tasks are parameters.

## Where the code does less than it says

- `IoBuffer::ReserveWritableSpace` moves the contents and then computes the write index from the read index it has just
  overwritten, so the write index stays. `IoBuffers.EnsuredIff` gives the exact condition under which room is made,
  `IoBuffers.CompactionOverruns` a use of a new buffer on which it is not.
- The receive path reaches that branch in ordinary operation: `IoBuffers.ReceivedIff` gives the exact condition,
  `IoBuffers.ReceiveOverruns` three calls that overrun. What `RpcCodec` proves about chunks holds on a real buffer up to
  the first such copy (`RpcCodec.ReceiveChunks`).
- The send path reaches it after a resubmission was refused or a write failed: `SendPath.SendOverrunsIff` gives the exact
  condition, `SendPath.OverrunAfterRefusal` a run from a new connection whose queue is in order. With submission entries
  and no fatal error it is never reached (`SendPath.Drive`).
- `Logger::EndLogger` notifies without the mutex. `LogThread.StopNotificationCanBeLost` is a run in which the log thread
  sleeps through the stop, `LogThread.StopIsMissedIff` says exactly when that can happen, and
  `LogThread.EndLoggerFinishes` that the shutdown completes when it does not.
- `Connecting::ShutDownWrite` does not wait for queued output: `SendPath.ShutDownCutsOff`, `SendPath.ShutDownIsCleanIff`,
  `SendPath.ShutDownCanLose`. The deferred shutdown in `OnWriteComplete`, which waits for an empty queue, never comes first
  (`SendPath.DeferredShutDownIsNeverFirst`).
- After a fatal write error or a refused resubmission pending output has no write in flight, and the next `Send`
  overtakes it: `SendPath.OrderCanBreak`, `SendPath.SendKeepsOrderIff`, `SendPath.CompleteStrandsIff`.
- `Poller::ModifyEventer` does not tell the kernel about a new mask while a poll is outstanding:
  `Pollers.InterestCanBeStale`, `Pollers.ModifyReachesKernelIff`.
- `Timer::GetMinTimeDuration` casts to 32 bits: `Timers.OverdueTaskCanWait`, `Timers.WakesInTimeIff`.
- An RPC call made without a response object never runs its closure: `RpcChannel.ClosureIsDropped`,
  `RpcChannel.CompletesIffResponseObject`.
- `OnEstablishing` and `OnReadComplete` read on after their user callback even if it has closed the connection:
  `ConnectionLife.ReadsOnIff`, with runs `ConnectionLife.ReadsOnAfterCloseInEstablishing` and
  `ConnectionLife.ReadsOnAfterCloseInMessageCallback`. For such reads the sweep waits, up to its retry limit
  (`ConnectionLife.GoneWithin1001Sweeps`); its limit in milliseconds counts sweeps too and never decides
  (`ConnectionEffects.SweepSparesIff`).
- It does not wait for the operations that closing has cancelled. Their contexts stay until the completion arrives, but
  the connection's buffers, whose addresses the kernel has, go with the first sweep: `ConnectionLife.DestroyedWhileOwedIff`,
  `ConnectionLife.SweepFreesOwedMemoryIff`, with the run `ConnectionLife.SweepFreesOwedMemory`.
- `RpcCodec::FillEmptyBuffer` cuts the length of the text to 32 bits for the checksum: `RpcCodec.LongTextIsMischecked`,
  `RpcCodec.BuiltIsFrameIff`.

## Model

| member | source | states |
|---|---|---|
| `LogRing.Init` | src/logger.cc:48-55 | the initialised ring satisfies the invariant, for every size of at least two |
| `LogRing.AdvanceKeeps` | src/logger.cc:163-210 | every atomic access of every thread keeps the ring invariant (slot numbers, tickets, program counters) |
| `LogRing.Run` | src/logger.cc:163-210 | every interleaving of any number of producers and consumers stays within the invariant |
| `LogRing.IxIsRemainder` | src/logger.cc:166 | the slot index used in the model is the position modulo the ring size |
| `LogRing.IxIsMask` | src/logger.cc:166 | in a ring whose size is a power of two it is the position masked with the size less one |
| `LogRing.SlotsAreExclusive` | src/logger.cc:172-200 | no two threads hold the data of the same slot at once, in any interleaving |
| `LogRing.FifoByTicket` | src/logger.cc:163-210 | over every schedule a Dequeue returns the record of its ticket, no ticket is returned twice, and the records of each writer are, in ticket order, a subsequence of the arguments it called Enqueue with |
| `LogRing.TicketsAreCalls` | src/logger.cc:163-187 | the same for one thread, with the count: every call of Enqueue has got one ticket, was turned away by a full slot, or is under way |
| `LogRing.NoRecordLost` | src/logger.cc:163-210 | every accepted record is in exactly one place: with its writer, in its slot, with its reader, or returned |
| `LogRing.HistoryIsStable` | src/logger.cc:163-210 | what was accepted and returned never changes afterwards |
| `LogRing.DropsIffLapped` | src/logger.cc:167-185 | Enqueue drops iff its position is still the write index and the ticket one lap earlier is claimed but not released |
| `LogRing.EmptyIffNothingPublished` | src/logger.cc:193-207 | Dequeue reports empty iff its position is still the read index and no published record sits there |
| `LogRing.EnqueueAloneReachesCas` | src/logger.cc:164-171 | a producer running alone with a free head slot reaches its claim in three accesses |
| `LogRing.CasAlonePublishes` | src/logger.cc:170-173 | that claim succeeds and three accesses later exactly its record is published, nobody else disturbed |
| `LogRing.DequeueAloneReachesCas` | src/logger.cc:190-197 | a consumer running alone with a published head reaches its claim in three accesses |
| `LogRing.CasAloneReleases` | src/logger.cc:196-200 | that claim succeeds and three accesses later it has the head record, the slot number is one lap ahead, the ticket is released, nobody else disturbed |
| `LogRing.PendingCanBeNegative` | src/logger.cc:172-178 | a run in which a Dequeue overtakes its producer's increment and `pending_` is -1 |
| `LogThread.StepKeeps` | src/logger.cc:100-140 | every move of producers, log thread, EndLogger and scheduler keeps the logger invariant |
| `LogThread.Start` | src/logger.cc:44-55 | the freshly started logger satisfies the logger invariant |
| `LogThread.Run` | src/logger.cc:100-140 | every run of the logger stays within the invariant |
| `LogThread.NoLostWakeup` | src/logger.cc:132-138 | whenever the log thread is blocked and no producer is between its store of seq and its notify, nothing published is in the ring |
| `LogThread.ExitIsCompleteIffProducersDone` | src/logger.cc:102-103 | at loop exit the file holds all accepted records in ticket order iff no producer is between claim and increment |
| `LogThread.ShutdownWritesEverything` | src/logger.cc:31-39 | if the producers are idle before the stop and stay so, loop exit means every accepted record was written once, in ticket order |
| `LogThread.ShutdownFinishes` | src/logger.cc:100-140 | once the stop is set and no producer is active, a log thread that can no longer miss the stop exits by its own moves alone, and the file then holds every accepted record |
| `LogThread.EndLoggerFinishes` | src/logger.cc:31-39 | EndLogger on a logger with idle producers, outside the window in which the stop can be missed: the log thread is woken, exits, and every accepted record is in the file |
| `LogThread.FileIsTicketOrder` | src/logger.cc:105-127 | at every moment the file is a prefix of the accepted records in ticket order, and those of each producer are, in order, records it logged |
| `LogThread.RunIsSchedule` | src/logger.cc:100-140 | on the ring every run of the logger is a schedule in which each producer calls Enqueue with what it logs, so every law of the ring holds of the logger |
| `LogThread.DropsOnlyWhenFull` | src/logger.cc:163-187 | with one consumer a drop means that exactly the last N tickets are unreleased |
| `LogThread.StopNotificationCanBeLost` | src/logger.cc:31-36 | a run in which the log thread sleeps although the stop is set and all producers are idle |
| `LogThread.LogEffect` | src/logger.cc:128-138 | the log thread waits only after finding no stop and nothing pending under the mutex, and takes the mutex, also to leave the wait, only when it is free |
| `LogThread.StopIsMissedIff` | src/logger.cc:31-36 | after the notification the log thread can still fall asleep iff it is about to wait or about to check a non-positive `pending_` |
| `Pollers.StepKeeps` | src/poller.cc:114-162 | submit, cancel, completion, arming and the end of a callback keep the invariant of the operation table |
| `Pollers.CqeKeeps` | src/poller.cc:349-442 | in particular every completion does, whatever its key |
| `Pollers.ContextsAreDeletedOnce` | src/poller.cc:349-451 | over every run a context is deleted at most once, iff no operation owns it, and never while the kernel owes its operation a completion |
| `Pollers.TeardownLeaksNothing` | src/poller.cc:100-112 | with the poller's destructor every context ever created has been deleted exactly once |
| `Pollers.EntriesAreNotOverwritten` | src/poller.cc:114-136 | no step overwrites an entry of the table: entries stay, are marked cancelled or go; new ones have a fresh key |
| `Pollers.SilentForEver` | src/poller.cc:277-299 | a cancelled or finished operation never calls back, whatever the kernel sends later |
| `Pollers.CallsBackIff` | src/poller.cc:366-384 | a completion of an uncancelled operation calls back iff it is an accept or its eventer is registered; otherwise its context is deleted on the spot |
| `Pollers.StepArms` | src/poller.cc:453-495 | an armed eventer always remembers an outstanding poll of its own, stale completions and removed eventers included |
| `Pollers.StaysArmedIff` | src/poller.cc:388-408 | a step leaves no eventer deaf iff it has the submission entry it needs |
| `Pollers.NobodyIsDeaf` | src/poller.cc:138-162 | over every run with submission entries each registered eventer with a non-zero mask has a poll outstanding |
| `Pollers.ModifyReachesKernelIff` | src/poller.cc:144-157 | a new mask reaches the kernel at once iff no poll is outstanding that asks for something else |
| `Pollers.InterestCanBeStale` | src/poller.cc:144-157 | a registered eventer changes its mask twice, and the outstanding poll asks for the first one |
| `Pollers.MaskIsLastAsked` | src/poller.cc:138-162 | over every run an eventer is registered iff the last thing asked for it was not its removal, with the mask asked for last |
| `Pollers.ModifyArmsIff` | src/poller.cc:144-157 | a new mask arms, and mask zero disarms, each iff it was so before or a submission entry is free |
| `Pollers.RemovalIsFinal` | src/poller.cc:159-162 | from its removal on, whether or not the kernel can be told, no poll is submitted for an eventer until it is added again |
| `Pollers.Poller.constructor` | src/poller.h:121-131 | the poller starts with empty tables and key one |
| `Pollers.Poller.NormalizeKey` | src/poller.cc:114-122 | a fresh key is drawn iff the caller brings none |
| `Pollers.Poller.LookupOp` | src/poller.cc:124-136 | the operation is handed out and gone from the map; unknown keys and zero change nothing |
| `Pollers.Poller.SubmitPoll` | src/poller.cc:453-479 | refines the arming step: one poll for an unarmed eventer with interest, none otherwise |
| `Pollers.Poller.CancelPoll` | src/poller.cc:481-495 | refines the disarming step, which leaves the poll in the table |
| `Pollers.Poller.AddEventer` | src/poller.cc:138-142 | registers and arms |
| `Pollers.Poller.ModifyEventer` | src/poller.cc:144-157 | registers, disarms or arms according to the new mask |
| `Pollers.Poller.RemoveEventer` | src/poller.cc:159-162 | disarms and forgets, also when no submission entry is free |
| `Pollers.Poller.Submit` | src/poller.cc:164-275 | enters the operation under a fresh key, or returns zero and enters nothing when no submission entry is free |
| `Pollers.Poller.CancelOp` | src/poller.cc:277-299 | marks the operation cancelled whether or not the kernel can be told |
| `Pollers.Poller.HandleCqe` | src/poller.cc:349-374 | refines the completion step up to the call of the completion callback |
| `Pollers.Poller.HandleSilentCqe` | src/poller.cc:385-441 | refines the completion step of operations without a callback |
| `Pollers.Poller.FinishCqe` | src/poller.cc:375-384 | refines what follows the callback: keep a multishot operation, settle any other |
| `Pollers.Poller.Destroy` | src/poller.cc:100-112 | deletes exactly the contexts still in the map and empties it |
| `EventLoops.StepKeeps` | src/connecting.cc:75-293 | every library call, callback return, completion and sweep keeps the invariant that ties connections, operations and callbacks in progress |
| `EventLoops.SubmitIoKeeps` | src/connecting.cc:197-276 | submission keeps it, with or without a submission entry |
| `EventLoops.CancelIoKeeps` | src/connecting.cc:390-405 | cancellation keeps it |
| `EventLoops.DoClosingKeeps` | src/connecting.cc:277-293 | closing keeps it, from inside any callback |
| `EventLoops.ReturnKeeps` | src/connecting.cc:117-152 | what library functions do after a user callback keeps it |
| `EventLoops.CqeKeeps` | src/poller.cc:349-442 | every completion keeps it and reaches a live connection |
| `EventLoops.SweepKeeps` | src/event_manager.cc:262-298 | the destroy sweep keeps it, in any traversal order |
| `ConnectionLife.NoCallbackOnDestroyedConnection` | src/connecting.cc:63-66 | in every run no completion callback runs against a destroyed connection and every callback in progress belongs to a live one |
| `ConnectionLife.AtMostOneOfEach` | src/connecting.cc:197-276 | an uncancelled read or write belongs to a live connection that remembers its key, so there is at most one of each |
| `EventLoops.CompletionIsNotDropped` | src/poller.cc:366-373 | the eventer of an operation that would call back is registered, so its completion is never thrown away |
| `ConnectionLife.DestructionCancelsBoth` | src/connecting.cc:390-405 | after the destructor no operation would call the connection back, and its eventer is out of the poller |
| `ConnectionLife.ReplacedIsSilent` | src/event_manager.cc:94-101 | a connection replaced under its descriptor is called back by no operation, is destroyed once, and has had its close callback iff closing had got that far |
| `ConnectionLife.LoopContextsAreDeletedOnce` | src/connecting.cc:148-151 | over every run of the loop contexts are deleted exactly once and not before their last completion, teardown included |
| `ConnectionLife.ClosedOnceDestroyedOnce` | src/connecting.cc:277-293 | close callbacks run at most once per connection however closing starts; a connection is destroyed at most once and only after both ran |
| `ConnectionLife.DisconnectedIsQueued` | src/event_manager.cc:158-161 | when no callback is running, every disconnected connection in the map is queued for destruction |
| `ConnectionLife.ReadsOnIff` | src/connecting.cc:117-125 | after a user callback a read is in flight iff one was before, or the callback was that of OnEstablishing or a message callback and a submission entry is free, closed connection or not |
| `ConnectionLife.ReadsOnAfterClose` | src/connecting.cc:325-332 | a callback of those that has closed its connection leaves it queued, disconnected and with a new read in flight |
| `ConnectionLife.ReadsOnAfterCloseInEstablishing` | src/connecting.cc:325-332 | a run from the start that closes in the connection callback of OnEstablishing and ends so |
| `ConnectionLife.ReadsOnAfterCloseInMessageCallback` | src/connecting.cc:117-125 | a run from the start that closes in a message callback and ends so |
| `ConnectionLife.DestroyedWhileOwedIff` | src/connecting.cc:203-205 | the destructor frees buffers of operations the kernel still owes iff the table has a read or write of the connection, cancelled or not |
| `ConnectionLife.SweepFreesOwedMemoryIff` | src/event_manager.cc:272-287 | the sweep does so iff it does not wait and such an entry is left |
| `ConnectionLife.SweepFreesOwedMemory` | src/event_manager.cc:272-287 | a run from the start of six events that ends so at the first sweep |
| `ConnectionLife.DisconnectedForEver` | src/connecting.cc:325-332 | Disconnected is absorbing |
| `ConnectionLife.GoneWithin1001Sweeps` | src/event_manager.cc:262-298 | a disconnected connection is destroyed exactly once within 1001 sweeps, whatever callbacks and the kernel do |
| `ConnectionLife.SweepEffect` | src/event_manager.cc:267-297 | the effect of a sweep on each descriptor does not depend on the order of the set |
| `ConnectionLife.Survivors` | src/event_manager.cc:207-224 | without insertions the map only shrinks, and what stays has aged by every sweep |
| `ConnectionEffects.StepFollows` | src/connecting.cc:75-405 | in every event of every run a surviving connection has exactly the stage and the reads and writes in flight that a table of causes gives: own OnEstablishing, own ShutDownWrite, close or end of stream; requests with an entry free, own completions, cancellation |
| `ConnectionEffects.ReadOutcome` | src/connecting.cc:75-152 | the completion of a read: data starts the message callback; end of stream disconnects, starts closing unless begun and leaves nothing in flight; retry has a read in flight iff an entry is free; an error leaves none and keeps the stage |
| `ConnectionEffects.WriteOutcome` | src/connecting.cc:154-195 | the completion of a write: rest or retry has a write in flight iff an entry is free; all written starts the write-complete callback; otherwise none is in flight; reading and stage are untouched |
| `ConnectionEffects.AcceptOutcome` | src/acceptor.cc:119-131 | a completion of an accept starts the accept callback and concerns no connection |
| `ConnectionEffects.AcceptsAgainIff` | src/acceptor.cc:157-162 | the accept stays in the table iff more completions are due; otherwise its context is deleted, and a new one is submitted iff still listening and an entry is free |
| `ConnectionEffects.CallOutcome` | src/connecting.cc:277-405 | what each call on a connection leaves of it and which callback it starts, closing and establishing at most once |
| `ConnectionEffects.InsertOutcome` | src/event_manager.cc:88-112 | a new connection has a new identity, is connecting, has nothing in flight, is registered without interest, and disturbs no other |
| `ConnectionEffects.SweepSparesIff` | src/event_manager.cc:268-296 | the sweep spares a disconnected connection iff it has an uncancelled operation in flight and was spared fewer than 1000 times; the limit of 2000 milliseconds never decides |
| `EventManagers.EventManager.SubmitOnce` | src/connecting.cc:197-276 | refines submission: at most one in flight, key remembered, context deleted and flag cleared on failure |
| `EventManagers.EventManager.constructor` | src/event_manager.cc:30-62 | a loop without connections over a fresh poller |
| `EventManagers.EventManager.CancelPendingIo` | src/connecting.cc:390-405 | refines cancellation of both directions, with or without submission entries |
| `EventManagers.EventManager.DoClosing` | src/connecting.cc:277-293 | refines closing up to the connection callback |
| `EventManagers.EventManager.ForceClose` | src/connecting.cc:374-379 | closes exactly as DoClosing does, from any open state |
| `EventManagers.EventManager.InsertNewConnection` | src/event_manager.cc:88-112 | refines insertion of a fresh connection, and replacement of one that is in the map |
| `EventManagers.EventManager.OnEstablishing` | src/connecting.cc:325-332 | establishes once, only from Connecting |
| `EventManagers.EventManager.ShutDownWrite` | src/connecting.cc:363-372 | moves Connected to Disconnecting and nothing else |
| `EventManagers.EventManager.DeleteConnection` | src/event_manager.cc:158-161 | queues the descriptor |
| `EventManagers.EventManager.SubmitAcceptOnce` | src/acceptor.cc:99-117 | submits an accept, or deletes its context on failure |
| `EventManagers.EventManager.OnReadComplete` | src/connecting.cc:75-152 | refines the read completion, and leaves of the connection what `ReadOutcome` says for data, end of stream, retry and error |
| `EventManagers.EventManager.OnWriteComplete` | src/connecting.cc:154-195 | refines the write completion, and leaves of the connection what `WriteOutcome` says for rest to write, all written, retry and error |
| `EventManagers.EventManager.AfterCallback` | src/connecting.cc:117-152 | refines what each library function does after its user callback |
| `EventManagers.EventManager.EndConnectionCallback` | src/connecting.cc:284-289 | refines the step from the connection callback to the close callback |
| `EventManagers.EventManager.EndCloseCallback` | src/connecting.cc:287-291 | refines the end of closing: the descriptor is queued |
| `EventManagers.EventManager.EndEstablishing` | src/connecting.cc:329-330 | refines the first read of an established connection |
| `EventManagers.EventManager.EndReading` | src/connecting.cc:121-151 | refines the end of a read completion: read on, also if the callback has closed, and delete the context |
| `EventManagers.EventManager.EndAccepting` | src/acceptor.cc:157-162 | keeps a multishot accept, or deletes its context and asks again |
| `EventManagers.EventManager.HandleCqe` | src/poller.cc:349-442 | finds the connection alive, refines the completion step and keeps the invariant |
| `EventManagers.EventManager.DestroyConnection` | src/connecting.cc:63-66 | refines the destructor |
| `EventManagers.EventManager.SweepFd` | src/event_manager.cc:268-296 | refines one turn of the sweep and says whether the descriptor remains |
| `EventManagers.EventManager.DestroyClosedConnections` | src/event_manager.cc:262-298 | the loop over the closed set refines the sweep, for any traversal order |
| `EventManagers.EventManager.Perform` | src/event_manager.cc:180-191 | the object refines every event of the loop and keeps the invariant |
| `EventManagers.EventManager.DrainOnce` | src/event_manager.cc:221-223 | one turn of the drain loop is a run with a sweep after which only descriptors of the map are queued |
| `EventManagers.EventManager.CloseOne` | src/event_manager.cc:203-205 | closing one connection with all its callbacks disconnects it and reopens none |
| `EventManagers.EventManager.Drain` | src/event_manager.cc:206-224 | the drain loop ends within 1001 turns with nothing left, if nothing is inserted meanwhile |
| `EventManagers.EventManager.Stop` | src/event_manager.cc:193-229 | shutdown leaves no connection, and each one ever made has had its close callback once and its destructor once |
| `IoBuffers.EnsuredIff` | src/io_buffer.cc:214-218 | room is made and the contents kept iff the guard of the compaction branch excludes it |
| `IoBuffers.AppendedIff` | src/io_buffer.cc:188-193 | Append adds at the end iff the same guard holds; otherwise it runs past the vector |
| `IoBuffers.HeadAlignedMakesRoom` | src/io_buffer.cc:297-311 | a buffer that starts right after the reserved head always makes room |
| `IoBuffers.CompactionOverruns` | src/io_buffer.cc:304-309 | append six bytes to a new buffer of eight, read four, append four more: the copy overruns |
| `IoBuffers.IntendedCompactionMakesRoom` | src/io_buffer.cc:301-303 | the compaction that the comment describes would make room and keep the contents, on every failing input |
| `IoBuffers.ReceivedIff` | src/connecting.cc:97-116 | a completed read adds its data at the end iff the data fits or what is left of it is more than has been read from the front; otherwise the copy overruns |
| `IoBuffers.HeadAlignedReceives` | src/connecting.cc:108-115 | a buffer that starts right after the reserved head takes any read |
| `IoBuffers.ReceiveOverruns` | src/connecting.cc:108-115 | receive 700 bytes, consume 600, receive 800: the copy overruns |
| `IoBuffers.IoBuffer.constructor` | src/io_buffer.cc:29-32 | an empty buffer behind the reserved head |
| `IoBuffers.IoBuffer.Swap` | src/io_buffer.cc:34-38 | exchanges contents and indices |
| `IoBuffers.IoBuffer.Refresh` | src/io_buffer.cc:65-71 | drops the first min(n, readable) bytes |
| `IoBuffers.IoBuffer.RefreshRW` | src/io_buffer.cc:61-64 | empties the buffer and returns to the head |
| `IoBuffers.IoBuffer.RefreshW` | src/io_buffer.h:82 | makes bytes behind the write index readable |
| `IoBuffers.IoBuffer.ReserveWritableSpace` | src/io_buffer.cc:297-311 | refines the growth and compaction step, the misplaced write index included |
| `IoBuffers.IoBuffer.EnsureWritableSpace` | src/io_buffer.cc:214-218 | refines the same behind its guard |
| `IoBuffers.IoBuffer.Append` | src/io_buffer.cc:188-193 | adds the bytes at the end when there is room; reports the overrun otherwise |
| `IoBuffers.IoBuffer.Receive` | src/connecting.cc:97-116 | the receive step on the object: data at the end, or an overrun exactly when the guard fails |
| `IoBuffers.IoBuffer.SetHeadContent` | src/io_buffer.cc:159-167 | puts the bytes in front when they fit into the reserved head; changes nothing otherwise |
| `IoBuffers.IoBuffer.ShrinkWritableSpace` | src/io_buffer.cc:220-232 | keeps the contents; changes nothing for a small argument |
| `IoBuffers.IoBuffer.AppendInt` | src/io_buffer.cc:195-212 | appends the big-endian bytes |
| `IoBuffers.IoBuffer.SetHeadContentInt` | src/io_buffer.cc:169-186 | puts the big-endian bytes in front |
| `IoBuffers.IoBuffer.GetReadableInt` | src/io_buffer.cc:119-157 | the signed value of the first bytes, or zero when there are too few |
| `IoBuffers.IoBuffer.RetrieveInt` | src/io_buffer.cc:95-117 | the same and drops the bytes |
| `IoBuffers.IoBuffer.RetrieveAString` | src/io_buffer.cc:73-81 | the first bytes, dropped; nothing when there are too few |
| `IoBuffers.AppendThenRetrieve` | src/io_buffer.cc:95-117 | every signed value of 1, 2, 4 or 8 bytes survives append and retrieve |
| `IoBuffers.HeadThenRetrieve` | src/io_buffer.cc:169-186 | every signed value survives the reserved head, and the contents are left as they were |
| `Bytes.IntRoundTrip` | src/io_buffer.cc:199-212 | decoding inverts big-endian encoding on every signed value of any width |
| `Bytes.BytesRoundTrip` | src/io_buffer.cc:129-157 | encoding inverts decoding on every byte string |
| `Bytes.ByteOrder` | src/io_buffer.cc:199-212 | network byte order: byte k of w is the value divided by 256^(w-1-k), modulo 256 |
| `Bytes.TwosComplement` | src/io_buffer.cc:199-212 | a signed value is sent as its remainder modulo 256^w |
| `SendPath.RunKeepsOrder` | src/connecting.cc:154-195 | wire ++ output ++ pending is the concatenation of accepted messages over every run without fatal error, re-entrant sends included; pending output always has a write in flight |
| `SendPath.AcceptsAllOffered` | src/connecting.cc:334-354 | over every run the accepted bytes are exactly those passed to Send while connected, by the user or by the write-complete callback, which runs whenever a completed write leaves nothing queued |
| `SendPath.ConnectedUntilShutDown` | src/connecting.cc:363-372 | the link is connected until ShutDownWrite is called, and never again |
| `SendPath.WriteInFlightIff` | src/connecting.cc:253-276 | exactly when a write is in flight after a Send and after a completion that leaves output queued |
| `SendPath.DriveAnyRun` | src/connecting.cc:154-195 | any run at all on the real buffers, up to the first copy that overruns: sent and queued bytes are a permutation of the accepted ones; a run cut short ends in a Send with no write in flight and output left over |
| `SendPath.TakeKeepsBytes` | src/connecting.cc:163-165 | the bytes the kernel takes leave the queue from the front |
| `SendPath.SendOverrunsIff` | src/connecting.cc:347-352 | on the real buffers Send overruns iff it appends to the output buffer and that takes the compaction branch |
| `SendPath.SendKeepsOrderIff` | src/connecting.cc:334-354 | for messages of a given size Send keeps all bytes in order whatever the message iff a write is in flight, or nothing is pending and the output buffer makes room |
| `SendPath.CompleteStrandsIff` | src/connecting.cc:184-191 | a completion strands pending output iff the error is fatal or the resubmission is refused |
| `SendPath.OrderCanBreak` | src/connecting.cc:184-191 | a run in which a later message overtakes an earlier one |
| `SendPath.OverrunAfterRefusal` | src/connecting.cc:163-167 | a new connection, 1000 bytes half taken, resubmission refused, 100 more bytes: the copy overruns |
| `SendPath.HalfLinkIsInOrder` | src/connecting.cc:163-167 | just before that copy the queue is in order and nothing is stranded |
| `SendPath.ShutDownCutsOff` | src/connecting.cc:363-372 | whatever follows ShutDownWrite the wire stays as it was, and the accepted bytes that never get there are exactly those the kernel had not taken |
| `SendPath.ShutDownIsCleanIff` | src/connecting.cc:363-372 | whatever the kernel has done unseen and whatever follows, nothing is lost iff no write was in flight |
| `SendPath.ShutDownCanLose` | src/connecting.cc:363-372 | send one byte and shut down: the byte never reaches the wire, whatever follows |
| `SendPath.DeferredShutDownIsNeverFirst` | src/connecting.cc:174-182 | over every run and every callback, where OnWriteComplete tests for it the socket of a leaving connection is already shut |
| `SendPath.Sender.SubmitWriteOnce` | src/connecting.cc:253-276 | refines submission on the real buffers |
| `SendPath.Sender.constructor` | src/connecting.cc:46-62 | an empty queue with nothing in flight |
| `SendPath.Sender.RunCallback` | src/connecting.cc:174-176 | refines any sequence of sends from the write-complete callback |
| `SendPath.Sender.Send` | src/connecting.cc:334-354 | refines Send on the real buffers, leaves the buffer in flight untouched, and overruns exactly when the guard of the output buffer fails |
| `SendPath.Sender.OnWriteComplete` | src/connecting.cc:154-195 | refines the completion on the real buffers, swap and callback included |
| `SendPath.Sender.ShutDownWrite` | src/connecting.cc:363-372 | refines the shutdown |
| `SendPath.Drive` | src/connecting.cc:154-195 | over a whole run on real buffers with submission entries and no fatal error no copy overruns, the queue stays in order and the state is the abstract one |
| `Adler32.AddIsRemainder` | src/rpc_codec.cc:252-255 | the running sums are sums modulo 65521, as in section 8.2 of RFC 1950 |
| `Adler32.ChecksumOfRfc1950` | src/rpc_codec.cc:252-255 | the checksum is that of RFC 1950: low half one plus the sum of the bytes, high half the number of bytes plus each byte as often as there are bytes from it to the end, both modulo 65521 |
| `Adler32.OneByteChangesChecksum` | src/rpc_codec.cc:252-255 | changing any single byte changes the checksum |
| `Adler32.NeighbourSwapChangesChecksum` | src/rpc_codec.cc:252-255 | exchanging two unequal neighbours changes the checksum |
| `RpcCodec.ScanExtends` | src/rpc_codec.cc:82-115 | input behind a buffer does not change what the buffer already yields |
| `RpcCodec.ScanSettles` | src/rpc_codec.cc:82-115 | a second pass over the leftover delivers nothing |
| `RpcCodec.FrontExtends` | src/rpc_codec.cc:84-103 | a decision other than waiting does not depend on later input |
| `RpcCodec.FeedIsScan` | src/rpc_codec.cc:82-115 | successive calls from a settled buffer are one scan of everything |
| `RpcCodec.ChunkingIsIrrelevant` | src/rpc_codec.cc:82-115 | any cutting of any stream, valid or not, delivers what the whole stream delivers in one piece |
| `RpcCodec.CuttingsAgree` | src/rpc_codec.cc:82-115 | two cuttings of one stream agree on messages, first error and leftover |
| `RpcCodec.NothingAfterError` | src/rpc_codec.cc:87-110 | after a reported error no later chunk delivers anything |
| `RpcCodec.BodyParses` | src/rpc_codec.cc:220-239 | a body as the sender builds it is accepted, as the message that was sent |
| `RpcCodec.ParsesIff` | src/rpc_codec.cc:220-239 | a body is accepted as a message iff it is the tag, a payload that parses to the message, and the checksum of the two |
| `RpcCodec.ParseErrorIff` | src/rpc_codec.cc:220-239 | checksum error iff the body is no text with its checksum; unknown type iff it is and the tag is not in front; parse error iff it is, behind the tag, and the payload does not parse |
| `RpcCodec.ScanTakesFrames` | src/rpc_codec.cc:82-115 | what a pass takes out of any buffer is a series of whole frames, delivered in order or declined; it stops in front of too few bytes, a length out of range, or a frame that does not parse, and reports which |
| `RpcCodec.FrameIsDeliveredIff` | src/rpc_codec.cc:86-110 | an encoded frame is delivered iff its length is within the limit; otherwise the length error is reported and nothing consumed |
| `RpcCodec.RoundTrip` | src/rpc_codec.cc:240-250 | a list of encoded messages comes out as it went in, however the stream is cut |
| `RpcCodec.PartialFrameWaits` | src/rpc_codec.cc:91-113 | a proper prefix of a frame delivers and reports nothing |
| `RpcCodec.LeftoverIsPartialFrame` | src/rpc_codec.cc:82-115 | after any part of such a stream the leftover is a proper prefix of the next frame |
| `RpcCodec.OneByteCorruptionIsDetected` | src/rpc_codec.cc:220-265 | changing one byte of tag, payload or checksum makes Parse report the checksum error |
| `RpcCodec.LookAtFront` | src/rpc_codec.cc:84-103 | the decision of the loop on a real buffer is the abstract one |
| `RpcCodec.OnMessage` | src/rpc_codec.cc:82-115 | the loop on a real buffer delivers, reports and leaves exactly what the scan says |
| `RpcCodec.ReceiveChunks` | src/connecting.cc:97-120 | chunks received on a real buffer and handed to OnMessage deliver, report and leave what Feed says, up to the first copy that overruns, which happens exactly where the receive guard fails |
| `RpcCodec.FeedOneMore` | src/rpc_codec.cc:82-115 | one more chunk continues from the leftover of the earlier ones |
| `RpcCodec.Serialize2Buffer` | src/rpc_codec.cc:168-187 | the payload ends up behind the contents iff the buffer makes room for payload and checksum |
| `RpcCodec.SerializedIff` | src/rpc_codec.cc:171-185 | the same as a law of the buffer |
| `RpcCodec.BuiltIsFrameIff` | src/rpc_codec.cc:244-245 | the frame as built is that of the format iff the checksum of the part a 32-bit length reaches is that of the whole text, in particular below 4 GiB |
| `RpcCodec.LongTextIsMischecked` | src/rpc_codec.cc:244-245 | it is not for a text of 4 GiB of zeros |
| `RpcCodec.FillEmptyBuffer` | src/rpc_codec.cc:240-250 | leaves exactly the frame as built, and below 4 GiB of text the frame of the message |
| `RpcChannel.RunKeeps` | src/rpc_channel.cc:59-165 | every call, delivery in any order, repeated delivery and closure keeps the protocol invariant of both peers |
| `RpcChannel.CallsCompleteOnceWithOwnAnswer` | src/rpc_channel.cc:85-110 | under any loss, reordering and duplication a call completes at most once and with the answer to its own request |
| `RpcChannel.EveryRequestIsAnsweredOnce` | src/rpc_channel.cc:111-165 | once every closure has run each id has had exactly as many responses as requests handled, error paths included |
| `RpcChannel.ErrorsAreTrue` | src/rpc_channel.cc:111-154 | over every run an error response says what is wrong with its request: unknown service, known service and unknown method, or a request the method cannot parse; any other carries an answer |
| `RpcChannel.CompletesIffResponseObject` | src/rpc_channel.cc:89-110 | over every run, once the response to a call has arrived the call is over; it has completed iff it was made with a response object, and then its closure has run iff it has one |
| `RpcChannel.ClosureIsDropped` | src/rpc_channel.cc:100-110 | a call with a closure and no response object is answered and its closure never runs |
| `RpcChannel.RpcAsyncChannel.CallMethod` | src/rpc_channel.cc:59-78 | refines the issue of a call under a new id |
| `RpcChannel.RpcAsyncChannel.OnRpcMessage` | src/rpc_channel.cc:85-154 | refines matching of responses and routing of requests; a closure is run iff the call is outstanding and has a response object and a closure; unknown ids change nothing; an immediate reply carries the right error |
| `RpcChannel.RpcAsyncChannel.DoneCallback` | src/rpc_channel.cc:156-165 | refines the response of a closure |
| `Timers.InsertSorted` | src/timer.cc:18-21 | insertion keeps the queue ordered by deadline, then by insertion |
| `Timers.Insert` | src/timer.cc:18-21 | insertion adds exactly the new task |
| `Timers.InsertPlace` | src/timer.cc:18-21 | where insertion puts the task |
| `Timers.ExpiredCount` | src/timer.cc:40-43 | the expired prefix ends at the first task later than now |
| `Timers.RestIsLater` | src/timer.cc:40-44 | everything behind the expired prefix is later than now |
| `Timers.WakesInTimeIff` | src/timer.cc:23-32 | the wait never outlasts the first deadline iff the distance is at least -2^31 milliseconds or its residue modulo 2^32 is not a positive 32-bit int |
| `Timers.WaitsForFirstDeadline` | src/timer.cc:23-32 | within the range of an int the wait is exactly the milliseconds left, zero for a task that is due |
| `Timers.OverdueTaskCanWait` | src/timer.cc:28-31 | an overdue first task for which the wait is 2^31 - 1 milliseconds |
| `Timers.RunKeeps` | src/event_manager.cc:114-156 | registrations, passes and registrations from callbacks keep the queue invariant |
| `Timers.NeverEarlyAndOnce` | src/event_manager.cc:237-261 | over every run a task fires first for the deadline it was registered with and then each time for the start of the pass that fired it plus the interval it was registered with, never before; one registered without interval fires at most once |
| `Timers.NeverBeforeAsked` | src/event_manager.cc:237-261 | with a clock that does not run backwards no callback ever runs before the deadline its task was registered with |
| `Timers.OneEntryUntilEnded` | src/event_manager.cc:244-259 | between passes a task has exactly one entry until it ends, with the interval it was registered with and the deadline due next, and none afterwards; it ends iff it fired without interval or its continue predicate said no |
| `Timers.PassFiresExactlyTheDue` | src/event_manager.cc:237-261 | a pass fires exactly the due tasks, by deadline and then by insertion |
| `Timers.Timer.AddTimeTask` | src/timer.cc:18-21 | the task goes behind everything not later and in front of the first later one, nothing else moves, and a sorted queue stays sorted |
| `Timers.Timer.GetMinTimeDuration` | src/timer.cc:23-32 | the truncated distance to the first deadline, never negative, 10000 when empty |
| `Timers.Timer.GetExpiredTimeTasks` | src/timer.cc:34-47 | returns and removes exactly the expired prefix |
| `Timers.TaskLoop.Run` | src/event_manager.cc:114-151 | refines registration: the queue gets exactly one new task, with this deadline and interval and a new id |
| `Timers.TaskLoop.RunAt` | src/event_manager.cc:114-123 | a one-shot task for the given time |
| `Timers.TaskLoop.RunAfter` | src/event_manager.cc:124-133 | a one-shot task for now plus the delay |
| `Timers.TaskLoop.RunEveryUntil` | src/event_manager.cc:134-151 | a periodic task whose first time is one interval after the start |
| `Timers.TaskLoop.RunSoon` | src/event_manager.cc:153-156 | a one-shot task for now |
| `Timers.TaskLoop.RunCallback` | src/event_manager.cc:240-243 | refines the registrations a callback makes |
| `Timers.TaskLoop.Reschedule` | src/event_manager.cc:244-259 | refines what follows a callback: register again or end |
| `Timers.TaskLoop.DoExpiredTimeTasks` | src/event_manager.cc:237-261 | the loop over expired tasks, with callbacks that register tasks, refines the pass |
| `MemoryPools.CapacityClosedForm` | src/memory_pool.h:60-78 | k refills obtain 40k + k(k-1)/2 blocks |
| `MemoryPools.EmptyPool` | src/memory_pool.h:40-47 | a new pool is sound, and its blocks hold an object of the size asked for, exactly that size when it is at least a link |
| `MemoryPools.RefillKeeps` | src/memory_pool.h:59-79 | carving a fresh chunk keeps the pool sound and yields exactly its blocks |
| `MemoryPools.PopKeeps` | src/memory_pool.h:80-82 | taking the first free block keeps the pool sound and the counts right |
| `MemoryPools.PushKeeps` | src/memory_pool.h:90-93 | returning a live block keeps the pool sound and the counts right |
| `MemoryPools.WriteKeeps` | src/memory_pool.h:26-31 | a word written into a live block shares no byte with any link word, and both lists stay intact |
| `MemoryPools.PoolIsSound` | src/memory_pool.h:57-94 | over every legal run the free list is the finite repetition-free chain from its head, disjoint from live blocks; every block, live or free, has room for an object of the size the pool was made for, inside its region and apart from all other blocks and all chunk headers; live + free = 40k + k(k-1)/2 |
| `MemoryPools.AllocatedBlockIsNew` | src/memory_pool.h:57-83 | Allocate hands out a block that is not live, with room for the object inside its region, apart from every live block and every chunk header |
| `MemoryPools.AllocateAfterDeallocate` | src/memory_pool.h:57-94 | the block given back last is handed out next, and the two calls cancel out |
| `MemoryPools.MemoryPool.constructor` | src/memory_pool.h:40-47 | an empty pool whose blocks hold an object of the size asked for and a link |
| `MemoryPools.MemoryPool.CarveBlocks` | src/memory_pool.h:70-77 | the refill loop refines carving |
| `MemoryPools.MemoryPool.Refill` | src/memory_pool.h:59-79 | refines the refill branch |
| `MemoryPools.MemoryPool.Allocate` | src/memory_pool.h:57-83 | refines allocation, with the guarantees above for the size the pool was made for |
| `MemoryPools.MemoryPool.Deallocate` | src/memory_pool.h:86-94 | returns the block to the head of the free list; null changes nothing |
| `MemoryPools.MemoryPool.Destroy` | src/memory_pool.h:48-54 | every chunk is given back exactly once |

## Left out

- Counter wrap-around at 64 bits and the C++ weak memory orderings: counters are unbounded and steps sequentially
  consistent.
- Multishot read and provided buffers (src/connecting.cc:218-234, src/poller.cc:189-219): conditionally compiled; the
  one-shot read is modelled.
- Reads and writes submitted without a completion callback (src/poller.cc:410-440): the library never submits one.
- The list of active eventers and `Eventer::Work`: the callbacks it makes appear as events of the loop.
- The batch limit and time budget of `Poller::Poll`: any sequence of completions is a run.
- Other threads calling into a loop; the loop's own functions run on one thread.
- Connection objects are values in the connection map, named by an identity that is never reused; the destroy callback is
  taken to delete the connection it receives.
- Log formatting and file rotation: the log file is the concatenation of what is written.
- The high-water-mark callback, which has no effect on the buffers.
- Stopping or closing a connection in the middle of sending: `SendPath.dfy` keeps the connection open, `EventLoop.dfy`
  covers closing without the bytes.
- Payload serialisation is a pair of functions; the round trip assumes that they invert each other.
- The synchronous RPC path, `IoBuffer::ReadFromFd` and `WriteToFd`, the `Find*` readers and the destructor of the RPC
  channel.
- `ThreadPool`, `Balancer`, `Connector`, `NetAddress`, `Socketer`, `Client`, `Server`, the HTTP and chat examples, and the
  acceptor apart from the ownership of its context.
- Drain: is stated for environments that insert no connection; with insertions the loop need not end.
- Stop: is stated for environments that insert no connection, as Drain is.
- Drive: is stated for runs without fatal write errors whose volume fits into the address space.
- DriveAnyRun: is stated for runs whose volume fits into the address space; after a copy has overrun nothing is promised.
- ReceiveChunks: is stated for chunks that fit into the address space; after a copy has overrun nothing is promised.
- NothingAfterError: takes it that the error callback leaves the buffer alone (src/rpc_codec.cc:88, 108), as the default one
  does.
- InsertNewConnection: runs of the loop insert only descriptors that are not in the map, because the descriptor of a
  connection in the map is still open and the kernel does not hand it out again.
