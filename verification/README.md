# Verification of tinybus: terminal lifecycle, calls, streams and module control

This project models the concurrent heart of tinybus in Dafny and proves what it
promises over every run.

**Terminal lifecycle.** `TerminalProtocol.dfy` is an interleaving model of one
native module instance: every Control lock region, atomic load and
compare-and-swap of `crates/tinybus-module/src/terminal.rs` and of its callers in
`lib.rs` is one step of one thread. The threads are the startup thread, the setup
task, the physical worker and any number of callers (signals, panics, shutdowns,
reinitializations, owner drops). Hooks, destructors, factories, the host query and
thread creation are choices: they may return, fail or panic. `TerminalMemory.dfy`
holds the memory record and its region functions, `TerminalState.dfy` the same
regions on an object that updates its fields in place.

The invariant has thirteen layers (`TerminalOrder`, `TerminalRequest`,
`TerminalFinish`, `TerminalReinit`, `TerminalRendezvous`, `TerminalAnchor`,
`TerminalJoin`, `TerminalHook`, `TerminalRelease`, `TerminalDisposal`,
`TerminalWake`, `TerminalPanic`, `TerminalPayload`). Each says what holds globally,
what a thread knows at its program point, and what every step guarantees to the
other threads; a `Stable` lemma shows that the guarantee of one thread keeps the
knowledge of every other. `TerminalInvariant.dfy` combines the layers per program
point and `TerminalRuns.dfy` lifts them to all runs. `TerminalTheorems.dfy` states
the results about states and runs, `TerminalVerdict.dfy` what a shutdown's TB_OK
says about the run behind it, and `TerminalProgress.dfy` that the worker moves on
in every interleaving.

**Registry.** `Registry.dfy` has the 256-slot admission table as an array updated in
place and, beside it, its runs: tokens, anchors, references and leases.
`TerminalWorld.dfy` composes the registry with one protocol per admitted State.

**Bus.** `Bus.dfy` is the broker's routing decision, `CallBinding.dfy` one handshaken
connection with any number of concurrent calls, the broker and arbitrary peers,
`ConnectionTasks.dfy` the reader and writer loops over the pending map.
`StreamEncoding.dfy` is the streamed reply's counting and chunking passes.

**Modules.** `ModuleTransport.dfy` is the bounded inbound queue and its reader. A
delivery samples the host's routing first and queues the frame later, so a frame
may be queued while the routing is already another; the project shows such a run
and says exactly when the two agree. `LegacyRuntime.dfy` is the lifecycle
without terminal hooks, `ModuleController.dfy` the selection of the one module
controller.

History fields record what happened (commits, hook runs, panics, who owes a
wake-up). Steps only write them, except four bits that stand for facts of the
program (the factory got a view, the task was spawned, the task was aborted, the
worker exists) and the counter that names constructions.

Verify everything with `dafny verify dfyconfig.toml`.

## Model

| member | source | states |
|---|---|---|
| `TerminalTheorems.CompletionSound` | crates/tinybus-module/src/terminal.rs:572-589 | In every reachable state a published physical stop excludes uncertainty and an anchor, a published uncertain outcome implies the flag, and uncertainty implies the anchor; an absent anchor means a published stop or a factory failure that transferred nothing. |
| `TerminalTheorems.UncertaintySticky` | crates/tinybus-module/src/terminal.rs:949-979 | From any reachable state to any later one uncertainty and its anchor stay, and publication can be downgraded but never upgraded. |
| `TerminalTheorems.StopHasEvidence` | crates/tinybus-module/src/terminal.rs:903-948 | Physical stop is published only with the setup task joined, a registered finish hook run exactly once and reporting a stop, no destructor panic, every slot empty and no SDK owner left. |
| `TerminalTheorems.StopIsFinal` | crates/tinybus-module/src/terminal.rs:467-472 | Once a stop was published no SDK owner and no attached resource can appear in any later state. |
| `TerminalTheorems.ExecutionAlwaysSettles` | crates/tinybus-module/src/terminal.rs:981-1018 | The task is always held together with the runtime that joins it, so the branch that puts the finish hook back is dead. |
| `TerminalTheorems.FinishHookOnce` | crates/tinybus-module/src/terminal.rs:920-939 | The finish hook runs at most once in every run, and exactly once if it was registered and the worker completed, whatever panicked before. |
| `TerminalTheorems.DisposalPrefix` | crates/tinybus-module/src/terminal.rs:1019-1053 | If destructor k of dispose_setup panics, exactly the captures up to it have left since the join, the request hook is gone if and only if its turn had come, all eight owners of the release are untouched, the outcome is uncertain and anchored, and a registered finish hook was still called exactly once. |
| `TerminalTheorems.RetirementRetains` | crates/tinybus-module/src/terminal.rs:903-918 | If the destructor of a retired future panicked, the disposal never starts: past the join everything held then is still held, the request hook included, the outcome is uncertain and anchored, and a registered finish hook was called exactly once. |
| `TerminalTheorems.CleanupPrefix` | crates/tinybus-module/src/terminal.rs:1054-1122 | If the k-th destructor of the release panics, exactly the captures of the disposal and the owners up to it have left since the join and all later ones are still held, the outcome is uncertain and anchored, and a registered finish hook was called exactly once. |
| `TerminalTheorems.WorkerLeavesLast` | crates/tinybus-module/src/terminal.rs:887-896 | The worker has left its loop only on a terminal, published instance with no reinitialization active, nothing queued and the request hook not due or running. |
| `TerminalTheorems.NoReinitAfterLeaving` | crates/tinybus-module/src/terminal.rs:651-658 | After the worker left its loop begin_reinit admits nobody in any later state. |
| `TerminalTheorems.OneReinitAtATime` | crates/tinybus-module/src/terminal.rs:651-662 | No two callers are ever between begin_reinit and end_reinit at once. |
| `TerminalTheorems.AtMostOneLateOperation` | crates/tinybus-module/src/terminal.rs:853-886 | After a terminal cause is committed at most one more reinitialization operation is taken. |
| `TerminalTheorems.ConstructionReturnsOwnCode` | crates/tinybus-module/src/terminal.rs:685-707 | A caller that no longer waits in construct_reinit gets the code of its own closure, or TB_CLOSED after a rejected worker. |
| `TerminalTheorems.RendezvousProgress` | crates/tinybus-module/src/terminal.rs:663-707 | While a caller waits, its own operation is the one outstanding and somebody is on the way to it: the caller has still to schedule, the spawner is about to start or reject the worker, the worker is executing it, or the worker stands in its loop outside the library and finds it queued. |
| `TerminalTheorems.NoLostWakeup` | crates/tinybus-module/src/terminal.rs:897-902 | A thread parked on the condition variable with its guard true has a waker that has still to call notify_all: worker, both reinitialization waits and the shutdown wait. |
| `TerminalTheorems.RequestAtMostOnce` | crates/tinybus-module/src/terminal.rs:611-620 | The request hook is entered at most once in every run, and only on a terminal instance. |
| `TerminalTheorems.NoLostRequest` | crates/tinybus-module/src/terminal.rs:537-553 | With a terminal cause committed, hooks registered and every register, signal, source_panic and publish returned, the request hook was invoked exactly once and has ended. |
| `TerminalTheorems.FinishAfterRequest` | crates/tinybus-module/src/terminal.rs:887-904 | The finish hook starts only after the request hook returned or panicked. |
| `TerminalTheorems.PayloadCellEmpty` | crates/tinybus-module/src/terminal.rs:590-598 | keep_payload always finds its cell empty, so no primary payload is ever replaced. |
| `TerminalTheorems.EachKindPanicsOnce` | crates/tinybus-module/src/terminal.rs:211-219 | Each of the seven kinds of foreign code is caught panicking at most once in a run. |
| `TerminalTheorems.ShutdownVerdict` | crates/tinybus-module/src/lib.rs:1864-1879 | terminal_shutdown answers only TB_OK, after a really published stop, or TB_PANICKED, leaving recorded and anchored uncertainty. |
| `TerminalVerdict.ShutdownOkNeedsNoFault` | crates/tinybus-module/src/lib.rs:1864-1879 | In every run that has a thread at TB_OK, that thread is a caller and made three steps in this order: its wait ended on a published physical stop, it sampled the host and the host reported no fault, and it found no fault committed by anybody. |
| `TerminalVerdict.EveryRunHasStates` | crates/tinybus-module/src/lib.rs:1864-1879 | Every list of events has the sequence of states over which the former result speaks, and it ends where the run ends. |
| `TerminalTheorems.ReasonIsWinner` | crates/tinybus-module/src/terminal.rs:518-536 | Over every interleaving of compare-and-swap attempts, spurious failures included, the reason is what the committed causes amount to. |
| `TerminalTheorems.WinnerIsFirst` | crates/tinybus-module/src/terminal.rs:12-24 | What causes amount to is the first fault-class cause if there is one, otherwise the first cause. |
| `TerminalTheorems.ReasonChangesAtMostTwice` | crates/tinybus-module/src/terminal.rs:526-534 | Along any run the reason changes at most twice. |
| `TerminalTheorems.ReasonNeverReopens` | crates/tinybus-module/src/terminal.rs:1123-1125 | Liveness never reopens and a fault, once visible, stays the same fault. |
| `TerminalTheorems.HostFaultFirst` | crates/tinybus-module/src/terminal.rs:537-544 | A fault-class reason is visible only after the host was told of a fault, once foreign code was entered. |
| `TerminalProgress.LoopHasReason` | crates/tinybus-module/src/terminal.rs:887-902 | While the worker of a terminal, published instance is still in its loop, it may leave it now, or a party is named that has still to move: the operation in the cell or in hand, the active caller, the thread that owes run_request, or the thread inside the hook. |
| `TerminalProgress.WorkerLeaves` | crates/tinybus-module/src/terminal.rs:851-902 | Once none of them is left, every interleaving in which the worker takes two steps of its own takes it out of its loop. |
| `TerminalProgress.CompletionPublished` | crates/tinybus-module/src/terminal.rs:903-979 | With nothing left to join, every interleaving in which a worker that nobody needs takes twenty-three steps of its own, or twenty-one once it has left its loop, ends with a published completion, whatever hooks and destructors do. |
| `TerminalProgress.OperationAnswered` | crates/tinybus-module/src/terminal.rs:677-707 | With a started worker, every interleaving in which the worker takes seven steps of its own, whatever foreign code does in them, passes a state in which the waiting caller may go on. |
| `TerminalRuns.InvStep` | crates/tinybus-module/src/terminal.rs:349-360 | Any step of any thread keeps the invariant for all threads, parked ones included. |
| `TerminalRuns.ReachableInv` | crates/tinybus-module/src/terminal.rs:353-427 | Every state of every run from admission on satisfies the invariant. |
| `TerminalState.TerminalState.Commit` | crates/tinybus-module/src/terminal.rs:518-536 | The in-place retry loop ends with the reason that committing the overtaking causes and then this one in sequence would leave; proved with a loop invariant and a bound on attempts. |
| `TerminalState.TerminalState.RecordUncertain` | crates/tinybus-module/src/terminal.rs:572-589 | Flag, downgrade and anchor change together, and nothing else. |
| `TerminalState.TerminalState.KeepPayload` | crates/tinybus-module/src/terminal.rs:590-598 | The payload fills the cell of its kind and nothing else changes. |
| `TerminalState.TerminalState.Register` | crates/tinybus-module/src/terminal.rs:599-604 | Both hooks and the idle request state appear in one region. |
| `TerminalState.TerminalState.BeginRequest` | crates/tinybus-module/src/terminal.rs:611-620 | The request is admitted exactly on a terminal instance with an idle request. |
| `TerminalState.TerminalState.SettleRequest` | crates/tinybus-module/src/terminal.rs:627-641 | The end of the hook, with uncertainty if it panicked. |
| `TerminalState.TerminalState.BeginReinit` | crates/tinybus-module/src/terminal.rs:651-658 | Admission exactly when live and inactive. |
| `TerminalState.TerminalState.SubmitReinit` | crates/tinybus-module/src/terminal.rs:667-673 | The sole cell takes the operation and the wait begins. |
| `TerminalState.TerminalState.WorkerTurn` | crates/tinybus-module/src/terminal.rs:853-902 | One turn takes the queued operation, or leaves exactly when nobody is in the way, or waits. |
| `TerminalState.TerminalState.Acknowledge` | crates/tinybus-module/src/terminal.rs:879-884 | The acknowledgment of one operation, failure being sticky. |
| `TerminalState.TerminalState.BeginSchedule` | crates/tinybus-module/src/terminal.rs:782-793 | Only the first scheduler submits the worker. |
| `TerminalState.TerminalState.RejectWorker` | crates/tinybus-module/src/terminal.rs:812-817 | A rejected worker publishes an uncertain, anchored outcome. |
| `TerminalState.TerminalState.DisposeSetup` | crates/tinybus-module/src/terminal.rs:1019-1053 | One capture at a time in the fixed order: if destructor k unwinds, exactly the captures up to k have left, the request hook being the third; otherwise all have. |
| `TerminalState.TerminalState.ReleaseResources` | crates/tinybus-module/src/terminal.rs:1054-1122 | One owner at a time in the fixed order: if destructor k unwinds, exactly the prefix up to k has left; otherwise all have, and success is an owner count of zero. |
| `TerminalState.TerminalState.Finalize` | crates/tinybus-module/src/terminal.rs:949-979 | The final region linearizes publication with anchor retirement: a stop is published only without doubt and without anchor. |
| `Registry.TokenBits` | crates/tinybus-module/src/terminal.rs:382 | Shift and mask recover what shift and or packed, in 64-bit arithmetic. |
| `Registry.TokenDecodes` | crates/tinybus-module/src/terminal.rs:434-449 | A token decodes to its generation and index and fits in 64 bits. |
| `Registry.Admission.AdmitIn` | crates/tinybus-module/src/terminal.rs:353-383 | The in-place scan reserves the first usable slot, exhausts the spent ones it passes, and mints the next generation: proved against a recursive scan. |
| `Registry.Admission.LookupIn` | crates/tinybus-module/src/terminal.rs:434-452 | A token finds the anchored State of its slot only on matching generation and token. |
| `Registry.TokensUnique` | crates/tinybus-module/src/terminal.rs:362-382 | No two States of any run share a token. |
| `Registry.ResolvesToMinted` | crates/tinybus-module/src/terminal.rs:434-452 | A token resolves to a State if and only if it was minted for that State and the State is anchored. |
| `Registry.UnanchoredDenied` | crates/tinybus-module/src/terminal.rs:434-452 | In a valid registry the token of a State resolves to nothing if and only if that State has lost its anchor. |
| `Registry.TokenFilterRedundant` | crates/tinybus-module/src/terminal.rs:447-451 | In every reachable registry the token comparison after the generation match never rejects. |
| `Registry.ReservedIffLeased` | crates/tinybus-module/src/terminal.rs:164-175 | A slot is reserved exactly while one State holds its lease. |
| `Registry.PermitsBounded` | crates/tinybus-module/src/terminal.rs:136-146 | At most 256 States hold a permit in any reachable registry, and every State still referenced holds one. |
| `Registry.HolderKeepsPermit` | crates/tinybus-module/src/terminal.rs:823-833 | A State that is still referenced, for example through a lookup, keeps its slot and generation across concurrent retirement. |
| `Registry.PermitReturnsAtLastDrop` | crates/tinybus-module/src/terminal.rs:164-175 | Only the end of a dead State's lease returns a permit, never the retirement of an anchor. |
| `Registry.ReanchorRestores` | crates/tinybus-module/src/terminal.rs:577-588 | While a State is held, recording uncertainty leaves exactly its own anchor and its token resolves to it. |
| `Registry.DeadTokenNeverResolves` | crates/tinybus-module/src/terminal.rs:434-452 | The token of a State without references resolves to nothing in every later registry, whoever took its slot. |
| `Registry.ExhaustionIsFinal` | crates/tinybus-module/src/terminal.rs:366-380 | A spent slot stays exhausted and unreserved with its generation for good; generations never wrap. |
| `Registry.RefusalMeansFull` | crates/tinybus-module/src/terminal.rs:362-383 | Admission is refused if and only if every slot is reserved or spent, and a refusal changes no generation. |
| `TerminalWorld.PanickedTokenResolves` | crates/tinybus-module/src/lib.rs:1874-1877 | After a TB_PANICKED shutdown the token resolves to that same State in every later state of registry and instances together. |
| `TerminalWorld.UncertainTokenResolves` | crates/tinybus-module/src/terminal.rs:456-461 | The same for every recorded uncertainty. |
| `TerminalWorld.StoppedTokenDenied` | crates/tinybus-module/src/terminal.rs:962-969 | While a physical stop is published the token of the stopped State resolves to nothing. |
| `Bus.StampIsSender` | crates/tinybus/src/broker.rs:395-399 | What a peer receives carries the unique name the broker minted for its sender, whatever the sender wrote. |
| `Bus.BusAnswersAreMarked` | crates/tinybus/src/broker.rs:1056-1067 | The broker's own answers are unstamped and its routing errors are stamped with the bus name. |
| `Bus.GuardedCallReachesOnlyBound` | crates/tinybus/src/router.rs:570-598 | A call addressed to or guarded by a unique name reaches that peer or nobody. |
| `Bus.LookupNamesOwner` | crates/tinybus/src/broker.rs:620-646 | ResolveCallTarget answers the owner at the moment the broker handled it. |
| `Bus.RouterSteps` | crates/tinybus/src/router.rs:255-420 | Attach, detach, claim and release keep the table: unique names belong to their minted peer and the bus name is never owned. |
| `CallBinding.AcceptsGenuine` | crates/tinybus/src/connection.rs:153-175 | On what a broker delivers the acceptance rule takes a successful reply if and only if it comes from the bound peer, or from the broker for a bus call, and is confidential if the call was; an accepted error comes from the bound peer or the broker. |
| `CallBinding.ReplyIsFromBoundPeer` | crates/tinybus/src/connection.rs:991-1092 | End to end, over every run with arbitrary peers: a successful call was answered by exactly the peer it was bound to, by the broker itself for bus calls, confidentially if the call was confidential, and the binding came from the caller's unique name or the broker's own answer. |
| `CallBinding.BoundPeerOwnedName` | crates/tinybus/src/connection.rs:1004-1050 | A call to a well-known name is bound to a peer that owned this very name while the call was being negotiated: in a state of the run in which the lookup had its serial and the call itself had not. |
| `CallBinding.CallReachesOnlyBound` | crates/tinybus/src/connection.rs:1022-1050 | A message queued or on the wire under a call's own serial is routed to the bound peer or to nobody, whatever the table has become. |
| `CallBinding.RejectedReplyLeavesWaiter` | crates/tinybus/src/connection.rs:1644-1660 | A reply removes a waiter if and only if that waiter accepts it; otherwise entry and channel are untouched. |
| `CallBinding.SerialsDistinct` | crates/tinybus/src/connection.rs:1052-1066 | Serials of concurrent calls differ and a negotiated call's serial follows its lookup's. |
| `CallBinding.ReturnedCallNotPending` | crates/tinybus/src/connection.rs:1068-1091 | A call that returned, by reply, refusal, timeout or link loss, has no serial in the pending map. |
| `CallBinding.ResolvedOnce` | crates/tinybus/src/connection.rs:1653-1660 | Each wait is resolved at most once. |
| `CallBinding.ReturnedIsFinal` | crates/tinybus/src/connection.rs:1073-1091 | A returned call never changes again. |
| `CallBinding.LinkLossReleasesAll` | crates/tinybus/src/connection.rs:1676-1679 | The exit of the reader releases every waiter then registered and disturbs nobody else. |
| `ConnectionTasks.Link.DispatchLoop` | crates/tinybus/src/connection.rs:1614-1679 | The reader loop over the in-place pending map equals dispatching every delivery in order and then releasing all waiters. |
| `ConnectionTasks.Link.WriterLoop` | crates/tinybus/src/connection.rs:1564-1586 | The writer loop writes exactly the messages that were not refused, in order, up to a transport failure, and answers the callers of refused calls. |
| `ConnectionTasks.RefusalSparesTheRest` | crates/tinybus/src/connection.rs:1570-1585 | Up to a transport failure the wire has exactly the messages that were not refused, each right after the sent ones queued before it, duplicates included. |
| `ConnectionTasks.TakenUnlessBroken` | crates/tinybus/src/connection.rs:1564-1586 | Without a transport failure the whole outbox is taken; otherwise the last message taken is the one it failed on. |
| `ConnectionTasks.WriterKeepsOrder` | crates/tinybus/src/connection.rs:1564-1586 | What is written is a subsequence of the queue in queue order. |
| `ConnectionTasks.RefusedCallersAnswered` | crates/tinybus/src/connection.rs:1589-1611 | A waiting caller whose call the transport refused gets an error at once and leaves the map. |
| `StreamEncoding.CountingWriter.Write` | crates/tinybus/src/connection.rs:62-70 | The count grows by the length, or the write fails exactly when 64 bits would overflow. |
| `StreamEncoding.StreamReplyEncoder.Write` | crates/tinybus/src/connection.rs:100-113 | Whatever the receiver does, the loop makes progress; on success the chunks sent and the buffer are the canonical cut of all bytes so far. |
| `StreamEncoding.StreamReplyEncoder.SendBuffer` | crates/tinybus/src/connection.rs:89-97 | An empty buffer sends nothing; otherwise the whole buffer is one chunk or the receiver is gone. |
| `StreamEncoding.Encode` | crates/tinybus/src/connection.rs:1758-1773 | The chunks depend on the bytes alone, not on how they were written: all of them, or exactly as many as the receiver took. |
| `StreamEncoding.Count` | crates/tinybus/src/connection.rs:1738-1742 | The declared length is the exact length of everything written. |
| `StreamEncoding.ChunkLengths` | crates/tinybus/src/connection.rs:103-111 | Every chunk before the last is exactly 16 KiB and none is empty. |
| `StreamEncoding.ChunksConcat` | crates/tinybus/src/connection.rs:100-118 | The chunks put back together are the bytes. |
| `StreamEncoding.DeclaredLengthMatches` | crates/tinybus/src/connection.rs:1738-1766 | The declared length equals the total length of the chunks. |
| `ModuleTransport.RefinesFifo` | crates/tinybus-module/src/lib.rs:384-412 | Over every interleaving received frames are a prefix of accepted ones in order, with at most 256 in between. |
| `ModuleTransport.ProvenanceIsPerFrame` | crates/tinybus-module/src/lib.rs:400-408 | The connection samples for each frame exactly the routing that the delivery of that very frame had sampled, and no delivery is received twice. |
| `ModuleTransport.QueuedRoutingIsSampled` | crates/tinybus-module/src/lib.rs:475-486 | A delivery that is accepted queues its bytes with the routing sampled at its start; that is the routing at the moment of queueing if and only if the flips in between cancel out. |
| `ModuleTransport.QueuedRoutingCanBeStale` | crates/tinybus-module/src/lib.rs:475-486 | A concrete interleaving in which a frame marked unrouted is queued while the host routes. |
| `ModuleTransport.NoWakeupLostToClose` | crates/tinybus-module/src/lib.rs:384-395 | Once close was signalled the reader is never parked. |
| `ModuleTransport.CloseDrains` | crates/tinybus-module/src/lib.rs:384-421 | From every reachable state in which close is signalled, also while close still waits for the receiver, whatever deliveries, flips and further close calls interleave, the channel is closed and the reader ends after a number of its own steps bounded by the state and the close calls, having received every accepted frame. |
| `ModuleTransport.Inbound.Deliver` | crates/tinybus-module/src/lib.rs:468-490 | An undisturbed delivery does what its two regions do: the frame is queued, or answers backpressure at 256, or closed. |
| `ModuleTransport.Inbound.Recv` | crates/tinybus-module/src/lib.rs:384-412 | One undisturbed poll does to the fields what the reader's steps do: the oldest frame with its provenance published, a parse error that consumes the frame and publishes nothing, the end exactly when closed and empty, or waiting. |
| `ModuleTransport.Inbound.Close` | crates/tinybus-module/src/lib.rs:414-421 | An undisturbed close does what its two regions do. |
| `LegacyRuntime.ShutdownSucceedsOnce` | crates/tinybus-module/src/lib.rs:492-523 | At most one shutdown of any run reports TB_OK. |
| `LegacyRuntime.StepCountsOk` | crates/tinybus-module/src/lib.rs:512-518 | TB_OK is given exactly when the runtime was still there. |
| `LegacyRuntime.CallbackExcludesDisposal` | crates/tinybus-module/src/lib.rs:525-543 | The reinitialization callback never runs while or after it is disposed, and excludes every other holder of the slot. |
| `LegacyRuntime.NoCallbackAfterDisposal` | crates/tinybus-module/src/lib.rs:449-463 | After a disposal no callback runs in any later state. |
| `LegacyRuntime.NoDeliveryAfterShutdown` | crates/tinybus-module/src/lib.rs:478-486 | A delivery that starts after a shutdown returned TB_OK or TB_CLOSED is never accepted. |
| `LegacyRuntime.DeliveryRefusedIff` | crates/tinybus-module/src/lib.rs:478-520 | A starting delivery is refused before the queue if and only if some shutdown has got past the sender. |
| `LegacyRuntime.DeliveryAfterPanickedShutdown` | crates/tinybus-module/src/lib.rs:508-511 | After a shutdown whose callback panicked while it was dropped, the mutex is free, the callback gone and a delivery is still accepted. |
| `LegacyRuntime.FaultAfterDisposal` | crates/tinybus-module/src/lib.rs:848-866 | The failed-setup fault is reported only after the disposal attempt, when the callback cannot run again. |
| `LegacyRuntime.RuntimeState.Shutdown` | crates/tinybus-module/src/lib.rs:492-523 | An uninterrupted shutdown agrees with the step model: it empties all three slots, or, if the dropped callback panics, answers TB_PANICKED with only the callback gone. |
| `LegacyRuntime.RuntimeState.Reinitialize` | crates/tinybus-module/src/lib.rs:525-543 | An uninterrupted reinitialization agrees with the step model: it answers what the step model answers and changes no field. |
| `ModuleController.OneController` | crates/tinybus/src/broker.rs:214-234 | On every interleaving at most one attachment succeeds and it names the selected peer. |
| `ModuleController.SelectionIsFinal` | crates/tinybus/src/broker.rs:200-213 | The selection never changes again, whatever disconnects. |
| `ModuleController.MutatingCallsFromController` | crates/tinybus/src/broker.rs:753-765 | All mutating module calls a restricted broker ever admitted came from the one selected connection. |
| `ModuleController.NothingBeforeSelection` | crates/tinybus/src/broker.rs:753-765 | Before a selection a restricted broker admits no mutating call. |
| `ModuleController.AdmittedAreTheControllers` | crates/tinybus/src/broker.rs:753-765 | The mutating module calls a restricted broker admits over a whole run are exactly those its selected peer makes from its selection until it disconnects, in order. |
| `ModuleController.UnselectedAdmitNone` | crates/tinybus/src/broker.rs:753-765 | In a run without a selection they are none. |
| `ModuleController.SelectionHappened` | crates/tinybus/src/broker.rs:214-234 | A run with a selection has the event at which a thread that had attached its peer commits it. |
| `ModuleController.ControllerBinding.Reserve` | crates/tinybus/src/broker.rs:218-226 | Only the first reservation is granted. |
| `ModuleController.ControllerBinding.AdmitCall` | crates/tinybus/src/broker.rs:753-765 | The in-place test agrees with the admission rule. |
| `ModuleController.StagedModulePeer.Start` | crates/tinybus/src/broker.rs:77-97 | A started peer disarms its guard; a panic before that unwinds through the guard, which detaches it and stops its module. |
| `ModuleController.StagedModulePeer.Drop` | crates/tinybus/src/broker.rs:100-116 | A peer is detached exactly if it was never started, and then a module transport is told to terminate. |

## Left out

- Mutex poisoning: a poisoned Control lock would record uncertainty and a fault and go on; no step of the model poisons a lock.
- The tokio `terminal_notify` and the asynchronous runtime itself: a task step may simply happen later.
- terminal_deliver: its live check is a `Raise` of a caller and its queue is the one in `ModuleTransport.dfy`.
- Thread scopes, panic locations, test hooks and fixture features, except a rejected worker spawn, which is a choice.
- TerminalProtocol merges consecutive attachments of startup resources into one step; no other thread touches those slots before publication.
- TerminalSetupPoll: the take and restore of the future around each poll are one step, so the future counts as held while it is polled.
- Callers may raise any cause in the model, also ones only the SDK raises; this only adds runs.
- The setup task's tokio cancellation may be observed only at its two awaits.
- Allocation failure, u64 wrap of serials and of the owner count.
- Dropping a call's future in the middle of its wait: the pending map results are about calls that return.
- Message::validate beyond what routing depends on, JSON encoding, name grammars, attestation and module availability: the last two are one admission choice of the broker.
- Signals, match rules, object dispatch, streams' flow control and the direct (unbrokered) transports.
- The connection before its handshake: the results are about a connection that has its unique name.
- Per-peer queues of the broker are one inbox per connection; refused messages are dropped by an event, and the order between queued replies and directly written errors is fixed to arrival order.
- rule_to_wire and MatchRule::parse: string plumbing without a property of their own here.
- Legacy module startup, vtable layout, tracing and manifests.
