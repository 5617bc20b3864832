# Catalyst, modelled and proved in Dafny

Catalyst is a preconfirmation sidecar for a based rollup. This project models the parts of it that carry state or arithmetic and proves what they are there for:

- **Submission protocol.** The Shasta node loop runs beside a spawned task that sends one L1 transaction, replaces it with doubled fees and waits for it. `TransactionMonitor.dfy` is the task, `MonitorRuns.dfy` what its log says over all replies, `MonitorRounds.dfy` when it gives up, `ProposalQueue.dfy` the queue, `SubmissionProtocol.dfy` the two as one interleaved state machine, `SubmissionOrder.dfy` the order of what it submits over whole runs, and `Node.dfy` the loop in imperative form, proved to take only steps of that machine.
- **Operator roles.** `SlotClock.dfy` (slots, epochs, windows), `OperatorsCache.dfy` (the whitelist view), `Operator.dfy` (one `get_status` call), `OperatorRuns.dfy` (whole runs), `OperatorSchedule.dfy` (roles against the whitelist's schedule, several nodes at once), `OperatorOverlaps.dfy` (runs in which two nodes have one role) and `OperatorReaders.dfy` (the cache shared with other readers).
- **Batch building.** `BatchBuilder.dfy`, `BatchRuns.dfy`, `BatchUndo.dfy` and `BatchBounds.dfy` are the realtime builder, its conservation law, what its byte total counts and when an undo panics, and the sizes and shapes of what it releases. `BatchCore.dfy`, `BatchTiming.dfy` and `BatchAdmission.dfy` are the generic builder core, the empty-block rule against its deadline, and its admission test. Nothing in the repository outside the core's own tests builds that core, so a `compress` that can fail is an assumption about its implementers.
- **Registry indexer.** `RegistryDb.dfy` (tables), `RegistryReplay.dfy`, `RegistryUpdates.dfy` and `RegistryOrder.dfy` (the order of statements), `RegistryMonitor.dfy` (the loop), `RegistryRuns.dfy` (whole runs), `RegistryRefusals.dfy` (logs that stop it), `RegistryRestarts.dfy` (broken runs) and `RegistryMeaning.dfy` (what the tables say about the log).
- **Signer and search.** `FixedKSigner.dfy` and `BinarySearch.dfy`.

`Wrappers.dfy` and `Arithmetic.dfy` hold shared helpers.

How the code is rendered:

- RPC replies, receipts, drivers, whitelists and compressions are arbitrary data that the caller of a method or the author of a run chooses. A clock is read once per tick, and nothing that a tick reads was asked for later. The whitelist cache is shared with other readers, such as the status handler (shasta/src/node/status_router.rs:61-78), so a call may get a view that any of them stored, in any order. Times are milliseconds or, where the source truncates, seconds.
- The release profile checks overflow (Cargo.toml:134-135), so an unsigned subtraction below zero is a panic. Panics are preconditions of single calls and end a run (`None`).
- Points of the curve are their discrete logarithms; what is used of the curve is one predicate, `FixedKSigners.Lawful`.
- A run is a sequence folded from its start; every main result ranges over all runs, all interleavings or all inputs.

Where a promise fails, the model keeps the code and the condition is exact:

- A monitor with no send attempts and some wait attempts ends without an error signal, and then a proposal that was never sent is dropped as confirmed: `MonitorRuns.SilenceMeansIncludedIff`, `SubmissionProtocol.DropsSoundIff`.
- A hash found after a "nonce too low" reply counts as included for the node, while the submitter is told `false`. Tasks without an error always deliver `true` exactly when at most one send is configured and the task cannot give up in silence: `MonitorRuns.ErrorFreeDeliversTrueIff`, with the replies in `MonitorRuns.RefusedReplacementIsSilent`.
- A sent hash in a block counts as included whatever its receipt says, so as soon as anything is sent a reverted transaction passes without an error: `MonitorRuns.ErrorFreeSucceedsIff`, `MonitorRuns.RevertedIsSilent`.
- The two L2 slot clocks agree, and the end-of-sequencing slot is the last heartbeat before the window, exactly when the heartbeat divides the L1 slot: `SlotClocks.L2TimesAgreeIffAligned`, `SlotClocks.FinalHeartbeatIffAligned`.
- Priority fees stay within the fee cap exactly when the increase is at most 100 percent: `TransactionMonitors.CapKeptIffAtMostDoubled`.
- On a stale view a node acts for the epoch after the view it accepted last, however old that is and whatever the stale view says. Exactly when two nodes then both submit or both preconfirm: `OperatorSchedule.TwoSubmittersIff`, `OperatorSchedule.TwoPreconfersIff`, with runs in `OperatorOverlaps.TwoSubmittersHappen` (a view one epoch old, refreshed by another reader, is among them) and `OperatorOverlaps.TwoPreconfersHappen`. A node whose first view is stale misses its own role: `OperatorOverlaps.FirstStaleViewIdles`.
- After any run, undoing an add panics exactly when the blocks that would stay list fewer bytes than the last compression saved: `BatchUndo.UndoPanicsIff`, `BatchUndo.SecondUndoPanics`. It never panics when every undo follows an add: `BatchUndo.UndoNeverPanics`.
- The core's second compression measures a clone whose total leaves the new block out, so a failed compression admits it: `BatchAdmission.HonestIffNotOversize`, `BatchAdmission.FailedCompressionAdmitsOversize`.
- An indexed range that broke off after an insert has a block that no sequence of restarts and polls ever gets past: `RegistryRestarts.RetryRangeIff`, `RegistryRestarts.BrokenRangeNeverIndexed`, `RegistryRestarts.BrokenRun`.
- For arbitrary logs a run without failures is refused exactly when an insert, in the planned order, repeats a row, precedes its operator or has a number beyond 64 bits: `RegistryRefusals.RunRefusedIff`.
- Kind by kind and chronological order agree exactly when no root has the last update of a column before its registration: `RegistryOrder.OrdersAgreeIff`.
- A signature with `s == 0` is emitted exactly when `z + r * d` vanishes: `FixedKSigners.ZeroSIff`.

## Model

| member | source | states |
|---|---|---|
| `SubmissionProtocol.RunKeepsInv` | shasta/src/node/mod.rs:155-359 | in every interleaving of loop, task and outside cancellation: only the front is pending, it belongs to the last task, at most one error is unread and only after a failed task, and nothing is pending once the loop has settled it |
| `SubmissionProtocol.StepKeepsInv` | shasta/src/node/mod.rs:180-359 | each single action, whatever the environment answers, keeps that invariant |
| `SubmissionProtocol.DroppedWasIncluded` | shasta/src/node/mod.rs:192-208 | a proposal is popped as confirmed only after its own task ended with its transaction seen included |
| `SubmissionProtocol.DropsSoundIff` | common/src/shared/transaction_monitor.rs:377-426 | that holds in every reachable state exactly when the monitor cannot give up in silence (no send attempts, some wait attempts) |
| `SubmissionProtocol.SilenceDropsUnsent` | common/src/shared/transaction_monitor.rs:377-426 | a reachable state of such a configuration that is about to drop a proposal whose task neither succeeded nor failed |
| `SubmissionProtocol.FailedIsMarkedOrNodeStops` | shasta/src/node/mod.rs:440-517 | once the failure of a task has been read, the next loop action marks its proposal for resubmission, or the node is cancelled and stops with the queue untouched |
| `SubmissionProtocol.OnePendingAtFront` | shasta/src/node/proposal_manager/proposal_queue.rs:16-56 | in every reachable state at most one proposal is pending, it is the front (also across `prepend`), and it is the one the last task was spawned for |
| `SubmissionProtocol.DispatchIsGuarded` | shasta/src/node/mod.rs:322-339 | a task is spawned only with no verifier left, no task running, no unread error and nothing pending, and for the front proposal |
| `SubmissionProtocol.FirstDispatch` | shasta/src/node/proposal_manager/proposal_builder.rs:306-356 | from the initial state a first proposal can be finalized, dispatched and marked pending, so the guarantees are not vacuous |
| `SubmissionProtocol.ReversedReadsDropFailures` | shasta/src/node/mod.rs:192-208 | why the task is read before the channel: the loop with the two reads exchanged reaches, in every configuration, the drop of a proposal whose task failed |
| `SubmissionOrder.QueueIsTheBook` | shasta/src/node/mod.rs:180-359 | on every run the proposals confirmed and then the queued ones are, in order, all that were recovered, finalized or rebuilt since the builder was last reset or rebuilt: none lost, repeated or overtaken |
| `SubmissionOrder.RecoveredBeforeFinalized` | shasta/src/node/mod.rs:407-438 | from a recovery up to the next restart of the builder: what was confirmed already, the recovered proposals, those queued then, and those finalized since, in this order |
| `SubmissionOrder.DispatchesInOrder` | shasta/src/node/proposal_manager/proposal_builder.rs:306-356 | a task is spawned for the oldest proposal not yet confirmed, whatever run led there |
| `SubmissionOrder.PlainRunAppends` | shasta/src/node/proposal_manager/proposal_queue.rs:16-18 | between recoveries and restarts the order only grows at its end, by what is finalized |
| `Nodes.Node.PreconfirmationLoop` | shasta/src/node/mod.rs:155-178 | for every sequence of heartbeats the loop stays a run of the protocol, keeps its invariant, and leaves only when the token is cancelled |
| `Nodes.Node.MainBlockPreconfirmationStep` | shasta/src/node/mod.rs:180-359 | every path through one step, early returns included, is a protocol run on exactly the replies it got |
| `Nodes.Node.SettlePending` | shasta/src/node/mod.rs:192-208 | reads the task, then the channel, then marks or removes, with other tasks running in between |
| `Nodes.Node.IsTransactionInProgress` | common/src/shared/transaction_monitor.rs:187-193 | the flag read is whether the task was unfinished at that instant |
| `Nodes.Node.CheckTransactionErrorChannel` | shasta/src/node/mod.rs:652-666 | takes the oldest error and handles it, or reports an empty channel, or cancels on a closed one |
| `Nodes.Node.HandleTransactionError` | shasta/src/node/mod.rs:440-517 | names the two errors that change nothing, the one that reanchors, and cancels the node for every other |
| `Nodes.Node.ReanchorBlocks` | shasta/src/node/mod.rs:783-832 | clears verifier and queue and rebuilds; a failure cancels the node and may leave a partial rebuild |
| `Nodes.Node.StartPreconfirmation` | shasta/src/node/mod.rs:210-284 | the first slot may create a verifier; its fatal failures cancel the node |
| `Nodes.Node.PreconfirmBlock` | shasta/src/node/mod.rs:286-320 | preconfirms only when synced, reanchors only outside the submitter window, cancels on a head mismatch |
| `Nodes.Node.HasVerifiedUnsentProposals` | shasta/src/node/mod.rs:407-438 | for an idle submitter whose verifier has succeeded the queue is the recovered proposals followed by the queued ones; it goes on to submit only with the verifier gone |
| `Nodes.Node.TakeVerified` | shasta/src/node/mod.rs:407-438 | for each outcome of the verification: whether to submit, whether the verifier stays, and the exact queue |
| `Nodes.Node.TrySubmitOldestProposal` | shasta/src/node/proposal_manager/proposal_builder.rs:306-356 | a successful dispatch was of a front that was not pending, for its identity, and marks it pending although the task may already have ended; a protocol run on exactly its replies |
| `Nodes.Node.SendOldest` | shasta/src/node/proposal_manager/proposal_builder.rs:306-356 | what is finalized joins the end; a task is spawned exactly for a free front with no task running, and a pending front or a failed send is an error that leaves the queue |
| `Nodes.Node.CleanUp` | shasta/src/node/mod.rs:341-356 | without a role the builder is reset and the verifier dropped, unless the reset fails |
| `ProposalQueues.ProposalQueue.RemoveConfirmed` | shasta/src/node/proposal_manager/proposal_queue.rs:28-36 | pops the front only if it is pending |
| `ProposalQueues.ProposalQueue.MarkFrontForResubmit` | shasta/src/node/proposal_manager/proposal_queue.rs:38-47 | clears the front's flag and nothing else |
| `ProposalQueues.ProposalQueue.Prepend` | shasta/src/node/proposal_manager/proposal_queue.rs:53-56 | recovered proposals come before the queued ones, both in order |
| `ProposalQueues.ProposalQueue.PushAll` | shasta/src/node/proposal_manager/proposal_queue.rs:16-18 | pushes append, in order, without the pending flag |
| `ProposalQueues.ProposalQueue.TakeAll` | shasta/src/node/proposal_manager/proposal_queue.rs:49-51 | hands over the whole queue and leaves it empty |
| `TransactionMonitors.TransactionMonitorThread.MonitorTransaction` | common/src/shared/transaction_monitor.rs:250-427 | for every sequence of RPC replies the task computes the verdict and hashes of `Task`, and its log is its sends (same nonce, fees times 2^j on attempt j), the events of that verdict and one delivered result |
| `TransactionMonitors.TransactionMonitorThread.SendAndWatch` | common/src/shared/transaction_monitor.rs:294-366 | one attempt ends in a verdict with its events, in a pending transaction, or still waiting; nothing else is logged |
| `TransactionMonitors.TransactionMonitorThread.CheckBeforeSend` | common/src/shared/transaction_monitor.rs:303-317 | a missing block number fails the task; from the second attempt on an earlier hash in a block ends it as included |
| `TransactionMonitors.TransactionMonitorThread.WaitForResult` | common/src/shared/transaction_monitor.rs:377-426 | after the last attempt: a verdict backed by a reply, `NotConfirmed` when waiting ran out, and silence only when nothing was ever sent |
| `TransactionMonitors.TransactionMonitorThread.WatchLastHash` | common/src/shared/transaction_monitor.rs:377-409 | giving up with something sent means exactly the configured number of rounds was read off the replies, each a new block after undecided looks and then one failed lookup per hash; hence at least maxWait * (hashes + 2) replies |
| `TransactionMonitors.TransactionMonitorThread.WatchOneRound` | common/src/shared/transaction_monitor.rs:386-409 | one wait ends in a verdict, or is one such round |
| `MonitorRounds.NotConfirmedIff` | common/src/shared/transaction_monitor.rs:294-426 | over all replies, without the task function on the right: "not confirmed" exactly when every allowed send was accepted and outlived its block and then exactly maxWait rounds passed without any hash |
| `MonitorRounds.LateReceiptIsSeen` | common/src/shared/transaction_monitor.rs:386-409 | with two or more waits a receipt that arrives after the first round ends the task as included |
| `MonitorRounds.AttemptIff` | common/src/shared/transaction_monitor.rs:294-366 | an attempt leaves a pending transaction exactly when the replies are a block number, no earlier hash found, an accepted send and undecided looks up to another block |
| `TransactionMonitors.NewBlockIff` | common/src/shared/transaction_monitor.rs:430-474 | the watch ends without a verdict exactly at the first other block after looks that decide nothing |
| `TransactionMonitors.RoundsRead` | common/src/shared/transaction_monitor.rs:386-409 | k rounds read at least k * (hashes + 2) replies |
| `TransactionMonitors.TransactionMonitorThread.IsTransactionHandledByBuilder` | common/src/shared/transaction_monitor.rs:430-474 | watches one hash until a verdict, or until a reply shows another L1 block |
| `TransactionMonitors.TransactionMonitorThread.WaitForTxReceipt` | common/src/shared/transaction_monitor.rs:574-633 | success, revert, timeout and watcher failure each lead to their own verdict or to waiting on |
| `TransactionMonitors.TransactionMonitorThread.VerifyTxIncluded` | common/src/shared/transaction_monitor.rs:550-572 | finds the oldest sent hash that is in a block; if none, all of them were looked up and none is |
| `TransactionMonitors.TransactionMonitorThread.HandleRpcError` | common/src/shared/transaction_monitor.rs:523-542 | a refused send signals exactly one error, except a nonce too low whose earlier hash is found included |
| `TransactionMonitors.TransactionMonitorThread.MonitorWithBuilder` | common/src/shared/transaction_monitor.rs:232-248 | a failed build is signalled, sends nothing and delivers no result |
| `TransactionMonitors.TransactionMonitorThread.InitialFees` | common/src/shared/transaction_monitor.rs:265-287 | the tuned fees of the first attempt |
| `TransactionMonitors.TunedFees` | common/src/shared/transaction_monitor.rs:265-287 | fee cap and blob fee are doubled; a tip below the minimum after the raise is lifted to it, and the fee cap by as much |
| `TransactionMonitors.FinishedTaskSignals` | common/src/shared/transaction_monitor.rs:226-427 | every finished task sends at most one error and exactly one result, a true result means no error, and with a send attempt configured no error means a sent hash was seen included and conversely |
| `MonitorRuns.SilenceMeansIncludedIff` | common/src/shared/transaction_monitor.rs:377-426 | over all requests and replies: a finished task without an error in its log shows a sent hash included, exactly when the task cannot give up in silence |
| `MonitorRuns.ErrorFreeDeliversTrueIff` | common/src/shared/transaction_monitor.rs:294-426 | over all requests and replies: a finished task without an error delivers true, exactly when at most one send is configured and it cannot give up in silence |
| `MonitorRuns.RefusedReplacementIsSilent` | common/src/shared/transaction_monitor.rs:523-542 | with two or more sends, the replies for which a task sends no error, shows its hash included and delivers false |
| `MonitorRuns.TrueMeansIncluded` | common/src/shared/transaction_monitor.rs:226-427 | a true result always comes with a sent hash shown included and without an error |
| `MonitorRuns.ErrorFreeSucceedsIff` | common/src/shared/transaction_monitor.rs:550-633 | over all requests and replies: a task without an error has a transaction that did not revert, exactly for configurations in which no task ends without an error |
| `MonitorRuns.RevertedIsSilent` | common/src/shared/transaction_monitor.rs:550-633 | the replies for which a reverted transaction is delivered as true, for every configuration that sends |
| `MonitorRuns.ReceiptMeansSuccess` | common/src/shared/transaction_monitor.rs:574-633 | a task that a receipt ended did succeed |
| `MonitorRuns.LogReads` | common/src/shared/transaction_monitor.rs:226-427 | errors, result and inclusion read off the log agree with the verdict of the task |
| `TransactionMonitors.FinishedTaskPhases` | common/src/shared/transaction_monitor.rs:226-427 | every task the monitor can run is a run of the phase machine that the protocol composes with the node |
| `TransactionMonitors.FailedBuildPhases` | common/src/shared/transaction_monitor.rs:232-248 | so is a task whose build fails |
| `TransactionMonitors.DoubleTimes` | common/src/shared/transaction_monitor.rs:368-374 | doubling the fees of attempt j gives 2^(j+1) times the first ones |
| `TransactionMonitors.TipNeverBelowMinimum` | common/src/shared/transaction_monitor.rs:276-287 | the priority fee of every attempt is at least the configured minimum |
| `TransactionMonitors.TuningKeepsCap` | common/src/shared/transaction_monitor.rs:265-287 | with an increase of at most 100 percent the priority fee never exceeds the fee cap on any attempt, if it did not at input (EIP-1559, section Specification) |
| `TransactionMonitors.CapKeptIffAtMostDoubled` | common/src/shared/transaction_monitor.rs:265-287 | and that is exactly the condition |
| `Operators.Operator.GetStatus` | pacaya/src/node/operator/mod.rs:69-138 | the new fields and the reply as a function of the old fields and what was observed, error replies included |
| `Operators.Operator.IsCurrentOperator` | pacaya/src/node/operator/mod.rs:191-224 | a stale view falls back to the remembered next-operator flag; a fresh one sets address, record and flags |
| `Operators.Operator.HandleOperatorChange` | pacaya/src/node/operator/mod.rs:159-189 | records an ejection exactly when an unsynced node becomes operator after somebody else |
| `Operators.Operator.IsWithinEjectionGrace` | pacaya/src/node/operator/mod.rs:140-157 | inside the grace both role flags are cleared, after it the record is |
| `Operators.Operator.IsDriverSynced` | pacaya/src/node/operator/mod.rs:253-313 | synced exactly when the tip has reached the inbox height and the highest unsafe block is 0 or the tip; the counter of unsynced calls and the cancellation |
| `Operators.Operator.Reset` | pacaya/src/node/operator/mod.rs:226-231 | clears flags and counter, keeps the ejection record |
| `OperatorSchedule.NeverTwoInOneRole` | pacaya/src/node/operator/mod.rs:69-138 | two nodes with different addresses, each in its own run with any scheduled views, never both report submitter in one L1 slot nor both preconfer, if each accepted its view, or last accepted one of the previous epoch (outside the window, for preconfer), or none yet |
| `OperatorSchedule.RolesFollowSchedule` | pacaya/src/node/operator/mod.rs:191-303 | under that proviso the roles are never more than the schedule grants; on an accepted view without an ejection exactly those |
| `OperatorSchedule.RunRemembers` | pacaya/src/node/operator/mod.rs:191-224 | over every run the remembered flags say what the last accepted view says unless an ejection silences them |
| `OperatorSchedule.PreconferIff` | pacaya/src/node/operator/mod.rs:279-303 | on any view: preconfer exactly for the operator of the epoch the node preconfirms for, outside the transition seconds before the next fork, not ejected, and not held back in the first bufferMs of the window without an unbroken synced stretch |
| `OperatorSchedule.BufferIff` | pacaya/src/node/operator/mod.rs:315-370 | the node waits for the previous preconfer exactly up to the buffer after the window opened, and only while its last block has not been seen |
| `OperatorSchedule.TwoSubmittersIff` | pacaya/src/node/operator/mod.rs:191-204 | for two nodes on any views: exactly when both submit in one slot |
| `OperatorSchedule.TwoPreconfersIff` | pacaya/src/node/operator/mod.rs:279-303 | for two nodes on any views: exactly when both preconfirm in one slot |
| `OperatorSchedule.SubmitterIff` | pacaya/src/node/operator/mod.rs:191-224 | on any view: submitter exactly for the operator of the epoch the node acts for (this one on an accepted view, else the one after the last accepted view, else none), not ejected and outside the simulated window |
| `OperatorOverlaps.TwoSubmittersHappen` | pacaya/src/node/operator/mod.rs:191-204 | for all nodes, epochs, ages k >= 2 of the accepted view and s from 1 to k of the cached one: a schedule and two runs that submit at the same instant |
| `OperatorOverlaps.TwoPreconfersHappen` | pacaya/src/node/operator/mod.rs:279-303 | for all nodes and epochs: a schedule and two runs that preconfirm at the same instant inside the window, one on a view of the previous epoch |
| `OperatorOverlaps.FirstStaleViewIdles` | pacaya/src/node/operator/mod.rs:191-204 | a node whose first view is stale reports no role although the schedule names it |
| `OperatorReaders.SharedViewsFollow` | pacaya/src/l1/operators_cache/mod.rs:36-109 | whatever other readers fetch and store, late stores included, the views of a run follow the schedule that the fetches read |
| `OperatorReaders.OverlapIsServed` | shasta/src/node/status_router.rs:61-78 | the views of those overlapping runs come from a cache that another reader refreshed between the two calls |
| `OperatorReaders.LookupIsAccess` | pacaya/src/l1/operators_cache/mod.rs:36-76 | a whole request at one instant is one access to the shared cache |
| `OperatorRuns.EjectedHasNoRole` | pacaya/src/node/operator/mod.rs:140-224 | after every tick of every run a recorded ejection leaves both flags false and no role, start or marker reported, on fresh and stale views |
| `OperatorRuns.RecordLastsIff` | pacaya/src/node/operator/mod.rs:140-189 | a record lasts from one point of a run to another exactly when every accepted view in between came within the grace and none brought a newer ejection |
| `OperatorRuns.RecordMadeIff` | pacaya/src/node/operator/mod.rs:140-189 | a record is made exactly by an accepted view that makes an unsynced node operator after somebody else, within its own grace |
| `OperatorReaders.DecisionIsFresh` | pacaya/src/l1/operators_cache/mod.rs:36-133 | a decision in epoch e that does not fall back rests on a reading, by whichever reader, at a block whose timestamp is at or after the start of e |
| `OperatorRuns.MarkerOnlyInFinalHeartbeat` | pacaya/src/node/operator/mod.rs:233-251 | with an aligned heartbeat the end-of-sequencing marker is reported only in the heartbeat that ends where the window starts |
| `OperatorSchedule.MarkerIffHandingOver` | pacaya/src/node/operator/mod.rs:233-251 | on accepted views without an ejection it is reported there exactly by the operator of this epoch that is not the next one too |
| `OperatorRuns.StartIffFirstSynced` | pacaya/src/node/operator/mod.rs:348-350 | the start is reported exactly at the first call of each unbroken stretch as preconfer whose observed heights are in sync |
| `OperatorRuns.SyncedIff` | pacaya/src/node/operator/mod.rs:253-277 | in every run a reply says synced exactly when the tip is at least the inbox height and the highest unsafe block is 0 or the tip |
| `OperatorRuns.FlagIffStretch` | pacaya/src/node/operator/mod.rs:69-138 | the remembered flag is set exactly after an unbroken stretch as preconfer since a call that was in sync |
| `OperatorRuns.CancelledIffLongUnsynced` | pacaya/src/node/operator/mod.rs:305-313 | the node is cancelled exactly when more than half the heartbeats of an epoch of answered calls in a row observed heights out of sync |
| `OperatorRuns.AcceptedIffEpoch` | common/src/l1/slot_clock.rs:176-190 | a timestamp passes the epoch test exactly when it lies in that epoch or later |
| `OperatorsCaches.OperatorsCache.GetOperatorsForCurrentAndNextEpoch` | pacaya/src/l1/operators_cache/mod.rs:36-76 | hit, refetch and fallback: the reply is the new cache contents |
| `OperatorsCaches.ReplyHasSource` | pacaya/src/l1/operators_cache/mod.rs:36-133 | over all runs of hits, refetches and failures a reply is one request's own reading, at a block not older than its label |
| `SlotClocks.SlotIffInside` | common/src/l1/slot_clock.rs:112-151 | a slot is current exactly from its start to the start of the next |
| `SlotClocks.StartIsInItsSlot` | common/src/l1/slot_clock.rs:138-151 | the start of a slot lies in that slot |
| `SlotClocks.DurationEndsOnNextSlot` | common/src/l1/slot_clock.rs:94-105 | the wait is positive, at most one slot after genesis, and ends on the next slot start |
| `SlotClocks.L2TimesAgreeIffAligned` | common/src/l1/slot_clock.rs:231-252 | the L2 slot time counted from genesis equals the one counted within the L1 slot at all times exactly when the heartbeat divides the slot |
| `SlotClocks.AlignedTimesAgree` | common/src/l1/slot_clock.rs:231-252 | the agreement at one reading |
| `SlotClocks.WindowIffInLastSlots` | common/src/l1/slot_clock.rs:202-229 | the slot test and the time test for the last n slots of an epoch agree |
| `SlotClocks.FinalHeartbeatIffAligned` | pacaya/src/node/operator/mod.rs:243-251 | the marker slot is the last heartbeat before the window at all times exactly when aligned |
| `SlotClocks.MisalignedMissesWindow` | pacaya/src/node/operator/mod.rs:243-251 | a misaligned heartbeat misses it in some epoch |
| `BatchRuns.RunConserves` | realtime/src/node/proposal_manager/batch_builder.rs:70-294 | over every sequence of operations the blocks of handed-out, queued and current proposals concatenate to the blocks added and not removed, in order |
| `BatchRuns.PopThenRequeue` | realtime/src/node/proposal_manager/batch_builder.rs:215-227 | pop followed by requeue changes only the finalized-hash stamp |
| `BatchBounds.RunKeepsInv` | realtime/src/node/proposal_manager/batch_builder.rs:35-112 | over every run in which adds follow their admission or a new batch and undos their add, every batch is bounded and shaped |
| `BatchBounds.ReleasedBatchesBounded` | realtime/src/node/proposal_manager/batch_builder.rs:35-112 | every queued or handed-out batch is non-empty, has one coinbase and anchor, timestamps in order and at most the maximum shift apart, at most max_blocks blocks, and a true compressed size within its allowance, whichever compressions failed; only a single block that opened its batch unchecked is exempt from the limits |
| `BatchBounds.ReleasedBatchesWithinLimit` | realtime/src/node/proposal_manager/batch_builder.rs:35-112 | every released batch has at most max_blocks blocks and max_bytes + c * (max_blocks + 1) bytes, if it has two blocks, an admitted first block, or a first block within the limits; every other one is a single block that was never checked |
| `BatchBounds.AccountedSize` | realtime/src/node/proposal_manager/proposal.rs:52-116 | the true compressed size is at most `total_bytes` plus c per block plus c |
| `BatchUndo.UndoNeverPanics` | realtime/src/node/proposal_manager/batch_builder.rs:169-184 | in runs whose undos follow an add, of whatever draft, the undo never underflows |
| `BatchUndo.UndoPanicsIff` | realtime/src/node/proposal_manager/batch_builder.rs:169-184 | after every run the undo panics exactly when the blocks it would leave list fewer bytes than the last compression saved |
| `BatchUndo.RunKeepsAccount` | realtime/src/node/proposal_manager/proposal.rs:52-121 | over every run `total_bytes` is the listed bytes of the blocks less what the last compression saved, that is, the last compressed size plus lengths added and minus lengths removed since |
| `BatchUndo.SecondUndoPanics` | realtime/src/node/proposal_manager/batch_builder.rs:169-184 | a second undo that panics although the batch was never compressed below its last block |
| `BatchUndo.UndoAfterCheckPanics` | realtime/src/node/proposal_manager/batch_builder.rs:169-184 | a concrete builder where a check between add and undo makes the undo panic |
| `BatchUndo.UndoRestores` | realtime/src/node/proposal_manager/batch_builder.rs:96-184 | add then undo is the identity, except that a batch left empty is dropped |
| `BatchBounds.AdmissionFits` | realtime/src/node/proposal_manager/batch_builder.rs:35-68 | an admitted block fits by the running total or by the true compressed size, in count and in time |
| `BatchBuilders.BatchBuilder.CanConsumeL2Block` | realtime/src/node/proposal_manager/batch_builder.rs:35-68 | admits exactly when there is a batch with room in count (max_blocks and 16 bits) and time, and the listed total, the half compressed or the compressed size fits |
| `BatchBuilders.AdmittedIff` | realtime/src/node/proposal_manager/batch_builder.rs:35-68 | the same iff on the inputs alone, and the one change it may leave: the compressed total |
| `BatchBuilders.BatchBuilder.CreateNewBatch` | realtime/src/node/proposal_manager/batch_builder.rs:70-94 | finalizes, then opens an empty batch on the given anchor |
| `BatchBuilders.BatchBuilder.AddL2DraftBlock` | realtime/src/node/proposal_manager/batch_builder.rs:96-112 | appends the block with the proposal's coinbase and anchor, and returns its payload |
| `BatchBuilders.BatchBuilder.RemoveLastL2Block` | realtime/src/node/proposal_manager/batch_builder.rs:169-184 | drops the last block and its length, and a batch left empty |
| `BatchBuilders.BatchBuilder.FinalizeBatchIfNeeded` | realtime/src/node/proposal_manager/batch_builder.rs:196-212 | finalizes a full batch, or any batch when partial ones may go |
| `BatchBuilders.BatchBuilder.FinalizeCurrentBatch` | realtime/src/node/proposal_manager/batch_builder.rs:288-294 | queues a non-empty batch and discards an empty one |
| `BatchBuilders.BatchBuilder.PopOldestBatch` | realtime/src/node/proposal_manager/batch_builder.rs:215-222 | takes the front, stamped |
| `BatchBuilders.BatchBuilder.PushFrontBatch` | realtime/src/node/proposal_manager/batch_builder.rs:225-227 | puts a batch back at the front |
| `BatchBuilders.BatchBuilder.TryStartSubmission` | realtime/src/node/proposal_manager/mod.rs:150-190 | with batches due, the stamped front is handed out, or with a transaction in progress stays at the front; busy changes nothing |
| `BatchRuns.SubmissionConserves` | realtime/src/node/proposal_manager/mod.rs:150-190 | an attempt leaves every block in the returned proposal, the queue or the current batch, in order |
| `BatchTiming.SlotGapNeverExpires` | common/src/batch_builder/core.rs:90-166 | with ticks in order and at most one L1 slot apart, and every offered block added, no tick of any run finds the time shift expired |
| `BatchTiming.NeverExpiresIffSafeGap` | common/src/batch_builder/core.rs:13-20 | exactly the tick gaps for which that holds, from the configuration alone |
| `BatchTiming.SafeGapNeverExpires` | common/src/batch_builder/core.rs:90-166 | the guarantee for such gaps, panics included |
| `BatchTiming.RunIsTimely` | common/src/batch_builder/core.rs:144-166 | after every tick the last block is of that tick or recent enough that no rule had to fire |
| `BatchTiming.SilenceExpires` | common/src/batch_builder/core.rs:229-260 | a run past the deadline for every larger gap |
| `BatchAdmission.HonestIffNotOversize` | common/src/batch_builder/core.rs:191-227 | exactly when the core's admission can let in a block that fits neither by total nor by true size |
| `BatchAdmission.CompressionMakesHonest` | common/src/batch_builder/core.rs:191-227 | never while the second compression succeeds |
| `BatchAdmission.FailedCompressionAdmitsOversize` | common/src/batch_builder/core.rs:191-227 | a 1000-byte block admitted under a limit of 10 |
| `BatchCores.BatchBuilderCore.CanConsumeL2Block` | common/src/batch_builder/core.rs:191-227 | admits exactly when there is room in count and time and one of the sizes it compares fits, the old total after two failed compressions among them |
| `BatchCores.AdmittedIff` | common/src/batch_builder/core.rs:191-227 | the core's admission on the inputs alone, both ways |
| `BatchCores.BatchBuilderCore.TryCreatingL2Block` | common/src/batch_builder/core.rs:144-260 | no block exactly when too few transactions, no marker, no empty block due and not too many slots skipped; which block otherwise, whenever none of the subtractions and divisions that are reached panics |
| `BatchCores.BatchBuilderCore.RemoveLastL2Block` | common/src/batch_builder/core.rs:262-278 | as in the realtime builder; the last timestamp stays |
| `BatchCores.BatchBuilderCore.FinalizeCurrentBatch` | common/src/batch_builder/core.rs:292-299 | queues a non-empty batch with the forced inclusion, which otherwise waits |
| `BatchCores.BatchBuilderCore.AddL2Block` | common/src/batch_builder/core.rs:301-317 | appends block, length and timestamp; an error without a batch |
| `RegistryRuns.RunReplays` | urc/src/monitor/registry_monitor.rs:45-109 | for every well-formed log, batch size and sequence of heights: after a run without an error the tables equal chronological replay of the indexed blocks |
| `RegistryMeaning.RunAccounts` | urc/src/monitor/registry_monitor.rs:45-308 | after such a run the tables are exactly what the old tables and the log account for: every event has its rows, every row comes from an old row or an event, and old rows change only by updates of the log |
| `RegistryMeaning.ReplayAccounts` | urc/src/monitor/db.rs:191-318 | the same for any replay of a well-formed log |
| `RegistryMeaning.ReplayMeans` | urc/src/monitor/db.rs:191-318 | owner and time of registration, last unregistration and slashing, keys by index and opt-ins, read off the log |
| `RegistryRuns.RunTiles` | urc/src/monitor/registry_monitor.rs:45-109 | the completed ranges are consecutive from the initial to the final indexed block, within the batch size, and the status row follows |
| `RegistryRuns.RunStaysDeep` | urc/src/monitor/registry_monitor.rs:45-109 | no run, broken or not, indexes a block or completes a range that is not the fork depth below a height one of its polls saw |
| `RegistryRuns.PollReaches` | urc/src/monitor/registry_monitor.rs:48-58 | a poll without a failure ends exactly at the smaller of the batch end and the polled height less the fork depth |
| `RegistryRuns.PollStaysDeep` | urc/src/monitor/registry_monitor.rs:48-58 | a completed range ends at least the fork depth below the polled height |
| `RegistryRuns.TilesCover` | urc/src/monitor/registry_monitor.rs:54-58 | so every block in between is in exactly one range and no other block in any |
| `RegistryRuns.RunNeverRefused` | urc/src/monitor/registry_monitor.rs:45-109 | on a well-formed log the loop stops only for an RPC or database failure |
| `RegistryRefusals.RunRefusedIff` | urc/src/monitor/registry_monitor.rs:45-109 | for arbitrary logs, heights and batch sizes: without failures the run goes on exactly when every planned statement is admissible |
| `RegistryRefusals.PrefixRunsIff` | urc/src/monitor/db.rs:191-318 | statements run exactly when none repeats a row, precedes its operator or carries a number beyond 64 bits |
| `RegistryReplay.ByKindEqualsChronological` | urc/src/monitor/registry_monitor.rs:60-82 | running registrations, opt-ins, unregistrations and slashings one kind after another gives the tables of chronological order |
| `RegistryReplay.Commute` | urc/src/monitor/db.rs:205-318 | a statement of an earlier kind may run before its predecessor |
| `RegistryReplay.WellFormedIffStrict` | urc/src/monitor/db.rs:68-318 | a log is well-formed (unique roots, events after registration, unique opt-ins, numbers within 64 bits) exactly when its replay runs and every update hits a row |
| `RegistryOrder.OrdersAgreeIff` | urc/src/monitor/registry_monitor.rs:60-82 | for arbitrary logs: both orders run and agree exactly when the chronological one runs and no root has the last update of a column before its registration |
| `RegistryOrder.EarlyUpdateDiffers` | urc/src/monitor/registry_monitor.rs:60-82 | two statements on which the orders differ |
| `RegistryRestarts.RetryRangeIff` | urc/src/monitor/registry_monitor.rs:26-109 | a poll breaks off after k statements of a well-formed range, and the next process polls that range: it completes exactly when k is 0 or the range inserts nothing, and then as if unbroken |
| `RegistryRestarts.RetryIff` | urc/src/monitor/db.rs:205-318 | the same for a list of statements; a refused retry fails at its first statement and changes nothing |
| `RegistryRestarts.BrokenRangeNeverIndexed` | urc/src/monitor/registry_monitor.rs:26-109 | after a poll of a well-formed inserting range broke off, some block of the range stays above the status row through every sequence of restarts and polls at any heights |
| `RegistryRestarts.BrokenRun` | urc/src/monitor/registry_monitor.rs:26-109 | a concrete broken run |
| `RegistryRestarts.RepeatNeverIndexed` | urc/src/monitor/registry_monitor.rs:26-109 | a block with an insert whose row is already there is never passed |
| `RegistryRestarts.UnreadableRestartRefused` | urc/src/monitor/db.rs:177-189 | a process that takes an unreadable status row for 0 is refused at the first row it would insert again |
| `RegistryRestarts.PollBreaks` | urc/src/monitor/registry_monitor.rs:60-89 | a poll that fails after k statements leaves the tables of the first k and the status row as it was |
| `RegistryUpdates.LastUpdateWins` | urc/src/monitor/db.rs:205-241 | a sequence of updates leaves in each column the last value written, and touches no other row |
| `RegistryMonitors.RegistryMonitor.RunIndexingLoop` | urc/src/monitor/registry_monitor.rs:45-109 | the loop over polled heights, stopping at the first error |
| `RegistryMonitors.RegistryMonitor.IndexOnce` | urc/src/monitor/registry_monitor.rs:48-89 | moves only to blocks at least the fork depth below the polled height, exactly to the end of the batch or that depth, whichever is first; nothing to do below it |
| `RegistryMonitors.RegistryMonitor.IndexRange` | urc/src/monitor/registry_monitor.rs:60-82 | the four passes run their statements in order until the first refusal or failure |
| `RegistryMonitors.RegistryMonitor.IndexRegister` | urc/src/monitor/registry_monitor.rs:111-188 | operator row, then its keys by index, per log |
| `RegistryMonitors.RegistryMonitor.IndexOptIn` | urc/src/monitor/registry_monitor.rs:190-231 | one protocol row per log |
| `RegistryMonitors.RegistryMonitor.IndexUnregister` | urc/src/monitor/registry_monitor.rs:233-267 | one update per log |
| `RegistryMonitors.RegistryMonitor.IndexSlash` | urc/src/monitor/registry_monitor.rs:269-308 | one update per log |
| `RegistryMonitors.RegistryMonitor.constructor` | urc/src/monitor/registry_monitor.rs:26-43 | resumes at the status row (0 when it cannot be read) or the start block, whichever is later |
| `RegistryDb.DataBase.InsertOperator` | urc/src/monitor/db.rs:243-264 | refused on a taken root or a time beyond 64 bits, else the new row |
| `RegistryDb.DataBase.InsertSignedRegistration` | urc/src/monitor/db.rs:291-318 | refused on a taken key or an unknown root |
| `RegistryDb.DataBase.InsertProtocol` | urc/src/monitor/db.rs:266-289 | refused on a taken key or an unknown root, else a row not opted out |
| `RegistryDb.DataBase.SetOperatorUnregistered` | urc/src/monitor/db.rs:205-222 | updates one column, or nothing for an unknown root |
| `RegistryDb.DataBase.SetOperatorSlashed` | urc/src/monitor/db.rs:224-241 | updates one column, or nothing for an unknown root |
| `RegistryDb.DataBase.UpdateStatus` | urc/src/monitor/db.rs:191-203 | the indexed block, if it fits 64 bits |
| `FixedKSigners.SignatureVerifies` | common/src/crypto/fixed_k_signer.rs:47-92 | verification as in section 4.1.4 of SEC 1 gives k or -k times the generator, the recovery bit is the parity of exactly that point, and its x coordinate is r |
| `FixedKSigners.ZeroSIff` | common/src/crypto/fixed_k_signer.rs:75-83 | s is zero exactly when z + r * d vanishes modulo the order |
| `FixedKSigners.ZeroSHappens` | common/src/crypto/fixed_k_signer.rs:75-83 | for every key and nonce that is the case for some message scalar |
| `FixedKSigners.Sign` | common/src/crypto/fixed_k_signer.rs:47-92 | r is below the order and s at most (n - 1) / 2 |
| `FixedKSigners.HalfOrder` | common/src/crypto/fixed_k_signer.rs:22-23 | the constant is (n - 1) / 2 |
| `FixedKSigners.SignHashWithFixedK` | common/src/crypto/fixed_k_signer.rs:47-92 | the 65 bytes are r, s and the recovery bit of that signature; overflow of r or k = 0 is an error |
| `FixedKSigners.SignHashDeterministic` | common/src/crypto/fixed_k_signer.rs:29-41 | the signature for k = 1, else for k = 2, and an error exactly when both overflow |
| `FixedKSigners.ScalarIsReduced` | common/src/crypto/fixed_k_signer.rs:95-123 | 32 bytes are the scalar plus, exactly on overflow, the order |
| `FixedKSigners.EncodeRoundTrip` | common/src/crypto/fixed_k_signer.rs:85-91 | decoding the emitted bytes gives the signature back |
| `FixedKSigners.BytesRoundTrip` | common/src/crypto/fixed_k_signer.rs:85-89 | a value survives its big-endian encoding exactly when it fits |
| `FixedKSigners.FirstByteWeighsMost` | common/src/crypto/fixed_k_signer.rs:85-89 | the byte order is big-endian: a byte put in front counts 256 to the number of the others |
| `FixedKSigners.InversesOfOneAndTwo` | common/src/crypto/fixed_k_signer.rs:70-73 | both nonces that are tried have an inverse |
| `BinarySearch.BinarySearchLastBlock` | shasta/src/node/last_safe_l2_block_finder/binary_search_last_block.rs:8-53 | the greatest block in (start, end] with an id at most the target, none exactly when there is none, an error only for a failed fetch, in at most floor(log2(end - start)) + 1 fetches |
| `BinarySearch.FloorLog2IsFloor` | shasta/src/node/last_safe_l2_block_finder/binary_search_last_block.rs:8-53 | the measure used for that bound is the floor of the base-2 logarithm |

## Left out

- RPC clients, signing services, JSON and ABI decoding, metrics, logging, configuration, HTTP servers, the p2p boot node and the Python scripts: plumbing over other libraries.
- KZG sidecars, blob coding, AES-GCM, zlib and RLP: compression is an abstract size function that may fail.
- Curve arithmetic: points are discrete logarithms, and the inverse, the x coordinate and the parity of y are functions of them.
- The lookahead builder, extra-data codec, throttling, status display, watchdog, fork selection and the query functions of the database: they would only add easy members.
- Realtime blocks changed after admission: a caller may insert a user operation into a draft that was already admitted (realtime/src/node/proposal_manager/mod.rs:245-283), so the size bound is for drafts added as admitted.
- User operations, signal slots, calls, checkpoints and proofs of a realtime proposal: lists that nothing modelled here reads.
- Bodies of proposals in the submission protocol: a proposal is an identity and a pending flag, a value rather than a shared object, so aliasing is not captured.
- What reanchoring, verification and block building compute: their effect on queue, verifier and token is data of the action, any outcome allowed.
- Panics of the monitor task, and locks poisoned by a panic: a panic cancels the node (node/src/main.rs:77-83).
- TransactionMonitors.TransactionMonitorThread.InitialFees: fees are unbounded integers, so 128-bit overflow is not modelled.
- MonitorRounds.NotConfirmedIff: asks that no reply carries `NotConfirmed` as its own reason, which the reasons read out of a reply never are (common/src/l1/tools.rs:53-70); the model's reply type would allow it.
- TransactionMonitors.TransactionMonitorThread.VerifyTxIncluded: like the code, it takes a hash in a block as included whatever the status of its receipt; the status is data that only `MonitorRuns.Succeeded` looks at.
- SlotClocks.SlotIffInside: times are unbounded integers, so 64-bit overflow of slot times is not modelled.
- BatchCores.BatchBuilderCore.TryCreatingL2Block: the anchor height offset rule and the number of skipped slots metric are not modelled.
- BatchTiming.SlotGapNeverExpires: is about the core; the realtime node suppresses empty blocks (realtime/src/node/mod.rs:233-240), so nothing is claimed for it.
- BatchBuilders.BatchBuilder.TryStartSubmission: the question whether a transaction is in progress cannot fail (common/src/shared/transaction_monitor.rs:187-193), and `submit` fails only when busy, which is asked first; so neither error path is modelled.
- OperatorReaders.SharedViewsFollow: a fetch is taken to read the operators of the epoch its reader asked in; a fetch that the epoch boundary overtakes could read those of the next one.
- RegistryMonitors.RegistryMonitor.IndexRange: `get_logs` is taken to return the registry's events of the range in chain order, and reorganisations below the fork depth are not modelled; a batch size of zero makes empty ranges.
- RegistryDb.DataBase.InsertOperator: each statement is atomic; durability settings and the MySQL variant are not modelled.
