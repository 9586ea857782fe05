# FireFly Transaction Manager: verified core

Dafny models of the state machines at the centre of the Hyperledger FireFly Transaction
Manager, and proofs about every run of them. `dafny verify dfyconfig.toml` checks the
project.

| file | component |
|---|---|
| `Wrappers.dfy` | optional values |
| `Chain.dfy` | blocks and parent-linked runs, shared by the next six |
| `ConfirmedBlockListener.dfy` | the confirmed block listener: a notifier and a dispatcher over one view of the chain |
| `ConfirmedBlockReorgs.dfy` | what each notification does to that view, and the fate of replaced blocks |
| `ItemConfirmations.dfy` | one pending item of the confirmation manager: blocks, walks, receipts, notifications |
| `ItemForks.dfy` | what each happening does to an item and tells its receiver; following a fork |
| `ConfirmationOrder.dfy` | the manager's event path over whole runs on a linear chain |
| `ConfirmationManager.dfy` | the manager's objects: pending items, the per-cycle block view, the pending map |
| `ReceiptChecker.dfy` | the receipt queue and its racing workers |
| `ReceiptQueue.dfy` | that queue over whole runs: what is scheduled is checked in order, what is removed leaves |
| `EventStream.dfy` | checkpoints of an event stream: acks and high-water marks |
| `EventStreamAcks.dfy` | that acks and marks move the checkpoint, where to, and what is discarded then |
| `TransactionWriter.dfy` | batch coalescing in the Postgres transaction writer |
| `WriterTables.dfy` | what each table holds after a batch, told from its operations |
| `WriterNonces.dfy` | nonce allocation in the Postgres transaction writer |
| `LevelStore.dfy` | the LevelDB transaction records and their indexes, write by write |
| `LevelStoreWrites.dfy` | what whole inserts, updates and deletes leave there |
| `LevelNonces.dfy` | nonce allocation over that store: inserters, deletes, updates and readers interleaved key by key, and when a write is safe |
| `LevelNonceSafety.dfy` | careful runs: nonces go up |
| `LevelNonceRuns.dfy`, `LevelNonceTraps.dfy` | runs that end in a nonce coming up twice, and states they start from |
| `LevelNonceLimits.dfy` | the conditions on writes are exact; runs that break |
| `LevelNonceOrder.dfy` | runs that need no condition |
| `PolicyLoop.dfy` | the simple transaction handler's in-flight list and status changes |
| `PolicyRequests.dfy` | what each request does to row and record; suspend and resume |
| `BlockBuffer.dfy` | the buffering of block events for a blocked target |

Each component has the same three layers. Specification functions on values say what one
operation does. A class with the source's own fields carries the loops and updates, and each
method's `ensures` equates the new state with the specification function of the old one.
A step machine (`Enabled`, `Step`, and runs over sequences of actions) interleaves the
operations with an adversarial environment; the named theorems are about every legal run.
Beside the theorems stand lemmas that say, case by case and in terms of the state alone, where
each operation leaves it, so that the specification functions are not their own authority.

What is assumed of the surroundings:

- A block hash determines the block; a block naming another as its parent is one higher; a
  by-number read returns the number asked for. Nothing else is assumed of a connector, which
  may change its answers from one query to the next.
- Listener checkpoints are positions ordered like `nat`, and a listener's events are pushed
  in increasing order. For checkpoint safety the connector keeps the LastDetected contract
  (`SafeExactlyWhenAccounted` shows that exactly this is needed); for discard soundness it
  may answer anything.
- Timeouts, cache expiry, eviction, staleness, node answers, and the failure of any storage
  call are free choices of the environment. A failing persistence call of the policy loop was
  either carried out by the time it returns or never is.
- All inserts of one signer reach the same Postgres worker
  (`internal/persistence/postgres/transaction_writer.go:144-183`), so one signer's batches are
  serial.
- A Postgres update of a row that does not exist is an error that rolls the batch back; the
  CRUD library that decides this is not part of this model.

Some promises hold only under conditions that the code does not enforce. Each condition is
explicit in the model, is shown to be exact, and has runs that fail without it:

- **Nonces over LevelDB.** `DeleteTransaction` takes no lock and removes four keys one at a
  time, readers remove orphaned entries after letting go of the read lock, and an update
  writes a record it read earlier. With nothing failing, a delete that straddles an insert of
  the same signer makes a nonce come up twice (`StraddlingDeleteBreaks`). An insert cut short
  leaves an entry naming its ID, and storing that ID again at a nonce more than one below
  misleads the allocator; for another signer nothing else need fail, for the same signer the
  clean-up of the leftover must fail too (`LeftoverIsReached`). Storing is safe if and only if
  no entry more than one above its nonce names the transaction and, however far the removals
  under way get, reading down from its nonce comes to an entry that names it first
  (`StoreBreaksExactlyWhenUnsafe`). `UpdateBreaksExactlyWhenUnsafe` is the same for the record
  write of an update, which must also not overtake an inserter; replacing the record that was
  read is always safe. Runs in which nothing fails and each delete is uninterrupted, and not
  started between an update's read of the same record and its last write, need no condition
  (`OrderlyNoncesGoUp`).
- **Finished stays finished.** A delete that was carried out but reported as failed leaves its
  record in flight. Inserting the ID again then opens the way to a persisted Failed becoming
  Suspended if and only if that record is not marked for removal, has the lower sequence ID,
  and two records fit in the list (`ReopensExactlyWhenRisky`).
- **Finished for a reason.** A new transaction can be finished by confirmations of its deleted
  predecessor if and only if a record that was told of them is still in the list
  (`FinishesUnreportedExactlyWhenHeld`).
- **Re-detections are discarded.** With the events of a batch completed, all completed ones are
  discarded when they come again if and only if the batch ended with the highest position that
  had arrived (`ShieldsExactlyWhenLastIsHighest`). An event re-detected while its batch is still
  under way moves the checkpoint back, and others are delivered twice
  (`RedetectedInBatchIsRedelivered`).
- **Pending means listed.** Over LevelDB a stored transaction is listed as pending if and only
  if it was inserted as Pending and no update to another status has performed its first write
  since (`ListedExactlyUntilItLeaves`); a resume does not list it again.

## Model

| member | source | states |
|---|---|---|
| `ConfirmedBlocks.NoGapNoRepeat` | internal/confirmations/confirmed_block_listener.go:174-383 | in every interleaving of notifications, reads, pops and dispatches, over any re-orgs, dispatched numbers count up by one, the last is the rolling checkpoint, and with a checkpoint the first block held and the first dispatched are max(fromBlock, checkpoint+1) |
| `ConfirmedBlocks.OneChain` | internal/confirmations/confirmed_block_listener.go:198-372 | in every reachable state held blocks followed by new heads are one parent-linked run; new heads never exceed 10 and the hold never exceeds the required confirmations outside the read-then-dispatch step; each dispatched block had that many linked successors held |
| `ConfirmedBlocks.FirstBlockIsFree` | internal/confirmations/confirmed_block_listener.go:215-218 | without a checkpoint, for every required number, the first block dispatched can be the first of any linked run of notified blocks at or above fromBlock that is long enough |
| `ConfirmedBlocks.NotifiedKeepsChain` | internal/confirmations/confirmed_block_listener.go:174-241 | any notification keeps the view one linked run, never grows the hold and never empties it |
| `ConfirmedBlockReorgs.ConflictCutsBack` | internal/confirmations/confirmed_block_listener.go:219-236 | a block of a held number empties the new heads and cuts the hold there, taking that place itself if it is the first or attaches to the block before |
| `ConfirmedBlockReorgs.OthersJoinOrNothing` | internal/confirmations/confirmed_block_listener.go:198-236 | a block of a number not held joins the new heads exactly if it is the child of the last block ahead, or nothing is ahead and it is the next after the checkpoint or there is none; else nothing changes |
| `ConfirmedBlockReorgs.NotConsidered` | internal/confirmations/confirmed_block_listener.go:182-206 | a block below fromBlock or up to the checkpoint, or one that comes while ten new heads are lined up, changes nothing |
| `ConfirmedBlockReorgs.LatestStartsHere` | internal/confirmations/confirmed_block_listener.go:93-107 | a listener started at latest without a checkpoint starts from the first block notified |
| `ConfirmedBlockReorgs.DispatchStartsAt` | internal/confirmations/confirmed_block_listener.go:93-107 | given a checkpoint, the first block ever dispatched is the one after it, or a higher number that was asked for, whichever way it was started |
| `ConfirmedBlockReorgs.ReplacedIsNotDispatched` | internal/confirmations/confirmed_block_listener.go:219-236 | in every run, after a block of a held number is notified, no other block held or lined up from that number on is dispatched or counts as a confirmation unless it is notified or read again |
| `ConfirmedBlockReorgs.BranchTakesOver` | internal/confirmations/confirmed_block_listener.go:207-236 | notifying a branch that forks off in the hold, in order, leaves exactly that branch after the fork, up to eleven blocks |
| `ConfirmedBlockReorgs.DispatchLeavesRequired` | internal/confirmations/confirmed_block_listener.go:348-383 | dispatching leaves the required number held; the others leave in order with all held after each, and the last becomes the checkpoint |
| `ConfirmedBlocks.ReorgedKeepsChain` | internal/confirmations/confirmed_block_listener.go:219-236 | a conflicting block leaves a linked run, no longer than it was and not empty, with nothing but the blocks ahead changed; where it cuts is `ConflictCutsBack` |
| `ConfirmedBlocks.AttachedKeepsChain` | internal/confirmations/confirmed_block_listener.go:323-346 | whatever happened since the fetch, re-validating the fetched block under the lock leaves one linked run, at most one block longer |
| `ConfirmedBlocks.HealingRead` | internal/confirmations/confirmed_block_listener.go:297-346 | one read from a settled chain drops exactly one orphaned tail block, or, when there is none, appends the next canonical block |
| `ConfirmedBlocks.HealingRound` | internal/confirmations/confirmed_block_listener.go:250-372 | a read and the dispatches it allows shrink the orphaned tail by one and dispatch nothing, or, once it is gone, advance along the chain by one |
| `ConfirmedBlocks.EndsOnChain` | internal/confirmations/confirmed_block_listener.go:335-343 | a linked run whose last block is canonical is a stretch of the canonical chain |
| `ConfirmedBlocks.LastAttaches` | internal/confirmations/confirmed_block_listener.go:335-343 | the next canonical block names the last held one as its parent if and only if that one is canonical |
| `ConfirmedBlocks.ConfirmedBlockListener.StartConfirmedBlockListener` | internal/confirmations/confirmed_block_listener.go:71-119 | the start state for latest, earliest or a number, with or without a checkpoint; refused exactly in light mode, for a malformed fromBlock or an ID already started |
| `ConfirmedBlocks.ConfirmedBlockListener.ProcessBlockNotification` | internal/confirmations/confirmed_block_listener.go:174-241 | the new view is the specified one in every branch; `ConflictCutsBack`, `OthersJoinOrNothing`, `NotConsidered` and `LatestStartsHere` say which it is |
| `ConfirmedBlocks.ConfirmedBlockListener.DiscardConflicting` | internal/confirmations/confirmed_block_listener.go:219-236 | the search-and-cut loop leaves the view specified for a re-org |
| `ConfirmedBlocks.ConfirmedBlockListener.PopDispatchedIfAvailable` | internal/confirmations/confirmed_block_listener.go:273-295 | pops the first new head, or names the number to fetch and changes nothing |
| `ConfirmedBlocks.ConfirmedBlockListener.AttachFetched` | internal/confirmations/confirmed_block_listener.go:323-346 | the second locked region: a head that arrived meanwhile wins, a block that does not attach drops the tail, else it is appended |
| `ConfirmedBlocks.ConfirmedBlockListener.DispatchAllConfirmed` | internal/confirmations/confirmed_block_listener.go:348-383 | exactly the blocks with enough successors leave, in order, and the checkpoint is the last of them |
| `ConfirmedBlocks.ConfirmedBlockListener.DrainSettledChain` | internal/confirmations/confirmed_block_listener.go:250-271 | once the chain has settled the dispatcher loop ends; no orphan is dispatched, and what leaves followed by what stays is the chain from where the healed view begins |
| `ItemConfirmations.FrozenAnswers` | internal/confirmations/confirmations.go:803-838 | within one cycle, over a connector free to change its answers: after nil at n every answer at m >= n is nil, and two blocks for one number are the same |
| `ItemConfirmations.FrozenOrder` | internal/confirmations/confirmations.go:776-838 | in one pass, once an item stopped because the head was reached no later-sorted item is confirmed |
| `ItemConfirmations.WalkMeetsHead` | internal/confirmations/confirmations.go:840-891 | a walk that stops at the head shows a barrier below the block it needed, and no walk confirms past such a barrier |
| `ItemConfirmations.LinkageAndThreshold` | internal/confirmations/confirmations.go:550-702 | through any mix of blocks, forks, walks and receipt moves, an unconfirmed item with a known block holds fewer than the required confirmations, one linked run starting right after its block |
| `ItemConfirmations.DeltaReplay` | internal/confirmations/confirmations.go:649-771 | a receiver that replaces on NewFork and appends otherwise holds the item's current run after every notification up to the first Confirmed, which comes with exactly the required number |
| `ItemConfirmations.AddedIsTracked` | internal/confirmations/confirmations.go:512-546 | the same for the notification an event may raise while it is being added |
| `ItemConfirmations.HappenedIsSound` | internal/confirmations/confirmations.go:649-894 | each single happening keeps linkage and threshold and levels the receiver's list |
| `ItemConfirmations.WalkStaysRooted` | internal/confirmations/confirmations.go:852-891 | a walk ends with a linked run rooted at the item, of the required length if that is why it stopped and shorter otherwise, by the measure required minus held |
| `ItemForks.ForkIsFollowed` | internal/confirmations/confirmations.go:649-702 | whatever happened before, a branch that leaves the run at any place k and is notified in order, with unrelated blocks in between, ends up as the item's run from k on, known to its receiver, and Confirmed is raised exactly when it makes up the required number |
| `ItemForks.BlockTakesItsPlace` | internal/confirmations/confirmations.go:671-694 | a block that is the child of the item's block or of its k-th confirmation leaves the first k and itself, and confirms at the threshold |
| `ItemForks.OthersLeaveTheRun` | internal/confirmations/confirmations.go:671-694 | any other block leaves the run alone and tells nobody unless the item is confirmed |
| `ItemForks.NoticeTells` | internal/confirmations/confirmations.go:713-771 | a notification is left out exactly when the item is unconfirmed and its run is the start of the receiver's list; it replaces exactly when there is no list or the two differ, and else carries only what is missing |
| `ItemForks.BlockTells` | internal/confirmations/confirmations.go:695-700 | a block raises a notification exactly when one is due and it took a place or the item is confirmed, and never when no confirmations are required |
| `ItemForks.WalkTells` | internal/confirmations/confirmations.go:887-894 | the end of a walk does so when it found something or confirmed the item, unless the connector failed |
| `ItemForks.ReceiptMoves` | internal/confirmations/confirmations.go:550-574 | a receipt of a generation already reached changes nothing; any other moves the item to its block and is remembered |
| `ItemForks.LookupAsks` | internal/confirmations/confirmations.go:810-838 | within a cycle the connector is asked for a number until it gives a block, or a miss there or below; that answer then stands |
| `ConfirmationOrder.WholeRunOrder` | internal/confirmations/confirmations.go:512-894 | after any mix of next blocks and events, each pending event at block n holds exactly n+1 up to the highest seen, fewer than required, a walk would find the same, every confirmed one is deep enough, and Confirmed callbacks of the whole run are in (block, txIndex, logIndex) order |
| `ConfirmationOrder.WalkFindsTheSame` | internal/confirmations/confirmations.go:840-894 | re-walking an item that incremental processing kept level gives the same item |
| `ConfirmationOrder.NextBlockExtends` | internal/confirmations/confirmations.go:649-702 | the next block extends a level item by itself and confirms it exactly when it was the last one needed |
| `ConfirmationOrder.WalkReadsWindow` | internal/confirmations/confirmations.go:852-891 | a walk over the chain takes what the item still needs, or all there is up to the head, and confirms in the first case only |
| `ConfirmationManager.PendingItem.AbsorbBlock` | internal/confirmations/confirmations.go:671-694 | a block with a place in the run truncates to it and is appended, any other leaves the item alone |
| `ConfirmationManager.PendingItem.CountBlock` | internal/confirmations/confirmations.go:671-702 | absorbs, marks confirmed at the threshold, and says whether to notify; see `BlockTakesItsPlace` and `BlockTells` |
| `ConfirmationManager.PendingItem.DispatchConfirmations` | internal/confirmations/confirmations.go:713-771 | compares with what was notified and emits the delta, or the whole run as a new fork, or nothing |
| `ConfirmationManager.PendingItem.WalkChain` | internal/confirmations/confirmations.go:840-894 | the walk and its dispatch leave item and view as specified |
| `ConfirmationManager.PendingItem.DispatchReceipt` | internal/confirmations/confirmations.go:550-574 | an overtaken generation changes nothing; otherwise the item moves to the receipt's block and is walked |
| `ConfirmationManager.BlockState.GetByNumber` | internal/confirmations/confirmations.go:810-838 | answers from the cycle's view first and records each new answer in it |
| `ConfirmationManager.BlockConfirmationManager.ProcessBlock` | internal/confirmations/confirmations.go:649-710 | every pending item sees the block, those concerned are told in chain order with the specified notices, and the confirmed ones leave |
| `ConfirmationManager.BlockConfirmationManager.SortKeys` | internal/confirmations/confirmations.go:217-225 | the notifications are reordered, none lost or repeated, so that no later item comes before an earlier one |
| `ConfirmationManager.InOrderMeans` | internal/confirmations/confirmations.go:217-225 | notifications in order are ascending by block, then transaction, then log |
| `Receipts.CheckedOnceAtATime` | internal/confirmations/receipt_checker.go:73-173 | in every interleaving a pending item is in the queue or in a worker's hands at most once in total |
| `Receipts.HighestGenerationWins` | internal/confirmations/receipt_checker.go:91-163 | no two receipts of an item share a generation, none is taken twice, and the block recorded is that of the highest generation delivered, in any arrival order |
| `Receipts.BusyComesFromScheduling` | internal/confirmations/receipt_checker.go:148-163 | only scheduling an idle item starts a check, under a generation of its own, and a finished check frees its item |
| `ReceiptQueue.IdleItemIsQueued` | internal/confirmations/receipt_checker.go:148-163 | in every run scheduling an item not removed puts it at the back of the queue under the next generation if and only if it is neither queued nor in a worker's hands nor checked too recently |
| `ReceiptQueue.QueueMovesUp` | internal/confirmations/receipt_checker.go:73-89 | in every run without removals a queued item moves up one place with each pop and is taken by the pop that finds it in front |
| `ReceiptQueue.RemoveTakesOut` | internal/confirmations/receipt_checker.go:165-173 | in every run removing an item takes exactly its own element out, wherever it is; one that is not queued changes nothing |
| `ReceiptQueue.CheckEnds` | internal/confirmations/receipt_checker.go:98-139 | a finished check frees worker and item and sends its receipt under the generation read, which is the item's own; a retry goes to the back under the same generation |
| `Receipts.ReceiptChecker.Schedule` | internal/confirmations/receipt_checker.go:148-163 | queues under a new generation unless already queued or checked recently |
| `Receipts.ReceiptChecker.Next` | internal/confirmations/receipt_checker.go:73-89 | takes the front of the queue and leaves the item marked as queued |
| `Receipts.ReceiptChecker.Requeue` | internal/confirmations/receipt_checker.go:98-139 | a retry goes to the back of the queue under its old generation |
| `Receipts.ReceiptChecker.Remove` | internal/confirmations/receipt_checker.go:165-173 | takes out the item's own element if it is still queued |
| `EventStreams.CheckpointSafety` | internal/events/eventstream.go:1022-1238 | in every run of a fresh stream no checkpoint ever generated, from an ack or a high-water mark, reaches an event pushed and neither removed nor acked nor skipped |
| `EventStreams.StreamIsRunOfEach` | internal/events/eventstream.go:1022-1238 | polling and acking a batch of many listeners is, for each of them, its own arrivals and its own batch finishing in the run CheckpointSafety is about |
| `EventStreams.BatchProjects` | internal/events/eventstream.go:1039-1054 | what a batch holds for one listener is what that one keeps of its own arrivals, and the position recorded for it is the last of those |
| `EventStreams.SafeMarkIsBehind` | internal/events/eventstream.go:1135-1192 | a mark that passes the checks is behind everything outstanding |
| `EventStreams.SafeExactlyWhenAccounted` | pkg/ffcapi/event_listener_hwm.go:28-56 | such a mark is ahead of nothing outstanding if and only if the connector reports as detected every outstanding event its scan has passed |
| `EventStreams.DiscardSoundness` | internal/events/eventstream.go:888-924 | with arbitrary re-detections and marks, every discarded event was already in a completed batch when it was discarded |
| `EventStreams.LastEventWins` | internal/events/eventstream.go:1039-1054 | a batch records for a listener exactly the position of its last event there, and nothing for a listener without one |
| `EventStreams.EventStream.CheckConfirmedEventForBatch` | internal/events/eventstream.go:888-924 | discards behind an acked checkpoint or without a listener, delivers behind a mere high-water mark |
| `EventStreams.EventStream.BatchPoll` | internal/events/eventstream.go:1022-1064 | a batch keeps the deliverable arrivals in order and stops short of them only when full |
| `EventStreams.EventStream.AckBatch` | internal/events/eventstream.go:1194-1238 | exactly the batch's listeners move, each to its last position there, as acked |
| `EventStreams.EventStream.BatchLoopTurn` | internal/events/eventstream.go:1070-1094 | a turn of the batch loop leaves each listener with an event in the batch acked at the last of them, and the others where they were |
| `EventStreamAcks.KeepsExactlyTheUnacked` | internal/events/eventstream.go:888-949 | a batch holds every arrival of a known listener that is not behind an acked position, as often as it arrived, and nothing else |
| `EventStreamAcks.FinishWritesLast` | internal/events/eventstream.go:1194-1219 | finishing a batch writes exactly the position of its last event, as acked |
| `EventStreamAcks.QueryMovesToScan` | internal/events/eventstream.go:1135-1192 | a query moves the checkpoint to the scan position exactly when all that was detected is committed, or nothing was detected and nothing is in flight |
| `EventStreamAcks.DeliveryCatchesUp` | internal/events/eventstream.go:1070-1219 | in every run, letting all that is outstanding arrive and acking it moves the checkpoint to the highest of it and leaves nothing outstanding |
| `EventStreamAcks.CompletedIsDiscarded` | internal/events/eventstream.go:907-923 | until a mark is applied, and with nothing re-detected while its batch is under way, an event of any completed batch that comes again is discarded and a new one is delivered |
| `EventStreamAcks.ShieldsExactlyWhenLastIsHighest` | internal/events/eventstream.go:1039-1054 | in every run, completing a batch makes all completed events be discarded when they come again if and only if it ends with the highest position that has arrived |
| `EventStreamAcks.RedetectedInBatchIsRedelivered` | internal/events/eventstream.go:1039-1054 | the input that fails: 5, 6 and 5 again in one batch, after which 6 is delivered a second time |
| `EventStreams.EventStream.CheckUpdateHWMCheckpoint` | internal/events/eventstream.go:1135-1192 | the mark is applied only to a listener that has not moved since it was asked for, and only when safe |
| `BatchedWrites.BatchRefinesSequence` | internal/persistence/postgres/transaction_writer.go:243-498 | a batch of updates, receipts, confirmations and history leaves every table and the completions as applying them one at a time in queue order would, and fails exactly when that would |
| `BatchedWrites.CompletesOnce` | internal/persistence/postgres/transaction_completions.go:52-66 | the table of completions keeps one row per transaction, the first, and gains one for every transaction submitted |
| `BatchedWrites.AddedIsAppliedLast` | internal/persistence/postgres/transaction_writer.go:250-280 | adding an operation to a batch is applying it after the batch, clears included |
| `WriterTables.LastUpdateWins` | internal/persistence/postgres/transaction_writer.go:406-459 | after a batch each column of a transaction is what the last of its operations that sets it says |
| `WriterTables.UnsetColumnStays` | internal/persistence/postgres/transaction_writer.go:406-459 | a column that none of them sets is as it was |
| `WriterTables.FailsExactlyOnMissing` | internal/persistence/postgres/transaction_writer.go:452-459 | the operations fail together exactly when one updates a transaction that is not stored |
| `WriterTables.LastReceiptWins` | internal/persistence/postgres/transaction_writer.go:259-261 | a transaction has the last of its receipts in the batch, or what it had |
| `WriterTables.ConfirmationsSinceClear` | internal/persistence/postgres/transaction_writer.go:265-280 | a transaction has the confirmations queued since the last clear in the batch, or those stored followed by those queued |
| `WriterTables.HistoryIsAppended` | internal/persistence/postgres/transaction_writer.go:262-264 | no history is lost or reordered |
| `WriterTables.CompletedExactlyWhenFinished` | internal/persistence/postgres/transaction_writer.go:406-428 | a transaction has completed if and only if it had before or an update in the batch gives it a final status; earlier completions stay |
| `WriterTables.FirstCompletionStands` | internal/persistence/postgres/transaction_writer.go:406-428 | a new completion has the first final status given |
| `BatchedWrites.MergeIsSequencing` | pkg/apitypes/managed_tx.go:346-389 | applying a merged update is applying the two updates in turn, for every field |
| `BatchedWrites.LaterWins` | pkg/apitypes/managed_tx.go:346-389 | each of the fourteen columns is the update's where it sets it and as it was where it does not |
| `BatchedWrites.TXUpdates.Merge` | pkg/apitypes/managed_tx.go:346-389 | the fourteen assignments leave the specified merge, which `LaterWins` spells out |
| `BatchedWrites.TransactionWriterBatch.Group` | internal/persistence/postgres/transaction_writer.go:250-280 | the grouping loop builds the specified batch |
| `BatchedWrites.TransactionWriterBatch.MergeTxUpdates` | internal/persistence/postgres/transaction_writer.go:406-428 | one merged update per transaction, and the terminal-status updates in order |
| `WriterNonces.NoncesNeverReused` | internal/persistence/postgres/transaction_writer.go:284-372 | after any batches, expiries, evictions, rollbacks, deletes and node answers, every nonce a committing batch assigns exceeds all then stored for its signer, and a signer's nonces go up in queue order |
| `WriterNonces.AllocateGoesUp` | internal/persistence/postgres/transaction_writer.go:301-365 | from any cache state a signer's nonces go up from where cache or database left off, and the cache ends one above the last |
| `WriterNonces.AssignedExactly` | internal/persistence/postgres/transaction_writer.go:301-365 | a committing batch gives a signer as many nonces as it has inserts that are no duplicates: counting up from the cached one; with nothing cached, from the larger of the node's answer and the database's next; with an expired one, each the larger of its own node answer and where the one before left off |
| `WriterNonces.WarmCountsUp` | internal/persistence/postgres/transaction_writer.go:348-361 | with a cached entry the nonces follow on without a gap and without asking the node |
| `WriterNonces.ColdAsksOnce` | internal/persistence/postgres/transaction_writer.go:318-361 | with nothing cached the node is asked once, and the batch is refused exactly when that fails |
| `WriterNonces.ExpiredAsksEach` | internal/persistence/postgres/transaction_writer.go:303-361 | with an expired entry the node is asked for every insert, and the batch is refused exactly when one of them fails |
| `WriterNonces.CommitRemembers` | internal/persistence/postgres/transaction_writer.go:284-372 | a committed batch stores what it assigned and caches the nonce after the last; a failed one stores nothing and forgets its signers; nobody else is affected |
| `WriterNonces.NoGapWhileCached` | internal/persistence/postgres/transaction_writer.go:348-361 | while a signer's entry stays cached and unexpired its next batch goes on right after the last nonce of the one before, whatever happens to others in between |
| `WriterNonces.CommittedAhead` | internal/persistence/postgres/transaction_writer.go:284-365 | what a committed batch assigns and caches is ahead of what is stored |
| `WriterNonces.NonceAllocator.AssignNonces` | internal/persistence/postgres/transaction_writer.go:301-365 | the loop assigns the specified nonces, one per insert that is no duplicate, touches no other signer's cache entry, and stops at a node error |
| `WriterNonces.NonceAllocator.AssignAllNonces` | internal/persistence/postgres/transaction_writer.go:301-365 | every signer of a batch gets its specified nonces and cache entry, no other entry changes, and it fails exactly when the node fails for one |
| `WriterNonces.NonceAllocator.ClearCachedNonces` | internal/persistence/postgres/transaction_writer.go:367-372 | exactly the batch's signers leave the cache |
| `LevelStore.CrashConsistency` | internal/persistence/leveldb/leveldb_persistence.go:663-736 | after any serial history of inserts, updates and deletes, each cut after any write, every stored transaction has its own created-time and nonce entries, and a pending entry under its sequence ID only while its stored status is Pending |
| `LevelStore.InsertKeepsIndexed` | internal/persistence/leveldb/leveldb_persistence.go:678-715 | however many of an insert's writes happened the indexes stand, and the record is there only after the last |
| `LevelStore.UpdateKeepsIndexed` | internal/persistence/leveldb/leveldb_persistence.go:706-715 | however many of an update's writes happened the indexes stand |
| `LevelStore.DeleteKeepsIndexed` | internal/persistence/leveldb/leveldb_persistence.go:724-736 | however many of a delete's writes happened the indexes stand, and the record is gone from the first on |
| `LevelStoreWrites.WholeInsert` | internal/persistence/leveldb/leveldb_persistence.go:678-715 | a whole insert leaves the record and its index entries, all naming it, and changes nothing else |
| `LevelStoreWrites.WholeUpdate` | internal/persistence/leveldb/leveldb_persistence.go:706-715 | a whole update replaces the record and drops the pending entry unless the status is Pending |
| `LevelStoreWrites.WholeDelete` | internal/persistence/leveldb/leveldb_persistence.go:724-736 | a whole delete takes away the transaction's four keys and no other |
| `LevelStoreWrites.DeleteUndoesInsert` | internal/persistence/leveldb/leveldb_persistence.go:663-736 | insert, any status updates and delete give back exactly the store there was |
| `LevelStore.InsertListsPending` | internal/persistence/leveldb/leveldb_persistence.go:700-711 | a whole insert leaves a pending entry, naming its transaction, if and only if the status is Pending |
| `LevelStore.UpdateListsPending` | internal/persistence/leveldb/leveldb_persistence.go:708-714 | after a whole update a transaction is listed as pending if and only if it was listed and stays Pending |
| `LevelStore.ListedExactlyUntilItLeaves` | internal/persistence/leveldb/leveldb_persistence.go:678-736 | after every serial history, cut anywhere, a stored transaction has a pending entry, naming it, if and only if it was inserted as Pending and no update to another status has performed its first write since |
| `LevelStore.UpdateUnlists` | internal/persistence/leveldb/leveldb_persistence.go:706-715 | an update cut anywhere leaves its own listing alone if and only if it is to Pending or wrote nothing |
| `LevelStore.ResumedIsNotListed` | internal/persistence/leveldb/leveldb_persistence.go:678-714 | a transaction that left Pending and came back is stored as Pending and not listed, whatever the store held |
| `LevelStore.LevelDBPersistence.WriteTransactionLocked` | internal/persistence/leveldb/leveldb_persistence.go:663-715 | incomplete, pre-sequenced or duplicate transactions are refused without a write; otherwise the planned writes happen up to the first that fails |
| `LevelStore.LevelDBPersistence.DeleteTransaction` | internal/persistence/leveldb/leveldb_persistence.go:724-736 | a transaction that cannot be loaded is no error and no write; otherwise record first, then index entries, up to the first failure |
| `LevelNonceSafety.StoredNoncesGoUp` | internal/persistence/leveldb/leveldb_persistence.go:480-567 | in every key-by-key interleaving of inserters, deletes, updates, readers' clean-ups, failing writes and crashes in which each insert and each update writes when that is safe, a nonce about to be stored exceeds all then stored for its signer |
| `LevelNonceLimits.StoreBreaksExactlyWhenUnsafe` | internal/persistence/leveldb/leveldb_persistence.go:678-736 | starting to store opens the way to a violation, by a run careful from then on, if and only if an entry more than one above names the ID or some progress of the removals under way leaves the first entry at or below its nonce naming another, or none |
| `LevelNonceLimits.UpdateBreaksExactlyWhenUnsafe` | internal/persistence/leveldb/leveldb_persistence.go:612-715 | writing an update's record does so if and only if one of those two holds, leaving out removals that begin with that record, or an inserter has settled on something not above it |
| `LevelNonceSafety.SameRecordIsSafe` | internal/persistence/leveldb/leveldb_persistence.go:612-715 | an update that replaces the record it read, up to status, is always safe |
| `LevelNonceLimits.StraddlingDeleteBreaks` | internal/persistence/leveldb/leveldb_persistence.go:724-736 | with no failing write, no crash and every clean-up made, for any signer and nonce, a delete whose key removals straddle an insert makes the same nonce come up again |
| `LevelNonceLimits.LeftoverIsReached` | internal/persistence/leveldb/nonces.go:129-155 | from an empty store, a careful run with one insert cut short at m reaches a state in which the ID is about to be stored, by another signer, at any n with n + 1 < m, and storing it opens the way to a violation; by the same signer likewise, when the clean-up fails as well |
| `LevelNonceOrder.OrderlyNoncesGoUp` | internal/persistence/leveldb/leveldb_persistence.go:480-567 | with no condition on the inserts: when writes succeed and deletes are uninterrupted, and not started between an update's read of the record and its last write, nonces go up |
| `LevelNonces.OneInserterPerSigner` | internal/persistence/leveldb/nonces.go:38-97 | at most one inserter per signer is between lock and complete |
| `LevelNonceSafety.LastIsHighest` | internal/persistence/leveldb/nonces.go:99-123 | reading the nonce index from the top, skipping orphans, misses no stored nonce of the signer, and finds exactly the highest when the entry it stops at leads to its own record |
| `LevelNonces.NextNonce` | internal/persistence/leveldb/nonces.go:129-155 | one above a fresh last nonce; otherwise the node's answer unless that is not ahead; None only on a node error that matters |
| `LevelNonces.NonceLocks.AssignAndLockNonce` | internal/persistence/leveldb/nonces.go:64-97 | the caller waits while the signer is taken, takes the first turn at which it is free, and holds the lock afterwards if and only if it got a nonce; on an error the table is as it was found |
| `LevelNonces.ListLastTransaction` | internal/persistence/leveldb/leveldb_persistence.go:196-242 | the descending scan returns the first entry's record that exists, and the entries before it as orphans |
| `PolicyLoop.InflightInOrder` | pkg/txhandler/simple/policyloop.go:107-166 | in every run, with rows appearing in any order of their sequence IDs, the in-flight list is strictly ascending by sequence ID, within the limit, with one record per transaction |
| `PolicyLoop.FinishedStaysFinished` | pkg/txhandler/simple/policyloop.go:336-491 | once a transaction is persisted as Succeeded or Failed it never returns to Pending or Suspended, over any cycles, requests, failing persistence calls, restarts and inserts that are not risky |
| `PolicyLoop.ReopensExactlyWhenRisky` | pkg/txhandler/simple/policyloop.go:107-256 | in every reachable state an insert of an ID not stored, under a new sequence ID, can be followed by a run that takes its finished status back if and only if a record of the ID that is not done with, of a lower sequence ID, is in flight and the list has room for two |
| `PolicyLoop.RiskIsReached` | pkg/txhandler/simple/policyloop.go:470-488 | a delete carried out but reported as failed leads to such a state, for every ID, list size from two and pair of sequence IDs |
| `PolicyLoop.ExecutedIsSafe` | pkg/txhandler/simple/policyloop.go:336-491 | one execution changes at most its own row, never takes a finished one back, and whatever fails the in-memory record still knows when its row is finished |
| `PolicyLoop.FinishedForAReason` | pkg/txhandler/simple/policyloop.go:344-357 | a transaction inserted while no record of its ID has been told of confirmations is persisted as finished only after its confirmations were reported complete, and as Succeeded only after a successful receipt, both since its own insert |
| `PolicyLoop.FinishesUnreportedExactlyWhenHeld` | pkg/txhandler/simple/policyloop.go:168-256 | an insert can be finished with no report of its own if and only if a record of its ID that was told of confirmations, removed or not, is in the list |
| `PolicyLoop.ConfirmedIsFinished` | pkg/txhandler/simple/policyloop.go:336-491 | a confirmed record whose update is persisted is Succeeded if and only if its receipt reported success, Failed otherwise, and has left the list after the next refresh |
| `PolicyRequests.ResumeUndoesSuspend` | pkg/txhandler/simple/policyloop.go:205-491 | in every run, suspend, the next refresh, and resume leave all rows as they were, with the transaction out of the list and every other unfinished record in place |
| `PolicyRequests.SuspendPersists` | pkg/txhandler/simple/policyloop.go:357-364 | a pending transaction is persisted as Suspended and leaves the loop |
| `PolicyRequests.ResumePersists` | pkg/txhandler/simple/policyloop.go:365-371 | a suspended one is persisted as Pending and its record stays |
| `PolicyRequests.OutOfPlaceDoesNothing` | pkg/txhandler/simple/policyloop.go:357-371 | in any other status neither does anything |
| `PolicyRequests.DeletePersists` | pkg/txhandler/simple/policyloop.go:295-300 | a delete takes the row away at once, or, if one was asked for before, when the interval has passed |
| `PolicyRequests.ConfirmedPersists` | pkg/txhandler/simple/policyloop.go:346-356 | a confirmed record is finished as its receipt says, whatever else short of a delete was asked for |
| `PolicyRequests.CycleDeletesOrKeeps` | pkg/txhandler/simple/policyloop.go:372-422 | a plain cycle or an update carries out a delete that is due and never changes a status |
| `PolicyRequests.RefusedChangesNothing` | pkg/txhandler/simple/policyloop.go:276-334 | a gas price update or a report that cannot be recorded ends the execution with no row changed |
| `PolicyRequests.FailedChangesNothing` | pkg/txhandler/simple/policyloop.go:427-491 | a write not carried out leaves every row, and a failure reported never drops the record |
| `PolicyRequests.KeepsUnremoved` | pkg/txhandler/simple/policyloop.go:107-166 | a refresh keeps every record that is not done with, as often as it was there |
| `PolicyRequests.RefreshLoads` | pkg/txhandler/simple/policyloop.go:107-166 | and appends one new record per listed row, in order, with nothing reported yet |
| `PolicyRequests.ReportReachesRecord` | pkg/txhandler/simple/policyloop.go:510-558 | receipts and confirmations reach the record of their transaction and no other |
| `PolicyLoop.SimpleTransactionHandler.ExecPolicy` | pkg/txhandler/simple/policyloop.go:258-425 | record and rows after one execution, for every request, confirmation state and failure, are the specified ones |
| `PolicyLoop.SimpleTransactionHandler.FlushChanges` | pkg/txhandler/simple/policyloop.go:427-491 | the record is marked for removal only after a persisted completion or delete |
| `PolicyLoop.SimpleTransactionHandler.UpdateInflightSet` | pkg/txhandler/simple/policyloop.go:107-166 | the removed records go, the rest keep their order, and the listed rows follow |
| `PolicyLoop.SimpleTransactionHandler.ProcessPolicyAPIRequests` | pkg/txhandler/simple/policyloop.go:205-256 | requests act in turn on the in-flight record where there is one, else on a fresh read |
| `PolicyLoop.SimpleTransactionHandler.ExecAll` | pkg/txhandler/simple/policyloop.go:180-189 | every in-flight record is executed once, in order |
| `BlockBuffer.NoSilentGap` | internal/blocklistener/blocklistener.go:42-88 | deliveries are a subsequence of the input, unaltered but for the flag; GapPotential is raised on one exactly when something between it and the next was discarded, all of it before it went out |
| `BlockBuffer.NothingLostUnmarked` | internal/blocklistener/blocklistener.go:42-88 | every input was delivered, is held, or was discarded behind an event that carries GapPotential |
| `BlockBuffer.RoomDeliversHeld` | internal/blocklistener/blocklistener.go:55-60 | a target with room gets the held event, and nothing is held then |
| `BlockBuffer.RoomLeavesNothingHeld` | internal/blocklistener/blocklistener.go:42-88 | after any turns and room once more, every input was delivered or discarded behind a delivered event that tells |
| `BlockBuffer.ReadyTargetGetsAll` | internal/blocklistener/blocklistener.go:66-82 | a target that always has room gets every event, as it was, at once |
| `BlockBuffer.BusyTargetDrops` | internal/blocklistener/blocklistener.go:47-82 | an event that finds the target busy is held, later ones are dropped, and its flag tells of them |
| `BlockBuffer.BufferChannel` | internal/blocklistener/blocklistener.go:42-88 | the two-mode loop delivers the specified events and modifies no object that existed before, so the caller's events are never mutated |

## Left out

- HTTP routes, CLI, API client, metrics, configuration, messages, JSON, websocket and webhook transport, gas oracle: plumbing.
- SQL, goleveldb and LRU internals: tables, key-value maps and caches are maps and sequences here.
- Real time and backoff: expiry, staleness and timeouts are free choices of the environment.
- Block and event callbacks, the transaction list inside a block, sub-status history and light-mode height confirmations.
- ConfirmationManager.BlockConfirmationManager.ProcessBlock: the pending map holds items by value, so aliasing between the map and the receipt checker's queue is not captured, and the receipt checks scheduled for the block's transactions are absent; the per-item updates in place are those of PendingItem.
- PolicyLoop.SimpleTransactionHandler.ProcessPolicyAPIRequests: in-flight records are held by value in the list and written back by position, so aliasing of records is not captured; the responses sent back are absent.
- At most one Confirmed notification per transaction: a receipt under way can still reach an item that has left the pending map.
- Recovery of blocks missed in a gap: the re-walk is bounded by the highest block seen before.
- Event stream claims across stop and restart, and listener names and migration.
- EventStreams.EventStream.BatchPoll: every event carries a checkpoint; events without one are not modelled.
- BatchedWrites.TransactionWriterBatch.Group: inserts, deletes and compression checks are not among the operations grouped; inserts are in WriterNonces, history compaction and deletes inside a batch are not modelled.
- WriterNonces.NonceAllocator.AssignNonces: operations with a pre-assigned nonce are absent, as are externally edited nonces in both stores.
- Liveness of the LevelDB locks: the single and batch inserts take the signer lock and the transaction mutex in opposite orders.
- LevelStore.CrashConsistency: histories are serial; over interleaved ones the created-time and pending indexes are not followed, only the nonce index is.
- BlockBuffer.BufferChannel: a loop without a target, which only drains the events it receives, is absent.
- LevelNonces.NonceLocks.AssignAndLockNonce: the table at each wake-up and the last stored nonce are parameters; their interleaving is that of the step machine.
- Postgres transactions whose commit is reported as failed but took effect.
- Reuse of iterator buffers while orphaned index keys are collected.
