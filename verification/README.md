# beignet: verified models of its protocols and algorithms

This project models the parts of beignet, a Bitcoin and Lightning wallet daemon,
where a mistake loses money, loses work or lets a check pass that should fail. Each
module models one component and proves what the component is for, over every
input, every reachable state or every run, crashes and failing writes included.

| module | component |
|---|---|
| `ImportCycles` | the iterative strongly-connected-component search behind the import check |
| `PaymentQueue`, `PaymentQueueCode`, `QueueOwners`, `QueueOutcomes`, `QueueRetained`, `QueueHistory` | the persistent outgoing payment queue: as values, as the object it is, who owns an entry, how it ends, and its history |
| `Idempotency`, `IdempotencyAnswers` | the daemon's idempotency cache and payment markers, and what each request is answered |
| `Webhooks`, `WebhooksCode`, `WebhookRuns`, `WebhookOffers` | the webhook delivery scheduler: as values, as the object it is, over whole runs, and what it accepts |
| `CoreReservations` | coin reservations over Bitcoin Core locks whose replies may be lost |
| `Satoshis` | the exact decimal amount parser |
| `OnchainSweeps`, `OnchainSweepsCode` | the durable sweep journal, as a protocol and as the object it is |
| `ShardPlan`, `TextOrder` | the greedy test-shard planner and its verifier |
| `RateLimiter` | the token bucket limiter with pruning and a client cap |
| `AuditGate` | the audit allowlist fixpoint |
| `ReceiveSteering` | the budgeted walk over ranked primaries |

Where the source updates objects and runs loops, the model does too: a class or
method is proved against a function of the old state, and the theorems are about
that function. A protocol that awaits is cut at its awaits into steps; a run is any
sequence of steps, with a crash possible between any two.

## What was found

- A payment whose resolver answers neither "completed" nor "unpaid" stays
  "dispatching" with nobody left to ask again in that process.
  `QueueOwners.UnclearHappens` is such a run. `QueueOwners.OwnedUnlessUnclear` says that
  a dispatching entry has exactly one of the four owners if and only if no such answer
  came for it in this process, and `QueueOwners.UnclearStays` that nothing moves the
  entry before the process ends.
- A sweep can be prepared, and even broadcast, without holding one of its inputs.
  This happens when another holder's freeze on that coin is met by the sweep's
  freeze call and lifted before the check that follows it.
  `OnchainSweeps.DisturbedSweepsShare` is a run in which two sweeps broadcast a spend
  of the same coin. `OnchainSweeps.WalkHolds` says that a reservation leaves the sweep
  holding every input if and only if each of its checks found its coin still frozen;
  sweeps for which that is so never share an input (`CheckedSweepsDisjoint`), and one
  that lacks a free input can always come to share it (`UnheldCanBeShared`).
- A Bitcoin Core lock request whose reply is lost may run after the adapter saw no lock
  and dropped the reservation. `CoreReservations.LateLockForgotten` is such a run, and
  `CoreReservations.ForgottenExactly` says when a lock of the adapter's goes off the
  record. Locks that did not land late never do (`LocksAreJournalled`).
- The rate limiter answers like one that never drops a bucket as long as no window
  sees more than maxClients clients (`RateLimiter.LimiterAgrees`);
  `RateLimiter.CrowdedDiffers` is a run in which it does not.
- The audit gate asks `via in vulnerabilities`, which also finds names every object
  inherits. `AuditGate.DanglingStays` is a report kept although it reaches no
  advisory. `AuditGate.DocumentedExactly` says when the documented rule holds.

## Model

| member | source | states |
|---|---|---|
| `ImportCycles.FindCycles` | scripts/import-cycles.ts:44-98 | The result lists exactly the maximal strongly connected sets that contain a cycle, disjoint, each file on a cycle in one of them; it is empty if and only if the files have a load order. The search ends on every finite graph. |
| `ImportCycles.Components` | scripts/import-cycles.ts:59-92 | The emitted components are disjoint, mutually reachable, closed under edges at every prefix, and together cover every file of the graph. |
| `ImportCycles.PopComponent` | scripts/import-cycles.ts:82-88 | The do-while loop takes exactly the stack above and including the root, top first, and takes those files off the stack set. |
| `ImportCycles.CloseFrame` | scripts/import-cycles.ts:76-90 | Leaving an exhausted file keeps the whole search invariant, whether it hands its low link to its parent or emits its component. |
| `ImportCycles.LowerLow` | scripts/import-cycles.ts:71-73 | Looking at an edge to a visited file keeps the search invariant. |
| `ImportCycles.KeepCycles` | scripts/import-cycles.ts:93-97 | The filter keeps, in order, exactly the components of several files or of one file that imports itself. |
| `ImportCycles.VisitKeepsInv` | scripts/import-cycles.ts:52-57 | Numbering and pushing a new file keeps the reachability and low-link invariants of the search. |
| `ImportCycles.PopKeepsInv` | scripts/import-cycles.ts:81-89 | Taking a root's component off the stack keeps the search invariant. |
| `ImportCycles.ComponentConnected` | scripts/import-cycles.ts:81-89 | When a file's low link is its own number, all stack files from it upward reach each other. |
| `ImportCycles.ComponentEdges` | scripts/import-cycles.ts:81-89 | No edge leaves that part of the stack for another stack file. |
| `ImportCycles.EmittedIsStrongComponent` | scripts/import-cycles.ts:39-43 | A component emitted in such an order is a whole class of mutual reachability, not part of one. |
| `ImportCycles.FilteredIsReport` | scripts/import-cycles.ts:93-97 | Filtering a good emission yields exactly the cyclic components. |
| `ImportCycles.AcyclicEmissionIsLoadOrder` | scripts/import-cycles.ts:39-43 | With no cyclic component, emission order is an order in which each file comes after all it imports. |
| `ImportCycles.LoadOrderExcludesCycles` | scripts/import-cycles.ts:39-43 | A graph that has such an order has no file that reaches itself. |
| `PaymentQueue.SentAgainOnlyAfterUnpaid` | src/cli/payment-queue.ts:780-931 | Over every run with crashes and restarts, between two payer calls for one entry lie both an "unpaid" answer for it and a restart. |
| `PaymentQueue.FinishedNeverSent` | src/cli/payment-queue.ts:527-545 | Once an entry is recorded cancelled, completed or failed, no later payer call is for it. |
| `QueueOutcomes.CompletedExactly` | src/cli/payment-queue.ts:813-1041 | Over every run, stops included, an entry with a row is completed, in the row and in memory, if and only if a dispatch of it ended paid or the resolver answered completed for it. |
| `QueueOutcomes.FailedExactly` | src/cli/payment-queue.ts:844-1090 | While a process is up, an entry whose amount can be paid is failed, in its row and in memory, if and only if a dispatch of it ended otherwise than paid or timed out, or timed out with nobody to ask, or the resolver answered unpaid to the process that sent it, or a start found it dispatching with nobody to ask. |
| `QueueOutcomes.CancelledExactly` | src/cli/payment-queue.ts:527-545 | An entry with a row is cancelled if and only if a cancel found it queued in memory. |
| `QueueOutcomes.FinalIsWritten` | src/cli/payment-queue.ts:938-989 | A row has a final status if and only if that status was ever written to it. |
| `QueueOutcomes.FailsIfSentHere` | src/cli/payment-queue.ts:844-867 | An ask leads from unpaid to failed, and not back to the queue, if and only if this process sent the entry. |
| `QueueOutcomes.OpWrites` | src/cli/payment-queue.ts:454-1090 | Every operation writes what the answer it carries calls for, and then only what its pass does. |
| `PaymentQueue.ReachableQueue` | src/cli/payment-queue.ts:709-754 | In every reachable state: queued entries are exactly the pending ones, in dispatch order; a dispatching entry is in exactly one of five places, the four owners or answered neither way; the active count is the number of running dispatches, within the cap. |
| `QueueOwners.OwnedUnlessUnclear` | src/cli/payment-queue.ts:813-867 | In every reachable state a dispatching entry has at most one owner among running dispatch, ask, awaiting outcome and interrupted, and exactly one if and only if no answer that is neither completed nor unpaid came for it in this process. |
| `QueueOwners.OthersUnowned` | src/cli/payment-queue.ts:813-867 | An entry that is not dispatching has none of the four owners, and got no such answer. |
| `QueueOwners.UnclearStays` | src/cli/payment-queue.ts:844-846 | After such an answer and until the process ends, the entry stays dispatching in memory and in its row, with no owner, and is not answered for again. |
| `QueueOwners.UnclearHappens` | src/cli/payment-queue.ts:844-846 | A run from an empty store that ends with a dispatching entry no owner has. |
| `QueueOwners.UnclearIsHistory` | src/cli/payment-queue.ts:813-867 | The set the model keeps of such entries is exactly those the operations of this process gave such an answer. |
| `QueueOwners.StepIsMove` | src/cli/payment-queue.ts:350-1090 | Every step of every run is a boot or an operation, carried out or stopped after some of its effects. |
| `PaymentQueue.NothingDropped` | src/cli/payment-queue.ts:350-419 | With storage, every row queued or dispatching is held in memory with that status, in every reachable state. |
| `PaymentQueue.RunInv` | src/cli/payment-queue.ts:350-1090 | Every reachable world satisfies the queue invariant against its rows, and every effect so far was allowed when it happened. |
| `PaymentQueue.PerformGood` | src/cli/payment-queue.ts:454-1090 | Each operation keeps the invariant, and each of its effects is allowed at the moment it happens. |
| `PaymentQueue.PassGood` | src/cli/payment-queue.ts:869-931 | One pass keeps the invariant and calls the payer only for queued entries never called by this process nor open. |
| `QueueOutcomes.PassGoesOn` | src/cli/payment-queue.ts:869-931 | A pass ends only with the queue stopped, every slot taken, nothing released left, or the least released entry refused by the wallet; every answer before that was a yes, and every call took one slot. |
| `QueueOutcomes.PassWrites` | src/cli/payment-queue.ts:869-931 | A pass fails only pending entries whose amount is malformed, dispatches and calls only pending ones whose amount is not, and leaves flags and asks as they are. |
| `QueueOutcomes.OpSettles` | src/cli/payment-queue.ts:454-1090 | Each operation that adds or releases an entry or frees a slot leaves no released entry waiting for a free slot, but for one the wallet refused. |
| `QueueOutcomes.RestoredWaitForStart` | src/cli/payment-queue.ts:709-724 | Before start, over every run, a process calls the payer only for entries it accepted itself. |
| `QueueOutcomes.StoppedSendsNothing` | src/cli/payment-queue.ts:767-769 | After a stop, until the process ends, the payer is not called. |
| `QueueOutcomes.OpSendsNothing` | src/cli/payment-queue.ts:709-735 | A stopped queue, a poke before start, a second start, and every operation without a pass call nobody. |
| `QueueOutcomes.OpFlags` | src/cli/payment-queue.ts:709-769 | The queue is started by a start before any stop, stopped by a stop, and nothing undoes either; restored entries are released by the first start alone. |
| `PaymentQueue.RestoreGood` | src/cli/payment-queue.ts:350-419 | A restart restores every queued and dispatching row, sends nothing, and fails the dispatching ones only when there is no resolver. |
| `PaymentQueue.StartGood` | src/cli/payment-queue.ts:709-724 | Starting asks about each interrupted entry once and releases the restored ones, keeping one owner each. |
| `PaymentQueue.ResettleGood` | src/cli/payment-queue.ts:747-754 | Asking again moves each waiting entry from one owner to one owner. |
| `PaymentQueue.EndDispatchGood` | src/cli/payment-queue.ts:1017-1090 | A dispatch's end, in each outcome, keeps the invariant. |
| `PaymentQueue.AnswerGood` | src/cli/payment-queue.ts:813-867 | A resolver's answer, each verdict and each policy, keeps the invariant; a stale one changes nothing but its own ask. |
| `QueueOutcomes.OpWaits` | src/cli/payment-queue.ts:709-867 | After every operation, an ask is out for an entry, or is to be made again, exactly for its reason: a timed-out dispatch, an interrupted row at start, an ask refused, each with what an unpaid answer then leads to. |
| `PaymentQueue.PruneGood` | src/cli/payment-queue.ts:644-670 | Pruning what the state and storage list, with no condition on it, keeps the invariant, and each deletion is allowed when it happens. |
| `PaymentQueue.RemovedInactive` | src/cli/payment-queue.ts:644-670 | Nothing that is pruned is active, in memory or in its row, whatever ids storage lists. |
| `QueueOutcomes.PruneExactly` | src/cli/payment-queue.ts:644-670 | A prune empties memory's history and deletes the rows of that history and of every inactive entry storage lists; every other row and all else stays. |
| `PaymentQueue.InsertKeepsOrder` | src/cli/payment-queue.ts:959-968 | Inserting an entry keeps the pending list sorted by priority and then sequence. |
| `PaymentQueue.TakesLeastReleased` | src/cli/payment-queue.ts:876-910 | The entry a pass takes has the least priority number of the released pending entries, and among equals was numbered first. |
| `QueueRetained.RetainsLastRetired` | src/cli/payment-queue.ts:975-989 | Over any stretch of a process's life without a prune, the history in memory is exactly the last maxRetainedHistory retirements, oldest first. |
| `QueueRetained.OpRetains` | src/cli/payment-queue.ts:813-989 | The same for each single operation, with the entries it records completed or failed. |
| `PaymentQueueCode.PendingIndex` | src/cli/payment-queue.ts:959-968 | The binary search finds the place before which all entries precede the new one and after which none does. |
| `PaymentQueueCode.DropOldest` | src/cli/payment-queue.ts:984-988 | The loop over the oldest keys leaves exactly the last maxRetainedHistory. |
| `PaymentQueueCode.FindReleased` | src/cli/payment-queue.ts:876-886 | The scan finds the first pending entry that is not held back until start. |
| `PaymentQueueCode.Payments.constructor` | src/cli/payment-queue.ts:350-419 | The restored object is the specified restore of the rows that a start reads, with its writes in order, however storage lists them. |
| `PaymentQueueCode.ReadRows` | src/cli/payment-queue.ts:355-413 | What a start reads: every active row and the most recently finished up to maxRetainedHistory, numbered by priority, creation and counter; those that come back finished are retired oldest first. |
| `PaymentQueueCode.ReadsMeans` | src/cli/payment-queue.ts:192-199 | The restored order goes by priority, then creation time, then counter; the history newest finished first, its retirement oldest first. |
| `PaymentQueueCode.SortBy` | src/cli/payment-queue.ts:366-371 | The sort is a permutation in which each entry precedes all that follow it. |
| `PaymentQueueCode.Payments.Prune` | src/cli/payment-queue.ts:644-670 | Empties memory's history and nothing else, removes exactly that, the unknown outcomes and the listed ids that are not active, deletes their rows, and counts them. |
| `PaymentQueueCode.Payments.ProcessQueue` | src/cli/payment-queue.ts:869-931 | The loop carries out exactly one pass: same state, same effects in the same order. |
| `PaymentQueueCode.Payments.Enqueue` | src/cli/payment-queue.ts:454-521 | A refused call changes nothing; an accepted one is the specified enqueue with its effects. |
| `PaymentQueueCode.Payments.Cancel` | src/cli/payment-queue.ts:527-545 | True if and only if the entry was active and queued; the new state and the row write are those specified. |
| `PaymentQueueCode.Payments.Start` | src/cli/payment-queue.ts:709-724 | Start as specified, with its effects. |
| `PaymentQueueCode.Payments.Resettle` | src/cli/payment-queue.ts:747-754 | Resettle as specified. |
| `PaymentQueueCode.Payments.Reconcile` | src/cli/payment-queue.ts:780-811 | One ask as specified, refused or not. |
| `PaymentQueueCode.Payments.EndDispatch` | src/cli/payment-queue.ts:1017-1090 | The tail of a dispatch as specified, with its effects; `QueueOutcomes` says which status each answer leads to. |
| `PaymentQueueCode.Payments.Answer` | src/cli/payment-queue.ts:813-867 | The handling of a resolver's answer as specified, with its effects. |
| `PaymentQueueCode.Payments.Retire` | src/cli/payment-queue.ts:975-989 | Retiring as specified: to the history, or to the unknown outcomes. |
| `QueueHistory.ReadAll` | src/cli/payment-queue.ts:591-621 | Paging by the last id, with any page size of at least one, yields every finished row exactly once, with finishing times that never rise. |
| `QueueHistory.ReadPages` | src/cli/payment-queue.ts:201-210 | The pages after each other's last id put together are the whole sorted listing. |
| `QueueHistory.StoredHistoryIds` | src/cli/payment-queue.ts:673-693 | The walk over storage ends even if storage ignores its cursor, and against storage that obeys its contract it finds every finished id. |
| `QueueHistory.SortListed` | src/cli/payment-queue.ts:192-199 | The sort lists every row once, each newer than all that follow. |
| `QueueHistory.NewerTotal` | src/cli/payment-queue.ts:192-199 | The newest-first order decides between any two rows with distinct ids. |
| `QueueHistory.NewerTrans` | src/cli/payment-queue.ts:192-199 | The newest-first order is transitive, so a store has one listing. |
| `Idempotency.NeverPaysTwice` | src/cli/daemon.ts:4106-4203 | Over every run with crashes, restarts and failing writes, no handler starts for a key while a payment that key sent is still live, nor while another handler of that key runs. |
| `Idempotency.RetryOfLivePayment` | src/cli/daemon.ts:1460-1475 | While a payment is live, a retry changes nothing: it is refused if and only if its body differs, waits if and only if it does not and the handler still runs, and else gets that payment's hash. |
| `IdempotencyAnswers.ReturnedIsReplayed` | src/cli/daemon.ts:4106-4203 | Over every run, once a handler returned and until a crash or a cleanup a day later, every request with its key is answered with that response, or refused if and only if its body differs; nothing changes and no handler of the key starts. |
| `IdempotencyAnswers.TimedOutIsReplayed` | src/cli/daemon.ts:1460-1475 | Once a payment timed out with its marker stored, and as long as the node does not read it as over, every request with the key is answered for that payment, paid if it is settled and on record, across crashes and restarts; no handler of the key starts. |
| `IdempotencyAnswers.RunStands` | src/cli/daemon.ts:4106-4203 | Over every run, each action moves each key between free, running, replying and marked, and starts a handler, exactly as that standing and the action say. |
| `IdempotencyAnswers.StepStands` | src/cli/daemon.ts:1376-1497 | The same for one step, with the answer to each request. |
| `Idempotency.StepKeepsSafe` | src/cli/daemon.ts:1376-1497 | Every step keeps: each live payment has its key's durable marker, and in memory a reservation or a cached marker. |
| `Idempotency.RunIsSafe` | src/cli/daemon.ts:1376-1497 | The same at every point of every run. |
| `Idempotency.Ledger.constructor` | src/cli/daemon.ts:1377-1403 | Booting caches every stored marker before the first request. |
| `Idempotency.Ledger.SaveTimeoutMarkers` | src/cli/daemon.ts:1413-1439 | The saved row is the in-flight markers overridden by the cached ones; a failed write leaves the row as it was and says so. |
| `Idempotency.Ledger.Request` | src/cli/daemon.ts:4106-4164 | A keyed request is answered, refused, made to wait or run as specified, and only a run reserves the key. |
| `Idempotency.Ledger.OnPaymentHash` | src/cli/daemon.ts:4145-4159 | The marker is stored before sending; the payment is refused if and only if it cannot be, and the marker is then taken back. |
| `Idempotency.Ledger.Settle` | src/cli/daemon.ts:4165-4200 | A handler's end releases its reservation and leaves a cached response, a timeout marker or nothing, as specified; `IdempotencyAnswers` says what each leads to. |
| `Idempotency.Ledger.CleanupTick` | src/cli/daemon.ts:1476-1495 | The tick drops expired entries but extends a marker whose payment is live. |
| `Webhooks.RunValid` | src/cli/webhooks.ts:365-599 | Every reachable manager keeps exact books, all four caps, exact lanes and an exact line, across registering, dispatching, ending, unregistering, stopping and clearing. |
| `Webhooks.BooksBalance` | src/cli/webhooks.ts:541-599 | In every reachable state, accepted equals delivered plus failed plus discarded plus queued plus running; the queued count and bytes are the sums over what is held; all four caps hold. |
| `WebhookOffers.OfferExactly` | src/cli/webhooks.ts:388-410 | An offer is accepted if and only if what the registration holds, ready, in lanes and running, and what all hold, leave room for it under both ceilings; it is then put in its hash's lane if an earlier one is ready or running, else at the end of the ready ones; else it is counted and nothing else changes. |
| `WebhookOffers.DispatchOffers` | src/cli/webhooks.ts:366-412 | Every dispatch of a run, unless stopped, is such an offer to each matching registration in turn, followed by the pump. |
| `WebhookOffers.RunTotals` | src/cli/webhooks.ts:393-564 | Over every run, accepted plus overflowed is the number of offers made; delivered and failed are the deliveries that ended so; discarded is the rest that neither waits nor runs. |
| `WebhookOffers.HeldIs` | src/cli/webhooks.ts:388-395 | The counter the ceiling is held against is the sum over all the registration's live destinations. |
| `WebhookOffers.StoppedForGood` | src/cli/webhooks.ts:431-449 | From a stop on, nothing waits and no delivery starts. |
| `WebhookOffers.UnregisterEmpties` | src/cli/webhooks.ts:334-348 | Unregistering leaves nothing waiting for the registration, its running deliveries as they were on a removed destination, and every other registration unchanged. |
| `Webhooks.HoldsStartInOrder` | src/cli/webhooks.ts:500-573 | When a hold delivery starts, none of its payment hash runs for that registration, and all others of the hash were accepted later and wait in order. |
| `WebhookRuns.HoldsInOrder` | src/cli/webhooks.ts:500-573 | Over every run, deliveries of one payment hash to one registration start in the order they were accepted, and each, unless its registration is removed, only after the one started before it ended, retries included. |
| `WebhookRuns.RunConserves` | src/cli/webhooks.ts:527-566 | In every reachable state the global cap is full or no live destination with a free worker has a ready delivery. |
| `WebhookRuns.StepConserves` | src/cli/webhooks.ts:365-599 | Every step keeps that, whichever it is. |
| `WebhookRuns.FairTurns` | src/cli/webhooks.ts:514-539 | Over every run, a destination at place p in line starts a delivery within the next p + 1 that start, unless it is removed. |
| `WebhookRuns.StepTurns` | src/cli/webhooks.ts:365-599 | A step that does not start a delivery of a waiting destination moves it up by at least as many places as it starts deliveries. |
| `WebhookRuns.StepFollows` | src/cli/webhooks.ts:365-599 | After a step, every waiting or running delivery waited or ran before it or was accepted since; runs end only by their own end; destinations keep their registration. |
| `WebhookRuns.OneAtATime` | src/cli/webhooks.ts:500-573 | No two deliveries of one payment hash run at once for one live registration. |
| `Webhooks.IdleHoldsNothing` | src/cli/webhooks.ts:558-564 | A destination with nothing ready and nothing running has no lanes and no bytes, so dropping it loses nothing. |
| `Webhooks.WorkConserving` | src/cli/webhooks.ts:527-539 | After a pump of any valid manager, the global cap is full or no live destination with a free worker has a ready delivery. |
| `Webhooks.TurnMovesUp` | src/cli/webhooks.ts:527-539 | A turn of the pump that does not start a waiting destination's delivery moves it up by one. |
| `Webhooks.OfferValid` | src/cli/webhooks.ts:365-414 | Offering an event to a registration keeps every invariant, accepted or refused for bytes. |
| `Webhooks.PumpValid` | src/cli/webhooks.ts:527-539 | The pump keeps every invariant and stops only at the cap or with an empty line. |
| `Webhooks.FinishValid` | src/cli/webhooks.ts:546-565 | A delivery's end, whatever its outcome, keeps every invariant. |
| `Webhooks.DiscardValid` | src/cli/webhooks.ts:579-599 | Discarding keeps every invariant; running deliveries keep their bytes. |
| `WebhooksCode.DeliverWithRetry` | src/cli/webhooks.ts:609-625 | At most two attempts, none once the registration is gone; delivered if and only if the last attempt succeeded, failed if and only if two did not. |
| `WebhooksCode.WebhookManager.Dispatch` | src/cli/webhooks.ts:365-414 | The loop over matching registrations offers to each and then pumps, as specified; `WebhookOffers` says what is accepted. |
| `WebhooksCode.WebhookManager.Enqueue` | src/cli/webhooks.ts:500-512 | Filing a delivery behind its payment hash, or as ready, as specified. |
| `WebhooksCode.WebhookManager.JoinLine` | src/cli/webhooks.ts:514-525 | Joining the line as specified, once and only with work and a free worker. |
| `WebhooksCode.WebhookManager.Pump` | src/cli/webhooks.ts:527-539 | The loop is the specified pump. |
| `WebhooksCode.WebhookManager.Complete` | src/cli/webhooks.ts:546-566 | The continuation of a delivery, followed by the pump, as specified. |
| `WebhooksCode.WebhookManager.Discard` | src/cli/webhooks.ts:579-599 | Discarding, delivery by delivery, leaves the specified state. |
| `WebhooksCode.WebhookManager.Unregister` | src/cli/webhooks.ts:334-348 | True if and only if registered; its destination is discarded as specified. |
| `CoreReservations.LocksAreJournalled` | src/direct-funding/bitcoin-core.ts:542-629 | At every point of every run, crashes, lost replies, throwing saves and outside changes included, a lock this adapter took, if it did not land late, is held by Core and is in the durable journal. |
| `CoreReservations.ForgottenExactly` | src/direct-funding/bitcoin-core.ts:559-582 | A lock of the adapter's is off the record after a step exactly if it landed late with no reservation left, or only memory had one at a crash, or it was so before and has not vanished. |
| `CoreReservations.LateLockForgotten` | src/direct-funding/bitcoin-core.ts:571-580 | A run without crash or outside change that ends with a lock of the adapter's that nothing records. |
| `CoreReservations.UnlockOnlyAcknowledged` | src/direct-funding/bitcoin-core.ts:595-629 | An unlock is sent only for a lock Core acknowledged and that was not asked for again since, and lifts only a lock the adapter's requests placed. |
| `CoreReservations.AckedMeansAcknowledged` | src/direct-funding/bitcoin-core.ts:559-570 | The record of acknowledged locks is exactly that history. |
| `CoreReservations.ForeignLocksStay` | src/direct-funding/bitcoin-core.ts:117-128 | No step of the adapter takes away a lock another placed, whenever it was placed. |
| `CoreReservations.QuarantineHolds` | src/direct-funding/bitcoin-core.ts:117-128 | An ambiguous acquisition is neither adopted nor unlocked: it stays acquiring, journalled and locked. |
| `CoreReservations.StepKeeps` | src/direct-funding/bitcoin-core.ts:542-629 | Every stretch between two awaits, and a crash between any, keeps the invariant. |
| `CoreReservations.RunIsSafe` | src/direct-funding/bitcoin-core.ts:542-629 | The invariant holds at every point of every run. |
| `CoreReservations.Adapter.constructor` | src/direct-funding/bitcoin-core.ts:144-185 | A new process takes the journal for its reservations and satisfies the invariant. |
| `CoreReservations.Adapter.Persist` | src/direct-funding/bitcoin-core.ts:213-230 | The journal becomes the reservations unless the save threw without writing. |
| `CoreReservations.Adapter.FreezeUtxo` | src/direct-funding/bitcoin-core.ts:542-593 | True only with the lock held and, unless it landed late, taken by the adapter with "owned" durable; true if and only if the listed outcomes occur; what Core locks and what memory reserves afterwards is given for every outcome; every await is a point of the run above. |
| `CoreReservations.Adapter.UnfreezeUtxo` | src/direct-funding/bitcoin-core.ts:595-629 | True only with no reservation left and no lock of the adapter's; true if and only if the listed outcomes occur; what Core locks and what memory reserves afterwards is given for every outcome. |
| `CoreReservations.Adapter.ListSpendable` | src/direct-funding/bitcoin-core.ts:392-399 | No coin the adapter locked or reserved is offered, however stale its list of locks; only reserved or locked coins are left out. |
| `Satoshis.ParseExact` | src/direct-funding/bitcoin-core.ts:78-98 | A text is accepted as n if and only if it is a notation of exactly n satoshis, within the supply and with a scale of at most 100. |
| `Satoshis.ParseRefuses` | src/direct-funding/bitcoin-core.ts:78-98 | Each refusal occurs if and only if its reason holds: not a notation, scale too large, not a whole satoshi, above the supply. |
| `Satoshis.SameAmount` | src/direct-funding/bitcoin-core.ts:78-98 | Two accepted notations give the same number if and only if they denote the same amount. |
| `Satoshis.MatchExact` | src/direct-funding/bitcoin-core.ts:81-82 | The scan accepts exactly the texts of the pattern and splits each in the one possible way. |
| `Satoshis.AmountScales` | src/direct-funding/bitcoin-core.ts:83-93 | The digits, scaled by the computed power, are the amount denoted, as real numbers. |
| `OnchainSweeps.SweepsDisjoint` | src/cli/onchain-sweep.ts:337-374 | In every run, two sweeps at prepared or later share no input that a freeze call of each found free. |
| `OnchainSweeps.HoldsExactly` | src/cli/onchain-sweep.ts:362-374 | At every point of every run, a sweep not cancelled holds a coin if and only if a freeze call of its own found it free. |
| `OnchainSweeps.WalkHolds` | src/cli/onchain-sweep.ts:362-374 | A reservation that goes through leaves the sweep holding every input if and only if each of its checks found the coin it was about still frozen. |
| `OnchainSweeps.CheckedSweepsDisjoint` | src/cli/onchain-sweep.ts:337-374 | In every run, two sweeps at prepared or later share no input, if every check of a reservation of each found its coin still frozen. |
| `OnchainSweeps.WindowOpens` | src/cli/onchain-sweep.ts:362-374 | A check finds its coin free only because another holder of the coin let it go between that freeze call and the check. |
| `OnchainSweeps.UnheldCanBeShared` | src/cli/onchain-sweep.ts:337-374 | From any state in which a sweep at prepared or later lacks an input that is free, steps lead to a second one at prepared with the same input. |
| `OnchainSweeps.UndisturbedAcquires` | src/cli/onchain-sweep.ts:362-374 | In a run in which no holder lets a coin go between such a call and its check, every sweep at prepared or later has acquired every input. |
| `OnchainSweeps.BroadcastsDisjoint` | src/cli/onchain-sweep.ts:494-524 | In every run, no two sweeps broadcast spends of a coin that a freeze call of each found free. |
| `OnchainSweeps.UndisturbedBroadcasts` | src/cli/onchain-sweep.ts:494-524 | In such a run no two sweeps broadcast transactions that spend the same coin. |
| `OnchainSweeps.DisturbedSweepsShare` | src/cli/onchain-sweep.ts:362-374 | A run, not undisturbed, in which two sweeps broadcast a spend of the same coin. |
| `OnchainSweeps.CheckHolds` | src/cli/onchain-sweep.ts:362-374 | After a check that passes, the sweep holds the coin just asked for if and only if the coin is frozen at the check. |
| `OnchainSweeps.HistoryOneWay` | src/cli/onchain-sweep.ts:422-541 | Between any two points of any run a sweep keeps its request; its bytes never change once stored; submitted never becomes cancelled; cancelled never comes back. |
| `OnchainSweeps.ChargedOnce` | src/cli/onchain-sweep.ts:506-514 | At every point of every run, the debits recorded for a sweep sum to its reviewed debit if it is submitted or confirmed, and to nothing otherwise. |
| `OnchainSweeps.BroadcastAsReviewed` | src/cli/onchain-sweep.ts:387-420 | Every broadcast spends exactly the reviewed coins, worth the debit charged, to the one reviewed address, and the fee, coins minus output, is between zero and the cap. |
| `OnchainSweeps.JournalReadable` | src/cli/onchain-sweep.ts:144-183 | The journal any run leaves is one its reader accepts: few enough records, each request its own normal form, and the bytes of each prepared one as reviewed. |
| `OnchainSweeps.CancelledHoldsNone` | src/cli/onchain-sweep.ts:526-541 | A cancelled sweep leaves no coin frozen behind it. |
| `OnchainSweeps.StepSound` | src/cli/onchain-sweep.ts:422-541 | Every step, whatever the other holders do, keeps the journal verified, the books exact and each record's history one way. |
| `OnchainSweeps.StepHeld` | src/cli/onchain-sweep.ts:337-385 | Every undisturbed step keeps each prepared, submitted or confirmed sweep's inputs frozen under its own tag. |
| `OnchainSweeps.UserHeld` | src/cli/onchain-sweep.ts:232-246 | A user's freeze or unfreeze, guarded by the journal, takes no coin from a sweep. |
| `OnchainSweeps.AdmitSound` | src/cli/beignet-node.ts:7806-7829 | Recording the debit and marking the sweep submitted in one transaction keeps the books and the journal in agreement. |
| `OnchainSweeps.ReleaseHeld` | src/wallet/coin-control.ts:253-271 | Releasing a cancelling sweep's coins takes nothing from a live sweep. |
| `OnchainSweeps.FreezeHeld` | src/wallet/coin-control.ts:104-164 | Freezing only what is unfrozen takes nothing from a live sweep. |
| `OnchainSweeps.Normalize` | src/cli/onchain-sweep.ts:71-126 | A request is accepted if and only if its bounds hold and its inputs are some, not too many and distinct; what is kept is the request with its inputs permuted into order. |
| `OnchainSweeps.NormalizeOrderFree` | src/cli/onchain-sweep.ts:96-116 | The order in which inputs are listed does not matter: a retry is the same request. |
| `OnchainSweeps.NormalFixed` | src/cli/onchain-sweep.ts:96-116 | A request in normal form is its own normal form. |
| `OnchainSweepsCode.Sweeps.Prepare` | src/cli/onchain-sweep.ts:422-492 | Every call walks the steps of the model; invalid and conflicting requests are told apart exactly; it answers with a status if and only if the record on file is past preparing, or the wallet signs, the inputs are ready and worth the debit, there is room and the save lands, the reservation passes, and the signed transaction is as reviewed and saved. |
| `OnchainSweepsCode.Sweeps.Build` | src/cli/onchain-sweep.ts:459-491 | The signed transaction is saved as prepared if and only if it is there, the inputs are still ready, it matches the review and the save lands; a refusal changes no record. |
| `OnchainSweepsCode.Sweeps.Reserve` | src/cli/onchain-sweep.ts:362-374 | The freeze-and-check loop walks the steps of the model, changes no record, and passes if and only if each coin could be frozen, or was, and after each all inputs were in the wallet and frozen by nobody else. |
| `OnchainSweepsCode.Sweeps.ResolveInputs` | src/cli/onchain-sweep.ts:337-360 | True if and only if every input is in the wallet and frozen by nobody else. |
| `OnchainSweepsCode.Sweeps.Submit` | src/cli/onchain-sweep.ts:494-524 | Not found, not ready, confirmed and over the limit are told apart exactly; submitted is answered if and only if the reservation passes, the spend is allowed and recorded, and the saves land, and means the stored bytes were sent; a debit is recorded if and only if the charge goes through. |
| `OnchainSweepsCode.Sweeps.ChargeOnce` | src/cli/onchain-sweep.ts:507-510 | Charged if and only if the spend is allowed and the save lands; a charge adds exactly one debit and marks the sweep submitted; a refused one changes neither. |
| `OnchainSweepsCode.Sweeps.SubmitPrepared` | src/cli/onchain-sweep.ts:505-523 | A prepared sweep is refused over the limit if and only if its reservation passes and the spend is not allowed, and submitted if and only if it passes, the charge goes through and the last save lands. |
| `OnchainSweepsCode.Sweeps.SendStored` | src/cli/onchain-sweep.ts:515-523 | The stored bytes are sent, exactly once more, and the acceptance is on file if and only if the save lands. |
| `OnchainSweepsCode.Sweeps.Cancel` | src/cli/onchain-sweep.ts:526-541 | Refused as already submitted if and only if it is; answered cancelled if and only if it is not, both saves land and each coin still frozen for it is let go; then no coin is frozen for it. |
| `ShardPlan.Plan` | scripts/shard-tests.js:101-117 | Every file outside the regtest job is placed as often as it is listed, the others never; each shard's seconds are its files' recorded seconds, or ten, and two each; the shards differ by at most the heaviest weight; and no assignment to the same m shards has a fullest shard below 3m/(4m-1) of this plan's. |
| `ShardPlan.GreedyWithinFourThirds` | scripts/shard-tests.js:108-115 | Heaviest-first, least-loaded placement is within 4/3 - 1/(3m) of every assignment. |
| `ShardPlan.GreedyWithinTwo` | scripts/shard-tests.js:108-115 | Least-loaded placement in any order is within 2 - 1/m of every assignment. |
| `ShardPlan.SpreadWithinHeaviest` | scripts/shard-tests.js:108-115 | At every step, any two shards differ by at most the heaviest weight. |
| `ShardPlan.PlanDeterministic` | scripts/shard-tests.js:19-22 | The plan depends only on the file set and the duration map, not on the order of collection. |
| `ShardPlan.OrderUnique` | scripts/shard-tests.js:104-106 | The sort has one result: ties break on path. |
| `ShardPlan.LeastLoaded` | scripts/shard-tests.js:109-112 | The scan finds the first shard of least load. |
| `ShardPlan.Fill` | scripts/shard-tests.js:107-115 | The placement loop places each file once, each on a first least-loaded shard. |
| `ShardPlan.Verify` | scripts/shard-tests.js:119-155 | No problem is reported if and only if each suite file lands in exactly one place and each regtest file is in the suite. |
| `ShardPlan.CountPlacements` | scripts/shard-tests.js:120-129 | The tally counts each file's placements; a stranger is reported if and only if a file outside the suite is placed. |
| `RateLimiter.RunsAgree` | src/cli/http-rate-limiter.ts:110-160 | With a monotone clock, and any number of clients of which at most maxClients ask within one window, the limiter with pruning and dropping answers every run like a map that never drops a bucket. |
| `RateLimiter.LimiterAgrees` | src/cli/http-rate-limiter.ts:110-160 | The same for a limiter from its start. |
| `RateLimiter.FewAreSpread` | src/cli/http-rate-limiter.ts:117-122 | A run with at most maxClients clients in all is such a run. |
| `RateLimiter.CrowdedDiffers` | src/cli/http-rate-limiter.ts:117-122 | A run with one client more than that, in which the limiter admits a request the other refuses. |
| `RateLimiter.DroppedIsStale` | src/cli/http-rate-limiter.ts:117-122 | In such a run, a bucket dropped at the cap belongs to a client idle for a window. |
| `RateLimiter.AdmitsWithinRate` | src/cli/http-rate-limiter.ts:110-141 | In any such run, over any stretch that lasts t, a client is admitted at most maxRequests * (1 + t / windowMs) times. |
| `RateLimiter.IdleClientAdmitted` | src/cli/http-rate-limiter.ts:110-141 | In every run, with any number of other clients, a client that has not asked for a window has its next requests admitted, as many as the whole number of maxRequests. |
| `RateLimiter.BurstAdmitted` | src/cli/http-rate-limiter.ts:110-141 | From any reachable limiter, a client's requests are admitted as long as it has asked no more often than it has whole tokens. |
| `RateLimiter.AllowedIff` | src/cli/http-rate-limiter.ts:110-141 | A request is admitted if and only if the lesser of maxRequests and what was left plus elapsed / windowMs * maxRequests is at least one, and then costs one; no other client's bucket changes. |
| `RateLimiter.StepLeaves` | src/cli/http-rate-limiter.ts:110-160 | No event takes more than one token from a client, and none unless that client asks. |
| `RateLimiter.StaleIsFresh` | src/cli/http-rate-limiter.ts:143-149 | A bucket idle for a window refills to the fresh bucket its key would get. |
| `RateLimiter.IsAllowedKeeps` | src/cli/http-rate-limiter.ts:110-141 | Asking keeps the client cap, the recency order and the token bounds. |
| `RateLimiter.PruneKeeps` | src/cli/http-rate-limiter.ts:150-160 | Pruning keeps them too. |
| `RateLimiter.DropsLeastRecent` | src/cli/http-rate-limiter.ts:117-122 | At the cap, exactly one bucket is dropped, one no other has been idle longer than. |
| `RateLimiter.ReferenceSpends` | src/cli/http-rate-limiter.ts:127-138 | What a key is granted is at most its level plus what the time earns. |
| `RateLimiter.HttpRateLimiter.Allow` | src/cli/http-rate-limiter.ts:110-141 | The method is the specified step, admits if and only if a whole token is there to spend, and keeps the invariant. |
| `RateLimiter.HttpRateLimiter.PruneIdle` | src/cli/http-rate-limiter.ts:150-160 | The loop removes exactly the buckets last refilled a window ago or longer, and counts them. |
| `RateLimiter.ClientKeyForRequest` | src/cli/http-rate-limiter.ts:51-73 | The key is the rightmost untrusted hop behind a trusted peer, else the peer; a trusted key means every hop was trusted. |
| `RateLimiter.LeftHopsIgnored` | src/cli/http-rate-limiter.ts:44-50 | Whatever stands left of that hop has no say in the key. |
| `AuditGate.Remaining` | scripts/audit-gate.js:88-115 | A package is left if and only if a chain of dependencies inside the report leads from it to an advisory with no live exception, or to a name only inherited; its record is unchanged. The loop ends because the covered set shrinks. |
| `AuditGate.RemainingTwice` | scripts/audit-gate.js:94-109 | The order of the report's keys does not change the result. |
| `AuditGate.DocumentedExactly` | scripts/audit-gate.js:81-87 | The documented rule, advisories only, holds of every package if and only if each record that names an inherited-only dependency reaches an advisory anyway. |
| `AuditGate.DanglingStays` | scripts/audit-gate.js:99-101 | A report that is kept although nothing in it reaches an advisory. |
| `AuditGate.Pass` | scripts/audit-gate.js:97-108 | A pass removes only packages that are uncovered; one that removes none has reached a stable set. |
| `AuditGate.StableCovers` | scripts/audit-gate.js:81-87 | No chain leads from a stable set to anything uncovered, so a set that passes once has no uncovered member. |
| `ReceiveSteering.SteerReceive` | src/cli/receive-steering.ts:207-301 | The result is the fate of the first candidate not passed over: its win with the skips before it, its fault with the skips before it, or none available with the whole list; each skip has the reason its candidate's calls give, a budget skip only from where the time left was below the floor; the clock ends where those calls put it, within the budget if each keeps its cap. |
| `ReceiveSteering.TryOne` | src/cli/receive-steering.ts:255-298 | One candidate is won, passed over with its own reason, thrown for, or out of budget, each if and only if its connection, dial and attempt say so at that time; the clock moves by exactly the calls made. |
| `ReceiveSteering.OutOfBudget` | src/cli/receive-steering.ts:241-253 | All remaining candidates are recorded once, in order, as not tried. |
| `ReceiveSteering.WithinBudget` | src/cli/receive-steering.ts:207-301 | If every call keeps within its cap, the walk ends within the budget. |
| `ReceiveSteering.Reaches` | src/cli/receive-steering.ts:207-301 | A candidate for which the shares of those before leave the floor is reached, unless one before it took the receive or faulted; the budget can stop the walk there only after its dial. |
| `ReceiveSteering.OneFate` | src/cli/receive-steering.ts:255-298 | Each candidate the walk comes to is passed over, wins, faults or runs out, exactly one of them. |
| `ReceiveSteering.StopUnique` | src/cli/receive-steering.ts:207-301 | The walk ends at the one place before which every candidate is passed over and at which none is. |

## Left out

- Text formats: JSON, hex, addresses, request id and txid patterns, log and error messages. Identifiers are opaque values, compared only.
- Floating point: time, tokens and priorities are real numbers, durations in the shard plan are natural numbers.
- Signing, PSBTs, scripts, hashing and RPC bodies: a transaction is its inputs and outputs and stands for its own bytes and id.
- Payment queue storage writes are taken to land, so entries kept only in memory after a failed save are not modelled; ids are taken to be new; the payer is taken not to throw before its promise; listeners do not call back.
- The queue's `list()` view and its events: they only read or report.
- Idempotency: the key and body digests are opaque; an unreadable stored row, which fails the boot, is not modelled.
- Webhook registration rows, signatures and HTTP requests: a delivery's success is an input.
- Other lock managers place locks only on coins the adapter has not reserved, as its documentation demands; a lock may vanish at any time. A late unlock is not modelled.
- The adapter's refresh, coin lookup and signing: they only read.
- Journal rows a Bitcoin Core adapter refuses to load, and the sweep journal of a restored database (`carryTo`).
- Sweep saves land or throw without landing; the daily reset of the spend counter and its limits are inputs.
- `Satoshis.ParseExact`: the exponent is read as an exact integer, where the source reads it as a double; the two differ only beyond 2^53, far outside the accepted scale.
- Rate limiter options outside a positive window and a non-negative request count.
- `RateLimiter.RunsAgree`: one way only. A window with more clients than maxClients need not show: a client pushed out may not come back, or its bucket may have refilled.
- `PaymentQueueCode.Payments.constructor`: rows whose metadata does not parse, which stay in storage unread, are not modelled.
- Allowlist validation, severities and the exit code of the audit gate.
- Choosing and ranking primaries, and the address forms a dial is made from.
