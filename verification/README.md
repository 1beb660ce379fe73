# Order service verification

A Dafny model of the order service and proofs of what it promises. The service takes an order,
charges a payment provider, reserves stock, and recovers orders that were interrupted. Any number of
requests and recovery workers, in any number of processes, act on the same rows; the only
synchronisation between them is a primary-key insert and an `UPDATE` conditional on the status
column. The central question is the one the service's own documents ask: can an order be charged
and still show as failed?

## How it is built

| files | what they hold |
|---|---|
| `Common.dfy`, `Domain.dfy`, `Payment.dfy`, `Orders.dfy` | error sets and text order; the `Order` aggregate; the payment port and its HTTP adapter; the orders table and its statements |
| `Protocol.dfy` | the concurrent system as a state machine: one move for each externally visible action |
| `ProtocolInvariant.dfy`, `ProtocolSteps.dfy`, `ProtocolRuns.dfy` | an invariant per order and per worker, kept by every move and so by every run |
| `Guarantees.dfy`, `Replies.dfy`, `Settlement.dfy` | the promises, each over all runs; what each reply of the outside leads to; what a worker that nobody disturbs achieves |
| `World.dfy`, `CreateOrder.dfy`, `Http.dfy`, `Reconciler.dfy` | the code itself, in its own imperative form; every port call is one move of the protocol, preceded by any number of moves of the others |
| `Sweep.dfy` | the recovery cursor over a set that changes under it |
| `Migrations.dfy`, `MigrationRuns.dfy` | what one start of the migrations does to a database; any number of lock-serialised processes starting, working and stopping |
| `FailingCases.dfy` | for each promise that holds only under a condition, a case in which it fails |

The state machine and the code meet in `Worlds.World`: its `Valid()` says that the state is the one
reached by the recorded trace, and each method of `Interactor` and `Reconciler` ends at exactly the
program counter that the state machine computes for it. A branch of the code that wrote another
status, returned another error or skipped an action would not verify. Hence every guarantee over all
runs is a guarantee about this rendering of the code.

An error is the set of sentinels it wraps (`errors.Is` is membership, `%w` is union); every error
that comes from a port is the one sentinel `Port`.

### What is assumed of the outside

* A provider decision for an idempotency key is final. Charge and lookup replies never contradict it;
  a reply that is not ambiguous (`Payment.ChargeTruthful`, `Payment.LookupTruthful`) means that the
  key is not and never will be charged. A request may be decided long after its caller gave up, or be
  lost. The HTTP adapter is proved to turn truthful wire answers into such replies, including that
  an approved charge reply carries a reference. What a wire answer may be trusted with is listed by
  status code in `Payment.SentBeforeCharging`; a lookup is trusted only inside 2xx.
* The inventory is idempotent per key, and a request may take effect after its caller gave up.
* A database statement executes atomically or not at all, and either way may be reported as an error;
  it may even be executed long after its caller was told of one. The driver does not run a
  statement twice. A session's advisory lock is released only once its transaction is decided.
* A worker may stop at any point. Nothing is assumed about clocks, ages or the fairness of scheduling.
* Order IDs are arbitrary non-empty strings; two requests may well draw the same one.

### What was found to hold only under a condition

* Recovery of an approved order completes it if and only if the provider's record carries a
  reference (`Settlement.RecoveryFromAnywhere`); without one the row stays pending or
  payment-unknown in every continuation (`Settlement.ApprovalWithoutReferenceNeverSettles`), and this
  is reachable (`FailingCases.RecoveryMayNotComplete`).
* Once all workers of an order are done, a committed transition is in the event log if and only if its
  write was reported as successful (`Guarantees.EventLogIsCompleteAtQuiescence`,
  `FailingCases.EventMayBeMissing`).
* The charged amount is the order's total if and only if that fits in 64 bits
  (`Domain.TotalExactIffInRange`, `FailingCases.TotalMayWrap`).
* Upgrading from one migration list to another applies the scripts in list order if and only if the
  new list extends the old one at its sorted end (`Migrations.UpgradeInOrderIffExtendedAtEnd`,
  `FailingCases.UpgradeMayReorder`).
* A backlog is drained by exactly `CallsNeeded` calls of `RunOnce`, which may be one more than its
  size suggests because the cursor can stand in the middle (`Sweep.DrainedExactlyAfterCallsNeeded`,
  `FailingCases.DrainMayNeedOneMore`).
* A resumed start of the migrations ends well if and only if the list runs cleanly on an empty
  database (`MigrationRuns.ResumingReachesCleanRun`).

## Model

| member | source | states |
|---|---|---|
| Guarantees.ChargedIsNeverShownFailed | internal/usecase/create_order.go:117-178 | in every run, a failed row means that its charge is not approved, cannot be approved by a request still in flight, and never will be; every approved charge has a durable row that is not failed, now and later |
| Guarantees.HistoryIsOneAggregate | internal/domain/order.go:104-174 | the committed states of a row are one legal life of a single aggregate, from `NewOrder` through guarded marks, each following from the one before, and the row is the last of them |
| Guarantees.ReplayOnAggregate | internal/domain/order.go:104-188 | any such history, driven through one real `Order`, meets no error, gives back exactly those states, and yields from the buffer exactly one event per state, named after it |
| Guarantees.StatusComparisonComparesRow | internal/repository/postgres/order_repo.go:45-58 | a conditional write that takes effect found the whole row its worker had read, although only the status is compared, and left exactly the successor computed from it |
| Guarantees.ReferenceIsPermanent | internal/repository/postgres/order_repo.go:46-49 | a stored payment reference is never erased or changed, and is the one the provider approved |
| Guarantees.MovesActThroughStatements | internal/repository/postgres/order_repo.go:28-58 | in every reachable state a move leaves the table alone or does to it exactly what one `INSERT` or one conditional `UPDATE` of the repository does, also when the statement is executed after its caller was told of an error |
| Guarantees.ChargeAtMostOnce | internal/usecase/create_order.go:100-114 | at most one charge per idempotency key over a whole run, sent by the request whose insert succeeded, for the total of the stored items, even if order IDs collide |
| Guarantees.ChargeFollowsDurableRow | internal/usecase/create_order.go:100-114 | whenever a charge is sent the pending row is already durable, written and acknowledged to the same foreground request, and no charge was sent before |
| Guarantees.NoUnresolvedOutcomeLeaks | internal/httpapi/handler.go:66-84 | if the charge a call sent is ever approved, its response is 201 or 202; any other response means refused for good |
| Guarantees.DefiniteResponsesAreFinal | internal/httpapi/handler.go:66-84 | 201 means completed, charged and reserved for good; 402 means failed for good with a refused charge |
| Guarantees.FulfilmentFollowsPayment | internal/usecase/create_order.go:153-207 | every reservation call found its row paid, fulfillment-pending or completed and carried the order's key and items; every completed row has its reservation and an approved charge with the stored, non-empty reference |
| Guarantees.ResultsAreTruthful | internal/usecase/create_order.go:132-207 | every order `Execute` returns is a state its row really held and not later than the row; no error means the row is terminal and is what was returned |
| Guarantees.ReloadReturnsLaterState | internal/usecase/create_order.go:212-226 | a reload after a lost write returns a strictly later state of the same order, answered with 202 |
| Guarantees.AtMostFourWrites | internal/domain/order.go:104-174 | over any run a row is changed at most four times after its insert |
| Guarantees.TerminalIsAbsorbing | internal/domain/order.go:117-174 | a completed or failed row never changes again, in no continuation of a run |
| Guarantees.LostWriteMeansOthersProgress | internal/usecase/create_order.go:212-226 | a conditional write without effect coincides with a commit of strictly higher rank by another worker |
| Guarantees.EveryCallEnds | internal/usecase/create_order.go:76-226 | each worker ends after at most twelve actions of its own, whatever the others do |
| Guarantees.EventsNeverLieOrRepeat | internal/usecase/create_order.go:242-263 | each event name is announced at most once per order, across all workers, and only for a committed state |
| Guarantees.EventLogIsCompleteAtQuiescence | internal/usecase/create_order.go:212-226 | when all workers of an order are done, a committed state of it is announced if and only if its write was acknowledged, and then once |
| Settlement.RecoveryFromAnywhere | internal/usecase/reconciler.go:119-202 | from every reachable state one undisturbed reconciliation of an approved order, which is a run and sends no charge, ends completed with the provider's reference and a reservation if and only if there is a reference |
| Settlement.ApprovalWithoutReferenceNeverSettles | internal/usecase/reconciler.go:134-138 | an approval without a reference leaves the row pending or payment-unknown in every continuation of every run |
| FailingCases.RecoveryMayNotComplete | internal/usecase/reconciler.go:134-138 | a legal run reaches an approval without a reference, and one undisturbed reconciliation leaves that order pending |
| FailingCases.EventMayBeMissing | internal/usecase/create_order.go:103-106 | a legal run ends with all workers done, the order stored, and its creation not in the log |
| Settlement.ReconciliationSettles | internal/usecase/reconciler.go:119-202 | what one undisturbed reconciliation makes of any row under any provider decision, whether or not the lookup and the inventory work, and exactly when it reports an error; it touches neither the charge nor the decision |
| ProtocolRuns.MoveKeepsInv | internal/usecase/create_order.go:76-226 | no move of any request, recovery worker, provider, network or inventory breaks the invariant |
| ProtocolRuns.ReachableInv | internal/usecase/reconciler.go:119-202 | every state reachable by any interleaving satisfies the invariant |
| ProtocolRuns.RunEvolves | internal/usecase/create_order.go:212-226 | commits, decisions, charges, reservations and announced events are never taken back |
| ProtocolSteps.ActionKept | internal/usecase/create_order.go:100-226 | each single action of a worker keeps its order's and its own invariant, and changes only what its peers can tolerate |
| Settlement.UndisturbedRequest | internal/usecase/create_order.go:100-208 | from every reachable state an undisturbed request under an unused ID is a run with one charge and ends: approved and reserved, `completed` with the reference, 201; approved and not reserved, `fulfillment_pending`, 202; declined, `failed`, 402; definitely rejected, `failed`, 502; anything else, `payment_unknown`, 202; each with its row, result and errors |
| Replies.ChargeReplyIsWritten | internal/usecase/create_order.go:117-178 | in every run an approval is about to be written as paid with its reference, a decline or definite rejection as failed, anything else as unknown |
| Replies.ReservationReplyIsWritten | internal/usecase/reconciler.go:168-202 | in every run a reservation leads to completed, a failed one of a paid order to fulfillment-pending, by a request as by a recovery; a recovery of an order already pending fulfilment ends with an error |
| Replies.LookupReplyIsWritten | internal/usecase/reconciler.go:124-151 | in every run a failed lookup, an unknown status and an approval without a reference are reported, a missing record is not, and the provider's answer is written over the row that was read |
| Replies.FailedWriteIsAnswered | internal/usecase/create_order.go:132-207 | how a write that is reported as an error ends a request: the order as it was, and 502 after a rejection, 500 after a decline, 202 otherwise |
| Replies.LostWriteIsAnswered | internal/usecase/create_order.go:212-226 | a write that found another status makes a request reload and ends a recovery, with an error only if it was to record a failed reservation |
| Replies.ReloadIsAnswered | internal/usecase/create_order.go:217-223 | after a lost write the answer is 202, with the row that is there or, if it could not be read, with the order as it was |
| Replies.FailedInsertIsAnswered | internal/usecase/create_order.go:100-106 | an insert that failed or met a taken ID is answered with 500 and leaves a row that was there alone |
| CreateOrder.Interactor.Execute | internal/usecase/create_order.go:76-208 | which requests are refused before the insert, and with which error; any other enters the protocol with exactly the requested customer and items, and its result and error are the ones the protocol records for this worker, in every interleaving; undisturbed, it ends as `UndisturbedRequest` says |
| CreateOrder.Interactor.ChargeAndFulfil | internal/usecase/create_order.go:108-207 | from the durable pending row on, the returned order and error are the protocol's; the error returns after a refused mark are unreachable |
| CreateOrder.Interactor.SettleChargeError | internal/usecase/create_order.go:118-139 | an ambiguous charge error leads to unknown, a definitive one to failed, with the errors the protocol records, also when the save fails or loses |
| CreateOrder.Interactor.SettleApproval | internal/usecase/create_order.go:153-164 | an approval is written as paid before fulfilment starts; a failed or lost write is reported as uncertain |
| CreateOrder.Interactor.Fulfil | internal/usecase/create_order.go:180-207 | a reservation under the order's key, then completed or fulfillment-pending |
| CreateOrder.Interactor.SaveTransition | internal/usecase/create_order.go:212-226 | the next state is returned and its one event announced if the write took effect and said so, the previous one if it was reported as an error, the durable row if it lost |
| CreateOrder.EmitDomainEvents | internal/usecase/create_order.go:246-263 | the buffer is drained and its one event announced once |
| CreateOrder.CloneOrder | internal/usecase/create_order.go:265-269 | a copy with the same data and buffer that shares nothing with the original |
| Worlds.World.SaveIfStatus | internal/usecase/ports.go:27-40 | after any interference the repository's conditional update is what happens to the table, and the worker continues as the protocol says for success, conflict and error |
| Worlds.StatementOnTable | internal/repository/postgres/order_repo.go:28-58 | in every reachable state a worker's write does to the table what the repository's statement does, and its status condition holds in the table exactly if it holds for the worker's own row |
| Worlds.World.Charge | internal/usecase/ports.go:42-59 | only for the worker's own order, customer and total; the worker continues as the protocol says for whatever answer, with any interference before the request and between it and the answer |
| Http.Handler.Serve | internal/httpapi/handler.go:40-85 | 400 if and only if the request was malformed or invalid; a request that reached its insert is for the decoded order, field by field, is answered with the code of the protocol's result and, undisturbed, with the one that belongs to the provider's and the inventory's answers; a response other than 201 and 202 means the charge it sent is refused in every continuation of the run |
| Http.ItemsAreDecoded | internal/httpapi/handler.go:53-60 | as many items as lines, each with its line's product, quantity and price |
| Http.Handler.Respond | internal/httpapi/handler.go:66-93 | the code of each outcome, sentinel by sentinel, and that it is the one the guarantees speak about |
| Payment.AmbiguousIffNotSentBeforeCharging | internal/paymentclient/client.go:33-45 | outside 2xx the client's table is the exact complement of the codes a provider sends before anything can be charged |
| Payment.LookupRefusesOnlyOnDecline | internal/paymentclient/client.go:111-140 | a lookup is read as a refusal if and only if it is a 2xx decline, and as a missing record if and only if it is a 404; no status outside 2xx says anything about the charge |
| Payment.AnswersReachTheCaller | internal/paymentclient/client.go:77-158 | an approval is handed over, with its reference, if and only if the answer is a 2xx approval with one, and a decline if and only if it is a 2xx decline, by a charge as by a lookup; every other answer is an error with its status, or a missing record for a lookup's 404 |
| Payment.AdapterMeetsContract | internal/paymentclient/client.go:77-158 | on every truthful wire answer the adapter meets the port contract, passes on only the two known statuses, and never an approval without a reference |
| Payment.AmbiguousIffApprovalIsPossible | internal/paymentclient/client.go:33-45 | a charge error is classified as ambiguous if and only if the answer is compatible with an approved charge |
| Payment.ApprovalIsNeverReadAsRefusal | internal/usecase/ports.go:67-81 | when the charge is approved, no answer to a charge or a lookup is read as a refusal |
| Orders.RowRoundTrip | internal/repository/postgres/order_repo.go:128-155 | what is stored, including a null reference, is what is read |
| Orders.PageIsNextCandidates | internal/repository/postgres/order_repo.go:60-85 | a page is increasing, within the limit, drawn from the candidates beyond the cursor, and skips none |
| Orders.RecoverableIffNotTerminal | internal/repository/postgres/order_repo.go:66-66 | the statuses the queries list are exactly all but completed and failed |
| Orders.EligibleIffUnfinishedAndOld | internal/repository/postgres/order_repo.go:62-85 | a scan may return exactly the rows that are not terminal and old enough |
| Guarantees.UnfinishedOrdersAreEligible | internal/repository/postgres/order_repo.go:62-85 | in every reachable state an order is up for recovery if and only if it is stored, old enough and neither completed nor failed |
| Orders.PagingAgreesWithCounting | internal/repository/postgres/order_repo.go:62-85 | on an unchanged table paging from the empty cursor gives each row that is neither completed nor failed exactly once in increasing order, as many as `CountPending` counts |
| Orders.OrderRepository.ListRecoverableIDs | internal/repository/postgres/order_repo.go:62-85 | the ordered scan returns exactly the page of eligible IDs after the cursor, or an error and no ID |
| Orders.OrderRepository.CountPending | internal/repository/postgres/order_repo.go:138-148 | the number of rows that are not terminal, or an error |
| Orders.OrderRepository.Save | internal/repository/postgres/order_repo.go:28-41 | inserts a new row; a taken key is an error that leaves the table as it was, and a failed statement one that may or may not have taken effect |
| Orders.OrderRepository.SaveIfStatus | internal/repository/postgres/order_repo.go:45-58 | writes status and reference of the one row whose status matches, and says whether it did; a failed statement is an error that may or may not have taken effect |
| Orders.OrderRepository.FindByID | internal/repository/postgres/order_repo.go:105-136 | a new object with the stored columns and an empty event buffer, or an error if there is no row or the reading fails |
| Sweep.FairSweep | internal/usecase/reconciler.go:78-104 | between two cursor resets every order that stays eligible is visited exactly once and no order twice, for any batch size and whatever the others do |
| Sweep.DrainedExactlyAfterCallsNeeded | internal/usecase/reconciler.go:78-104 | a fixed backlog is empty after a number of calls if and only if that is at least `CallsNeeded` |
| FailingCases.DrainMayNeedOneMore | internal/usecase/reconciler.go:78-104 | a backlog of one full batch that is not drained by ceil(n / batch) calls: the bound is tight |
| Sweep.BacklogDrainBound | internal/usecase/reconciler.go:78-104 | ceil(n / batch) + 1 calls drain n orders from any cursor position |
| Sweep.CeilDivRoundsUp | internal/usecase/reconciler.go:19-21 | the number of batches used in the bound is the quotient rounded up |
| Reconciling.Reconciler.constructor | internal/usecase/reconciler.go:36-55 | non-positive settings fall back to one minute and one hundred orders |
| Reconciling.Reconciler.RunOnce | internal/usecase/reconciler.go:80-104 | the listings stay a trace of the cursor also when listings or orders fail; every listed order is reconciled by one worker of its own that finished; no error is returned if and only if the listing was answered and all of them succeeded; every listing used this call's cutoff; undisturbed, exactly the next page is attempted and settled, wrapping around at the end |
| Reconciling.Reconciler.ReconcileOrder | internal/usecase/reconciler.go:109-166 | in every interleaving it is one recovery worker of this order that runs to its end, and returns an error exactly if that worker did not succeed; undisturbed, it settles this order, reports an error exactly when `SettlesWell` fails, and leaves all others as they were |
| Reconciling.Reconciler.Resolve | internal/usecase/reconciler.go:125-160 | a pending or unknown payment is resolved by what the provider reports, and by nothing else |
| Reconciling.Reconciler.Fulfill | internal/usecase/reconciler.go:168-202 | a paid order is reserved and completed; a failed reservation is deferred once |
| Reconciling.ReconcilerSweepsFairly | internal/usecase/reconciler.go:80-104 | for the listings a reconciler really made in a run, an order eligible at each of their moments is attempted exactly once between two resets |
| Reconciling.SettleableIffDecided | internal/usecase/reconciler.go:124-165 | one reconciliation ends an order's recovery if and only if it is terminal already, or paid while the inventory works, or can be looked up and is refused, or approved with a reference while the inventory works |
| Reconciling.Drain | internal/usecase/reconciler.go:80-104 | successive undisturbed calls settle a decided backlog: nothing is left if and only if there were `CallsNeeded` of them, so ceil(n / batch) + 1 suffice |
| Domain.Order.NewOrder | internal/domain/order.go:68-93 | the first violated rule is the error: no customer, no item, an item without product, with a quantity below one or a negative price; otherwise a pending order with the given data and one buffered event |
| Domain.Order.Total | internal/domain/order.go:95-102 | the 64-bit loop returns the wrapped mathematical total |
| Domain.MathTotalAdds | internal/domain/order.go:95-102 | an item is worth its quantity times its price, and two lists together the sum of both |
| Domain.TotalExactIffInRange | internal/domain/order.go:95-102 | for accepted items the charged amount is congruent to the true total modulo 2^64, and equals it if and only if that is at most 2^63-1 |
| FailingCases.TotalMayWrap | internal/domain/order.go:75-102 | an accepted order whose charged amount is negative |
| Domain.PartialTotalsInRange | internal/domain/order.go:95-102 | in range no product and no partial sum overflows |
| Domain.SuccessorRaisesRank | internal/domain/order.go:104-174 | every legal transition strictly raises the rank, leaves a non-terminal state, and keeps everything but status and reference |
| Domain.SuccessorsFollowEdges | internal/domain/order.go:104-174 | one guarded call leads from one order to another if and only if their statuses are joined by one of eight edges and nothing else differs but the reference set by payment |
| Domain.Order.MarkPaid | internal/domain/order.go:104-115 | allowed exactly from pending and unknown; records the reference and one event, or changes nothing |
| Domain.Order.MarkFailed | internal/domain/order.go:117-128 | allowed exactly from pending and unknown; records one event with its reason, or changes nothing |
| Domain.Order.MarkPaymentUnknown | internal/domain/order.go:130-144 | allowed exactly from pending; records one event with its reason, or changes nothing |
| Domain.Order.MarkFulfillmentPending | internal/domain/order.go:146-158 | allowed exactly from paid; records one event with its reason, or changes nothing |
| Domain.Order.Complete | internal/domain/order.go:160-174 | allowed exactly from paid and fulfillment-pending; records one event, or changes nothing |
| Domain.Order.PullEvents | internal/domain/order.go:180-188 | returns the buffered events and empties the buffer |
| MigrationRuns.MigrationsRunExactlyOnce | internal/repository/postgres/migrations.go:26-101 | after any interleaving of processes stopped anywhere, the scripts applied are a prefix of the sorted list, each once, with exactly their names and checksums in the ledger and the schema of one clean run; a process that ended well has its whole list applied |
| MigrationRuns.ResumingReachesCleanRun | internal/repository/postgres/migrations.go:26-101 | from every reachable state with the lock free: if the list runs cleanly on an empty database, an undisturbed start of it ends well with exactly the database of that run; if not, no start of it ends well in any continuation |
| MigrationRuns.HolderIsAlone | internal/repository/postgres/migrations.go:31-38 | in every interleaving, while a process holds the lock no move of another changes the database or takes the lock |
| MigrationRuns.LedgerKeyIsFree | internal/repository/postgres/migrations.go:63-101 | a script found missing from the ledger is still missing when it is committed: no transaction fails on the ledger's key |
| MigrationRuns.EveryStartActsAlone | internal/repository/postgres/migrations.go:26-101 | in every interleaving, from the moment a process gets the lock the database is at each moment what one uninterrupted loop would have, until the process ends with a result of that loop |
| Migrations.ThroughIffClean | internal/repository/postgres/migrations.go:54-101 | wherever earlier starts left off, the loop gets through a list if and only if the list runs cleanly on an empty database |
| MigrationRuns.FurtherRunsChangeNothing | internal/repository/postgres/migrations.go:69-73 | once the full list is applied no further start changes anything |
| Migrations.UpgradeInOrderIffExtendedAtEnd | internal/repository/postgres/migrations.go:53-73 | an upgrade applies scripts in the new list's order if and only if the new list extends the old one at its end |
| FailingCases.UpgradeMayReorder | internal/repository/postgres/migrations.go:53-73 | a script inserted before an applied one is applied after it |
| Migrations.LaterNamesExtendTheEnd | internal/repository/postgres/migrations.go:53-53 | adding scripts whose names all come later extends the sorted list at its end |
| Migrations.AscendingIsUnique | internal/repository/postgres/migrations.go:53-53 | there is one ascending arrangement of distinct names, so any sort gives the same list |
| Migrations.ThroughKeepsPrefix | internal/repository/postgres/migrations.go:54-101 | on a database holding a prefix of the list, the loop applies exactly what is missing |
| Migrations.ThroughResumes | internal/repository/postgres/migrations.go:54-101 | the loop applies scripts in the order that `Resume` describes |
| MigrationRuns.StartIsARun | internal/repository/postgres/migrations.go:26-101 | whatever one start did and however it ended, a process holding the lock can do the same, so the guarantees over all interleavings cover the loop; the converse of `EveryStartActsAlone` |
| Migrations.FilesAreTheEntries | internal/repository/postgres/migrations.go:54-57 | the scripts of a directory are its entries that are not directories |
| Migrations.FilesAreCounted | internal/repository/postgres/migrations.go:54-57 | each of them once |
| Migrations.Connection.Migrate | internal/repository/postgres/migrations.go:26-101 | the database is that after the first `done` scripts, all of them if it ended well; a checksum error names the next script, whose recorded digest really differs; on a reliable connection it fails only at a script the engine cannot apply |
| Migrations.Connection.MigrateAndCheck | internal/repository/postgres/migrations.go:26-101 | applied scripts are kept and only files of the directory are added; ending well leaves every file of the directory recorded with its own checksum; a checksum error names a file whose recorded checksum differs; on a prefix of a list that only grew at its end no checksum error arises and a complete database is left as it was; on a reliable connection it then ends well if and only if the list runs cleanly on an empty database, and leaves that database |

## Left out

- HTTP transport, JSON, headers, body limits, path escaping and timeouts of the clients and the handler: replaced by arbitrary replies; an undecodable request is an absent body.
- SQL text, connection handling and collation: the table is a map from ID to row; text is ordered by code units, and only totality and the empty string as least element are used. Items are stored and read back faithfully.
- `OrderRepository.UpdateStatus` (`internal/repository/postgres/order_repo.go:90-103`): an unconditional write that nothing in the protocol calls; the rank argument would not cover it.
- The inventory adapter: its port contract is assumed.
- Tracing, metrics, logging, redaction and the decorators; the event log is kept per order, as event names; attributes and reasons are kept in the aggregate's buffer only, and there is no order of events across orders.
- `cmd/orderservice/main.go`, the `Run` ticker, signals, the environment and shutdown.
- Wall-clock time, `crypto/rand` and SHA-256: clocks, order IDs and digests are arbitrary values. A clock reading is one value per call.
- Backlogs that grow while they drain: `Drain` fixes the eligible set, as the stated bound does; `ReconcilerSweepsFairly` has no such restriction.
- Migrations.Connection.Migrate: directories are dropped before sorting rather than in the loop, which gives the same list; the lock, the ledger's creation and reading the embedded files appear only as points at which a start can fail. The lock's effect is modelled in the state machine, where `StartIsARun` places the loop.
- The shape of `Execute`: its outcome switch and fulfilment tail are methods of their own, and the returns after a failed `Mark...` or `Complete` call appear as assertions that they cannot be taken.
- Contexts: cancellation during a call is one of the ways in which the call can report an error.
