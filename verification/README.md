# Service orders: the inventory saga, payments, items and storage

A Dafny model, with proofs, of the service-order core of a repair-shop backend. A service order moves through twelve
statuses. Some of the moves need the stock service: the order is stored as waiting under a fresh saga id, a request goes
to a queue, and an answer that arrives later (possibly twice, late, or after a restart) is applied or dropped. Payments
(webhook, retry, refund), item edits, deletion and the deletion of a customer act on the same order, most of them without
looking at the saga in flight. The project says what nevertheless holds in every run, and where the limits lie.

## How it is built

Two layers describe the same code.

* **Values.** `Orders`, `Items` and `Effects` say what each operation makes of an order and what each handler leaves
  behind: the stored order, the history entries, the published requests, the refunds and the error, for every combination
  of writes that fail (`Faults`). `SagaSystem` turns this into a transition system of one order with its queues; the
  environment delivers in any order, repeats, answers differently, loses, and fails as it likes. `Moves` shows that every
  handler makes one of ten moves of a much simpler system, `SagaInvariants` shows what each move keeps, `SagaTheorems`
  has the promises for every run, `SagaGuards` what exactly a step does to saga, messages and payment, by conditions on
  the stored order and the call, `Tables` what every call makes of each field of an order, of the history and of the
  queue, `Handlers` that every handler follows these tables, `Transitions` what they mean call by call, `RunFields` which
  step of a run wrote each field last, `StockLedger` what the stock service has really done for an order, `StockRuns`
  which runs keep stock and orders together, and `SagaWitnesses` the runs that show that the limits of the promises are
  those of the code. `SagaWorld` puts all orders together on shared queues and shows that each order's share of such a
  run is a run of its own, so that every promise about one order holds of all.
* **Objects.** `ServiceOrders`, `Orchestration`, `UseCases`, `CustomerDeletion`, `AnswerConsumption`, `Billing`,
  `Persistence` and `Creation` are the classes and loops of the code: mutable orders and items, stores, use cases,
  consumers, the reconciliation of item rows. Each method is proved to leave exactly the effect that the value layer
  specifies, so the theorems about runs are theorems about these methods.

| file | holds |
|---|---|
| `Prelude.dfy`, `OrderStatus.dfy` | shared values; the status graph |
| `Items.dfy`, `Signatures.dfy` | merging and adding items, product lines, totals; comparing items by text signature |
| `Orders.dfy`, `Effects.dfy` | the order as a value; what every handler leaves behind |
| `Moves.dfy`, `SagaSystem.dfy`, `SagaInvariants.dfy`, `SagaTheorems.dfy`, `SagaGuards.dfy`, `Tables.dfy`, `Handlers.dfy`, `Transitions.dfy`, `StockLedger.dfy`, `StockRuns.dfy`, `RunFields.dfy`, `SagaWitnesses.dfy`, `SagaWorld.dfy` | the saga over runs |
| `ServiceOrder.dfy`, `Orchestrator.dfy`, `Replacement.dfy`, `UseCases.dfy` | objects, stores, orchestrator, use cases, item replacement |
| `AnswerConsumption.dfy`, `CustomerDeletion.dfy` | the queue consumers |
| `Billing.dfy` | the amount charged; sequences of payment notices |
| `Persistence.dfy`, `Creation.dfy` | tables, saving and loading; creating an order |

## What the proofs found

Each point is a theorem below; the code is modelled as it is.

* **Recovery can name the wrong operation.** The repository's README.md:239 promises that a restart republishes the pending
  event. It does so under the same saga id, but for an order in AWAITING_PAYMENT, PAYMENT_REJECTED, DELIVERED or CANCELED
  with a cancellation in flight it asks for CANCEL_RESERVED where CANCEL_CONFIRMED was asked first
  (`RecoveryFidelity`: exactly in these four statuses; `RecoveryCanMislead`: in each of them it happens).
* **A compensation in flight does not freeze the order.** Approval, local advance and the webhook have no saga guard.
  In three pairs of status and target the success of the saga can no longer be applied (`SuccessAppliesUnlessStuck`,
  `CompensationCanGetStuck`). Such a saga stays in flight, stuck under its id and target, until an answer reports its
  failure (`StuckUntilFailed`).
* **Stock and orders part in three ways, and in no other.** On every run on which no call changes the quantity of a
  product while its reservation is in flight, no payment step drops a saga in flight, and no restart asks again for one in
  the four statuses above, stock has of that product what the order's status demands whenever no saga is in flight
  (`ConservedByGuards`; the stock service must not answer one request in two ways). Each guard is a condition on the
  stored order and the call, and an exact one: for which calls change a quantity see `QuantityExactly`, for which steps
  drop a saga `SagaEndsExactly`, for which restarts ask wrongly `MisaskedExactly`. Each of the three can fail alone.
  * An edit while RESERVE is in flight (`EditInFlightLeaksStock`): stock then has what the status demands if and only if
    the order has still the quantity that it had when the reservation was published (`ConservedExactly`,
    `StockConservation`). After such an edit a restart may even publish a request without any item, against the contract's
    `minItems: 1` at docs/contracts/event-contracts.md:91-92 (`RecoveryCanAskForNothing`).
  * A payment confirmed while a cancellation is in flight drops it (`ConfirmationDropsPerformedReturn`); the stock service
    did what the order takes to have been done if and only if it performed nothing for a dropped saga
    (`AgreesUnlessDropped`).
  * A restart has CANCEL_RESERVED performed for a cancellation started as CANCEL_CONFIRMED, which then counts as done
    (`RecoveredCancellationMiscounts`, `SettledByAnotherOperation`).
* **PAID without a payment**: advancing by hand from AWAITING_PAYMENT reaches PAID with no payment id
  (`PaidByWhom`, `PaidWithoutPayment`). The approval of a payment that still arrives is dropped, and deletion gives
  nothing back (`ApprovalsAreDroppedUnlessAwaited`, `PaidByHandIsNeverRefunded`).
* **A refund notice need not name the payment**: a refund reported for any payment cancels a PAID order. Its own payment
  has then been given back exactly if the notice names it or that was so before (`AnyRefundReportCancels`,
  `MoneySafety`), and an order can be canceled whose payment nobody has given back (`ForeignNoticeCancels`).
* **Refunds are not remembered**: every deletion of a PAID order refunds its payment again, also while a saga is in flight
  (`RefundsExactly`, `PaymentRefundedTwice`). A refunded order is delivered like any other PAID one, by an advance whose
  writes go through (`DeliveredExactly`), so a refund and an advance end in DELIVERED exactly if the deletion left the
  order PAID: because it has products, a saga was in flight, or a write failed (`RefundedThenDelivered`,
  `RefundedOrderCanBeDelivered`).
* **Cancelled provider orders are not remembered either**: a deletion that has the provider order of an awaited payment
  cancelled leaves the order waiting for that payment exactly if it has products, a saga was in flight, or a write failed
  (`LeftWaitingExactly`, `WaitsForCancelledPayment`).
* **The change record of an edit is exact only for Unicode scalar values**: quantities and prices are compared as single
  characters. Numbers that are equal modulo 2^32 look alike, and so do all that show as U+FFFD, as every number does that
  is no scalar value once cut to 32 bits (`ChangeIsContent`, `SameRune`, `OutOfRangeChangeIsLost`).
* **A failed publication is not repaired by redelivery** of a customer deletion: the order is stored as in flight without
  a request and counts as handled from then on (`FailedPublication`), so two deliveries together ask for exactly the
  orders whose publication went through in the delivery that put them in flight (`RedeliveryCompletes`). For an order in
  flight nothing but a restart publishes (`PublishesExactly`).

## Model

| member | source | states |
|---|---|---|
| SagaTheorems.SagaLanguage | internal/modules/service_order/application/saga/saga_orchestrator.go:51-154 | In every run the sagas that took effect, by the operation each was started with, are a prefix of RESERVE, CANCEL_RESERVED or of RESERVE, RESERVED_DECREASE, CANCEL_CONFIRMED: none twice and no compensation without the step it undoes; with products on the order its status tells which, in every status, CANCELED leaving four possibilities of which one needs a refund notice |
| StockLedger.StockConservation | internal/modules/service_order/application/saga/saga_orchestrator.go:289-299 | As long as every saga for which the stock service performed something has taken effect and it performed nothing that only recovery asked for, it holds and has given out, per product, what the order's status demands, if and only if the reservation it performed was for the live quantity on the order; which runs bring that about is said by the rows of `StockRuns` |
| StockLedger.AgreementExactly | internal/modules/service_order/application/saga/saga_orchestrator.go:122-200 | What the stock service performed, operation by operation and saga by saga, is what the order takes to have been done, if and only if every saga for which it performed something has taken effect and it performed nothing that only recovery asked for; the steps that decide this are told exactly by `SagaGuards.SagaEndsExactly` and `SagaGuards.MisaskedExactly` |
| StockRuns.ConservedByGuards | internal/modules/service_order/application/saga/saga_orchestrator.go:51-200 | On every run on which no call changes the quantity of a product while its reservation is in flight, no payment step drops a saga in flight, and no restart asks again for one in the four statuses in which recovery errs, stock has of the product what the order's status demands whenever no saga is in flight, provided the stock service answers no request in two ways |
| StockRuns.ConservedWithoutEdits | internal/modules/service_order/application/usecases/update_service_order.go:163-193 | On every run without a call that changes the quantity of a product while its reservation is in flight, stock has of it what the status demands, also while a saga is in flight, as long as what was performed took effect and nothing was performed that only recovery asked for |
| StockRuns.ConservedExactly | internal/modules/service_order/application/saga/saga_orchestrator.go:63-81 | On every run, under the same two conditions on its sagas: for an order with a performed reservation there is the step that published it, in DIAGNOSING, and stock has what the status demands if and only if the order has at the end the quantity it had at that step |
| StockRuns.AgreesUnlessDropped | internal/modules/service_order/application/saga/saga_orchestrator.go:122-200 | On every run on which recovery never errs and no request is answered in two ways, with no saga in flight: stock did what the order takes to have been done if and only if it performed nothing for a saga that a payment step dropped |
| StockRuns.NothingIsMisasked | internal/modules/service_order/application/saga/saga_orchestrator.go:180-200 | A run without a restart in the four statuses with a saga in flight never has the stock service asked for another operation than was started |
| StockRuns.NoneAbandoned | internal/modules/billing/application/usecases/handle_payment_webhook.go:78-128 | A run without a step that drops a saga, as told by the stored orders and the calls, abandons none |
| SagaGuards.SagaEndsExactly | internal/modules/service_order/application/saga/saga_orchestrator.go:122-178 | A saga ends with a step exactly as the stored order and the call tell beforehand: by an answer that names it, with its reason, when the writes go through and its target can be reached; or dropped by a rejected, cancelled or named approved payment of AWAITING_PAYMENT, or by a usable provider order for PAYMENT_REJECTED or COMPLETED; and by nothing else |
| SagaGuards.PublishesExactly | internal/modules/service_order/application/saga/saga_orchestrator.go:51-84 | A step publishes exactly if it stores a started saga, or is a restart that finds the order in flight, and the publication goes through; with a saga in flight only a restart publishes |
| SagaGuards.MisaskedExactly | internal/modules/service_order/application/saga/saga_orchestrator.go:329-350 | Another operation than was started is asked for exactly when a restart publishes for a saga in flight in AWAITING_PAYMENT, PAYMENT_REJECTED, DELIVERED or CANCELED |
| SagaGuards.QuantityExactly | internal/modules/service_order/application/usecases/update_service_order.go:163-225 | The quantity of a product or service changes only by an edit that passes its checks in RECEIVED or DIAGNOSING and is stored, and then is the sum of the quantities in the request; the item kept has the catalogue's name and price of the first input with its type and reference |
| Handlers.StepTabled | internal/modules/service_order/application/saga/saga_orchestrator.go:51-226 | Every step of every run does to the status, to each other field of the order, to the history and to the queue what the tables of `Tables` say by stored status, saga and call, for every combination of failing writes, and reports the error they name |
| Transitions.RefusedLeavesAlone | internal/modules/service_order/application/usecases/advance_service_order_status.go:63-88 | A call that the table refuses reports that error and leaves order, history and queue alone |
| Transitions.AuthorizationExactly | internal/modules/service_order/application/usecases/respond_to_authorization.go:62-154 | A customer who does not own the order, and nobody else, is refused with ForbiddenAccess and leaves nothing; with all checks met, approval leads to AUTHORIZED exactly if the writes go through, and denial starts CANCEL_RESERVED towards AUTHORIZATION_DENIED with the observation, or ends there at once without products |
| Transitions.PaymentStartsExactly | internal/modules/service_order/application/usecases/advance_service_order_status.go:193-215 | A payment is waited for exactly if an advance from COMPLETED or a retry from PAYMENT_REJECTED meets a usable provider order and the writes go through; then the order has that provider order's id as preference and its address as payment URL, and no other step changes either |
| Transitions.EditedExactly | internal/modules/service_order/application/usecases/update_service_order.go:144-160 | An edit that goes through stores the customer, vehicle and description it names, each in its own field, and leaves the others; no other step changes them, and an edit that does not go through changes nothing |
| Transitions.SagaStatusExactly | internal/modules/service_order/domain/service_order/service_order.go:185-274 | Each step changes the saga status only as the table of steps that write it says |
| Transitions.HistoryExactly | internal/modules/service_order/application/saga/saga_orchestrator.go:243-270 | A step writes at most one history entry, exactly if there is something to tell and the history accepts it, whether or not the order is then stored; it has the old status, the one the call leads to, the operation, the saga of the answer, the reason of a failure and the remark |
| RunFields.SagaStatusTells | internal/modules/service_order/domain/service_order/service_order.go:185-274 | Over any run, the saga status is FAILED exactly if the last step that wrote the saga fields stored a failure with a reason, AWAITING_INVENTORY exactly if it started a saga, AWAITING_PAYMENT exactly if it stored a provider order, and IDLE exactly if it stored a saga as ended or there was none |
| RunFields.FailedMeansDeclined | internal/modules/service_order/application/saga/saga_orchestrator.go:156-178 | With the saga status FAILED the saga that ended last was declined by the stock service |
| RunFields.PaymentFieldsTell | internal/modules/service_order/application/usecases/advance_service_order_status.go:193-215 | Over any run, preference id and payment URL are those of the provider order stored last, and absent before the first |
| RunFields.WithdrawsTheLast | internal/modules/service_order/application/usecases/delete_service_order.go:71-89 | What a deletion has the provider cancel is the provider order that the run stored last |
| RunFields.WithdrawnWasHandedOut | internal/modules/service_order/application/usecases/delete_service_order.go:71-89 | Every id cancelled at the provider was handed out by it and stored earlier in the run |
| RunFields.FieldTells | internal/modules/service_order/application/usecases/update_service_order.go:144-160 | Over any run, customer, vehicle and description each are what the last stored edit that names one says, or else what the order was created with |
| RunFields.EndingsAreRecorded | internal/modules/service_order/application/saga/saga_orchestrator.go:122-178 | Over any run, every saga that ended by an answer has a history entry with its id and an operation, and with a reason exactly if it failed |
| StockLedger.LedgerOfAnOrder | internal/modules/service_order/application/saga/saga_orchestrator.go:289-299 | In every reachable state, whatever went wrong: what is held and given out per product follows from the lines of the performed reservations, the live quantity and how often each other operation was performed |
| StockLedger.SettledByAnotherOperation | internal/modules/service_order/application/saga/saga_orchestrator.go:122-154 | The answer that settles a saga names the operation it was started with, except exactly CANCEL_RESERVED for a saga started as CANCEL_CONFIRMED, which then was asked for again by recovery; and a success it reports was performed |
| StockLedger.ReachableBooks | docs/contracts/event-contracts.md:124-146 | In every run the stock service is asked for, answers and performs only what sagas were started with or recovery took them for, each once per saga, and everything but a reservation for the present lines of the order |
| SagaWitnesses.ConfirmationDropsPerformedReturn | internal/modules/billing/application/usecases/handle_payment_webhook.go:78-102 | A run in which a confirmed payment drops a cancellation that stock has performed: the order is PAID and stock has the part back |
| SagaWitnesses.RecoveredCancellationMiscounts | internal/modules/service_order/application/saga/saga_orchestrator.go:329-350 | A run in which recovery has another operation performed than was started: the order is CANCELED, the part taken out is not back, and one is freed that was not reserved |
| SagaTheorems.EachSagaEndsAtMostOnce | internal/modules/service_order/application/saga/saga_orchestrator.go:114-178 | Every saga id ever stored either is the one in flight or has ended, exactly once |
| SagaTheorems.EndedStaysEnded | internal/modules/service_order/application/saga/saga_orchestrator.go:122-178 | Once a saga has ended, its end never changes however the run goes on, and any answer that still arrives for it leaves order, history and requests alone |
| SagaTheorems.RunRefines | internal/modules/service_order/application/saga/saga_orchestrator.go:51-200 | Every run, with messages repeated, reordered and lost, failing writes and restarts, is step by step a run of a system without messages: a saga begins with an unused id, takes effect or fails by an answer that names it, is dropped by a payment step, or a status changes along an edge |
| SagaTheorems.StepRefines | internal/modules/service_order/application/saga/saga_orchestrator.go:122-178 | The same for each single step, from any state that satisfies the invariant |
| SagaTheorems.InFlightStates | internal/modules/service_order/application/saga/saga_orchestrator.go:228-243 | With a saga in flight, status and target form one of fourteen pairs, and the pair tells the operation the saga was started with |
| SagaWitnesses.InFlightPairsExactly | internal/modules/service_order/application/saga/saga_orchestrator.go:51-112 | The fourteen pairs are exactly the ones that runs reach |
| SagaTheorems.SuccessAppliesUnlessStuck | internal/modules/service_order/application/saga/saga_orchestrator.go:122-154 | The success of the saga in flight is applied, when the writes go through, in all fourteen pairs but three; in those it is refused with nothing written |
| SagaWitnesses.CompensationCanGetStuck | internal/modules/service_order/application/usecases/advance_service_order_status.go:127-155 | Each of the three pairs is reached: the local advance has no saga guard |
| SagaTheorems.StuckUntilFailed | internal/modules/service_order/application/saga/saga_orchestrator.go:122-178 | From any of the three pairs, whatever the run does, the saga stays in flight under its id and target and stuck, until an answer that names it reports a failure |
| SagaTheorems.RecoveryFidelity | internal/modules/service_order/application/saga/saga_orchestrator.go:329-350 | For every reachable order with a saga in flight recovery publishes exactly one request, under the same saga id, and leaves the order alone; it names the operation the saga was started with if and only if the status is none of AWAITING_PAYMENT, PAYMENT_REJECTED, DELIVERED, CANCELED; and it asks for the same lines unless an edit slipped in |
| SagaTheorems.CancellingOperationsCompared | internal/modules/service_order/domain/service_order/inventory_operation_type.go:32-50 | The operation that cancels an order is the one of the table by status change exactly outside RECEIVED, DIAGNOSING and PAYMENT_REJECTED, and recovery would name it again exactly outside AWAITING_PAYMENT and PAYMENT_REJECTED |
| SagaWitnesses.RecoveryCanMislead | internal/modules/service_order/application/saga/saga_orchestrator.go:329-350 | In each of the four statuses a run leads to a saga for which recovery names another operation |
| SagaWitnesses.RecoveryCanAskForNothing | internal/modules/service_order/application/saga/saga_orchestrator.go:180-200 | After an edit in flight recovery can publish a request without items |
| SagaTheorems.RequestsAreWellFormed | internal/modules/service_order/application/saga/saga_orchestrator.go:63-81 | No request in the queue lists a product twice or asks for less than one unit, and the request of a started saga is never empty |
| SagaTheorems.MoneySafety | internal/modules/service_order/application/usecases/delete_service_order.go:79-105 | An order with a payment that has a saga in flight has been refunded for that payment, also when a confirmation races a cancellation; once canceled, that or a refund notice canceled it; and if its own payment was neither refunded nor reported, that notice named another one |
| SagaTheorems.AnyRefundReportCancels | internal/modules/billing/application/usecases/handle_payment_webhook.go:130-154 | A refund notice cancels a PAID order whichever payment it names, exactly if the writes go through; the order's own payment has then been refunded or reported exactly if the notice names it or that was so before |
| SagaWitnesses.ForeignNoticeCancels | internal/modules/billing/application/usecases/handle_payment_webhook.go:130-154 | A run leads to a CANCELED order whose payment was neither refunded nor reported |
| SagaTheorems.RefundsExactly | internal/modules/service_order/application/usecases/delete_service_order.go:90-105 | A step makes a refund exactly if it is a deletion of a PAID order with a payment and the provider goes along, whatever was refunded before and whether or not a saga is in flight |
| SagaWitnesses.PaymentRefundedTwice | internal/modules/service_order/application/usecases/delete_service_order.go:90-105 | A run refunds one payment twice |
| SagaWitnesses.RefundedOrderCanBeDelivered | internal/modules/service_order/application/usecases/delete_service_order.go:90-105 | Runs lead to a DELIVERED order whose payment was refunded, without a saga in flight after a failed write, and with one in flight after a deletion in which all went through |
| SagaGuards.DeliveredExactly | internal/modules/service_order/application/usecases/advance_service_order_status.go:127-191 | A step delivers an order exactly if it is an advance from PAID whose writes go through, refunded or not, with a saga in flight or not |
| SagaGuards.DeletionLeavesStatus | internal/modules/service_order/application/usecases/delete_service_order.go:53-116 | Deletion leaves an unfinished order in its status exactly if a saga is in flight, one is started (it has products and is past DIAGNOSING), a write fails, or a refund is refused; otherwise it is CANCELED |
| SagaGuards.RefundedThenDelivered | internal/modules/service_order/application/usecases/delete_service_order.go:90-105 | A deletion of a PAID order with a payment that is refunded, followed by an advance, refunds once, and ends in DELIVERED exactly if the writes of the advance go through and a saga was in flight, the order has products, or a write of the deletion failed |
| SagaGuards.LeftWaitingExactly | internal/modules/service_order/application/usecases/delete_service_order.go:79-89 | A deletion that has the provider order of an awaited payment cancelled leaves the order waiting for it exactly if a saga is in flight, the order has products, or a write fails |
| SagaGuards.WithdrawnExactly | internal/modules/service_order/application/usecases/delete_service_order.go:79-89 | A step has a provider order cancelled exactly if it is a deletion of an order in AWAITING_PAYMENT or PAYMENT_REJECTED and the provider goes along |
| SagaWitnesses.WaitsForCancelledPayment | internal/modules/service_order/application/usecases/delete_service_order.go:79-89 | A run leads to an order that waits for a payment, with no saga in flight, whose provider order has been cancelled |
| SagaTheorems.ApprovalsAreDroppedUnlessAwaited | internal/modules/billing/application/usecases/handle_payment_webhook.go:78-102 | An approval is recorded exactly if the order waits for a payment, the notice names one and the writes go through; otherwise nothing is kept of it, and a deletion refunds only a payment that the order has recorded |
| SagaWitnesses.PaidByHandIsNeverRefunded | internal/modules/billing/application/usecases/handle_payment_webhook.go:78-102 | A run leads to a PAID order that drops an approval and whose deletion refunds nothing |
| SagaTheorems.PaidByWhom | internal/modules/billing/application/usecases/handle_payment_webhook.go:78-102 | An order becomes PAID only from AWAITING_PAYMENT, by the webhook or by hand, and it carries a payment id exactly in the first case |
| SagaWitnesses.PaidWithoutPayment | internal/modules/service_order/application/usecases/advance_service_order_status.go:63-191 | A run leads to an order that is PAID without a payment id |
| SagaTheorems.WriteAheadAudit | internal/modules/service_order/application/saga/saga_orchestrator.go:146-151 | With any write allowed to fail, the stored status changes form a path of the graph and a subsequence of the recorded ones, every record is an edge or no change, and replaying the history of a run without an orphaned record from RECEIVED gives the stored status |
| SagaTheorems.EntriesRecordTheStoredStatus | internal/modules/service_order/application/saga/saga_orchestrator.go:137-151 | A step records at most one entry, whose old status is the one stored before the step |
| SagaTheorems.RunBound | internal/modules/service_order/domain/service_order/order_status.go:47-111 | With k payment retries there are at most 8 + 2k status changes, and exactly as many as the status tells unless the order is canceled |
| SagaTheorems.ClosingIsFinal | internal/modules/service_order/domain/service_order/service_order.go:116-137 | The closing time is set exactly from completion or an early end on, never changes once set, and the three final statuses are never left |
| SagaTheorems.FieldCoherence | internal/modules/service_order/domain/service_order/service_order.go:185-279 | AWAITING_INVENTORY, the saga id and the target come and go together, and from AWAITING_PAYMENT on preference and payment URL are there and not empty |
| SagaTheorems.NoSagaIsLost | internal/modules/service_order/application/saga/saga_orchestrator.go:180-200 | A saga in flight whose request was published has a request or an answer waiting, and after a restart whose publication goes through every saga in flight has a request waiting, one never published before included |
| SagaWorld.RestartLosesNoSaga | internal/modules/service_order/application/saga/saga_orchestrator.go:180-200 | A restart over all orders in flight, in any sequence and up to the first error, changes no order and takes no request away; when its publications go through, a request waits for every order in flight, under the saga id it has |
| SagaTheorems.AcknowledgedMeansDone | internal/messaging/consumers/order_inventory_op_succeeded.go:78-91 | An answer leaves its queue only by its own delivery and only when its saga is not the one in flight any more |
| SagaTheorems.EditHistoryIsExact | internal/modules/service_order/application/usecases/update_service_order.go:243-271 | An edit of the items of any reachable order is recorded as a change exactly when the multiset of live contents differs, all numbers being Unicode scalar values |
| SagaWitnesses.EditInFlightLeaksStock | internal/modules/service_order/application/usecases/update_service_order.go:163-193 | A run with an edit while RESERVE is in flight, and nothing else amiss, ends with stock reserved for an order that has none |
| SagaInvariants.StepKeepsInv | internal/modules/service_order/application/saga/saga_orchestrator.go:51-243 | Every step of any handler, with any writes failing, keeps the whole invariant |
| SagaInvariants.ReachableInv | internal/modules/service_order/application/saga/saga_orchestrator.go:51-243 | Every reachable state satisfies it |
| SagaSystem.StepMoves | internal/modules/service_order/application/saga/saga_orchestrator.go:51-226 | Every handler, whichever of its writes fail, makes one of ten moves, and the event tells which ones are possible |
| SagaWorld.WorldIsSeparated | internal/modules/service_order/application/saga/saga_orchestrator.go:114-130 | With all orders on shared queues, each order's share of any run is a run of that order alone, and no saga id is shared by two orders |
| SagaWorld.OrdersDoNotInterfere | internal/modules/service_order/application/saga/saga_orchestrator.go:122-178 | A step for one order changes neither another order nor anything that waits for it |
| Moves.AdvanceMoves | internal/modules/service_order/application/usecases/advance_service_order_status.go:63-245 | Advancing starts a saga, waits for the payment, moves along one edge of the flow, or stores nothing |
| Moves.RespondMoves | internal/modules/service_order/application/usecases/respond_to_authorization.go:62-201 | An approval moves to AUTHORIZED without regard to a saga; a denial starts the compensation or, without products, ends the order at once |
| Moves.DeleteMoves | internal/modules/service_order/application/usecases/delete_service_order.go:53-116 | Deletion cancels through the orchestrator, and a paid order only after its refund |
| Moves.ConsumeMoves | internal/modules/service_order/application/saga/saga_orchestrator.go:122-178 | An answer settles or fails the saga it names while that is in flight, and otherwise does nothing |
| Moves.WebhookMoves | internal/modules/billing/application/usecases/handle_payment_webhook.go:50-154 | A notice confirms, rejects or cancels, each only from its own status, and only a reported refund cancels |
| Moves.UpdateMoves | internal/modules/service_order/application/usecases/update_service_order.go:73-112 | An edit changes customer, vehicle, description and items only, and the product lines only up to DIAGNOSING |
| OrderStatus.EdgesClimb | internal/modules/service_order/domain/service_order/order_status.go:47-111 | Along every edge but the payment retry the rank grows, by exactly one unless the order is canceled |
| OrderStatus.FinalMeansNoWayOut | internal/modules/service_order/domain/service_order/order_status.go:47-111 | DELIVERED, CANCELED and AUTHORIZATION_DENIED are exactly the statuses without a way out |
| OrderStatus.NextStatusFollowsTheGraph | internal/modules/service_order/domain/service_order/order_status.go:114-137 | The next status is reachable by one edge, and there is none exactly at the final statuses and at PAYMENT_REJECTED |
| OrderStatus.NamesRoundTrip | internal/modules/service_order/domain/service_order/order_status.go:21-44 | A status is read back from its name, and from no other text |
| Items.AddOneMeaning | internal/modules/service_order/domain/service_order/service_order.go:313-345 | Adding an item succeeds, raises the quantity of its type and reference by its quantity and nothing else, keeps the item that was there, and raises the total by added quantity times kept price |
| Items.AddAllMeaning | internal/modules/service_order/application/usecases/create_service_order.go:203-208 | Adding any list of new items keeps at most one live item per type and reference, whose quantity is the sum and whose other fields are those of the first |
| Items.BuiltItemsAreSellable | internal/modules/service_order/application/usecases/create_service_order.go:119-184 | Items that pass the checks are as many as requested, live, and have positive quantity and price |
| Items.BuiltAsAsked | internal/modules/service_order/application/usecases/update_service_order.go:195-225 | The i-th built item has the type, reference and quantity of the i-th input and the name and price of its catalogue entry, and is a new item of the given order |
| Items.BuildsExactly | internal/modules/service_order/domain/service_order/service_order_item.go:36-72 | Building succeeds exactly if every input can be built; otherwise the error names what is amiss with the first that cannot |
| Items.BuiltQuantity | internal/modules/service_order/application/usecases/create_service_order.go:151-185 | What is built has per type and reference the quantity asked for by the inputs, and its first item is the first input's |
| Items.LinesCarryTheQuantities | internal/modules/service_order/application/saga/saga_orchestrator.go:289-299 | A stock request asks, per product, for exactly the live quantity |
| Items.LinesAreWellFormed | internal/modules/service_order/application/saga/saga_orchestrator.go:289-299 | It lists no product twice and asks for at least one unit of each |
| Signatures.SignatureIsInjective | internal/modules/service_order/domain/service_order/history.go:150-157 | Two signatures are equal exactly when type, reference, name and the shown quantity and price are, whatever the names contain |
| Signatures.Pigeonhole | internal/modules/service_order/domain/service_order/history.go:116-134 | As many pairwise distinct values, all found among the old ones, are the old ones: why one direction and equal numbers suffice |
| Signatures.ChangeIsShownContent | internal/modules/service_order/domain/service_order/history.go:111-137 | For all numbers, a change is reported exactly when the multisets of shown contents differ |
| Signatures.ChangeIsContent | internal/modules/service_order/domain/service_order/history.go:111-137 | For Unicode scalar values, exactly when the multisets of contents differ |
| Signatures.QuantityChangeSeen | internal/modules/service_order/domain/service_order/history.go:150-157 | A change of quantity alone is reported exactly when the two quantities become different runes |
| Signatures.SameRune | internal/modules/service_order/domain/service_order/history.go:150-157 | Two numbers become the same rune exactly if they are equal modulo 2^32 or both become the replacement character |
| Signatures.OutOfRangeChangeIsLost | internal/modules/service_order/domain/service_order/history.go:150-157 | A change of quantity alone is lost exactly between two such numbers, and every number that is no scalar value once cut to 32 bits becomes the replacement character |
| ServiceOrders.ServiceOrder.Reconstruct | internal/modules/service_order/domain/service_order/service_order.go:58-113 | An order is rebuilt from its record with exactly its contents and new objects, idle when the record has no saga status, or refused for the first thing amiss: id, customer or vehicle missing, or a text that names no status |
| ServiceOrders.ServiceOrder.constructor | internal/modules/service_order/domain/service_order/service_order.go:94-112 | The order has exactly the given contents and new item objects |
| ServiceOrders.ServiceOrder.UpdateStatus | internal/modules/service_order/domain/service_order/service_order.go:116-137 | Follows an edge and sets the closing time once, or refuses and changes nothing |
| ServiceOrders.ServiceOrder.StartSaga | internal/modules/service_order/domain/service_order/service_order.go:185-199 | Sets the four saga fields, or refuses an empty id |
| ServiceOrders.ServiceOrder.CompleteSaga | internal/modules/service_order/domain/service_order/service_order.go:201-207 | Empties the saga fields and nothing else |
| ServiceOrders.ServiceOrder.FailSaga | internal/modules/service_order/domain/service_order/service_order.go:267-273 | The same under the status FAILED |
| ServiceOrders.ServiceOrder.AwaitPayment | internal/modules/service_order/domain/service_order/service_order.go:209-227 | Moves to AWAITING_PAYMENT with both payment fields and without any saga, or changes nothing |
| ServiceOrders.ServiceOrder.ConfirmPayment | internal/modules/service_order/domain/service_order/service_order.go:229-243 | Moves to PAID with the payment id and without any saga, or changes nothing |
| ServiceOrders.ServiceOrder.RejectPayment | internal/modules/service_order/domain/service_order/service_order.go:245-255 | Moves to PAYMENT_REJECTED without any saga, or changes nothing |
| ServiceOrders.ServiceOrder.CancelAfterRefund | internal/modules/service_order/domain/service_order/service_order.go:260-265 | Cancels a paid order and leaves the saga fields alone |
| ServiceOrders.ServiceOrder.AddItem | internal/modules/service_order/domain/service_order/service_order.go:313-345 | The first live item of the same type and reference, be it the given object itself, takes the quantity, else the object becomes the last item; all else stays as it is, and the items stay distinct objects unless one of them is added again |
| Orders.AddItemMeaning | internal/modules/service_order/domain/service_order/service_order.go:313-346 | Adding a usable item succeeds exactly in RECEIVED and DIAGNOSING; per type and reference the quantity grows by what is added, and the item already there is kept |
| ServiceOrders.ServiceOrder.RemoveItem | internal/modules/service_order/domain/service_order/service_order.go:348-370 | Soft-deletes the first live item with the id and changes nothing else |
| Orders.RemoveItemMeaning | internal/modules/service_order/domain/service_order/service_order.go:348-370 | Removing sets the deletion time of the first live item with the identity and nothing else; its product or service has less by its quantity and the total by its worth; otherwise the error says why |
| Orders.UpdateItemQuantityMeaning | internal/modules/service_order/domain/service_order/service_order.go:373-397 | Changing a quantity gives the first live item with the identity the new, positive one and nothing else; its product or service and the total differ by the difference; otherwise the error says why |
| ServiceOrders.ServiceOrder.UpdateItemQuantity | internal/modules/service_order/domain/service_order/service_order.go:373-397 | Changes the quantity of that item only, to a positive one only |
| ServiceOrders.ServiceOrder.InventoryItems | internal/modules/service_order/application/saga/saga_orchestrator.go:289-299 | Computes the product lines of the live items |
| ServiceOrders.ServiceOrder.TotalAmount | internal/modules/service_order/domain/service_order/service_order.go:405-413 | Computes the total of the live items |
| ServiceOrders.ServiceOrder.CaptureState | internal/modules/service_order/domain/service_order/history.go:171-212 | The snapshot has the same contents and shares no object with the order, so later mutation cannot reach it |
| ServiceOrders.FilterActiveItems | internal/modules/service_order/domain/service_order/history.go:139-148 | The live items, in order |
| ServiceOrders.HasItemsChanged | internal/modules/service_order/domain/service_order/history.go:111-137 | Computes the comparison that the signature lemmas are about |
| ServiceOrders.ServiceOrderItem.UpdateQuantity | internal/modules/service_order/domain/service_order/service_order_item.go:103-112 | Sets a positive quantity, or refuses and changes nothing |
| ServiceOrders.ServiceOrderItem.MarkAsDeleted | internal/modules/service_order/domain/service_order/service_order_item.go:119-124 | Sets the deletion time and nothing else |
| ServiceOrders.ServiceOrderItem.SetHistoryId | internal/modules/service_order/domain/service_order/service_order_item.go:149-157 | Sets the history record and nothing else, or refuses an empty one |
| Orchestration.Orchestrator.StartSaga | internal/modules/service_order/application/saga/saga_orchestrator.go:51-84 | Leaves exactly the specified effect on order, history and queue, for every combination of failing writes: order stored first, request published last, and no saga when there are no products |
| Orchestration.Orchestrator.CancelOrder | internal/modules/service_order/application/saga/saga_orchestrator.go:86-112 | Cancels at once, through CANCEL_RESERVED or through CANCEL_CONFIRMED, by status |
| Orchestration.Orchestrator.IsCurrentSaga | internal/modules/service_order/application/saga/saga_orchestrator.go:114-120 | Says whether the saga is the one in flight, and reports an unknown order |
| Orchestration.Orchestrator.HandleSucceeded | internal/modules/service_order/application/saga/saga_orchestrator.go:122-154 | Applies the success of the current saga, history before order, and ignores any other |
| Orchestration.Orchestrator.HandleFailed | internal/modules/service_order/application/saga/saga_orchestrator.go:156-178 | Records the failure of the current saga, and ignores any other; the saga status is then FAILED, as `RunFields.SagaStatusTells` says |
| Orchestration.Orchestrator.RecoverAwaitingSagas | internal/modules/service_order/application/saga/saga_orchestrator.go:180-200 | Publishes for all orders that wait, each once, up to the first error, and changes no order; when no error is reported, a request was published for every one of them that has a saga id |
| Orchestration.RecoveryCovers | internal/modules/service_order/application/saga/saga_orchestrator.go:180-200 | A recovery without errors has asked for every order with a saga id among those it goes through |
| Orchestration.RecoveryAsksForAll | internal/modules/service_order/application/saga/saga_orchestrator.go:180-200 | When every publication goes through, these are the requests: one for each order, in sequence, under its own saga id and for its present lines |
| Orchestration.OrderStore.FindAwaitingInventory | internal/modules/service_order/infra/persistence/service_order_repository.go:252-268 | Finds every order in flight that is not soft-deleted, each once |
| Orchestration.OrderStore.FindByCustomerId | internal/modules/service_order/infra/persistence/service_order_repository.go:211-232 | Finds every order of the customer that is not soft-deleted, each once, or refuses a customer id that is no UUID |
| Orchestration.Orchestrator.TransitionLocal | internal/modules/service_order/application/saga/saga_orchestrator.go:202-226 | Makes the step at once, history before order |
| Orchestration.TidyOrdersStay | internal/modules/service_order/infra/persistence/service_order_repository.go:25-107 | An order whose items are live and identified is read back from the store unchanged |
| Replacement.ReplacementMeaning | internal/modules/service_order/application/usecases/update_service_order.go:163-193 | After a replacement all old items are there, deleted and tagged with the history record of the edit, and the new ones, untouched, are the only live ones; comparison and storage see nothing else |
| Replacement.AddAllPastDeleted | internal/modules/service_order/domain/service_order/service_order.go:322-333 | Deleted items take no part in merging |
| UseCases.Service.Advance | internal/modules/service_order/application/usecases/advance_service_order_status.go:63-191 | Leaves exactly the specified effect, by saga, payment or local branch |
| UseCases.Service.StartPayment | internal/modules/service_order/application/usecases/advance_service_order_status.go:193-245 | Waits for the order created at the provider, history before order, leaving exactly the effect of which `Transitions.PaymentStartsExactly` speaks |
| UseCases.Service.Respond | internal/modules/service_order/application/usecases/respond_to_authorization.go:62-201 | Checks owner, deletion and status in this order, then approves locally or denies through a saga, leaving exactly the effect of which `Transitions.AuthorizationExactly` speaks |
| UseCases.Service.Delete | internal/modules/service_order/application/usecases/delete_service_order.go:53-116 | Cancels an unpaid order at the provider whatever the answer, refunds a paid one or stops, then cancels |
| UseCases.Service.HandlePaymentWebhook | internal/modules/billing/application/usecases/handle_payment_webhook.go:50-76 | Leaves exactly the specified effect on the order that the payment names, whatever the notice names, or else on the one the notice names, by reported status; a payment that cannot be read and a notice that names no order are refused and change nothing |
| UseCases.Service.MarkApproved | internal/modules/billing/application/usecases/handle_payment_webhook.go:78-102 | Pays an order that waits for its payment, and ignores any other |
| UseCases.Service.MarkRejected | internal/modules/billing/application/usecases/handle_payment_webhook.go:104-128 | Rejects the payment of such an order, and ignores any other |
| UseCases.Service.MarkRefunded | internal/modules/billing/application/usecases/handle_payment_webhook.go:130-154 | Cancels a paid order, and ignores any other |
| UseCases.Service.RetryPayment | internal/modules/billing/application/usecases/retry_payment.go:28-65 | Takes PAYMENT_REJECTED back to AWAITING_PAYMENT with a new provider order, as `Transitions.PaymentStartsExactly` says |
| UseCases.Service.HandleAnswer | internal/messaging/consumers/order_inventory_op_failed.go:57-98 | Leaves exactly the effect of the matching handler, after the check that the saga is current |
| UseCases.Service.Update | internal/modules/service_order/application/usecases/update_service_order.go:73-112 | Leaves exactly the effect of which `Transitions.EditedExactly` and `SagaGuards.QuantityExactly` speak, and the copy in memory has the old items retired and tagged before the new ones |
| UseCases.Service.UpdateItems | internal/modules/service_order/application/usecases/update_service_order.go:163-193 | Retires every old item and adds the new ones, or reports the first error |
| UseCases.Service.BuildItems | internal/modules/service_order/application/usecases/update_service_order.go:195-225 | Builds exactly the items asked for, in the same sequence, with quantity, name and price each where they belong, or reports what is amiss with the first that cannot be built |
| UseCases.Service.SaveEdit | internal/modules/service_order/application/usecases/update_service_order.go:243-278 | Records whether the contents have changed against the snapshot, tags the retired items, stores the order |
| AnswerConsumption.AnswerConsumer.HandleMessage | internal/messaging/consumers/order_inventory_op_succeeded.go:62-103 | The answer leaves the queue exactly when no error is reported, and then its saga is not in flight any more; an answer to any other saga changes nothing but the queue |
| CustomerDeletion.Consumer.HandleMessage | internal/messaging/consumers/customer_deleted.go:50-80 | Only the customer's orders change, each not at all or to its outcome; requests are published for those put in flight whose publication goes through, and for no others; on success all have their outcome and the message is acknowledged, and it succeeds whenever everything it needs goes through; no provider is called; when nothing is left to do, nothing is done |
| CustomerDeletion.OutcomeMeaning | internal/messaging/consumers/customer_deleted.go:61-70 | Orders with a saga in flight or past IN_PROGRESS are left alone; any other is CANCELED, or has a saga to CANCELED in flight |
| CustomerDeletion.FaultyOutcome | internal/messaging/consumers/customer_deleted.go:61-70 | What exactly each combination of failing writes leaves: the outcome if the order is stored (and, without a need for stock, its history entry before it), a request only if the publication goes through after that, an error otherwise, never a refund; an order handled already causes nothing |
| CustomerDeletion.FailedPublication | internal/messaging/consumers/customer_deleted.go:61-70 | A failed publication leaves the order in flight without a request, and any later delivery of the message passes over it |
| CustomerDeletion.SweepMeaning | internal/messaging/consumers/customer_deleted.go:61-70 | With any writes failing, a delivery leaves each listed order alone or gives it its outcome, gives it to all when no error is reported, and touches no other; a request is published for an order exactly if the delivery put it in flight and its publication goes through |
| CustomerDeletion.SweepSucceeds | internal/messaging/consumers/customer_deleted.go:61-70 | A delivery whose writes go through reports no error |
| CustomerDeletion.RedeliveryCompletes | internal/messaging/consumers/customer_deleted.go:56-80 | After a success a redelivery does nothing; after a delivery cut short, one whose writes go through succeeds, and one that succeeds leaves every order handled, with the outcome it got the first time or else the one it gets now; an order has a request from the two together exactly if they put it in flight and the publication went through in the delivery that did |
| Billing.BuildOrderItems | internal/modules/billing/application/usecases/create_payment_preference.go:31-51 | The charge is exactly the order's total, with deleted items and in the empty case too; one line per live item, in order |
| Billing.NoticesDecide | internal/modules/billing/application/usecases/handle_payment_webhook.go:50-154 | For any sequence of notices and any failing writes, the first decisive one that is stored decides, after an approval the first reported refund cancels, all others change nothing; without failures the history gets exactly the changes made |
| Billing.OneNotice | internal/modules/billing/application/usecases/handle_payment_webhook.go:78-154 | One notice changes the order exactly when it settles the payment waited for or gives back the one made, and how |
| Persistence.Repository.SaveWithItems | internal/modules/service_order/infra/persistence/service_order_repository.go:25-107 | Commits the specified tables as a whole or leaves them alone; the copy in memory gets the ids handed out |
| Persistence.Repository.DeleteMissing | internal/modules/service_order/infra/persistence/service_order_repository.go:53-79 | Soft-deletes exactly the live rows of the order that have no item in memory |
| Persistence.Repository.UpsertItems | internal/modules/service_order/infra/persistence/service_order_repository.go:81-103 | Writes a row for every item in memory under its id, new ids for new items |
| Persistence.Repository.FindByIdWithItems | internal/modules/service_order/infra/persistence/service_order_repository.go:113-128 | Gives what the tables hold under the id, and reports a malformed or unknown id |
| Persistence.SaveThenLoad | internal/modules/service_order/infra/persistence/service_order_repository.go:53-103 | After a save the tables hold exactly the order in memory with its items that are not deleted there |
| Persistence.HeldOrderIsUnique | internal/modules/service_order/infra/persistence/service_order_model.go:91-150 | What the tables hold under an id is one order, up to the sequence of its items |
| Persistence.RoundTrip | internal/modules/service_order/infra/persistence/service_order_repository.go:25-128 | Save then load gives the same status, saga and payment fields and, as a multiset, exactly the items not deleted |
| Persistence.SaveKeeps | internal/modules/service_order/infra/persistence/service_order_repository.go:68-79 | A save removes no row, leaves other orders and their items alone, and leaves soft-deleted rows exactly as they are |
| Persistence.RetiredRowsStay | internal/modules/service_order/infra/persistence/service_order_repository.go:68-79 | The same through any number of later saves |
| Persistence.ReplacedRowsAreTagged | internal/modules/service_order/infra/persistence/service_order_repository.go:81-103 | After the save of an edit every replaced item is a soft-deleted row with the history record of the edit |
| Persistence.ReplacedRowsStayTagged | internal/modules/service_order/infra/persistence/service_order_repository.go:68-103 | And it keeps that record through whatever is saved later |
| Persistence.LoadedOrdersOwnTheirItems | internal/modules/service_order/infra/persistence/service_order_repository.go:60-94 | An order that was loaded and changed in memory brings only live rows of its own and new ones |
| Persistence.OrderRowRoundTrip | internal/modules/service_order/infra/persistence/service_order_model.go:152-244 | Converting an order to its row and back loses no field |
| Persistence.ColumnsTell | internal/modules/service_order/infra/persistence/service_order_repository.go:211-268 | The columns by which orders are looked up, customer, status and saga status, say what the held order says |
| Persistence.ItemRowRoundTrip | internal/modules/service_order/infra/persistence/service_order_item_model.go:31-116 | The same for an item |
| Creation.Create | internal/modules/service_order/application/usecases/create_service_order.go:72-219 | A valid request with UUIDs succeeds when the database accepts it, and every other one is refused for the first thing amiss; on success the tables hold the created order and all they held before, on an error they are as before |
| Creation.CreationIsStorable | internal/modules/service_order/infra/persistence/service_order_repository.go:27-47 | The built order can be stored exactly if customer, vehicle and all references are UUIDs |
| Creation.CreatedMeaning | internal/modules/service_order/application/usecases/create_service_order.go:187-212 | A created order is one that runs start from, with the customer, vehicle and description given; per type and reference it has the sum of the quantities in the request, under the catalogue's name and price of the first input, and all items belong to it |
| Creation.BuiltExactly | internal/modules/service_order/application/usecases/create_service_order.go:72-212 | An order is built exactly if the lookups pass, customer and vehicle are given, and every input has a known type, a catalogue entry and usable fields; otherwise the error names the first check that fails |

## Left out

Not modelled, one line each:

- HTTP handlers, routes, response envelopes, roles and tokens: plumbing; the owner check of an authorization answer is modelled.
- E-mail, logs, spans and metrics: they never affect state.
- The payment provider's client: it is any answer to creating, cancelling and refunding, and any reported status.
- The stock service: it answers what it likes, and performs what it answers with success, once for each saga and operation (docs/apresentacao-plataforma.md:93); whether its stock suffices is not modelled.
- The customer, vehicle, product and service lookups: parameters that give details or an error.
- Decoding of messages and times, and the fields of a message beyond saga, order, operation and reason: a message that cannot be decoded stays in its queue.
- Errors when reading an order from the database: they leave everything as it is.
- Interleaving inside one handler: the code has no locking, and each handler is one atomic step here.
- Creation and update times, the customer's e-mail and name on an order, the provider's order status and rejection reason.
- The snapshot and payment fields of a history record, its id and time, and the customer and vehicle changes it lists: kept are the two statuses, operation, saga, reason, notes and whether items have changed.
- Spellings of a UUID other than the canonical one: they count as malformed here.
- The width of integers, except where a number becomes a rune; the rounding of floating-point prices, which are exact here.
- Read-only use cases, filtering and sorting; `UpdateItemsHistoryID` and the soft deletion of an order row, which nothing in the core calls.
- The sequence in which the database gives back the items of an order: loading is specified up to that sequence, and the handlers run on a store that keeps it.
- OrderStore: stands for the tables in the handlers; `Persistence.SaveThenLoad` shows that saving and loading the tables does what its `Save` and `FindById` say.
- Signatures.ChangeIsContent: is stated for references without the separator, which UUIDs are, and for lists with one live item per type and reference, which `Items.AddAllMeaning` and the run invariant establish.
- ServiceOrders.ServiceOrder.Reconstruct: a saga status in a record that is none of the four known texts is not modelled.
- Billing.NoticesDecide: is stated for orders with a closing time, which every order in AWAITING_PAYMENT has by `SagaTheorems.ClosingIsFinal`.
- Persistence.SaveKeeps: is stated for orders whose items are their own, which `Persistence.LoadedOrdersOwnTheirItems` gives for orders loaded before.
