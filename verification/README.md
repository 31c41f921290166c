# Verification of the order, money and pricing core

A Dafny model of the delivery platform's hardest logic, with proofs. `dafny verify dfyconfig.toml` checks all of it.

## What is modelled

- **Orders and money.** `Store` is the database: a value `Tables` and a class `Database` with one field per table.
  `CancellationService`, `WriterServices` and `RetryWorker` hold the services as methods that update it; each method's
  contract says that the new tables and the reply are those of a step function (`Cancellations`, `Writers`).
  `CancellationLaws` and `WriterLaws` say what every step comes to, by the statuses, answers and codes themselves.
  `World` puts all steps together: a run is any sequence of customer, carrier, staff, payment and worker events at any
  times, from an empty database. `OrderStatus`, `Commissions` and `Markup` are the status graph, the ledger and the
  rounding. `RequestLaws`, `MoneyLaws`, `MoneyTheorems`, `HistoryLaws`, `Income`, `PaymentLaws` and `WebhookLaws`
  prove what holds in every run; `Witnesses` holds short runs that reach the troubles they describe.
  Nothing about the database is taken for granted: that an order has at most one active commission is proved from the
  graph, not required.
- **Prices.** `Tariff` is the built-in price list, `RateEngine` the engine over database rates, `Seed` the script that
  turns the list into rates. `TariffLaws` says which field or rate prices a parcel; `PriceLaws` and `RateOrder` prove
  that prices never fall with weight, size or distance, and that the two engines agree. `Zones` compares the two ways
  to a route's zone.
- **Small protocols.** `JobLock`, `CredsCache`, `Scheduler`, `EmailWorker`, `DispatchStream` and `AzimuthRegions`.
  `Waybills` says what becomes of every waybill in the runs of `DispatchStream`.
  Where the point is interleaving, the protocol is a state machine over its single steps.

Money is in whole cents, or whole tenge in the price list; rates, weights and prices in between are exact reals.
The carrier's answers, the clock, the settings and whether Redis is up are inputs of each step. An error the source
raises is a value of the reply.

## What the proofs found

- A refund asked for by a cancellation can never be completed by the refund endpoint: it refuses cancelled orders
  (`MoneyTheorems.PendingRefundIsStuck`, `Witnesses.GrantedRefundIsRefused`).
- An order cancelled by the carrier's webhook or the poller keeps its received payment and its active commission,
  whenever it had been paid for (`Income.CarrierCancelStrandsMoney`, `Witnesses.CarrierCancelKeepsMoney`). A tracking
  event that cancels reverses the commission and still keeps the payment (`Income.TrackingCancelNetsLedgerOnly`).
- Checkout writes no history. An order's rows are a chain to its present status exactly as long as checkout never moves
  it when it has rows, which takes an admin override (`HistoryLaws.HistoryChained`, `Witnesses.CheckoutTearsHistory`).
- `count` of the commission summary is not the number of active orders (`Commissions.CountIsActiveRows`).
- The portal's accept works in one of the four statuses it names; its reject works only from the manual queues, which
  no order enters along the graph (`Writers.AcceptOnlyWhenSent`, `HistoryLaws.PortalRejectIsDead`). The automatic
  payment confirmation works only for orders already under review (`Writers.AutoConfirmNeedsReview`).
- All eight scheduled jobs of the worker are functions named `run`, so they share one clock: as long as jobs succeed
  and ticks are thirty seconds to a minute apart, after the first tick only the one with the shortest interval runs
  (`Scheduler.WorkerJobsStarve`). A slower tick lets the first job run again.
- The job lock's DELETE does not check its owner: one late run lets two punctual ones overlap
  (`JobLock.LateDeleteLetsTwoIn`). A reader that is slow to write the cache back brings old credentials back after an
  invalidation (`CredsCache.SlowReaderPoisonsCache`).
- An order may end with two live waybills and no flag: when the carrier's answer is lost and the call is repeated
  (`Waybills.RepeatedPostDoublesWaybill`), when the worker dies before its commit and an operator retries
  (`Waybills.DeathDoublesWaybill`), when the carrier declines a rescheduling's cancellation without an exception
  (`Waybills.RefusedRescheduleDoublesWaybill`), when an operator retries between the two commits of the bookkeeping
  for an unsaved answer (`Waybills.LateBookkeepingDoublesWaybill`), or marks the order as dispatched during the call
  (`Waybills.StaleMarkDoublesWaybill`). An operator who types the lost number recovers it
  (`Waybills.TypedNumberRecovers`). `Waybills.Loses` and `Waybills.Recovers` list the steps, and
  `Waybills.WaybillsAddUp` proves the lists complete.
- The database price engine equals the built-in one exactly for weights from zero up (`Seed.SeededEngineAgrees`); its
  zone differs from the city sets' exactly for a listed receiver and an unlisted sender (`Zones.SeededZonesAgree`).

## Model

| member | source | states |
|---|---|---|
| `OrderStatus.StepKeepsPhase` | backend/app/common/status_machine.py:3-36 | every allowed transition keeps or raises the phase; the unpaid phase is left only for paid or cancelled; nothing leaves cancelled or returned |
| `OrderStatus.PhaseNeverFalls` | backend/app/common/status_machine.py:3-36 | along a graph run of any length the phase never falls, despite the cycles |
| `OrderStatus.OnlyThroughPaid` | backend/app/common/status_machine.py:3-36 | a run that starts unpaid and gets past payment other than by cancelling went through `paid` |
| `OrderStatus.TerminalIsLast` | backend/app/common/status_machine.py:3-36 | nothing follows `cancelled` or `returned` |
| `OrderStatus.PaidOnlyOnce` | backend/app/common/status_machine.py:3-36 | a run visits `paid` at most once |
| `OrderStatus.NothingEntersManualQueues` | backend/app/common/status_machine.py:3-36 | no transition leads into the two manual queues or to an unlisted code |
| `OrderStatus.EnteredFrom` | backend/app/common/status_machine.py:3-36 | the same graph backwards: from exactly which statuses each one is entered |
| `OrderStatus.ReachableFromDraft` | backend/app/common/status_machine.py:3-36 | exactly what a new order can become: every listed status except the manual queues |
| `OrderStatus.NoWayBackToDispatch` | backend/app/common/status_machine.py:3-36 | after `picked_up` no run returns to dispatch |
| `Markup.RoundHalfEven` | backend/app/modules/commissions/markup.py:25-26 | the result is a whole number at most half away, even on a tie |
| `Markup.RoundIsUnique` | backend/app/modules/commissions/markup.py:44-70 | only one whole number can be the half-even rounding |
| `Markup.RoundMonotone` | backend/app/modules/commissions/markup.py:44-70 | rounding keeps order |
| `Markup.PercentageMarkup` | backend/app/modules/commissions/markup.py:44-70 | a percentage markup is within half a cent of price times rate, and between 0 and the price for rates in [0, 1] |
| `Markup.MarkupMonotone` | backend/app/modules/commissions/markup.py:44-70 | with non-negative settings a dearer price never gets a smaller markup |
| `Markup.CalculateAgrees` | backend/app/modules/commissions/service.py:179-192 | the ledger's calculator agrees with the markup's on every known kind; on any other exactly when the combined amount rounds to nothing |
| `Markup.CalculatedExactly` | backend/app/modules/commissions/service.py:179-192 | each kind's commission is within half a cent of its share plus its fixed part, a fixed one exactly |
| `Markup.ConfiguredExactly` | backend/app/modules/commissions/markup.py:44-70 | so is each known kind's markup; an unknown one is nothing |
| `Commissions.FindActive` | backend/app/modules/commissions/repository.py:45-51 | the first active row of the order, or none exists |
| `Commissions.ReverseIsOnce` | backend/app/modules/commissions/service.py:122-173 | a reversal closes the order's first active row, with reason and time, and appends its mirror image, every amount negated; else nothing changes |
| `Commissions.ReverseTotal` | backend/app/modules/commissions/service.py:122-173 | what one reversal does to every filtered sum |
| `Commissions.ReverseKeepsPaired` | backend/app/modules/commissions/service.py:122-173 | a reversal keeps reversed and reversal rows in one-to-one correspondence, amounts negated, order and carrier equal |
| `Commissions.ReverseKeepsNetted` | backend/app/modules/commissions/service.py:122-173 | after a reversal all rows still add up to the active ones, per order and carrier |
| `Commissions.ReversedOrderIsZero` | backend/app/modules/commissions/service.py:122-173 | reversing an order's only active row makes its gross, payout and commission zero |
| `Commissions.ReverseKeepsOtherOrders` | backend/app/modules/commissions/service.py:122-173 | no sum of another order changes |
| `Commissions.ReverseTwice` | backend/app/modules/commissions/service.py:122-144 | a second reversal changes nothing if and only if the order had at most one active row |
| `Commissions.LedgerLaw` | backend/app/modules/commissions/service.py:26-173 | any sequence of records and reversals leaves the ledger paired and netted |
| `Commissions.ConsistentTermsSplit` | backend/app/modules/commissions/service.py:99-120 | with consistent explicit payouts every row splits into payout and commission |
| `Commissions.TurnoverSplits` | backend/app/modules/commissions/repository.py:77-120 | so does every sum, legacy rows without a payout included |
| `Commissions.CountIsActiveRows` | backend/app/modules/commissions/repository.py:89-120 | the reported count is the number of active rows if and only if nothing was reversed or nothing is active |
| `Commissions.SummaryIsActive` | backend/app/modules/commissions/repository.py:77-120 | after any operations the summary's sums are those of the active rows, and gross is payout plus commission |
| `Commissions.NewRowCounts` | backend/app/modules/commissions/repository.py:77-120 | a new row adds its own amounts to exactly the sums whose order, carrier and status are its own or open |
| `Commissions.CarriersAddUp` | backend/app/modules/commissions/repository.py:77-120 | over any rows the sums carrier by carrier add up to the sum over all |
| `Commissions.SummaryOf` | backend/app/modules/commissions/repository.py:77-120 | a named carrier's summary is over its rows, an empty name's over all, and the count is never negative |
| `Commissions.QuoteToLedger` | backend/app/modules/commissions/service.py:46-101 | recording a quoted markup pays the carrier exactly its price and stores the rate within 0.00005 |
| `Commissions.FallbackNeverOverpays` | backend/app/modules/commissions/service.py:52-101 | without a stored markup the carrier is never paid more than its price |
| `Store.MoveTransactions` | backend/app/modules/cancellations/service.py:681-705 | moves exactly the order's transactions in the given statuses, one history row each, in id order |
| `Store.OneRowPerMove` | backend/app/modules/cancellations/service.py:681-705 | a moved transaction gets exactly its own history row, any other none |
| `CancellationService.CommissionsService.ReverseForOrder` | backend/app/modules/commissions/service.py:122-173 | the loop over the ledger reverses the first active row, or changes nothing |
| `Commissions.RecordKeepsPaired` | backend/app/modules/commissions/service.py:26-120 | recording keeps reversed and reversal rows in correspondence |
| `Commissions.RecordKeepsNetted` | backend/app/modules/commissions/service.py:26-120 | and all rows adding up to the active ones |
| `CancellationService.CancellationRequestsService.StopActiveJobs` | backend/app/modules/cancellations/service.py:647-663 | cancels exactly the order's queued and failed dispatch jobs |
| `CancellationService.CancellationRequestsService.FinalizeCancellation` | backend/app/modules/cancellations/service.py:608-705 | the whole new database, or none of it if the graph refuses |
| `CancellationService.CancellationRequestsService.FinalizeAndClose` | backend/app/modules/cancellations/service.py:543-606 | order and request together, or the request closed because the order moved on |
| `CancellationService.CancellationRequestsService.GetPendingForOrder` | backend/app/modules/cancellations/repository.py:41-49 | finds a pending request if and only if there is one |
| `CancellationService.CancellationRequestsService.CancelUnpaidOrder` | backend/app/modules/cancellations/service.py:192-234 | open payments closed, then the order finalized |
| `CancellationService.CancellationRequestsService.CreateRequestAndNotify` | backend/app/modules/cancellations/service.py:455-499 | the new request, with a first retry exactly when the API was tried and failed |
| `CancellationService.CancellationRequestsService.RequestCancellation` | backend/app/modules/cancellations/service.py:109-190 | every branch and refusal of the customer's request, with the whole new database |
| `CancellationService.CancellationRequestsService.ApproveByCarrier` | backend/app/modules/cancellations/service.py:240-259 | as the step function, refusals included |
| `CancellationService.CancellationRequestsService.ApproveByAdmin` | backend/app/modules/cancellations/service.py:261-277 | as the step function, refusals included |
| `CancellationService.CancellationRequestsService.RetryApiCancel` | backend/app/modules/cancellations/service.py:279-324 | as the step function, for every carrier answer |
| `CancellationService.CancellationRequestsService.AutoRetryApiCancel` | backend/app/modules/cancellations/service.py:326-398 | stale, cancelled, rescheduled or exhausted, with the whole new database |
| `CancellationService.CancellationRequestsService.RejectRequest` | backend/app/modules/cancellations/service.py:400-435 | as the step function, refusals included |
| `CancellationLaws.SetsFollowGraph` | backend/app/modules/cancellations/service.py:45-74 | the service's status sets are those the graph lets be cancelled, cut by the stage of the order's life |
| `CancellationLaws.CustomerAnswer` | backend/app/modules/cancellations/service.py:167-190 | where a customer's request reaches the carrier the order ends cancelled if and only if it accepted; on each other answer only a pending request is added, with that answer's error and a retry in 30 seconds |
| `CancellationLaws.AnswerMattersIffCalled` | backend/app/modules/cancellations/service.py:138-167 | the outcome depends on the carrier's answer if and only if text, owner, status, carrier and requests are such that it is asked |
| `CancellationLaws.CustomerOutcome` | backend/app/modules/cancellations/service.py:109-190 | each outcome of a customer's request and exactly when, in whose name the order is cancelled, and that a refusal changes nothing |
| `CancellationLaws.ManualRetryAnswer` | backend/app/modules/cancellations/service.py:279-324 | a manual retry cancels if and only if the carrier accepted, else it notes the error and leaves schedule and count |
| `CancellationLaws.ManualRetryMattersIffCalled` | backend/app/modules/cancellations/service.py:279-305 | and the answer matters exactly for a pending request of an API carrier whose order is paid or sent |
| `CancellationLaws.Approvals` | backend/app/modules/cancellations/service.py:240-277 | an approval grants the request if its order may still be cancelled, or is, else rejects it; another carrier's approval changes nothing |
| `CancellationLaws.Rejection` | backend/app/modules/cancellations/service.py:400-435 | a rejection closes the request, and only it, if the text is readable and the carrier its own or the actor an admin |
| `CancellationLaws.AutomaticRetryAnswer` | backend/app/modules/cancellations/service.py:357-398 | a due retry cancels if and only if the carrier accepted, else it spends one of three retries: the next in 120, then 600 seconds, then none |
| `CancellationLaws.OtherTurnsCallNobody` | backend/app/modules/cancellations/service.py:340-356 | any other turn calls nobody; a due request that may not be retried loses its schedule, nothing else changes |
| `CancellationLaws.FinalizedOrder` | backend/app/modules/cancellations/service.py:665-679 | the order is cancelled and nothing else of it or another order changes, with one history and one tracking row |
| `CancellationLaws.UnpaidCloses` | backend/app/modules/cancellations/service.py:192-234 | cancelling before payment closes exactly the order's unpaid, awaiting and rejected transactions |
| `CancellationLaws.GrantedIff` | backend/app/modules/cancellations/service.py:543-606 | in every graph run a request ends cancelled by the API if and only if the carrier accepted a call for it, and approved if and only if its carrier or an admin approved it in time |
| `RequestLaws.SpacedFromCreation` | backend/app/modules/cancellations/service.py:79-84 | calls that keep their own gaps keep the sum of the backoffs from creation |
| `RequestLaws.CloseOutcome` | backend/app/modules/cancellations/service.py:543-606 | closing resolves exactly this request, and its order is cancelled if it was granted |
| `RequestLaws.DueHasBudget` | backend/app/modules/cancellations/service.py:326-398 | a due request has a call left, so the backoff index is in range |
| `RequestLaws.RunKeeps` | backend/app/modules/cancellations/service.py:109-435 | every step of every graph run keeps the request invariant |
| `RequestLaws.RequestLife` | backend/app/modules/cancellations/service.py:109-234 | in every graph run: at most one pending request per order; a granted request's order is cancelled; no pending request on an unpaid order |
| `RequestLaws.RetryBudget` | backend/app/modules/cancellations/service.py:326-398 | at most MAX_RETRIES automatic calls that were committed, the k-th no earlier than creation plus the first k backoffs; a scheduled retry has a call left and an API |
| `RequestLaws.EveryCallIsOnTime` | backend/workers/jobs/retry_cancellations.py:53-61 | the logged calls are the carrier's calls less those of turns that raised later, and every call, rolled back or not, comes with a retry left and no earlier than the backoffs due by then |
| `RequestLaws.ResolvedIsFinal` | backend/app/modules/cancellations/service.py:437-445 | a resolved request never changes again, whatever happens |
| `RequestLaws.GrantedStaysCancelled` | backend/app/modules/cancellations/service.py:543-606 | a granted cancellation holds after any further graph run |
| `RequestLaws.GraphNeverRefuses` | backend/app/modules/cancellations/service.py:637-643 | the graph refusal inside the service is unreachable; API paths never find the order moved on |
| `RequestLaws.DueRetryMakesProgress` | backend/app/modules/cancellations/service.py:326-398 | each due retry resolves, unschedules, or spends one of the calls left and waits its backoff |
| `MoneyLaws.FinalizedKeeps` | backend/app/modules/cancellations/service.py:608-705 | finalization keeps the books in order |
| `MoneyLaws.RunKeeps` | backend/app/modules/payments/payment_service.py:63-560 | every step of every graph run keeps ledger, payments and order statuses consistent |
| `MoneyTheorems.FinalizedMoney` | backend/app/modules/cancellations/service.py:645-705 | one finalization: ledger zero, exactly the paid transactions pending refund, each with its own row, exactly the queued and failed jobs of an order before the carrier cancelled, other orders untouched |
| `MoneyTheorems.OneActiveCommission` | backend/app/modules/commissions/service.py:26-120 | in every graph run an order has at most one active commission row |
| `MoneyTheorems.UnpaidHasNoMoney` | backend/app/modules/payments/payment_service.py:221-310 | an order in the unpaid phase has no commission row and no money taken |
| `MoneyTheorems.ServiceCancellationNets` | backend/app/modules/cancellations/service.py:608-705 | whenever the service cancels a paid-for order, in any graph run, all of the above holds of it |
| `MoneyTheorems.UnpaidCancellationIsFree` | backend/app/modules/cancellations/service.py:192-234 | cancelling before payment moves no money |
| `PaymentLaws.ConfirmedRow` | backend/app/modules/payments/payment_service.py:279-290 | a confirmed payment adds one row: gross the amount, commission the stored markup and payout the stored carrier price; without them the settings' share and the rest |
| `PaymentLaws.RunKeepsPriced` | backend/app/modules/payments/payment_service.py:42-131 | in every graph run each payment is for its order's price and each active row as the order was priced |
| `PaymentLaws.LedgerPaysAsPriced` | backend/app/modules/commissions/service.py:26-120 | in every graph run the ledger of an order past payment and not cancelled adds up to one active row, as priced |
| `PaymentLaws.CarrierGetsItsPrice` | backend/app/modules/commissions/markup.py:44-70 | so an order quoted at carrier price plus markup pays its carrier exactly that price and the platform exactly the markup |
| `MoneyTheorems.RefundNeedsLiveOrder` | backend/app/modules/payments/payment_service.py:479-536 | a pending refund of an existing order goes through if and only if the order may be cancelled, else nothing changes |
| `MoneyTheorems.PendingRefundIsStuck` | backend/app/modules/payments/payment_service.py:479-536 | a pending refund is refused, now and after any graph run |
| `Witnesses.GrantedRefundIsRefused` | backend/app/modules/payments/payment_service.py:479-536 | a run from placing to a granted cancellation whose refund is refused |
| `Income.RunKeepsIncome` | backend/app/modules/payments/payment_service.py:221-310 | in every graph run an order past payment and not cancelled has an active commission row and a received payment |
| `Income.LedgerZeroIff` | backend/app/modules/commissions/repository.py:77-120 | an order's sums are zero if and only if its active row is worth nothing |
| `Income.CarrierCancelStrandsMoney` | backend/app/api/v1/carrier_tracking.py:150-213 | when the carrier cancels an order in any graph run: a payment stays if and only if it had been paid for, and the ledger is zero if and only if no active row is worth anything |
| `Income.TrackingCancelNetsLedgerOnly` | backend/app/modules/tracking/service.py:61-99 | when a tracking event cancels: the ledger is zero, and a payment stays if and only if it had been paid for |
| `Witnesses.CarrierCancelKeepsMoney` | backend/app/api/v1/carrier_tracking.py:150-213 | a run to a carrier-cancelled order with 50.00 received and 50.00 gross on the ledger |
| `RetryWorker.ListDueForRetry` | backend/app/modules/cancellations/repository.py:86-99 | due requests only, soonest first, at most the limit, none cut off that is due before a listed one |
| `RetryWorker.RunPass` | backend/workers/jobs/retry_cancellations.py:46-73 | the batch is due and distinct, and the new database is the pass over it, failing turns included |
| `RetryWorker.PassFrame` | backend/workers/jobs/retry_cancellations.py:46-73 | a pass changes no request outside its batch |
| `RetryWorker.PassClearsDue` | backend/workers/jobs/retry_cancellations.py:46-73 | after a pass every served request is no longer due, and a crashed one is as before |
| `Writers.AcceptOnlyWhenSent` | backend/app/api/v1/carrier_portal.py:675-727 | accepting works if and only if the order is `sent_to_carrier` |
| `Writers.RejectOnlyFromManualQueues` | backend/app/api/v1/carrier_portal.py:730-782 | rejecting works if and only if the order is in a manual queue |
| `Writers.AutoConfirmNeedsReview` | backend/app/modules/payments/payment_service.py:389-477 | automatic confirmation works if and only if payment and order are under review |
| `Writers.UnknownCarrierCodeNeverMoves` | backend/app/api/v1/carrier_tracking.py:150-213 | an unknown carrier code only leaves a tracking event |
| `WriterServices.PaymentService.InitiateBankTransfer` | backend/app/modules/payments/payment_service.py:42-131 | refused while a live payment exists or bank details are unset, else the payment, its row and the order's move |
| `WriterServices.OrdersService.UpdateShipmentDetails` | backend/app/modules/orders/service.py:545-660 | the status and price parts: an own editable order moves, without a history row |
| `WriterServices.OrdersService.ProceedToCheckout` | backend/app/modules/orders/service.py:341-404 | the status and price parts: an own complete order moves, without a history row |
| `WriterServices.TrackingService.AddEvent` | backend/app/modules/tracking/service.py:61-119 | the event always, and the order's move with its storno if the graph allows it |
| `WriterServices.PaymentService.ConfirmPayment` | backend/app/modules/payments/payment_service.py:221-310 | payment, order, commission and dispatch job together, or a refusal and nothing |
| `WriterServices.PaymentService.AdminRefund` | backend/app/modules/payments/payment_service.py:479-560 | refund, reversal and cancellation together, or a refusal and nothing |
| `WriterServices.CarrierEndpoints.TrackingWebhook` | backend/app/api/v1/carrier_tracking.py:104-213 | duplicate, invalid or applied, with the whole new database |
| `WriterServices.CarrierEndpoints.AcceptOrder` | backend/app/api/v1/carrier_portal.py:675-727 | as the step function, refusals included |
| `WriterServices.CarrierEndpoints.RejectOrder` | backend/app/api/v1/carrier_portal.py:730-782 | as the step function, refusals included |
| `WriterServices.CarrierEndpoints.UploadPod` | backend/app/api/v1/carrier_portal.py:785-860 | as the step function, refusals included |
| `WriterServices.AdminOrders.UpdateOrderStatus` | backend/app/api/v1/admin_orders.py:669-728 | any status, with its history row |
| `WriterServices.AdminOrders.MarkDispatched` | backend/app/api/v1/admin_orders.py:899-948 | the status part: as the step function, refusals included |
| `WriterLaws.CheckoutOutcome` | backend/app/modules/orders/service.py:341-404 | saving details and checking out: exactly when they go through, the status and the four price fields they leave, and that a refusal changes nothing |
| `WriterLaws.OpeningOutcome` | backend/app/modules/payments/payment_service.py:63-131 | a payment opens for the order's price if and only if none is alive and the order is in checkout or rejected |
| `WriterLaws.ProofOutcome` | backend/app/modules/payments/payment_service.py:149-219 | a proof puts its own awaited or rejected payment under review, and the order if it waits for it |
| `WriterLaws.DecliningOutcome` | backend/app/modules/payments/payment_service.py:312-375 | declining works if and only if payment and order are under review, and rejects both |
| `WriterLaws.ConfirmationOutcome` | backend/app/modules/payments/payment_service.py:221-310 | a confirmed payment is paid, its order queued through `paid` with two rows and one queued job, else nothing changes |
| `WriterLaws.TwoConfirmations` | backend/app/modules/payments/payment_service.py:389-477 | exactly when the admin's confirmation and the automatic one go through |
| `WriterLaws.RefundOutcome` | backend/app/modules/payments/payment_service.py:479-560 | a refund settles a paid or pending transaction, cancels the order and reverses its first active row, or changes nothing |
| `WriterLaws.CodesUnderWay` | backend/app/modules/tracking/status_mapper.py:13-65 | which carrier codes, in either case, mean each status on the way |
| `WriterLaws.CodesAtTheEnd` | backend/app/modules/tracking/status_mapper.py:13-65 | and at its end; any other code is unknown |
| `WriterLaws.WebhookOutcome` | backend/app/api/v1/carrier_tracking.py:104-213 | a new event of the own carrier is remembered and tracked, moves the order if and only if its code is known and the graph allows it, and touches no money or job |
| `WriterLaws.TrackingOutcome` | backend/app/modules/tracking/service.py:61-119 | an event is logged, moves the order for seven statuses if the graph allows it, and reverses the commission on cancelling |
| `WriterLaws.PortalOutcome` | backend/app/api/v1/carrier_portal.py:675-860 | accepting, rejecting and uploading a proof: exactly when each goes through on an own order, and where it leads |
| `WriterLaws.OverrideOutcome` | backend/app/api/v1/admin_orders.py:669-728 | an override sets any listed status, and reverses the commission exactly when it newly cancels |
| `WriterLaws.DispatchingOutcome` | backend/app/api/v1/admin_orders.py:899-948 | dispatching by hand works if and only if the order is queued |
| `World.StepFollows` | backend/app/common/status_machine.py:43-53 | without overrides every step of the whole system moves each order along the graph |
| `HistoryLaws.StepChain` | backend/app/modules/orders/repository.py:168-182 | every step keeps a chained history chained and a torn one torn, except that a late checkout step tears it |
| `HistoryLaws.HistoryChained` | backend/app/modules/cancellations/service.py:665-674 | in every run, overrides included, an order's rows are a chain ending in its status if and only if checkout never moved it when it had rows |
| `HistoryLaws.RunKeepsTidy` | backend/app/modules/orders/repository.py:168-182 | of an order nobody overrode checkout never does, and the rows keep to the graph |
| `HistoryLaws.HistoryShowsPayment` | backend/app/api/v1/carrier_portal.py:696-707 | of an order nobody overrode: no rows exactly in checkout, else a graph run from checkout to the present status; past payment there is a `paid` row |
| `Witnesses.CheckoutTearsHistory` | backend/app/api/v1/admin_orders.py:669-706 | a run of six steps whose order's history no longer links up |
| `HistoryLaws.NeverInManualQueue` | backend/app/common/status_machine.py:3-36 | without overrides no order is ever in a manual queue |
| `HistoryLaws.PortalRejectIsDead` | backend/app/api/v1/carrier_portal.py:730-782 | so the portal's reject never succeeds |
| `WebhookLaws.KnownKeys` | backend/app/api/v1/carrier_tracking.py:104-148 | an event key is known at the end of a run if and only if some step accepted it |
| `WebhookLaws.RepeatDoesNothing` | backend/app/api/v1/carrier_tracking.py:104-120 | a known event changes nothing |
| `WebhookLaws.RepeatsDoNotMatter` | backend/app/api/v1/carrier_tracking.py:104-213 | a run with any repeats of accepted events anywhere ends exactly as without them |
| `Tariff.Ceil` | backend/app/modules/carriers/tariff_engine.py:139-141 | the least whole number not below |
| `Tariff.FirstFit` | backend/app/modules/carriers/tariff_engine.py:156-161 | the first row that reaches the weight |
| `Tariff.LookupStandardPrice` | backend/app/modules/carriers/tariff_engine.py:156-164 | the loop finds the first row that reaches the weight, or prices the excess |
| `Tariff.RatesOrdered` | backend/app/modules/carriers/tariff_engine.py:71-97 | thresholds and every price column ascend along the table |
| `Tariff.SortQuotesOrder` | backend/app/modules/carriers/tariff_engine.py:480-481 | quotes come cheapest first, the faster first among equals |
| `Tariff.SortQuotesMembers` | backend/app/modules/carriers/tariff_engine.py:480-481 | sorting keeps exactly the same quotes |
| `PriceLaws.ChargeableIsLeast` | backend/app/modules/carriers/tariff_engine.py:139-153 | the chargeable weight is the least half-kilo multiple not below actual and volumetric weight |
| `PriceLaws.ChargeableMonotone` | backend/app/modules/carriers/tariff_engine.py:144-153 | it never falls with weight, pieces or size |
| `PriceLaws.TogetherIsNoDearer` | backend/app/modules/carriers/tariff_engine.py:144-153 | several pieces weigh at most as much together as one by one |
| `PriceLaws.TablePriceMonotone` | backend/app/modules/carriers/tariff_engine.py:156-164 | list prices never fall with weight, across the end of the table too |
| `PriceLaws.ColumnMonotone` | backend/app/modules/carriers/tariff_engine.py:71-108 | nor with the zone |
| `PriceLaws.EconomyMonotone` | backend/app/modules/carriers/tariff_engine.py:167-174 | nor do economy prices, between cities |
| `PriceLaws.MoreNeverCostsLess` | backend/app/modules/carriers/tariff_engine.py:139-174 | a parcel no lighter, smaller or fewer, sent no nearer, never has a lower total after markup |
| `TariffLaws.PriceByRow` | backend/app/modules/carriers/tariff_engine.py:413-450 | up to ten kilograms each zone's standard and express prices are its own named fields of the first row that reaches |
| `TariffLaws.PriceAboveTable` | backend/app/modules/carriers/tariff_engine.py:99-108 | above, the last row plus the zone's own surcharge for each started half kilogram |
| `TariffLaws.EconomyByZone` | backend/app/modules/carriers/tariff_engine.py:167-174 | economy is a flat price by zone plus a surcharge for each started kilogram above ten |
| `TariffLaws.OffersByZone` | backend/app/modules/carriers/tariff_engine.py:413-481 | exactly the offers of a zone, each under its tariff, zone and weight; no economy inside a city |
| `TariffLaws.TimesByZone` | backend/app/modules/carriers/tariff_engine.py:413-481 | farther is never faster, and express never slower than standard |
| `TariffLaws.OffersInOrder` | backend/app/modules/carriers/tariff_engine.py:480-481 | offers by price, then by time; inside a city standard before express at one price |
| `TariffLaws.FartherIsDearer` | backend/app/modules/carriers/tariff_engine.py:71-108 | standard and express prices rise strictly with the zone, for every weight |
| `TariffLaws.ServiceUsesChosenRate` | backend/app/modules/carriers/tariff_engine.py:484-598 | on any rows a service is quoted if and only if it is active with an active rate of the zone, by the lowest-bound rate that holds the weight, else one of the highest bound |
| `RateEngine.FirstCover` | backend/app/modules/carriers/tariff_engine.py:571-578 | the first bracket that covers the weight |
| `RateEngine.FindApplicable` | backend/app/modules/carriers/tariff_engine.py:571-580 | the loop finds the first covering bracket, else the last |
| `RateEngine.QuotesFromCarrier` | backend/app/modules/carriers/tariff_engine.py:561-598 | one quote for each active service with rates in the zone, in order |
| `RateEngine.QuotesFromCarriers` | backend/app/modules/carriers/tariff_engine.py:538-598 | the carriers in order, each by its own zone for the route or the fallback |
| `RateEngine.FirstMatchIsTheBracket` | backend/app/modules/carriers/tariff_engine.py:561-580 | on a contiguous list first match picks a bracket if and only if it is the left-open one holding the weight, the first at the lowest bound |
| `Seed.StandardRateRows` | backend/scripts/seed.py:164-178 | the brackets lie end to end from zero and the last is open |
| `Seed.SeedZone` | backend/scripts/seed.py:180-249 | one rate per bracket, the open one with the surcharge |
| `Seed.SeedRates` | backend/scripts/seed.py:162-288 | the loops write exactly the seeded services |
| `Seed.BlockIsContiguous` | backend/scripts/seed.py:164-212 | every seeded block is contiguous, sorted and open at the top |
| `Seed.BlockPrice` | backend/app/modules/carriers/tariff_engine.py:484-504 | a seeded block prices every weight from zero up as the table does |
| `Seed.SeededQuotes` | backend/app/modules/carriers/tariff_engine.py:538-598 | the engine's quotes on the seeded services, for every weight |
| `Seed.SeededEngineAgrees` | backend/app/modules/carriers/tariff_engine.py:413-481 | the two engines return the same quotes if and only if the weight is not negative |
| `Seed.SeededCarrierQuotes` | backend/app/modules/carriers/tariff_engine.py:538-630 | with seeded rates and cities a route's quotes are the built-in ones of its database zone, and of the fallback zone if and only if the zones are the same |
| `RateOrder.SortIsSorted` | backend/app/modules/carriers/tariff_engine.py:561-564 | sorting rates is sorting: ordered and the same rows |
| `RateOrder.OneSortedOrder` | backend/app/modules/carriers/tariff_engine.py:561-564 | rows with distinct lower bounds have one sorted order |
| `RateOrder.AnyOrderQuotes` | backend/app/modules/carriers/tariff_engine.py:538-598 | whatever order the database gives services and rows in, the quotes are the built-in ones |
| `Zones.SeedCities` | backend/scripts/seed.py:290-326 | the loops list exactly the known cities, regional before district |
| `Zones.FourZones` | backend/app/modules/carriers/tariff_engine.py:218-252 | what the four zones mean, that the way back is as far, and when the region catalogue decides |
| `Zones.SeededRoute` | backend/app/modules/carriers/tariff_engine.py:507-535 | what seeded cities say of every route |
| `Zones.SeededZonesAgree` | backend/app/modules/carriers/tariff_engine.py:218-252 | database zone and city sets' zone agree if and only if the route stays in a city, the sender's city is known, or the receiver's is not, and the database's is never higher; and exactly when a zone from the region catalogue is kept |
| `JobLock.Cluster.Enter` | backend/workers/jobs/retry_cancellations.py:36-39 | the replica goes on exactly when the key was set |
| `JobLock.Cluster.Leave` | backend/workers/jobs/retry_cancellations.py:40-43 | the key is gone, whoever set it |
| `JobLock.AtMostOneInside` | backend/workers/jobs/sync_tracking.py:28-37 | in every interleaving with no late run at most one replica is inside, and the key is its own |
| `JobLock.SecondEntersIffFirstIsLate` | backend/workers/jobs/retry_cancellations.py:35-43 | a second replica gets in if and only if the first outlives its key |
| `JobLock.CrashBlocksUntilExpiry` | backend/workers/jobs/retry_cancellations.py:35-43 | after a crash every attempt fails until exactly the end of the TTL |
| `JobLock.DeleteFrees` | backend/workers/jobs/retry_cancellations.py:42-43 | after a punctual run the next attempt gets in |
| `JobLock.LateDeleteLetsTwoIn` | backend/workers/jobs/retry_cancellations.py:42-43 | a run of five steps in which two punctual replicas overlap |
| `CredsCache.CredsStore.ReadFromRedis` | backend/app/modules/carriers/creds_cache.py:61-70 | a fresh entry is returned, anything else is a miss |
| `CredsCache.CredsStore.GetCreds` | backend/app/modules/carriers/creds_cache.py:99-107 | undisturbed, the fresh entry or the newest row, and what is cached after |
| `CredsCache.StalenessBound` | backend/app/modules/carriers/creds_cache.py:61-107 | in every interleaving each answer was the database's value at most the TTL and the slowest write-back gap ago |
| `CredsCache.AnswersAreExplained` | backend/app/modules/carriers/creds_cache.py:61-107 | in every interleaving each answer was read from the row by one reader while current, and given as that reader wrote it back or from the cache within the TTL of that write |
| `CredsCache.InvalidateWorksIffNoSlowReader` | backend/app/modules/carriers/creds_cache.py:86-95 | after an invalidation every later answer is the newest if and only if no reader still holds an older row |
| `CredsCache.SlowReaderPoisonsCache` | backend/app/modules/carriers/creds_cache.py:99-107 | a run of six steps in which a new reader gets the old value after the invalidation |
| `Scheduler.WorkerScheduler.Add` | backend/workers/scheduler.py:17-20 | the job appended and its name's clock reset |
| `Scheduler.WorkerScheduler.RunDue` | backend/workers/scheduler.py:22-36 | the loop is the turn of each job in order |
| `Scheduler.SkippedIffNameRanRecently` | backend/workers/scheduler.py:22-36 | a job is skipped if and only if some job of its name succeeded within its interval |
| `Scheduler.AttemptsAreSpaced` | backend/workers/scheduler.py:22-36 | no attempt comes within its interval of an earlier success under its name |
| `Scheduler.DistinctJobsNeverStarve` | backend/workers/scheduler.py:22-36 | with distinct names a job is skipped if and only if it succeeded itself within its interval |
| `Scheduler.FailedJobIsRetried` | backend/workers/scheduler.py:30-36 | with distinct names a failed job is due again at the next tick, whatever the others do |
| `Scheduler.WorkerJobsStarve` | backend/workers/main.py:104-128 | with the worker's registrations the first tick runs the first job and every later one only retry_cancellations |
| `EmailWorker.Outbox.ListDue` | backend/workers/jobs/send_email_notifications.py:31-45 | due jobs only, oldest first, at most twenty, none cut off that is older than a listed one |
| `EmailWorker.Outbox.RunPass` | backend/workers/jobs/send_email_notifications.py:31-51 | the batch is due and the new outbox is the pass over it |
| `EmailWorker.TriesAreBounded` | backend/workers/jobs/send_email_notifications.py:54-73 | in every run at most `max_attempts` tries, try k + 1 at least 5 k (k + 1) / 2 minutes after the first |
| `EmailWorker.FinishedIsFinal` | backend/workers/jobs/send_email_notifications.py:31-45 | a sent or used-up job is never tried again |
| `EmailWorker.PassMakesProgress` | backend/workers/jobs/send_email_notifications.py:54-73 | each committed turn uses up one of the attempts left |
| `EmailWorker.SentIffDelivered` | backend/workers/jobs/send_email_notifications.py:54-73 | in every run a job is sent if and only if a committed delivery of it returned, which is then its last; a raised one is due again exactly from the try's end plus five minutes for each try |
| `Queries.Select` | backend/app/modules/cancellations/repository.py:86-99 | the due rows, least key first; at the limit only rows with no smaller key are cut off |
| `DispatchStream.NoMessageIsLost` | backend/workers/consumers/dispatch_consumer.py:16-59 | in every interleaving a delivered message is acknowledged or pending, and one being handled is pending |
| `DispatchStream.QueueingsStartOnce` | backend/workers/consumers/dispatch_consumer.py:62-78 | no queueing of a job is ever started twice, over redelivery, polling and operators |
| `DispatchStream.CancelledJobsStayCancelled` | backend/app/modules/cancellations/service.py:647-663 | a job cancelled with its order is never queued or started again |
| `DispatchStream.WorkersOwnTheirJobs` | backend/app/modules/dispatch/service.py:194-209 | in every run no two workers hold the same job before their last commit, and a held job is in progress |
| `DispatchStream.CancelledOrderIsNotShipped` | backend/app/modules/dispatch/service.py:211-233 | from any state, a cancelled order stays so and never gets another waybill, unless its status is overridden or someone acts on what it was before |
| `DispatchStream.RecordedTurn` | backend/app/modules/dispatch/service.py:262-300 | a saved answer completes the job and hands the order over, keeping a stored number and asking only without one |
| `DispatchStream.SkippedTurn` | backend/app/modules/dispatch/service.py:219-233 | an order no longer queued is left alone and the job cancelled |
| `DispatchStream.RefusedTurn` | backend/app/modules/dispatch/service.py:346-387 | a refusal that may be retried puts the job back, any other fails it and the queued order |
| `DispatchStream.UnsavedTurn` | backend/app/modules/dispatch/service.py:389-445 | an unsaved answer fails the job at once, and number and failure follow by a commit of their own or not at all |
| `DispatchStream.RetryOutcome` | backend/app/modules/dispatch/service.py:447-505 | an operator's retry starts the order's last job if failed or queued, else a new one |
| `DispatchStream.RescheduleOutcome` | backend/app/modules/orders/service.py:775-812 | rescheduling queues a sent or failed order with a new job, and leaves a queued one its own |
| `DispatchStream.CancelOutcome` | backend/app/modules/cancellations/service.py:647-666 | cancelling drops exactly the order's queued and failed jobs, if the order was before the carrier |
| `Waybills.StepAccounts` | backend/app/modules/dispatch/service.py:179-260 | after any step a waybill is live, unflagged and not stored if and only if the step lost it, or it was so before and the step did not recover it |
| `Waybills.WaybillsAddUp` | backend/app/modules/dispatch/service.py:179-260 | in every run a waybill is live, unflagged and not the stored one if and only if some step lost it and none since recovered it |
| `Waybills.SecondWaybillIffLost` | backend/app/modules/orders/service.py:735-775 | two live waybills of an order are unflagged if and only if one is lost and another is unflagged |
| `Waybills.RepeatedPostDoublesWaybill` | backend/app/core/carrier_gateway_client.py:69-97 | a run of four steps in which the repeated call leaves two live waybills and no flag |
| `Waybills.DeathDoublesWaybill` | backend/app/modules/dispatch/service.py:447-505 | a run of six steps that ends the same way after a worker died |
| `Waybills.RefusedRescheduleDoublesWaybill` | backend/app/modules/orders/service.py:735-775 | a run of seven steps that ends the same way after a declined cancellation |
| `Waybills.LateBookkeepingDoublesWaybill` | backend/app/modules/dispatch/service.py:389-445 | a run of eight steps that ends the same way after the late commit wrote its number over the newer one |
| `Waybills.StaleMarkDoublesWaybill` | backend/app/api/v1/admin_orders.py:899-948 | a run of five steps that ends the same way after a number typed during the call |
| `Waybills.TypedNumberRecovers` | backend/app/api/v1/admin_orders.py:899-948 | a run of five steps in which the typed number brings the lost waybill back |
| `AzimuthRegions.Catalogue.UpsertFromApi` | backend/app/modules/carriers/azimuth_regions.py:134-204 | the loop's rows merged in, or nothing if the statement fails |
| `AzimuthRegions.Catalogue.Find` | backend/app/modules/carriers/azimuth_regions.py:96-132 | a matching row of the least zone, or nothing if and only if nothing matches |
| `AzimuthRegions.MergedRow` | backend/app/modules/carriers/azimuth_regions.py:175-203 | a named row becomes the merge of its entry, any other stays |
| `AzimuthRegions.PassLeavesFlag` | backend/app/modules/carriers/azimuth_regions.py:188-198 | a pass of one direction never changes the other flag |
| `AzimuthRegions.FlagIsLastWord` | backend/app/modules/carriers/azimuth_regions.py:188-203 | over any passes a flag is what the last pass of its direction said, or else the inserting one |
| `AzimuthRegions.RowIffNamed` | backend/app/modules/carriers/azimuth_regions.py:134-204 | a row exists if and only if some landed pass named it |
| `AzimuthRegions.RowIsLastWord` | backend/app/modules/carriers/azimuth_regions.py:175-203 | everything but the flags is what the last landed pass naming the row said |
| `AzimuthRegions.EntryBecomes` | backend/app/modules/carriers/azimuth_regions.py:134-175 | an entry with an id and a title becomes one row, its texts cut to the columns, any other none |
| `AzimuthRegions.ZoneNumber` | backend/app/modules/carriers/azimuth_regions.py:86-89 | a zone's number is its first run of digits, or 3 |
| `AzimuthRegions.NewRowsNeverRaiseZone` | backend/app/modules/carriers/azimuth_regions.py:96-132 | adding rows never raises a city's least zone and never loses a city |

## Left out

- In `World` one database transaction is one step; transactions that overlap on the same order are only in
  `DispatchStream`, where whatever reads the order without its lock may act on an older status. Reading and writing the
  dispatch jobs is one step there too, and so are a worker's last commit and its acknowledgement.
- `system_confirm_payment` commits more than once; a crash between its commits is not modelled.
- HTTP routing, authentication, signatures, SQLAlchemy, Redis clients, migrations and cascading deletes.
- Notifications, e-mail texts, audit and integration logs, `dispatch_error`, documents and stored proof-of-delivery files.
- The carrier APIs themselves: their answers are inputs. Live quotes of Exline and CSE, tariff names and static services.
- RequestLaws.RetryBudget: counts the calls that were committed; a turn that raises after its carrier call is rolled back
  and comes again, without bound (`RequestLaws.EveryCallIsOnTime` has those calls too).
- WriterServices.AdminOrders.MarkDispatched: is about the status; the number it stores is in `Waybills`.
- The tracking poller, the dispatch worker and rescheduling are known to `World` only as recorded moves along the graph
  (`World.GraphMove`); what a pickup date or a deleted draft takes with it is not modelled.
- The mock payment that development servers offer (orders/service.py:406-437); it is closed in production.
- Admin status overrides ignore the graph; they are in the history theorem and outside the theorems about graph runs.
- Submitting and declining a payment proof and the Kaspi cancellation are steps on values (`Writers`), without a method.
- Date filters and pagination of the commission list; the 28-digit limit of decimal arithmetic.
- Floating-point rounding in weights: they are exact reals. Whitespace stripping knows ASCII blanks only.
- `JobLock`, `CredsCache` and `DispatchStream` are state machines over single steps because their point is interleaving;
  only the undisturbed paths of the first two are also methods on an object.
- In the dispatch, attempt counts, delays and which errors are permanent are an input (`Refused`); what the carrier
  really made or dropped is an input of each step.
- An e-mail that was sent by a turn whose commit was lost may be sent again; tries are the committed ones.
- Title normalisation of the region catalogue is a parameter; batches with a non-integer id are not modelled.
