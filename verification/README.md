# Koupang: verified model of the ordering saga, its messaging and its algorithmic cores

Koupang is a set of e-commerce services. This project models, in Dafny, what its order, catalog and payment
services do to each other through events, the messaging library they share, and four algorithms of the shared and
catalog crates. It proves what holds over every run.

**The ordering saga.** `Saga.dfy` is one transition system over order rows, SKU counters and reservation rows, the
double-entry ledger, the log of committed outbox events and the idempotency markers. A consumer group may be handed
any event of its topics at any time, any number of times. The pure handlers live in `Orders`, `OrderService`,
`Inventory`, `CatalogService`, `Ledger` and `Payments`; each also has a class whose methods update the tables step by
step and are proved equal to the handlers. `SagaHistory`, `SagaCausality`, `SagaStock`, `SagaRetry` and
`SagaQuiescence` hold the theorems over runs, `SagaGateway` what each answer of the payment gateway leads to;
`SagaSettled` and `SagaWitness` show how far quiescence reaches and where it stops, `SagaMarkers` what a deleted marker
can undo, `SagaBalances` what reachable ledgers add up to, and `SagaRuns` short runs that reach the states these
speak of.

**Reliable messaging.** `Outbox.dfy` is the outbox table with any number of relays, crashes and database failures
between any two steps; `OutboxRelay.dfy` is the relay program, proved to be a run of those steps. `Consumer.dfy` is
the idempotent consumer with its retry loop, dead-letter topic and acknowledgement.

**The job runner.** `Jobs.dfy` is the job table with several runners and their tasks, `JobOutcomes.dfy` what a
handler's answer does to its job, and `JobRunner.dfy` the runner program over it.

**Algorithms.** `Rules`, `RuleSilence` and `ServiceRules` (rule trees), `Pagination` (keyset pages), `CircuitBreaker`
(sliding window), `Text`, `Labels` and `Categories` (labels, slugs and the category tree).

## Conventions and assumptions

- Ids, instants and UUIDs are naturals; money is an exact integer in units of 1/10000, the scale of the ledger's
  columns; JSON payloads are datatypes; an SQL statement is a guarded update of a map or sequence. `Result.Err`
  stands for a rolled-back transaction.
- A handler attempt is one atomic step, since the consumer handles messages one after the other and commits a
  handler's writes together with its marker. `cancel_order` is atomic too.
- Outbox rows of one aggregate get strictly increasing creation times and are due when inserted; ledger rows of one
  order have distinct creation times; event ids are unique.
- Gateway answers, cache and database availability, crashes, clocks and Unicode tables are parameters.

## Where the code differs from what it promises

- The `account_balances` view counts posted transactions only, so it drops the discarded authorization of a voided
  payment and keeps the void. In every run it agrees with the entries exactly for orders that are not voided
  (`SagaBalances.ViewAgreesInRuns`); in every currency a run ends voided with the amount shown as missing
  (`SagaBalances.VoidedRunMisleadsView`).
- Capture and void read a currency that is never stored and fall back to USD. In every run the holding accounts of a
  captured or voided order are cleared exactly if it is in USD (`SagaBalances.HoldingClearedInRuns`); in every other
  currency a run leaves them wrong (`SagaBalances.ForeignCaptureLeavesBalances`).
- An order that names one SKU twice is accepted (`SagaCausality.RepeatedSkuIsCreatable`) but never reserved in any
  run, because of the unique key on order and SKU (`SagaCausality.RepeatedSkuNeverReserved`).
- A failed reservation is announced outside the transaction that rolls back. Delivering an OrderCreated again after
  its refusal is announced is harmless when it does not reserve (`SagaQuiescence.QuiescentConsistency` allows it). When
  it does, the order can always be stranded, cancelled with its stock held for good
  (`SagaWitness.FittingRedeliveryMayStrand`), and if it is already cancelled it always is
  (`SagaWitness.FittingRedeliveryStrands`); one run ends with everything consumed, the order cancelled and the payment
  captured (`SagaWitness.RedeliveredDeadLetterStrandsPayment`).
- If the announcement cannot be written either, the refused OrderCreated is dead-lettered and the order stays pending,
  with nothing left to deliver (`SagaWitness.LostNoteIsSilent`, `SagaWitness.LostNoteLeavesPending`).
- Markers are deleted after a while. In every run, a committed OrderCreated handled again after catalog's marker is
  gone announces a failed reservation for an order that holds its stock (`SagaMarkers.ForgottenCreationIsRefused`),
  and that cancels a confirmed and captured order, without an OrderCancelled and for good
  (`SagaMarkers.ForgottenMarkerUndoesOrder`). A deleted marker of a capture request reopens it
  (`SagaRetry.ForgettingBreaksChain`).
- An OrderCreated that reaches catalog after the order's OrderCancelled reserves stock for a cancelled order exactly
  when it fits and the database serves it (`SagaStock.LateCreatedExactly`).
- The stale-lock release of the job table looks at the age of a lock only. It keeps jobs exclusively held in all
  futures exactly if it frees only jobs that nobody holds (`Jobs.ReleaseIsSafeExactly`); it may free others
  (`Jobs.StaleReleaseLosesExclusion`).
- The stale-lock release of the outbox looks at age only as well: no event is in two relays' batches while it frees no
  row in a live relay's hands (`Outbox.ClaimedByOne`), and otherwise it can be (`Outbox.HeldReleaseIsClaimedTwice`).
- A page request with limit 0 is accepted and sees no row (`Pagination.WalkVisitsAll`).
- A rule may fail without naming a check, under a double negation or at an empty Any (`Rules.SilentFailures`). For
  distinct checks and no constant nodes the shapes that can are characterised exactly
  (`RuleSilence.ExplainsFailureExactly`).
- A slug may have 500 characters, but the category table's column takes 255: a create that is fine otherwise is
  refused exactly for a longer slug (`Categories.RefusedExactlyForLongSlug`), and there are such slugs
  (`Categories.LongSlugExists`).

## Model

| member | source | states |
|---|---|---|
| `Orders.CancellationRuleIsTransition` | order/src/orders/value_objects.rs:44-74 | the buyer's cancellation rule holds exactly in the states from which the machine can move to Cancelled |
| `Orders.PathRises` | order/src/orders/value_objects.rs:44-62 | along any path of permitted transitions the status rank strictly grows: no status is entered twice |
| `Orders.TransitionsExactly` | order/src/orders/value_objects.rs:44-62 | one step along the main line, and to Cancelled from everything before Delivered, are permitted; every other move is an invalid transition |
| `Orders.CreatableInNumbers` | order/src/orders/rules.rs:41-50 | an order is creatable exactly with 1 to 100 lines of 1 to 9999 pieces at a positive price, a value of at least 1.00 and one of five currencies |
| `Orders.ValidateRequest` | order/src/orders/dtos.rs:81-133 | the loop accepts exactly non-empty requests with valid lines, keeps every line in order, and its total is the order's value |
| `OrderService.OrderTables.CreateOrder` | order/src/orders/service.rs:23-96 | a creatable request under a new key creates the row, binds the key and writes OrderCreated; under a used key it returns that key's order and changes nothing; otherwise it is refused |
| `OrderService.OrderTables.UpdateOrderStatus` | order/src/orders/repository.rs:155-192 | moves the one row to the given status and no other |
| `OrderService.OrderTables.HandleInventoryReserved` | order/src/consumers/inventory_events.rs:9-22 | moves a pending order to InventoryReserved, else refuses and changes nothing |
| `OrderService.OrderTables.HandleReservationFailed` | order/src/consumers/inventory_events.rs:25-42 | cancels a cancellable order without writing an event |
| `OrderService.OrderTables.HandlePaymentAuthorized` | order/src/consumers/payment_events.rs:10-39 | passes through PaymentAuthorized to Confirmed and writes one OrderConfirmed, or refuses |
| `OrderService.OrderTables.CancelOnPaymentFailure` | order/src/consumers/payment_events.rs:42-90 | cancels and writes one OrderCancelled, or refuses |
| `OrderService.OrderTables.CancelOrder` | order/src/orders/service.rs:148-208 | the buyer's cancel: cancels and writes one OrderCancelled exactly when the machine permits it |
| `OrderService.HandleDecides` | order/src/consumers/handler.rs:16-44 | for every handled event and every status: whether it is accepted, the one row it moves and to which status, and the event written; PaymentFailed and PaymentTimedOut cancel every cancellable order with one OrderCancelled |
| `OrderService.CancelDecides` | order/src/orders/service.rs:148-208 | the buyer's cancel succeeds exactly for cancellable orders, and then cancels that row and writes one OrderCancelled |
| `Inventory.ReserveAllExactly` | catalog/src/inventory/service.rs:128-159 | a reservation succeeds if and only if every line fits the stock at the start, SKUs are distinct and free of the order's rows; it then adds one row per line and raises exactly those counters |
| `Inventory.ReserveAllConserves` | catalog/src/inventory/repository.rs:10-45 | reserving keeps each live SKU's counter equal to the sum of its reserved rows, and never oversells |
| `Inventory.ReleaseAllConserves` | catalog/src/inventory/repository.rs:143-161 | releasing keeps the counters right and leaves the order no reserved row |
| `Inventory.ReleaseAllExactly` | catalog/src/inventory/repository.rs:48-83 | the order's reserved rows become released and no other row changes; stock stays, and each live SKU has exactly the order's share available again |
| `Inventory.ConfirmAtConserves` | catalog/src/inventory/repository.rs:86-140 | confirming never breaks a stock that is not oversold and leaves stock minus reserved unchanged for every SKU |
| `Inventory.ConfirmAtExactly` | catalog/src/inventory/repository.rs:86-140 | confirming marks the one row, takes its quantity out of stock and reserved of its live SKU, and changes nothing else |
| `Inventory.EditConserves` | catalog/src/products/repository.rs:400-503 | admin edits keep the counters right, and overselling can only come from an edit that lowers stock |
| `Inventory.EditDecides` | catalog/src/products/repository.rs:400-503 | when each admin statement is refused, with which error, and the one SKU row it leaves |
| `Inventory.CatalogTables.ReserveInventory` | catalog/src/inventory/repository.rs:10-45 | one line: counter and row change together, or neither |
| `Inventory.CatalogTables.ReserveForOrder` | catalog/src/inventory/service.rs:128-138 | the reservation loop equals the all-or-nothing specification; a failure restores the lines already taken |
| `Inventory.CatalogTables.ReleaseReservation` | catalog/src/inventory/repository.rs:48-83 | releases one reserved row of the order on the SKU, and reports not-found exactly when there is none |
| `Inventory.CatalogTables.ReleaseAllReservations` | catalog/src/inventory/repository.rs:143-161 | the loop over looked-up rows never meets a missing row, even with several rows on one SKU, and releases exactly the order's reserved rows |
| `Inventory.CatalogTables.ConfirmReservation` | catalog/src/inventory/repository.rs:86-140 | confirms one reserved row; unless oversold, it fails only when there is none |
| `CatalogService.CatalogConsumer.HandleOrderCreated` | catalog/src/consumers/order_events.rs:11-57 | reserves all and writes InventoryReserved, or, on any error of stock or database, reserves nothing and notes the failure on its own transaction if it can |
| `CatalogService.ReservesExactly` | catalog/src/inventory/service.rs:16-39 | the attempt commits if and only if the database serves it and every line fits; then the rows and the event, else nothing but the note |
| `CatalogService.CatalogConsumer.HandleOrderCancelled` | catalog/src/consumers/order_events.rs:60-72 | releases all of the order's reserved rows |
| `Ledger.NewestPostedDecides` | payment/src/ledger/repository.rs:189-215 | the newest posted transaction decides the derived state: authorization, capture, void and refund each name one; without one a pending row wins over discarded ones |
| `Ledger.StateTellsShape` | payment/src/ledger/repository.rs:189-215 | in a reachable ledger the derived state determines the order's list of transactions |
| `Ledger.FindInShaped` | payment/src/payments/service.rs:435-480 | the lookup of the posted authorization succeeds exactly in state Authorized and returns that row, its amount and its gateway reference |
| `Ledger.AuthorizationAdvances` | payment/src/payments/service.rs:319-356 | New to Authorized by one posted pair of entries of the asked amount; no other order is touched |
| `Ledger.CaptureAdvances` | payment/src/payments/service.rs:358-393 | Authorized to Captured by one posted pair of the authorized amount |
| `Ledger.VoidAdvances` | payment/src/payments/service.rs:395-433 | Authorized to Voided by discarding the authorization and posting a void of its amount |
| `Balances.DebitsEqualCredits` | payment/src/payments/service.rs:495-519 | in every currency total debits equal total credits, over all entries and over posted ones |
| `Balances.HoldingBalance` | payment/src/payments/service.rs:319-435 | the exact balance of every holding account in every currency, from the derived state |
| `Balances.UsdHolding` | payment/src/payments/service.rs:319-435 | in USD the gateway holds the amount exactly while the payment is Authorized |
| `Balances.HoldingClearedIffUsd` | payment/src/payments/service.rs:474-477 | after capture or void all holding accounts are cleared if and only if the order was authorized in USD |
| `Balances.ViewAgreesUnlessVoided` | payment/migrations/202603151900_init.sql:58-74 | the balances view agrees with the entries if and only if the payment is not voided |
| `Payments.WrittenFor` | payment/src/consumers/handler.rs:97-129 | which events each dispatched event can lead to |
| `Payments.HandleAdvances` | payment/src/payments/service.rs:149-298 | every handler moves the order's ledger along New, Authorized, then Captured or Voided, or leaves it alone, and writes the matching event exactly when it moves |
| `Payments.AuthorizationDecides` | payment/src/payments/service.rs:149-208 | a payment not begun is authorized, and the books move, if and only if the total is within 5,000 to 1,000,000,000 in a supported currency and the gateway approves exactly it; a decline, a tampered approval and a broken rule each have their own outcome; a begun payment is left alone and a voided one refused |
| `Payments.CaptureDecides` | payment/src/payments/service.rs:217-268 | a capture request of an authorized payment, first or retried before ten: captured if and only if the gateway captures, asked for again with the next number if and only if its error is retryable, failed if and only if it refuses |
| `Payments.TenRetries` | payment/src/consumers/capture_retry.rs:15-93 | a retry request is given up without a capture, whatever the gateway would say, if and only if it is numbered ten or more |
| `Payments.VoidDecides` | payment/src/payments/service.rs:271-298 | a cancelled order is voided if and only if it is authorized and the gateway grants it; a refusal is an error, any other state is left alone |
| `Payments.PaymentTables.CreateTransaction` | payment/src/ledger/repository.rs:55-73 | inserts a pending row unless the idempotency key is taken |
| `Payments.PaymentTables.WriteEntryPair` | payment/src/payments/service.rs:495-519 | appends one debit and one credit of the same amount |
| `Payments.PaymentTables.RecordTransaction` | payment/src/payments/service.rs:319-393 | accounts, pending row, entry pair and posting together equal the specification, or nothing is written |
| `Payments.PaymentTables.RecordVoidOf` | payment/src/payments/service.rs:395-433 | discards the authorization and posts the void as specified, or nothing |
| `Payments.PaymentTables.HandleInventoryReserved` | payment/src/payments/service.rs:149-208 | authorization: skip, refuse, fail or record, with the same error, books and event as the pure handler, which `AuthorizationDecides` pins to the answers |
| `Payments.PaymentTables.HandleCapture` | payment/src/payments/service.rs:217-268 | first capture attempt: capture, ask for a retry, or fail, with the same error, books and event as the pure handler, which `CaptureDecides` pins to the answers |
| `Payments.PaymentTables.HandleCaptureRetry` | payment/src/consumers/capture_retry.rs:15-93 | a retry: gives up at ten, else captures, asks again with the next count, or fails, as the pure handler does (`CaptureDecides`, `TenRetries`) |
| `Payments.PaymentTables.HandleOrderCancelled` | payment/src/consumers/order_events.rs:24-51 | voids exactly when the derived state is Authorized |
| `SagaHistory.OrderHistory` | order/src/consumers/payment_events.rs:10-90 | in every run each order's statuses form a path of the machine, at most one OrderConfirmed and one OrderCancelled are written, and none is confirmed after being cancelled |
| `SagaCausality.Causality` | payment/src/consumers/handler.rs:64-129 | in every run, with any reordering, duplicates and cancels: posted capture after OrderConfirmed, after PaymentAuthorized with its authorization, after InventoryReserved with a row per item, after OrderCreated |
| `SagaCausality.ReachableLedgers` | payment/src/payments/service.rs:358-480 | in every run an order's transactions are none, authorized, authorized and captured, or discarded and voided, and the derived state says which |
| `SagaCausality.MoneyConservation` | payment/src/consumers/inventory_events.rs:20-27 | in every run debits equal credits per currency, every amount is the order's quantity times price, and USD holding is that amount exactly while Authorized |
| `SagaStock.StockConservation` | catalog/src/inventory/repository.rs:10-161 | in every run each live SKU's counter is the sum of its reserved rows, and without edits that lower stock it never exceeds the stock |
| `SagaStock.ConfirmNeverRefused` | catalog/src/inventory/service.rs:105-124 | in a run without edits that lower stock, no confirmation of a reserved row fails |
| `SagaStock.ReleaseIsFinal` | catalog/src/consumers/order_events.rs:60-72 | unless an OrderCreated reserves late, and so under FIFO delivery per order, once catalog handled OrderCancelled the order holds no reserved row in any later state |
| `SagaStock.LateCreatedExactly` | catalog/src/consumers/order_events.rs:11-57 | after such a run, attempting an OrderCreated of a released order leaves it without reserved rows if and only if the attempt does not reserve |
| `SagaStock.FifoIsNeverLate` | catalog/src/consumers/order_events.rs:11-72 | first-in-first-out delivery per order excludes late reservations |
| `SagaRetry.RetryChain` | payment/src/consumers/capture_retry.rs:15-93 | for every sequence of gateway answers, and unless a capture request loses its marker: at most ten retry requests, numbered upwards, open requests plus outcomes equal the confirmations, hence at most one capture or failure, and exactly one when all is processed |
| `SagaRetry.ForgettingBreaksChain` | shared/src/outbox/processed.rs:53-73 | deleting a marker keeps that balance if and only if it is not payment's marker of a capture request |
| `SagaGateway.AuthorizedMeansApproved` | payment/src/payments/service.rs:149-208 | in every run each PaymentAuthorized comes from a delivery for which the gateway approved exactly the order's value |
| `SagaGateway.UnapprovedStaysNew` | payment/src/payments/service.rs:180-195 | in every run without an approval of exactly the order's value the order is never authorized and its payment stays New |
| `SagaGateway.AnswersLeadTo` | payment/src/payments/service.rs:217-268 | in every run a capture, a retry request and a declined capture of an order each come from a delivery that the gateway answered so |
| `SagaGateway.NoSuchAnswerNoSuchEvent` | payment/src/consumers/capture_retry.rs:15-93 | in every run without refusals for an order no capture of it is declined, without retryable errors none is retried, and without a success none is captured |
| `SagaGateway.GivenUpAfterTen` | payment/src/consumers/capture_retry.rs:15-93 | in every run an order given up for exhausted retries has a retry request numbered ten or more |
| `SagaGateway.DeliveredFailureCancels` | order/src/consumers/payment_events.rs:42-90 | in every state a delivered PaymentFailed or PaymentTimedOut of a cancellable order leaves it cancelled with one OrderCancelled, and nothing else changes |
| `SagaGateway.TimeOutCancels` | order/src/consumers/payment_events.rs:49-55 | a time-out, once heard, cancels a cancellable order |
| `SagaQuiescence.QuiescentConsistency` | catalog/src/inventory/service.rs:128-159 | for every sequence of gateway and database answers, with failed attempts repeated and messages duplicated and reordered at will: once all messages are consumed every order is confirmed, captured and fully reserved, or cancelled with no payment and nothing reserved, or cancelled, voided and nothing reserved |
| `SagaSettled.SettledConsistency` | order/src/consumers/handler.rs:23-43 | with honest approvals, granted voids, totals within the rules and PaymentAuthorized after InventoryReserved, the same holds as soon as every message has been attempted |
| `SagaSettled.HonestRunsSettle` | shared/src/events/consumer.rs:346-412 | in such runs the first attempt at every event consumes it |
| `SagaWitness.FittingRedeliveryStrands` | catalog/src/consumers/order_events.rs:34-56 | for every orderly run and order cancelled after an announced refusal: a redelivered OrderCreated that reserves leaves all its items reserved, and the order inconsistent, whatever follows short of confirming the rows |
| `SagaWitness.FittingRedeliveryMayStrand` | catalog/src/inventory/service.rs:16-39 | for every order with an announced refusal, cancelled or not: after a redelivery that reserves, the note of the refusal strands it for good |
| `SagaWitness.LostNoteIsSilent` | catalog/src/inventory/service.rs:31-37 | in every state a refusal whose note fails changes nothing but the dead letter |
| `SagaWitness.LostNoteLeavesPending` | catalog/src/inventory/service.rs:161-190 | in every currency a run ends with every message attempted and the order pending |
| `SagaMarkers.ForgottenCreationIsRefused` | shared/src/outbox/processed.rs:53-73 | in every run, handling a committed OrderCreated again after its marker is deleted leaves the stock alone and announces a failed reservation |
| `SagaMarkers.ForgottenMarkerUndoesOrder` | order/src/consumers/inventory_events.rs:25-42 | in every run that announcement cancels a captured order without an OrderCancelled; whatever follows, it stays cancelled and captured |
| `SagaWitness.RedeliveredDeadLetterStrandsPayment` | catalog/src/inventory/service.rs:16-39 | in every currency a run with such a redelivery ends with everything consumed, the order cancelled, its payment captured and its stock held |
| `SagaBalances.HoldingClearedInRuns` | payment/src/payments/service.rs:474-477 | in every run the holding accounts of a captured or voided order are all cleared if and only if the order is in USD |
| `SagaBalances.ViewAgreesInRuns` | payment/migrations/202603151900_init.sql:58-74 | in every run the balances view agrees with the entries on an order's accounts if and only if it is not voided |
| `SagaBalances.ForeignCaptureLeavesBalances` | payment/src/payments/service.rs:358-393 | in every supported currency but USD a run ends captured with its holding account full and the USD one short |
| `SagaBalances.VoidedRunMisleadsView` | payment/src/payments/service.rs:395-433 | in every supported currency a run ends voided with the view showing the amount missing |
| `SagaCausality.RepeatedSkuNeverReserved` | catalog/src/inventory/repository.rs:10-45 | in every run an order that names one SKU on two lines is never reserved, confirmed or paid |
| `Outbox.EligibleIsPreceded` | shared/src/outbox/repository.rs:56-89 | a row the claim query may take has every earlier row of its aggregate published or failed once |
| `Outbox.NeverLost` | shared/src/outbox/relay.rs:166-260 | in every run an inserted event is in the table as pending or failed, or in the broker log |
| `Outbox.ClaimIsInOrder` | shared/src/outbox/repository.rs:56-89 | whenever an event can be claimed, every earlier event of its aggregate has been published or has failed a publish |
| `Outbox.ClaimsInOrder` | shared/src/outbox/relay.rs:166-227 | the same still holds as long as a relay has the event in its batch, through crashes and stale-lock releases |
| `Outbox.PublishedInOrder` | shared/src/outbox/repository.rs:136-191 | in runs without a publish failure every publication of an event comes after one of each earlier event of its aggregate |
| `Outbox.RetryDecides` | shared/src/outbox/repository.rs:136-169 | a refused publish raises the count by one and unlocks the row; it is failed if and only if that was the last retry, else pending and due 2, 4, … up to 1024 seconds later; no other row moves |
| `Outbox.DoneDecides` | shared/src/outbox/repository.rs:94-129 | a published row is gone, or kept as published without its lock; no other row moves |
| `Outbox.FailedOnlyWhenExhausted` | shared/src/outbox/repository.rs:136-169 | in every run a failed row has used up its retries, and a row sent back to pending has some left |
| `Outbox.BackoffHolds` | shared/src/outbox/repository.rs:136-169 | whatever happens after a refused publish, the event cannot be claimed before its back-off is over |
| `Outbox.FinishedIsNeverClaimed` | shared/src/outbox/repository.rs:56-89 | a published, failed or deleted event is never claimed again, in any continuation |
| `Outbox.InsertedIsEligible` | shared/src/outbox/repository.rs:16-47 | a new event can be claimed at once if and only if no row of its aggregate is due |
| `Outbox.ClaimedByOne` | shared/src/outbox/repository.rs:56-89 | in every run whose stale-lock releases free no row a live relay has in hand, no event is in two relays' batches |
| `Outbox.HeldReleaseIsClaimedTwice` | shared/src/outbox/repository.rs:172-191 | releasing a row that a live relay has in hand lets any idle relay take it too, once it is the oldest due row of its aggregate |
| `Outbox.CrashedLockIsReleased` | shared/src/outbox/repository.rs:172-191 | a crashed relay's row is free again if and only if its lock is older than the timeout |
| `Outbox.PublishedOnce` | shared/src/outbox/relay.rs:166-260 | in every such run without crashes, lost marks and half-failed publishes, the broker receives each event at most once |
| `OutboxRelay.World.ClaimBatch` | shared/src/outbox/repository.rs:56-89 | locking the picked rows one by one is the claim step |
| `OutboxRelay.World.RelayEvent` | shared/src/outbox/relay.rs:177-260 | one event: rows, log and cache become exactly what its answers call for (dedup hit, publish and mark, or refusal and retry mark) |
| `OutboxRelay.World.ProcessBatch` | shared/src/outbox/relay.rs:166-260 | claim and loop: the state becomes exactly that of the claim and the events one by one, a run of the relay's own steps that leaves no event in hand; an error on one event does not stop the others |
| `OutboxRelay.BatchDecides` | shared/src/outbox/relay.rs:166-260 | exactly the published events of a batch reach the log, in batch order; each row is decided by its own answers (untouched, deleted, published, retried or failed) and no other row moves |
| `OutboxRelay.RowsAfterExactly` | shared/src/outbox/relay.rs:177-260 | the row of one relayed event by publish and database answers, every other row untouched |
| `Consumer.DeliveryContract` | shared/src/events/consumer.rs:217-432 | one delivery calls the handler at most `max_retries + 1` times, raises exactly one outcome counter, and is acknowledged only if its writes are committed or it is on the dead-letter topic |
| `Consumer.EffectivelyOnce` | shared/src/events/consumer.rs:346-412 | over any deliveries, failures and marker cleanups an event commits once per deleted marker plus once if the marker lives; acknowledged messages are committed or dead-lettered |
| `Consumer.PermanentIsDeadLettered` | shared/src/events/consumer.rs:296-301 | a permanent handler error, after any number of transient ones, ends the delivery there: nothing committed, the message dead-lettered or the failure to do so counted, acknowledged only if dead-lettered |
| `Consumer.TransientsThenSuccess` | shared/src/events/consumer.rs:302-325 | k transient errors, k at most `max_retries`, and then a committed attempt give k + 1 calls, one commit, success and an acknowledgement |
| `Consumer.ExhaustedIsDeadLettered` | shared/src/events/consumer.rs:327-342 | only transient errors give exactly `max_retries + 1` calls and then the dead-letter topic |
| `Consumer.ShutdownIsDeadLettered` | shared/src/events/consumer.rs:315-325 | a shutdown during a back-off dead-letters the message after the calls made so far |
| `Consumer.MarkedIsSkipped` | shared/src/events/consumer.rs:365-386 | an event with a marker is skipped and acknowledged without a handler call |
| `Consumer.DbErrorEndsDelivery` | shared/src/events/consumer.rs:291-295 | a database error ends the delivery without an acknowledgement or a dead letter |
| `Consumer.GarbageIsDeadLettered` | shared/src/events/consumer.rs:217-262 | a message that cannot be read is dead-lettered without a handler call |
| `Consumer.DeliveryTells` | shared/src/events/consumer.rs:217-432 | for every delivery of a readable message: what each result says about commits, dead letters, the counter raised and the acknowledgement |
| `Consumer.KafkaEventConsumer.TryProcessOnce` | shared/src/events/consumer.rs:346-412 | begin, marker check, handler, mark and commit in order, with a failure possible at each, equal the attempt specification, which the lemmas above pin to the answers |
| `Consumer.KafkaEventConsumer.ProcessWithRetry` | shared/src/events/consumer.rs:266-342 | the retry loop equals its recursive specification |
| `Consumer.KafkaEventConsumer.ProcessMessage` | shared/src/events/consumer.rs:217-262 | a delivery with its acknowledgement equals the specification |
| `Jobs.HeldOnce` | shared/src/jobs/repository.rs:54-83 | in every run whose stale-lock releases free only jobs nobody holds, a job is held by at most one task or claim, over all runners |
| `Jobs.ReleaseIsSafeExactly` | shared/src/jobs/repository.rs:183-202 | after any such run a release keeps jobs exclusively held in all futures if and only if it frees only running jobs nobody holds |
| `Jobs.HeldReleaseBreaksExclusion` | shared/src/jobs/runner.rs:353-374 | in every state, releasing a held running job lets any runner with room become its second holder |
| `Jobs.RunsBounded` | shared/src/jobs/runner.rs:173-349 | without stale-lock release the handler runs at most max(1, max_retries) times per one-shot job or recurring cycle |
| `Jobs.CompletedIsFinal` | shared/src/jobs/repository.rs:88-172 | a completed one-shot job never becomes pending again, whatever steps follow |
| `Jobs.InFlightBounded` | shared/src/jobs/runner.rs:38-56 | under any interleaving of claims with task ends, crashes and panics, a runner's counter is the number of its tasks and at most `max_concurrent_jobs` |
| `Jobs.StaleReleaseLosesExclusion` | shared/src/jobs/repository.rs:183-202 | a run in which a released lock gives a running job a second holder |
| `JobOutcomes.FailedOnlyWhenExhausted` | shared/src/jobs/repository.rs:115-146 | in every run, stale-lock releases included, a failed job has used up its retries |
| `JobOutcomes.SettledByItsAnswer` | shared/src/jobs/repository.rs:88-172 | in every run a completed job was answered Ok, a failed one with a transient error, a dead-lettered one with a permanent error |
| `JobOutcomes.AnswerDecides` | shared/src/jobs/runner.rs:236-349 | after every run with careful releases: the row an executing task leaves, by answer, attempts, definition, policy and lost writes (completed, pending or failed by the attempts left, dead-lettered, left running, or a new cycle), and no other row changes |
| `JobOutcomes.TransientsAreRetried` | shared/src/jobs/repository.rs:115-146 | a new job that meets only transient errors is tried exactly max(1, max_retries) times, pending after each attempt but the last and failed after that |
| `JobOutcomes.TransientsThenSuccess` | shared/src/jobs/runner.rs:236-287 | fewer transient errors than that, then Ok, complete the job at its next attempt |
| `JobRunner.Scheduler.ClaimBatch` | shared/src/jobs/repository.rs:54-83 | the claim raises attempts and sets running on exactly the picked rows |
| `JobRunner.Scheduler.ProcessAvailable` | shared/src/jobs/runner.rs:173-239 | one wake-up is nothing at full capacity, else the load of the capacity, the claim and one spawn per claimed job, in order, and leaves the runner idle |
| `JobRunner.WakeDecides` | shared/src/jobs/runner.rs:173-239 | a wake-up with room sets exactly the claimed jobs running with one attempt more, starts one task per job that has a handler, and raises the in-flight count by their number |
| `JobRunner.Scheduler.Settle` | shared/src/jobs/runner.rs:236-346 | the four handler outcomes and their table writes are the model's steps, which `JobOutcomes.AnswerDecides` pins to the answers |
| `JobRunner.Scheduler.ResetSlot` | shared/src/jobs/repository.rs:283-306 | a recurring slot is reset exactly after success or exhausted retries under the reset policy |
| `JobRunner.Scheduler.RunTask` | shared/src/jobs/runner.rs:227-349 | a task from handler answer to dropped guard is exactly answer, write, reset and end |
| `Rules.DetailedAgrees` | shared/src/rules.rs:98-109 | the explaining interpreter passes exactly when the plain one does, for every tree |
| `Rules.ReportsAreChecks` | shared/src/rules.rs:151-197 | reported failures (and passes) are a subsequence of the tree's leaf checks, for every tree |
| `Rules.NegationReportsHold` | shared/src/rules.rs:186-194 | what a failing negation reports are checks that hold |
| `Rules.FailureReported` | shared/src/rules.rs:173-197 | a failing tree of the explaining shape, negations included, reports at least one check |
| `Rules.ExplanationIsSufficient` | shared/src/rules.rs:173-197 | without Not and empty Any: a failing rule reports at least one check, all reported are false, and making exactly those true makes the rule pass |
| `Rules.ConjunctionsReportExactly` | shared/src/rules.rs:173-197 | for conjunctions the rule passes if and only if all reported checks are made true |
| `Rules.SilentFailures` | shared/src/rules.rs:156-197 | an empty Any fails silently, and every double negation is silent |
| `RuleSilence.ExplainsFailureExactly` | shared/src/rules.rs:151-197 | for distinct checks and no constant nodes: the tree has the explaining shape if and only if no assignment makes it fail without a reported check |
| `Rules.AndIsConjunction` | shared/src/rules.rs:76-84 | flattening `and` means conjunction |
| `Rules.OrIsDisjunction` | shared/src/rules.rs:87-95 | flattening `or` means disjunction |
| `Rules.CombinedChecks` | shared/src/rules.rs:270-281 | both keep the depth-first list of checks |
| `Rules.AndFailures` | shared/src/rules.rs:173-197 | a conjunction is explained by its two explanations in order |
| `Rules.OrFailures` | shared/src/rules.rs:173-197 | a disjunction is explained only when both sides fail, and then by both |
| `ServiceRules.CreationRulesMeanCreatable` | order/src/orders/rules.rs:41-50 | the creation tree passes exactly for creatable orders |
| `ServiceRules.CancellationRulesMeanTransition` | order/src/orders/rules.rs:52-54 | the cancellation tree passes exactly when the state machine can move to Cancelled |
| `ServiceRules.AuthorizationRulesMeanAllowed` | payment/src/payments/rules.rs:41-86 | the authorization tree passes exactly when amount, currency and payment state allow it |
| `ServiceRules.AuthorizationRefusalExplained` | payment/src/payments/service.rs:302-317 | every refusal names a check that fails |
| `Pagination.IntoParams` | shared/src/db/pagination_support.rs:15-21 | limit defaults to 20, is kept up to 100 and capped there, zero included; cursor and direction are kept, the direction defaulting to forward |
| `Pagination.QueryBuilder.KeysetPaginate` | shared/src/db/pagination_support.rs:95-122 | the bound, order and limit appended to a query |
| `Pagination.Rows.GetCursors` | shared/src/db/pagination_support.rs:124-159 | popping and reversing the fetched rows leaves exactly the slice of the table next to the cursor, with the right cursors, in both directions |
| `Pagination.FetchPage` | shared/src/db/pagination_support.rs:95-159 | query and cursors together give the page |
| `Pagination.WalkVisitsAll` | shared/src/db/pagination_support.rs:124-159 | following next cursors ends and visits every row exactly once in order, if and only if the limit is positive or the table is empty |
| `Pagination.WalkBackVisitsAll` | shared/src/db/pagination_support.rs:124-159 | following previous cursors from the end visits every row exactly once too, under the same condition |
| `Pagination.BackAndForth` | shared/src/db/pagination_support.rs:141-153 | from any later page the previous cursor returns exactly the page before, and its next cursor leads back |
| `Pagination.WalkSurvivesChanges` | shared/src/db/pagination_support.rs:108-120 | with rows inserted and deleted between pages a finished walk shows no row twice and misses none that was there throughout |
| `Pagination.EverySetHasATable` | shared/src/db/pagination_support.rs:108-120 | every finite set of ids has the ascending listing the theorems speak of |
| `CircuitBreaker.Breaker.Check` | shared/src/circuit_breaker.rs:108-128 | allows or refuses a call and moves to half-open after the cooldown |
| `CircuitBreaker.Breaker.RecordSuccess` | shared/src/circuit_breaker.rs:131-139 | records a success and closes a half-open breaker |
| `CircuitBreaker.Breaker.RecordRetryableFailure` | shared/src/circuit_breaker.rs:142-159 | records a failure; opens from half-open, or from closed at the threshold |
| `CircuitBreaker.Breaker.TripNow` | shared/src/circuit_breaker.rs:168-175 | counting the window decides by the exact ratio |
| `CircuitBreaker.WindowIsNewest` | shared/src/circuit_breaker.rs:161-166 | over the whole run the window is the newest outcomes, up to its size (one, for size zero) |
| `CircuitBreaker.OpenCarriesInstant` | shared/src/circuit_breaker.rs:113-125 | an opening instant is kept exactly while not closed: the fallback of `check` is unreachable |
| `CircuitBreaker.TripsExactlyAtThreshold` | shared/src/circuit_breaker.rs:142-175 | a closed breaker opens if and only if a failure brings the newest outcomes of the run to the threshold |
| `CircuitBreaker.RefusedExactlyInCooldown` | shared/src/circuit_breaker.rs:108-128 | a check is refused if and only if some opening lies less than a cooldown back |
| `CircuitBreaker.ProbeDecides` | shared/src/circuit_breaker.rs:131-149 | from half-open the next outcome decides: success closes, failure opens anew |
| `CircuitBreaker.StatusExactly` | shared/src/circuit_breaker.rs:108-175 | the status after every call of every run: half-open exactly at a check with no cooldown running, closed exactly at a success from half-open, open exactly at a failure from half-open or at the threshold |
| `Labels.LabelGeneration` | catalog/src/categories/value_objects.rs:19-69 | generation is idempotent, its outputs are exactly its fixed points, all are valid labels and none contains a dot |
| `Labels.SlugGeneration` | catalog/src/common/value_objects.rs:18-57 | generation is idempotent and its fixed points are exactly the valid slugs |
| `Labels.SlugFailsOnlyOutsideAscii` | catalog/src/common/value_objects.rs:43-57 | a generated slug is malformed only through a letter or digit outside ASCII |
| `Labels.SlugKeepsWords` | catalog/src/common/value_objects.rs:42-57 | a slug is the lower-cased name's words joined by hyphens, none lost or moved; generation succeeds if and only if there is a word, all are ASCII and the result has at most 500 characters |
| `Labels.LabelKeepsWords` | catalog/src/categories/value_objects.rs:45-69 | a label is the lower-cased name's words joined by underscores, from the first letter a-z on |
| `Categories.CategoryTable.CreateCategory` | catalog/src/categories/service.rs:14-51 | path and depth from the parent, with every refusal, equal to the specification |
| `Categories.CategoryTable.DeleteCategory` | catalog/src/categories/service.rs:120-157 | deletes exactly a category without children and products, else changes nothing |
| `Categories.CreatedExactly` | catalog/src/categories/service.rs:14-51 | a create succeeds if and only if name, slug, label, parent, depth and uniqueness allow it; the new row has the slug, the parent, its depth and its path, and no other row changes |
| `Categories.RefusedCreate` | catalog/src/categories/service.rs:14-51 | which of the reasons a refused create reports |
| `Categories.DeletedExactly` | catalog/src/categories/service.rs:123-157 | a delete succeeds if and only if the category exists without children and products, deleted ones included; exactly it is removed, and the refusals in their order |
| `Categories.StoredAfterAnyHistory` | catalog/src/categories/repository.rs:116-131 | after any history every slug is valid, within 255 characters and unique, every label one that generation makes, and paths are unique |
| `Categories.RefusedExactlyForLongSlug` | catalog/src/categories/repository.rs:116-131 | a create that is fine otherwise is refused if and only if its valid slug exceeds the column's 255 characters |
| `Categories.ValidSlugsBeyondTheColumn` | catalog/src/common/value_objects.rs:18-40 | every valid slug is accepted by the value object, and by an empty table exactly up to 255 characters |
| `Categories.LongSlugExists` | catalog/migrations/202602241739_add_categories_brands.sql:11-11 | a valid slug of 256 characters that the table refuses |
| `Categories.CreateKeepsTree` | catalog/src/categories/service.rs:23-37 | a create keeps paths, depths and parents in agreement |
| `Categories.DeleteKeepsTree` | catalog/src/categories/service.rs:129-144 | a guarded delete keeps them in agreement |
| `Categories.DepthIsDots` | catalog/src/categories/repository.rs:103-114 | after any history depth is the number of dots in the path and at most ten |
| `Categories.PathsAgreeWithPointers` | catalog/src/categories/repository.rs:89-101 | a path begins another exactly when its category is on the other's chain of parents |
| `Categories.AncestorsAreParentChain` | catalog/src/categories/repository.rs:89-101 | after any history every answer of the ancestor query is the parent chain root-first, at most eleven rows, so the limit of 50 never cuts it |
| `Categories.SubtreeIsDescendants` | catalog/src/categories/repository.rs:73-87 | after any history the rows under a path are exactly the descendants by parent pointers |

## Left out

- HTTP and gRPC routes, authentication, configuration, tracing and the database, broker and cache clients: input and output.
- The synchronous payment API (`authorize_payment`, `capture_payment`, `void_payment`): the same ledger operations on a pool.
- Trimming and length limits of idempotency keys; and in the saga a creation is identified by its order id, since a repeated key changes nothing.
- The payment consumer's distributed lock: it fails open and is released before the commit; one sequential consumer is modelled.
- Interleaving inside a handler's read, check and update: handlers and `cancel_order` are atomic.
- The failure event for a tampered amount: it is rolled back with the transaction, so only that nothing is posted is claimed.
- `confirm_for_order` is modelled row by row; no event handler of the repository calls it.
- The narrowing of quantities to 32 bits in `parse_items`: quantities are bounded by order validation.
- SagaQuiescence.QuiescentConsistency: assumes no buyer cancel or timeout, no deleted marker and no early confirmation of a reservation, and that an OrderCreated whose refusal is announced is not delivered again when it would reserve. That the last and the markers matter is shown for every such case by `SagaWitness.FittingRedeliveryMayStrand` and `SagaMarkers.ForgottenMarkerUndoesOrder`.
- SagaRetry.RetryChain: assumes that no capture request loses payment's marker, which is exactly what it needs (`SagaRetry.ForgettingBreaksChain`).
- SagaStock.ReleaseIsFinal: assumes that no OrderCreated reserves after the release, which is exactly what it needs (`SagaStock.LateCreatedExactly`).
- Outbox escalation, heartbeat, lag metrics and payload size guard: no effect on the event's fate.
- Expiry of dedup cache keys: a key is either present or not, and the model lets any cache write or read fail.
- Consumer back-off delays, topic naming and latency averages: only the number of retries and the outcome counters matter to the claims.
- Due times of jobs: the back-off of a retried job is not modelled; a claim may take any pending job, which covers every claim of the source.
- Cron ticks, missed-tick counts, job deduplication keys and recurring seeds: time computations and insert guards.
- Jobs.RunsBounded: assumes no stale-lock release, which returns a job to pending whatever its attempts; exclusivity, the concurrency bound and the finality of completed jobs are proved with releases.
- Floating point in the breaker's ratio: exact fractions are used.
- Unicode tables: parameters with the few facts about ASCII that the proofs need; the case mapping is otherwise arbitrary.
- The `LIMIT 200` of the subtree query: the claim is about the matching rows.
- The human-readable `describe` interpreter of rules, carts, brands, product images, identity and caches: outside these properties.
