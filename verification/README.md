# Event-driven services, modelled and proved in Dafny

Six protocols of a course on event-driven services, each modelled as the code behaves and proved for every input,
every run or every reachable state:

- **Transactional outbox and inbox (chapter 12).** A step system over the two tables, row locks, any number of
  relays and one append-only log (`Outbox`, `Broker`), and a second one for any number of deduplicating consumers
  that may crash between any two steps (`Inbox`). `RelayInvariants` proves table, lock and copy conservation;
  `OrderContents` says what is stored and published, field by field; `RelayOrdering` proves publication order and the
  draining of a backlog, `RelayReordering` exactly when that order is lost;
  `EndToEnd` composes both systems into the exactly-once result, and `WindowCrash` reaches its one exception.
  `OrderService` and `InboxConsumer` are the imperative code (transaction, polling loop, consumer loop), proved to be
  runs of those systems.
- **Circuit breaker, retry and gateway client (chapter 13, with the chapter 07 retry).** `Breaker`, `Retry`,
  `Gateway`: the class, the interleaved system of concurrent calls, load bounds, backoff arithmetic and the
  composition of all three.
- **Saga choreography (chapter 09).** `Saga` (handlers and the step system), `SagaInvariants`, `SagaTheorems`
  (confluence, money, progress, status paths), `SagaServices` (the services as objects).
- **CQRS read and write models (chapter 11).** `Cqrs` (both folds and their agreement), `CqrsServices`
  (the objects, statistics, order detail).
- **Idempotent points consumer (chapter 08).** `Points`: a step system with crashes, and the consumer class.
- **Retry and dead-letter consumer (chapter 07).** `DeadLetters`.

`Sequences` holds facts about sequences that several of these share. Each step system has `Enabled`, `Apply` and
`Run`; `Run(s, acts)` is `None` when an action is not enabled where it stands, so "every run" is every `acts` with
`Run(..).Some?`. A send that raises although the record reaches the broker is the pair `Raise` / `LateAppend`:
the record may be appended at any later time, or never.

Publication order is not promised across keys, and depends on how the relay is run. The comment at
`12-outbox-pattern/app/relay.py:10-11`, that one order's events stay in sequence, holds for any number of relays, since a
key has at most one row (`OneRowPerKey`). Across keys, the log follows the row ids with one relay exactly as long as no
row becomes visible below one that is in the log, in limbo or in the open batch (`OneRelayOrderIff`); with rows committed
in id order it does so if and only if there is at most one relay (`RelayCountIff`), and within every partition if and
only if there is at most one relay or no two keys share a partition (`PartitionCountIff`).

Where the code is weaker than its comments the code is followed:

- `12-outbox-pattern/app/consumer.py:99-112` commits the mark before the effect, so exactly-once holds except for
  the events lost there: `OrderEffectExactlyOnce` gives the exact condition and `WindowCrashLosesEffect` a run that ends
  with everything published and committed and the order without its effect.
- `13-resilience-patterns/app/circuit_breaker.py:8` promises a single probe when half open. A half-open phase admits
  exactly one call if and only if no call begins between the probe's admission and the first settlement with a success
  or an expected failure (`SingleProbeIff`). That fails for overlapping calls, in any number (`AnyNumberOfProbes`), and for
  calls one after the other when the probe ends with another exception (`UnexpectedErrorAdmitsNext`).
- `13-resilience-patterns/app/circuit_breaker.py:6-7` promises that an open circuit rejects until the recovery timeout has
  passed. Short of the timeout it stays open and admits nothing if and only if no call begun earlier settles with a
  success (`RejectsUntilDueIff`; `StaysOpenIff` for runs of any length); `LateSuccessCloses` is a run in which one does. While
  calls fail one after the other, at most threshold + floor(T / timeout) get through in a time T, and that is attained
  (`LoadBound`, `LoadBoundTight`).
- `09-saga-pattern-order-system/order-service/app/models.py:5-12` draws a status graph. An order's history follows it if and
  only if no result of that order overtook its causes at the order service (`HistoriesFollowGraph`);
  `OvertakingStrandsOrder` is a run in which one did. Money and confluence need no such hypothesis: for a total price
  other than 0 the status and the net charge determine each other if and only if the status is terminal
  (`NetChargeMatchesStatus`).
- `11-multi-service-architecture/order-service/app/consumer.py:85-91` completes an order only when the reservation is
  handled after the payment (`ReservationFirstNeverCompletes`), and
  `11-multi-service-architecture/query-service/app/consumer.py:86` drops a result that arrives before the creation, which
  nothing orders before it (`PaymentBeforeCreationIsLost`). `StatusesAgreeIff` says exactly when the two models agree,
  wherever creations and results lie.
- `08-exactly-once-and-idempotency/app/consumer.py:11-12` promises effectively exactly-once; a crash between credit and
  mark credits twice (`CrashInWindowCreditsTwice`); with positive points all balances are exact at the end if and only if
  there was none (`BalancesExactIff`).
- `07-error-handling-and-retry/app/consumer.py:5` speaks of random failures; the code's service is deterministic, so with
  it alone a retry never helps (`RetriesNeverHelp`). The conservation results hold for any pattern of failures.
- `13-resilience-patterns/app/retry.py:44-59` makes one attempt even when `max_attempts` is below 1.

## Model

| member | source | states |
|---|---|---|
| RelayInvariants.SelectSpec | 12-outbox-pattern/app/relay.py:86-101 | a batch is at most the limit, ascending in id, and holds only unpublished rows that no relay has locked |
| RelayInvariants.SelectTakesLowest | 12-outbox-pattern/app/relay.py:93-96 | an available row is left out only when the batch is full of smaller ids |
| RelayInvariants.StepKeepsInv | 12-outbox-pattern/app/relay.py:80-143 | every step keeps: order and outbox row committed together, event ids unique, locked row sets disjoint, every message equal to that of a committed row |
| RelayInvariants.StepConserves | 12-outbox-pattern/app/relay.py:107-121 | every step keeps: copies of an event = 1 if marked + sends by open ticks + sends by rolled-back ticks |
| RelayInvariants.RunInvariant | 12-outbox-pattern/app/relay.py:63-124 | both hold in every state reachable with any number of relays and any interleaving |
| RelayInvariants.LiveOnce | 12-outbox-pattern/app/relay.py:7-9 | at most one open tick has sent an event, and none once it is marked |
| RelayInvariants.CopiesBounds | 12-outbox-pattern/app/relay.py:12-16 | a marked event was sent, and only rolled-back ticks add duplicates |
| RelayInvariants.RollbackFreeSendsOnce | 12-outbox-pattern/app/relay.py:106-121 | a run without rollback sends every event at most once and every marked event exactly once |
| RelayOrdering.RunInOrder | 12-outbox-pattern/app/relay.py:86-121 | one relay, no row committed below one already taken: marked rows, sent rows and the deduplicated log are prefixes of the outbox in every reachable state |
| RelayOrdering.PublishedInIdOrder | 12-outbox-pattern/app/relay.py:86-121 | then the first occurrences in the log are a prefix of the outbox in id order, whatever failed or was sent twice |
| RelayOrdering.PublishedInIdOrderPerPartition | 12-outbox-pattern/app/relay.py:86-121 | the same within every partition, or any other selection of keys |
| RelayOrdering.OneRowPerKey | 12-outbox-pattern/app/relay.py:10-11 | with any number of relays a key has at most one row in every reachable state, so one order's events are never out of sequence |
| RelayReordering.TwoRelaysReorder | 12-outbox-pattern/app/relay.py:93-96 | for every batch size, two relays or more and any two keys, a run with rows committed in id order publishes out of it, also within any partition that holds both keys |
| RelayReordering.RelayCountIff | 12-outbox-pattern/app/relay.py:93-96 | for every batch size, rows committed in id order are published in id order in every run if and only if there is at most one relay |
| RelayReordering.PartitionCountIff | 12-outbox-pattern/app/relay.py:10-11 | the same within every partition if and only if there is at most one relay or no two keys share a partition |
| RelayReordering.EarlyCommitReorders | 12-outbox-pattern/app/relay.py:86-121 | with any number of relays, a commit below a row in the log, in limbo or in an open batch breaks the order at once or after further sends |
| RelayReordering.OneRelayOrderIff | 12-outbox-pattern/app/relay.py:86-121 | with one relay a run stays in id order, now and however it goes on without commits, if and only if none of its commits was below a taken row |
| RelayReordering.LateCommitReorders | 12-outbox-pattern/app/relay.py:93-96 | for every batch size, two transactions that commit the other way round make one relay publish out of id order |
| RelayOrdering.LockAndSends | 12-outbox-pattern/app/relay.py:106-109 | the state in the middle of a tick: the first n rows of the batch are in the log, in order |
| RelayOrdering.SuccessfulTickRuns | 12-outbox-pattern/app/relay.py:80-124 | a tick in which nothing raises appends its batch to the log and marks exactly it |
| RelayOrdering.SuccessfulTickDrains | 12-outbox-pattern/app/relay.py:80-124 | it takes the first B rows off the backlog |
| RelayOrdering.BacklogEmptiesExactly | 12-outbox-pattern/app/relay.py:66-74 | a backlog of n rows is empty after k successful ticks if and only if k is at least n / B rounded up |
| OrderService.Session.EnqueueEvent | 12-outbox-pattern/app/outbox.py:17-45 | adds the event, with the caller's id or a fresh one and the caller's headers or none, to the caller's session and changes nothing else |
| OrderService.Service.CreateOrder | 12-outbox-pattern/app/main.py:84-128 | one transaction writes the order and its event, field by field and at the sum of the line prices, or neither: it is a run Begin, Commit or Begin, Abort of the protocol |
| OrderService.Service.CommitSession | 12-outbox-pattern/app/main.py:99-124 | commits both rows exactly when neither key is taken; a refused commit still uses up the row id |
| OrderService.Service.Publish | 12-outbox-pattern/app/relay.py:126-143 | appends one record with the row's topic, key, payload, event id, event type and headers, each where it belongs |
| OrderService.Service.PollOnce | 12-outbox-pattern/app/relay.py:80-124 | one poll leaves the state of AfterPoll and returns the published count or fails, wherever a send raises |
| OrderService.Service.PollLoop | 12-outbox-pattern/app/relay.py:63-78 | the loop over any pattern of failing polls, with the short wait after work and the long one otherwise |
| OrderService.PollIsRun | 12-outbox-pattern/app/relay.py:80-124 | a poll, failing or not, is a run of the protocol |
| OrderService.PollsDrain | 12-outbox-pattern/app/relay.py:63-78 | the loop keeps the invariant whichever polls fail; polls that cannot fail empty the backlog exactly from n / B rounded up on |
| OrderService.PollTells | 12-outbox-pattern/app/relay.py:103-124 | a poll reports published rows exactly when it marked some, and as many as the log grew by |
| OrderService.WaitCounts | 12-outbox-pattern/app/relay.py:73-76 | the loop waits 200 ms after every poll that marked rows and 1000 ms after every other |
| OrderContents.TotalIsLines | 12-outbox-pattern/app/main.py:96 | the total is the sum of price times quantity over the items |
| OrderContents.TotalOfBoth | 12-outbox-pattern/app/main.py:96 | the total of two lists of items together is the sum of their totals |
| OrderContents.TotalOfChange | 12-outbox-pattern/app/main.py:96 | another quantity of an item changes the total by its price times the difference |
| OrderContents.StoredOrder | 12-outbox-pattern/app/main.py:96-108 | in every reachable state an order is what a request of the run asked for, in status CREATED, at the sum of its line prices |
| OrderContents.StoredRow | 12-outbox-pattern/app/main.py:110-123 | in every reachable state an outbox row announces the creation of its order with that order's own data, topic, type and headers |
| OrderContents.PublishedRecord | 12-outbox-pattern/app/relay.py:129-143 | in every reachable state a record of the log has the topic, type and headers of the order events, its order as key, that order's own data and the event id of its row |
| Inbox.StepKeepsInv | 12-outbox-pattern/app/consumer.py:86-116 | every consumer step, crash or redelivery keeps: below every committed offset and position all event ids are marked |
| Inbox.StepConservesMark | 12-outbox-pattern/app/consumer.py:99-112 | every step keeps: a mark is one effect, or lost in a crash, or still in its window; lost marks are at most the crashes |
| Inbox.LogGrowthKeeps | 12-outbox-pattern/app/consumer.py:86-116 | records appended meanwhile disturb none of that |
| Inbox.OneConsumerResumes | 12-outbox-pattern/app/consumer.py:114-116 | a single consumer process always goes on from the committed offsets, after crashes too |
| InboxConsumer.Process.MarkProcessed | 12-outbox-pattern/app/consumer.py:46-64 | true exactly for an event id not recorded before, which is recorded |
| InboxConsumer.Process.HandlePartition | 12-outbox-pattern/app/consumer.py:89-116 | the records of one partition: marks, effects of the new ones in order, then the offset behind the last |
| InboxConsumer.Process.Consume | 12-outbox-pattern/app/consumer.py:86-116 | one poll over its partitions: exactly the new events' effects run, in order and once each, and a partition is committed only once all its fetched records are marked |
| InboxConsumer.FreshOncePerEvent | 12-outbox-pattern/app/consumer.py:95-102 | a batch runs the effect of an event exactly once if it carries it and it was not marked, else not at all |
| InboxConsumer.BatchIsRun | 12-outbox-pattern/app/consumer.py:89-116 | handling a batch is a crash-free run of the consumer protocol |
| InboxConsumer.PollIsRun | 12-outbox-pattern/app/consumer.py:86-116 | so is a whole poll over several partitions |
| EndToEnd.RunInvariant | 12-outbox-pattern/app/consumer.py:86-116 | all relay and inbox invariants hold in every reachable state of the composed system |
| EndToEnd.InboxSafety | 12-outbox-pattern/app/consumer.py:46-116 | at most one effect per event; marks without effect at most crashes plus open windows; no committed offset passes an unmarked event |
| EndToEnd.OrderEffectExactlyOnce | 12-outbox-pattern/app/consumer.py:99-112 | with everything published and committed, an order's effect ran exactly once if and only if its event was neither lost in a crash nor is in a window |
| EndToEnd.ExactlyOnce | 12-outbox-pattern/app/main.py:99-124 | without such crashes every committed order has its effect exactly once, and every effect carries a committed order's own data |
| WindowCrash.WindowCrashLosesEffect | 12-outbox-pattern/app/consumer.py:99-112 | for every batch size, partitioning and order, a run with one crash between mark and effect ends fully published and committed, with the order's effect lost |
| WindowCrash.CrashFreeDelivers | 12-outbox-pattern/app/consumer.py:99-116 | the same run without the crash ends with the effect run once |
| Breaker.CircuitBreaker.Enter | 13-resilience-patterns/app/circuit_breaker.py:91-104 | rejects exactly when open and not yet due; moves to half open when due |
| Breaker.CircuitBreaker.RecordFailure | 13-resilience-patterns/app/circuit_breaker.py:114-127 | reopens from half open, else counts and opens at the threshold |
| Breaker.CircuitBreaker.RecordSuccess | 13-resilience-patterns/app/circuit_breaker.py:106-112 | closes and clears the count and the opening time from any state |
| Breaker.CircuitBreaker.Call | 13-resilience-patterns/app/circuit_breaker.py:79-89 | admission, outcome and settlement of one call; an exception of another class leaves the circuit as admission left it |
| Breaker.BreakerInvariant | 13-resilience-patterns/app/circuit_breaker.py:91-127 | in every interleaving of calls: CLOSED iff count below threshold iff no opening time, iff fewer failures than the threshold since the last success, and the count is that number |
| Breaker.OpensExactlyAtThreshold | 13-resilience-patterns/app/circuit_breaker.py:121-123 | CLOSED turns OPEN exactly at the failure that completes a run of threshold failures |
| Breaker.OpenedAtLastFailure | 13-resilience-patterns/app/circuit_breaker.py:114-127 | in every interleaving a circuit that is not closed dates from the last expected failure that settled, late ones included, and is half open only from the recovery timeout after it on |
| Breaker.RejectedIff | 13-resilience-patterns/app/circuit_breaker.py:91-127 | a call that begins is rejected if and only if at least threshold failures have settled since the last success, the last of them less than the recovery timeout ago |
| Breaker.LoadBound | 13-resilience-patterns/app/circuit_breaker.py:79-127 | non-overlapping failing calls in a window of length T: at most threshold + floor(T / recovery timeout) get through, from any reachable state |
| Breaker.LoadBoundTight | 13-resilience-patterns/app/circuit_breaker.py:79-127 | that many do get through in some window, for every threshold and timeout |
| Breaker.SingleProbeIff | 13-resilience-patterns/app/circuit_breaker.py:91-123 | a half-open phase lasts from the probe's admission to the first success or expected failure, and admits exactly one call if and only if no call begins in it |
| Breaker.HalfOpenAdmitsEveryone | 13-resilience-patterns/app/circuit_breaker.py:93-99 | from an open circuit that is due, any number of idle calls that begin before one settles are all admitted, whatever else is running |
| Breaker.AnyNumberOfProbes | 13-resilience-patterns/app/circuit_breaker.py:93-99 | for every threshold, timeout and number, a run from the start lets that many calls through one half-open phase |
| Breaker.UnexpectedErrorAdmitsNext | 13-resilience-patterns/app/circuit_breaker.py:82-99 | a run from the start in which two calls that do not overlap both pass, the first ending with another exception |
| Breaker.StaysOpenIff | 13-resilience-patterns/app/circuit_breaker.py:91-112 | in every run from an open circuit it stays open, and then admits nothing, if and only if no success settles and no call begins when it is due |
| Breaker.RejectsUntilDueIff | 13-resilience-patterns/app/circuit_breaker.py:6-7 | in every run that ends short of the recovery timeout it stays open, and then admits nothing, if and only if no success settles |
| Breaker.LateSuccessCloses | 13-resilience-patterns/app/circuit_breaker.py:106-112 | the exception is reachable: a call begun before the failures that open the circuit succeeds at any time short of the recovery timeout, and the call that would have been rejected is admitted |
| Retry.StopAtIs | 13-resilience-patterns/app/retry.py:44-68 | the attempt reported is the only one before which all are retriable and which is not retriable or is the last allowed |
| Retry.BackoffTotal | 13-resilience-patterns/app/retry.py:61 | the delays after k failures add up to base * (2^k - 1) plus the jitters |
| Retry.SleepBounds | 13-resilience-patterns/app/retry.py:61-68 | k attempts sleep at least base * (2^(k-1) - 1) and at most (k-1) jitter bounds more |
| Retry.RetryWhile | 13-resilience-patterns/app/retry.py:30-68 | the while loop reports that attempt, makes that many attempts and sleeps that sum, for any maximum |
| Retry.RetryFor | 07-error-handling-and-retry/app/retry.py:14-66 | the for loop likewise with every exception retriable, for any maximum; with no attempt allowed it has nothing to raise |
| Retry.LoopsAgree | 07-error-handling-and-retry/app/retry.py:39-66 | the two loops agree exactly when the while loop ends at a value or the last attempt, hence whenever all errors are retriable |
| Gateway.GatewayClient.CallOnce | 13-resilience-patterns/app/gateway_client.py:65-72 | one HTTP call through the breaker, and none at all when it rejects |
| Gateway.GatewayClient.Charge | 13-resilience-patterns/app/gateway_client.py:59-81 | the retry loop around the breaker refines the recursive specification of a charge: state, sleeps and result |
| Gateway.ChargeOutcome | 13-resilience-patterns/app/gateway_client.py:74-81 | against any gateway: at most the allowed calls, all but the last failed as expected, the result tells how the last ended or that the circuit rejected the next, and the sleeps between them double |
| Gateway.ChargeSleeps | 13-resilience-patterns/app/retry.py:61-68 | less their jitters the sleeps of a charge start at the base delay and double, and the clock moves by its HTTP calls and its sleeps |
| Gateway.OpenChargeIsImmediate | 13-resilience-patterns/app/gateway_client.py:74-81 | a charge begun while the circuit is open and not due makes no call and no sleep |
| Gateway.FailingChargesCount | 13-resilience-patterns/app/gateway_client.py:59-81 | from any closed circuit with count 0, n charges against a failing gateway make exactly min(threshold, n * allowed attempts) further HTTP calls while no opening is due |
| Gateway.ChargesAfterOpening | 13-resilience-patterns/app/gateway_client.py:79-80 | from any such state, every charge begun after the opening raises the open-circuit error and changes nothing |
| SagaServices.OrderService.CreateOrder | 09-saga-pattern-order-system/order-service/app/models.py:36-51 | stores a new order with history CREATED |
| SagaServices.OrderService.UpdateOrderStatus | 09-saga-pattern-order-system/order-service/app/models.py:54-64 | sets the status and appends it to the history; an unknown order is left alone |
| SagaServices.OrderService.GetOrder | 09-saga-pattern-order-system/order-service/app/models.py:67-69 | the stored order, or nothing |
| SagaServices.OrderService.CreateNewOrder | 09-saga-pattern-order-system/order-service/app/main.py:71-107 | stores and publishes the order, then records PAYMENT_PROCESSING; a publish that raises leaves it stored in CREATED |
| SagaServices.OrderService.ProcessMessage | 09-saga-pattern-order-system/order-service/app/consumer.py:79-148 | the dispatch on topic and event type is the handler the step system uses, with its refund request |
| SagaServices.OrderHandlerTable | 09-saga-pattern-order-system/order-service/app/consumer.py:96-148 | the status each result leads to, one refund request of the order's total for a failed reservation, and nothing for an unknown order or another message |
| SagaServices.PaymentService.ProcessOrderCreated | 09-saga-pattern-order-system/payment-service/app/consumer.py:82-140 | records and answers each order once, charged or refused |
| SagaServices.PaymentService.ProcessRefundRequest | 09-saga-pattern-order-system/payment-service/app/consumer.py:143-198 | records and answers each refund request once |
| SagaServices.InventoryService.ProcessPaymentResult | 09-saga-pattern-order-system/inventory-service/app/consumer.py:69-128 | records and answers completed payments, ignores anything else |
| SagaInvariants.StepConserves | 09-saga-pattern-order-system/order-service/app/consumer.py:79-148 | every step keeps, for every status, payment, stock and refund record: written + still to come = what the scenario determines |
| SagaInvariants.RunInvariant | 09-saga-pattern-order-system/order-service/app/consumer.py:79-148 | that and well-formed messages hold in every reachable state |
| SagaTheorems.CompleteIsDetermined | 09-saga-pattern-order-system/payment-service/app/consumer.py:82-198 | a complete run has written exactly the records and statuses the outcomes determine, whatever its interleaving |
| SagaTheorems.Confluence | 09-saga-pattern-order-system/order-service/app/consumer.py:79-148 | two complete runs over the same orders, causal or not, end with the same multisets of records and, per order, of statuses |
| SagaTheorems.RefundsMatchCharges | 09-saga-pattern-order-system/payment-service/app/consumer.py:162-198 | in every reachable state the refund is 0 or exactly the charge, and never precedes a completed charge |
| SagaTheorems.NetChargeDetermined | 09-saga-pattern-order-system/payment-service/app/consumer.py:101-198 | the net charge of a complete run, without any delivery hypothesis |
| SagaTheorems.MessagesConserved | 09-saga-pattern-order-system/order-service/app/consumer.py:96-148 | handled messages and messages ahead add up to the order's fixed number, at most six |
| SagaTheorems.MeasureDecreases | 09-saga-pattern-order-system/order-service/app/consumer.py:96-148 | every handling lowers the measure by one |
| SagaTheorems.Quiesces | 09-saga-pattern-order-system/order-service/app/main.py:91-107 | a run with n orders has at most 8n steps, and an incomplete one can go on |
| SagaTheorems.HistoriesFollowGraph | 09-saga-pattern-order-system/order-service/app/models.py:5-12 | in every reachable state an order's history is a path of the documented graph if and only if no result of that order overtook its causes; such a path never leaves a terminal status |
| SagaTheorems.CompleteIsTerminal | 09-saga-pattern-order-system/order-service/app/models.py:5-12 | in a complete run an order has walked its whole path if and only if the run was causal for it, and then is in the terminal status the outcomes determine |
| SagaTheorems.NetChargeMatchesStatus | 09-saga-pattern-order-system/order-service/app/consumer.py:108-148 | in a complete run the net charge is 0 or the total price; status and net charge determine each other if and only if the status is terminal, as it is when the run was causal for the order |
| SagaTheorems.TerminalIsRight | 09-saga-pattern-order-system/order-service/app/models.py:54-64 | without causal delivery too, a terminal status at completion is the right one |
| SagaTheorems.OvertakingStrandsOrder | 09-saga-pattern-order-system/order-service/app/consumer.py:96-111 | an overtaking stock result leaves a paid and reserved order in INVENTORY_PROCESSING |
| Cqrs.ViewIsLocal | 11-multi-service-architecture/query-service/app/consumer.py:42-143 | the view of an order is the fold of that order's own log entries |
| Cqrs.SameTimelinesSameModel | 11-multi-service-architecture/query-service/app/consumer.py:42-143 | logs with equal per-order subsequences give equal read models |
| Cqrs.ReplayRebuilds | 11-multi-service-architecture/query-service/app/consumer.py:53-60 | replaying the logged data from empty rebuilds the model when events carry timestamps |
| Cqrs.ReplayRebuildsButTimes | 11-multi-service-architecture/query-service/app/consumer.py:50-60 | without timestamps it rebuilds everything but the times |
| Cqrs.ReplayNeedsTimestamps | 11-multi-service-architecture/query-service/app/consumer.py:50-60 | for any log, a replay rebuilds the model if and only if every event of a known kind since the latest creation of its order carries a timestamp or meets the same clock |
| Cqrs.CompletedIff | 11-multi-service-architecture/query-service/app/consumer.py:85-136 | in every reachable model COMPLETED iff paid and reserved, iff the latest payment and stock results since creation both succeeded |
| Cqrs.ViewShows | 11-multi-service-architecture/query-service/app/consumer.py:65-143 | in every reachable model each field of a view (user, price, amounts, reasons, times, events, status) is read off the order's own log entries since its creation |
| Cqrs.WriteIsLocal | 11-multi-service-architecture/order-service/app/consumer.py:69-98 | the write model of a known order depends on its own results only |
| Cqrs.StatusesAgreeIff | 11-multi-service-architecture/query-service/app/consumer.py:65-136 | for any results and creations of an order in any order, the two services hold the same status if and only if a condition on all its results and those since its latest creation is met |
| Cqrs.ModelsAgree | 11-multi-service-architecture/order-service/app/consumer.py:69-99 | payment first and at most one of each: exactly which results may precede the creation at the query service for both to hold the same status; with the creation first they always do, however the orders interleave in the two |
| Cqrs.WriteCompletedIff | 11-multi-service-architecture/order-service/app/consumer.py:85-91 | when the write model completes an order, and exactly when the read model then does too |
| Cqrs.WriteCompletedImpliesRead | 11-multi-service-architecture/order-service/app/consumer.py:85-91 | at most one of each, in either order: a write-completed order is read-completed if and only if no result preceded the creation, so always with the creation first |
| Cqrs.PaymentBeforeCreationIsLost | 11-multi-service-architecture/query-service/app/consumer.py:85-86 | a payment consumed before the creation leaves the order completed in the write model and reserved in the read model |
| Cqrs.ReservationFirstNeverCompletes | 11-multi-service-architecture/order-service/app/consumer.py:74-91 | at most one of each, reservation first: the write model never completes the order, and the read model does exactly when the payment has come too and the creation came first |
| CqrsServices.ReadModel.ProcessEvent | 11-multi-service-architecture/query-service/app/consumer.py:42-143 | one event extends the log by one entry, with its own timestamp or else the clock's, leaves other orders' views alone, and keeps model and log the folds of what was consumed |
| CqrsServices.ReadModel.Apply | 11-multi-service-architecture/query-service/app/consumer.py:65-143 | the field-by-field branches compute the view step |
| CqrsServices.CountStatuses | 11-multi-service-architecture/query-service/app/main.py:154-158 | one positive count per status found, equal to the number of orders with it, adding up to all orders |
| CqrsServices.SumRevenue | 11-multi-service-architecture/query-service/app/main.py:161-164 | the sum of the prices of completed orders, whatever the iteration order |
| CqrsServices.RevenueIsEarned | 11-multi-service-architecture/query-service/app/main.py:161-164 | revenue equals the sum of latest prices over orders whose latest payment and stock results both succeeded, read off the log |
| CqrsServices.ReadModel.GetStats | 11-multi-service-architecture/query-service/app/main.py:148-171 | totals, breakdown and that revenue for every reachable model |
| CqrsServices.ReadModel.GetOrderDetail | 11-multi-service-architecture/query-service/app/main.py:107-128 | the view and its timeline, from which alone the view can be rebuilt; nothing for an unknown order |
| CqrsServices.WriteStore.Consume | 11-multi-service-architecture/order-service/app/consumer.py:56-101 | the message loop computes the write fold, and each order is the fold of its own results |
| Points.StepKeepsBalance | 08-exactly-once-and-idempotency/app/consumer.py:81-107 | every step keeps the balance formula of every user |
| Points.StepKeepsOffsets | 08-exactly-once-and-idempotency/app/consumer.py:81-107 | every step keeps: below every committed offset and position the keys are marked |
| Points.BalanceFormula | 08-exactly-once-and-idempotency/app/consumer.py:63-107 | in every reachable state a balance is the points of the first handled message per key plus extra credits, one per crash between credit and mark |
| Points.CommittedIsMarked | 08-exactly-once-and-idempotency/app/consumer.py:87-106 | no committed offset passes a message whose key no handled message has |
| Points.DrainedBalance | 08-exactly-once-and-idempotency/app/consumer.py:63-107 | committed to the end: one credit per distinct key of the topic plus those extras, exact without such a crash, in any partition interleaving |
| Points.BalancesExactIff | 08-exactly-once-and-idempotency/app/consumer.py:90-103 | then, with positive points, all balances are exact if and only if no crash fell between a credit and its mark |
| Points.DifferentKeysAllCredited | 08-exactly-once-and-idempotency/app/consumer.py:81-103 | when every message of a drained topic has a key of its own, every one is credited, exactly once without a window crash |
| Points.CrashInWindowCreditsTwice | 08-exactly-once-and-idempotency/app/consumer.py:91-103 | one crash between credit and mark credits twice |
| Points.MessageIsRun | 08-exactly-once-and-idempotency/app/consumer.py:63-107 | handling a message without interruption is a run of the step system |
| Points.KeyInStoreIff | 08-exactly-once-and-idempotency/app/idempotency.py:53-65 | two keys are one in the store if and only if they are the same, or a missing key and the text None |
| Points.IdempotencyStore.IsProcessed | 08-exactly-once-and-idempotency/app/idempotency.py:43-54 | true exactly for a key the store holds |
| Points.IdempotencyStore.MarkProcessed | 08-exactly-once-and-idempotency/app/idempotency.py:56-69 | records the key and changes the answer for no other key |
| Points.PointsConsumer.Credit | 08-exactly-once-and-idempotency/app/consumer.py:91-93 | adds the points to the user's balance and touches no other |
| Points.PointsConsumer.ProcessMessage | 08-exactly-once-and-idempotency/app/consumer.py:63-107 | check, credit, mark, commit of one message, reaching a state of the step system |
| Points.PointsConsumer.Consume | 08-exactly-once-and-idempotency/app/consumer.py:51-53 | for any order of partitions: exact balances over distinct handled keys, and committed keys marked |
| DeadLetters.HandlingMeaning | 07-error-handling-and-retry/app/consumer.py:118-137 | processed exactly when an allowed attempt succeeds, after the attempts up to the first; otherwise all attempts were made and it is dropped exactly when its dead letter is |
| DeadLetters.RetriesNeverHelp | 07-error-handling-and-retry/app/consumer.py:32-53 | with the deterministic service: processed iff complete and not the refused amount, after one attempt, else all in vain |
| DeadLetters.ProcessPaymentFields | 07-error-handling-and-retry/app/consumer.py:32-53 | raises on an amount of 10 and then on the first missing field; else the receipt carries the payment's own fields |
| DeadLetters.SplitInOrder | 07-error-handling-and-retry/app/consumer.py:111-139 | the committed messages split in order and without overlap into processed, dead-lettered and dropped |
| DeadLetters.ResultsMatch | 07-error-handling-and-retry/app/consumer.py:118-134 | stored results and dead letters match the processed and dead-lettered messages position by position and field by field |
| DeadLetters.PaymentConsumer.SendToDlq | 07-error-handling-and-retry/app/consumer.py:56-80 | one letter with the payment's own fields and the defaults for missing ones, or silently none |
| DeadLetters.PaymentConsumer.HandleMessage | 07-error-handling-and-retry/app/consumer.py:111-139 | one message: result or letter or neither, and always a commit |
| DeadLetters.PaymentConsumer.ConsumePayments | 07-error-handling-and-retry/app/consumer.py:83-139 | the loop over any log and any pattern of failures commits every message and stores exactly those results and letters, in log order |

## Left out

- FastAPI routes other than the modelled ones, lifespan handling, start-up connection retries, health checks, logging, settings, the chapter 11 gateway proxy: no state of interest.
- Chapters 02 to 06 and 10: producers and consumers that forward single messages, wrappers over a serializer library, a bounded list of recent messages and a sum of lags; they hold no protocol state.
- Kafka, PostgreSQL, Redis and httpx internals: append-only logs, atomic transactions with row locks, a key set, and an outcome oracle. Consumer-group rebalancing is a nondeterministic `Assign`; it is not modelled for chapters 07, 08, 09 and 11.
- UUIDs are abstract numbers, random success rates are outcomes fixed per order or per attempt, clock texts are numbers, and prices and delays are integers and reals instead of floats.
- A commit whose outcome the client never learns: a chapter 12 tick either marks its batch or rolls back, and each modelled commit is atomic.
- The `max_records` bound of a fetch: a fetch may end anywhere in a partition, which covers every bound.
- A row's text columns created_at and published_at: only whether published_at is set is kept.
- Expiry of idempotency keys in chapter 08: keys are kept for ever, so a redelivery after expiry is not covered.
- Several competing points consumers: chapter 08 starts one consumer, and balances are taken as durable although they are held in memory.
- Loss of the in-memory stores of chapters 09 and 11 on restart, and redelivery to their services: each message is handled once per group.
- Crashes of the chapter 07 consumer in the middle of a message: the loop is modelled from message to message.
- Reasons and times in status histories, items, transaction and reservation identifiers, and notification texts: carried through and never branched on.
- Views without payment method, transaction id, warehouse id, items and shipping address: set from the event and never read back. `GET /orders` returns a filtered, sorted copy of the views and changes nothing.
- A publish that raises, in the step system of the saga: storing and publishing an order are one step, so an order that stays in CREATED because its publish raised takes no part in the saga's results; neither does a message another service failed to publish. `CreateNewOrder` covers the request itself.
- Results that the two chapter 11 services consume in different orders: their agreement is stated for the same order of one order's results in both.
