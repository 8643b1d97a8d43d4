# Verification of the order-to-payment pipeline and of the resilience layer

This project models two linked parts of the food delivery backend in Dafny and proves properties of
the model.

**The event pipeline.** An order command saves the order row and its outbox rows in one transaction.
The outbox relay locks the oldest pending rows, publishes them to Kafka and marks them, inside a
transaction that can still roll back when the messages are already out. The payment consumer handles
each message with a handler that is not atomic (load, create, capture, save, load again), retries it,
and commits the message even if it failed. Payment commands load an aggregate, change it, call the
payment provider, and save the row and its outbox records.

**The resilience layer.** A circuit breaker that takes its lock twice around an unlocked operation, a
retry policy with exponential backoff and jitter in 64-bit arithmetic, a bulkhead on a channel, and
the stack of the three around the payment provider's HTTP client.

## How the model is built

- Code that updates objects is a class with the same fields and methods. Every method is proved equal
  to a function of the old state (`PaymentCommands.Execute`, `Consumer.Handle`, `Relay.Batch`,
  `Breaker.Leave`, ...), and the results are proved about runs of these functions.
- Every call out of a service (a load, a save, a capture, a publish) ends as `Done`, `Refused` or
  `Lost`; `Lost` means that it took effect and its caller was told that it failed. The callers give
  up on every error, so `Refused` and `Lost` are also the two ways in which a process can die at a
  call, and a proof over all outcomes covers a crash between any two calls.
- Concurrency is a step system: one atomic step for each load, provider call, save, publish or locked
  section, and a theorem about every sequence of such steps.
- A load returns a fresh copy of the row, as the database does, and not a shared pointer. The payments
  table stands in the order of `created_at`. Its `id` and `order_id` are UUID columns: they refuse text
  that is no UUID, in a lookup as in an insert, and give back canonical text (`Uuids.Canonical`).
- The consumer may die at any point before it goes on from a message; what it does next to the messages of
  other orders, how often it is set back, and how long its context lets it retry, is open.

| file | what it covers |
|---|---|
| `Wrappers.dfy`, `Arithmetic.dfy`, `Faults.dfy` | options and results; products and quotients; outcomes of calls |
| `Text.dfy`, `Uuids.dfy` | trimming and currency codes; text in a UUID column, and the supply of identifiers |
| `Payments.dfy`, `PaymentStore.dfy`, `PaymentCommands.dfy` | the payment aggregate, its repository and provider, its service |
| `PaymentRuns.dfy` | interleaved payment commands: the outbox follows the status |
| `Consumer.dfy`, `ConsumerRuns.dfy` | the consumer, idempotence, retries, what a sequence of deliveries means |
| `Publisher.dfy` | the messages that the relay's publisher writes |
| `Money.dfy` | captures and refunds against statuses |
| `Orders.dfy`, `OrderRuns.dfy` | the order aggregate, service, mapper, upcaster and repository; interleaved order commands |
| `Relay.dfy`, `RelayOrder.dfy`, `RelayProgress.dfy` | at-least-once publication, order of the topic, non-starvation |
| `EndToEnd.dfy`, `Completion.dfy` | orders, relay, partitions, consumer and payments together; that the whole can always be completed |
| `Breaker.dfy`, `Backoff.dfy`, `Retry.dfy`, `Bulkhead.dfy`, `Transport.dfy` | the resilience layer |

## Main results

1. `EndToEnd.Convergence`: order by order, in every run of the whole pipeline with any number of relays.
   Once an order's outbox rows are published and its messages read, it has exactly one payment, paid, or
   refunded if the order is cancelled, unless its cancellation has overtaken its placement on the way to
   the topic or the consumer has gone on from one of its messages without success. With one relay whose
   publishes take effect nothing is overtaken (`EndToEnd.ConvergenceWithOneRelay`), and such an order
   can always still get its payment (`Completion.CanAlwaysConverge`). Of an order all of whose handlings
   end well `EndToEnd.ConvergenceExactly` says when, overtaken or not.
2. `ConsumerRuns.RetryTransparency`, `ConsumerRuns.FateInClosedForm` and `ConsumerRuns.InterruptedFate`:
   interrupted attempts are invisible in the end; any repetition and reordering of deliveries has a
   closed-form meaning; and any handlings but one may be cut short or given up.
3. `Money.MoneyFollowsStatus`: the money held for a payment is what its status says, exactly if the
   captures and the refunds that no save followed cancel out.
4. `PaymentRuns.OutboxFollowsStatus` and `OrderRuns.OutboxFollowsStatus`: over every interleaving
   without two commands at once on one aggregate, the outbox is a function of the status.
5. `RelayProgress.Threshold`, `RelayProgress.NonStarvation`, `RelayProgress.Starvation`: a row is
   published in the end if and only if fewer than `batchSize` unpublishable rows are older, with a bound.
6. `Breaker.Admission`, `Breaker.Recovery`, `Breaker.OpeningRate`, `Breaker.FailuresAreHistory`: over every
   interleaving of any number of callers; exactly when an operation is admitted.
7. `Backoff.ClosedForm`: the doubling loop equals its closed form if and only if no doubling overflows.

## Findings

Each is a lemma about the code as it is; where its documents say otherwise the model follows the code.

- A save does not check what it overwrites. If two commands on one payment overlap, the later save
  keeps row and records in step exactly if the row is still what was loaded (`PaymentRuns.StaleSave`);
  for orders, exactly if the order has not been cancelled meanwhile (`OrderRuns.StaleSave`).
- A placement is lost, with the offset committed past it, exactly if no attempt that the context allows
  gets as far as inserting a payment (`ConsumerRuns.PlacementIsLost`, `ConsumerRuns.LoopLosesPlacement`).
- An order id that is no UUID, be it only for white space around it, fails in every attempt; these are the
  only ones that do (`ConsumerRuns.FailsIffNoUuid`). A payment comes back from the database equal exactly
  if its ids are canonical (`PaymentStore.RoundTrip`). Both are exact for every text but the ids of the
  model's own endless supply (`Uuids.Canonical` under Left out).
- If the save after a capture fails and a cancellation comes before the next attempt, the payment is
  failed with the money taken (`Money.FailedMayBeCaptured`). A failed payment has been captured exactly if
  some capture of it took the money but was reported as failed, or the save right after some capture was
  refused (`Money.FailedAndCaptured`).
- A failed publish does not stop the batch, and a row that somebody else has locked is skipped. A row of a
  batch overtakes an older one exactly if it goes out while the older one is not in the topic from before
  and does not go out before it in the batch (`RelayOrder.OvertakingByABatch`,
  `RelayOrder.OvertakingInABatch`, `RelayOrder.OrderInABatch`). A cancelled order whose handlings all end
  well gets its refund exactly if some cancellation is handled after some placement, be it a redelivered
  one; if none is, its payment stays paid (`EndToEnd.ConvergenceExactly`,
  `ConsumerRuns.FateInClosedForm`).
- The backoff becomes negative for large delays (`Backoff.ClosedForm`, right to left), and drawing the
  jitter panics exactly for a spread of 2^62 or more (`Backoff.JitterFits`).
- `isHTTPRetryableError` is never installed, because the policy is normalised first, so the HTTP
  retries repeat every error (`Transport.HttpPredicate`).
- `docs/order-business-rules.md:20` asks for 5 non-space characters in a cancellation reason; the code counts
  5 bytes of the trimmed text. It takes every reason that the rule takes, and one with fewer such characters
  exactly if white space inside it and wide characters make up for them (`Orders.ReasonRule`), for instance
  two letters with three spaces between them (`Orders.ShortReasonTaken`).
- `docs/payment-business-rules.md:41` forbids to mark a payment paid or failed twice. The code takes it as a
  success when it is paid already, or failed for the same reason (`Payments.MarkedAgain`), and `MarkPaid`
  captures exactly if its load succeeds and the payment is pending or paid already
  (`Money.ProviderRequests`): without faults once for every repetition (`Money.EveryRepetitionCaptures`).

## Model

| member | source | states |
|---|---|---|
| Text.TrimFixesExactlyTheTrimmed | payment/domain/validation.go:31-34 | Trimming lands on trimmed text, leaves exactly the trimmed text alone, and is idempotent. |
| Text.BlankTrimsToEmpty | payment/domain/validation.go:50-53 | Trimming leaves nothing exactly of blank text, so the emptiness checks reject exactly blank input. |
| Uuids.CanonicalIsUuid | payment/database/postgres/migrations/001_create_payments_table.up.sql:3-6 | What a UUID column gives back is clean text of 36 characters that is taken back unchanged, and the column refuses text with white space around it; the ids of the supply alone may be longer. |
| Uuids.TakenText | payment/database/postgres/migrations/001_create_payments_table.up.sql:3-6 | A UUID column takes exactly eight groups of four hexadecimal digits, any two of them joined by a hyphen or not, with or without braces around the whole. |
| Uuids.CanonicalText | payment/database/postgres/migrations/001_create_payments_table.up.sql:3-6 | It stores as it is exactly text of 36 characters with lower-case digits and hyphens at 8, 13, 18 and 23, and gives any other text that it takes back as such a text with the same digits. |
| Payments.NewIsWellFormed | payment/domain/validation.go:11-20 | A new payment is refused exactly for a blank order id, a non-positive amount or a currency that is not three capital letters; otherwise it is well-formed, pending and made of the trimmed input. |
| Payments.ApplyKeeps | payment/domain/payment.go:77-124 | Commands keep payments well-formed, never touch identity, amount, currency or creation time, and record events exactly when they change something. |
| Payments.Acceptance | payment/domain/payment.go:77-124 | MarkPaid is accepted exactly if pending or paid, Refund if paid or refunded, MarkFailed if the reason is not blank and the payment is pending or failed for that reason; an accepted command gives its own status and trimmed reason and one event unless that was the status before; the errors of the others. |
| Payments.LifeCycle | payment/domain/payment.go:77-124 | Over any number of commands failed and refunded are final, paid leads only to refunded, and refunded is reached only by way of paid. |
| Payments.MarkedAgain | payment/domain/payment.go:77-111 | Marking a paid payment paid, or a failed one failed, is accepted without a change or an event, for a failed one exactly if the trimmed reason is the same; the documented rule forbids both. |
| Payments.ReconstructIsWellFormed | payment/domain/validation.go:22-47 | Reconstruction trims the texts and accepts exactly what is then well-formed; a well-formed payment comes back unchanged. |
| Payments.NewPayment | payment/domain/payment.go:20-42 | The constructor validates, starts pending, and records one initiation. |
| Payments.Payment.MarkPaid | payment/domain/payment.go:77-89 | Pending becomes paid with one event; paid is a no-op; anything else is refused and changes nothing. |
| Payments.Payment.MarkFailed | payment/domain/payment.go:91-111 | The reason is validated first; pending becomes failed with it; the same reason again is a no-op; anything else is refused. |
| Payments.Payment.Refund | payment/domain/payment.go:113-124 | Paid becomes refunded with one event; refunded is a no-op; anything else is refused. |
| Payments.Payment.FlushEvents | payment/domain/payment.go:126-130 | Hands the pending events over and forgets them. |
| PaymentStore.LatestFor | payment/infrastructure/persistence/postgres_payment_repository.go:33-39 | The newest row of an order, given as the UUID that the column holds, or none. |
| PaymentStore.Lookups | payment/infrastructure/persistence/postgres_payment_repository.go:27-60 | A lookup reports not found exactly if the call is done, the id is a UUID and no row has it; everything else that fails is an error. |
| PaymentStore.RoundTrip | payment/infrastructure/persistence/postgres_payment_repository.go:41-113 | Of every payment that domain commands can reach: the save succeeds exactly if both ids are UUIDs and the amount has at most eight digits, it comes back the same but for canonical ids and created_at, and so equal exactly if its ids are canonical. |
| PaymentStore.PaidAtAfterSave | payment/infrastructure/persistence/postgres_payment_repository.go:88-100 | A committed save sets created_at on an insert and never after, sets paid_at to its own time exactly if it updates a row without one to paid, and stores an empty reason as null; an insert leaves paid_at null, but no command first saves a paid payment. |
| PaymentStore.PaymentRepository.GetByID | payment/infrastructure/persistence/postgres_payment_repository.go:27-31 | Loads a fresh copy by primary key, or reports not found or an error; text that is no UUID is an error. |
| PaymentStore.PaymentRepository.GetByOrderID | payment/infrastructure/persistence/postgres_payment_repository.go:33-39 | Loads a fresh copy of an order's newest payment, or reports not found or an error; text that is no UUID is an error. |
| PaymentStore.PaymentRepository.GetOne | payment/infrastructure/persistence/postgres_payment_repository.go:41-73 | Scans and reconstructs the selected row. |
| PaymentStore.PaymentRepository.Save | payment/infrastructure/persistence/postgres_payment_repository.go:75-153 | One transaction: the row with canonical ids, its paid_at and its reason, and the records of the events, or neither; refused if an id is no UUID or the amount does not fit. |
| PaymentStore.PaymentProvider.Capture | payment/application/payment_service.go:57-59 | A capture request, logged with how it really ended. |
| PaymentStore.PaymentProvider.Refund | payment/application/payment_service.go:87-89 | A refund request, logged with how it really ended. |
| PaymentCommands.PaymentService.Create | payment/application/payment_service.go:30-45 | Makes and saves a payment. |
| PaymentCommands.PaymentService.MarkPaid | payment/application/payment_service.go:47-62 | Load, change, capture, save, stopping at the first error. |
| PaymentCommands.PaymentService.MarkFailed | payment/application/payment_service.go:64-75 | Load, change, save, stopping at the first error. |
| PaymentCommands.PaymentService.Refund | payment/application/payment_service.go:77-92 | Load, change, refund, save, stopping at the first error. |
| PaymentCommands.PaymentService.Persist | payment/application/payment_service.go:94-101 | Flushes the events and saves them with the payment. |
| PaymentRuns.CommandFollows | payment/infrastructure/persistence/outbox_event_mapper.go:19-73 | What a command adds to the history that belongs to a payment's status is exactly the records of its events. |
| PaymentRuns.CreateOnTables | payment/application/payment_service.go:30-45 | Create succeeds exactly if the trimmed order id is a UUID, the amount is positive and fits, the trimmed currency is three capital letters and the save is done; and then the table has exactly one row more, pending and made of that input. |
| PaymentRuns.NextKeepsSound | payment/application/payment_service.go:30-101 | Every atomic step of interleaved commands keeps rows, records and paid_at consistent. |
| PaymentRuns.OutboxFollowsStatus | payment/infrastructure/persistence/postgres_payment_repository.go:75-153 | In every run, with any faults, a payment's records are none if pending, the confirmation if paid, the failure if failed, confirmation and refund if refunded; and paid_at is set exactly on paid and refunded ones. |
| PaymentRuns.CommandIsARun | payment/application/payment_service.go:47-92 | A command that nothing interleaves with is the run of its own steps. |
| PaymentRuns.HistoryInjective | payment/infrastructure/persistence/outbox_event_mapper.go:19-73 | The records tell the states of a payment apart. |
| PaymentRuns.StaleSave | payment/infrastructure/persistence/postgres_payment_repository.go:85-113 | A save of a stale copy keeps records and row in step if and only if the row is still what was loaded. |
| Consumer.HeaderValue | payment/infrastructure/order_events_consumer.go:218-225 | The value of the first header whose key matches regardless of case, or the empty string. |
| Consumer.KeysMatch | payment/infrastructure/order_events_consumer.go:218-225 | Two header keys match exactly if they are the same but for the case of ASCII letters. |
| Consumer.Decoding | payment/infrastructure/order_events_consumer.go:120-131 | By the first event_name header: OrderPlaced is a placement and OrderCancelled a cancellation of the order in the body, either is broken without a body, and any other name, or none, is ignored. |
| Publisher.SentIsReceived | order/infrastructure/kafka_outbox_publisher.go:30-49 | What the publisher writes for a placement of either version is read as a placement of that order, and for a cancellation as a cancellation of it. |
| Consumer.OrderEventsConsumer.constructor | payment/infrastructure/order_events_consumer.go:50-91 | Non-positive amounts, blank currencies and non-positive attempt counts get their defaults. |
| Consumer.OrderEventsConsumer.HandleOrderPlaced | payment/infrastructure/order_events_consumer.go:140-186 | The placement handler, call by call. |
| Consumer.OrderEventsConsumer.HandleOrderCancelled | payment/infrastructure/order_events_consumer.go:188-216 | The cancellation handler, call by call. |
| Consumer.OrderEventsConsumer.HandleMessage | payment/infrastructure/order_events_consumer.go:120-131 | Dispatches on the event name; unknown events are ignored, undecodable ones are errors. |
| Consumer.OrderEventsConsumer.HandleMessageWithRetry | payment/infrastructure/order_events_consumer.go:114-118 | At most maxAttempts attempts, until the first that succeeds, and no more than its context allows before an attempt and in a sleep. |
| Consumer.OrderEventsConsumer.Run | payment/infrastructure/order_events_consumer.go:93-112 | Every fetched message is handled in order and committed whether or not it succeeded; the offset is that of the last commit that went through. |
| Consumer.AllowedSo | payment/infrastructure/order_events_consumer.go:114-118 | Attempt k is allowed exactly if the context has not ended before it, before an earlier attempt or in an earlier sleep. |
| Consumer.OffsetIsLastCommit | payment/infrastructure/order_events_consumer.go:104-110 | The offset is past the last message whose commit went through, and no later one was committed. |
| ConsumerRuns.HandleEffect | payment/infrastructure/order_events_consumer.go:140-216 | One attempt under any faults touches no other order, never makes a second payment, stops before, half-way to or at the handler's target, reaches it if it reports success, and reports success without faults. |
| ConsumerRuns.TargetSurvives | payment/infrastructure/order_events_consumer.go:146-213 | A partial attempt does not change where a further attempt leads. |
| ConsumerRuns.AttemptsAreAttempts | payment/infrastructure/order_events_consumer.go:114-118 | The bounded retry is a series of attempts of which all but the last fail and the last succeeds or is the n-th. |
| ConsumerRuns.RetriesReport | payment/infrastructure/order_events_consumer.go:114-118 | Under its context the retry reports success exactly if an attempt is allowed and the last one made succeeds. |
| ConsumerRuns.LoopIsConsume | payment/infrastructure/order_events_consumer.go:93-118 | The consumer's loop is a run in the sense of the results on runs. |
| ConsumerRuns.RetryTransparency | payment/infrastructure/order_events_consumer.go:114-216 | Any number of attempts cut short by any faults and then one that succeeds leave the payment and its sent records as a single successful attempt does. |
| ConsumerRuns.ConsumeKeepsGood | payment/infrastructure/order_events_consumer.go:140-216 | Whatever is delivered and whatever fails there is never more than one payment for an order. |
| ConsumerRuns.ConsumeMeansFate | payment/infrastructure/order_events_consumer.go:93-216 | Once every message of an order is handled, whatever becomes of the others, its payment is what the bare sequence of deliveries means. |
| ConsumerRuns.InterruptedFate | payment/infrastructure/order_events_consumer.go:93-216 | Of an order whose placement settles before its cancellation is first tried, any handlings may fail, be given up or be repeated: one payment once a placement has settled, refunded once a cancellation has, and never refunded without one. |
| ConsumerRuns.NothingUncalledFor | payment/infrastructure/order_events_consumer.go:140-216 | In every run there is no payment without a placement, and none failed or refunded without a cancellation. |
| ConsumerRuns.FateInClosedForm | payment/infrastructure/order_events_consumer.go:140-216 | No payment iff nothing was placed; refunded iff some placement precedes some cancellation; paid otherwise. |
| ConsumerRuns.FailsIffNoUuid | payment/infrastructure/order_events_consumer.go:146-150 | A message with an order id that is no UUID, so also with an untrimmed one, fails in every attempt and changes nothing, and without other faults only such a message fails. |
| Money.AttemptSucceeds | payment/infrastructure/order_events_consumer.go:120-216 | An attempt reports success exactly if the order id is a UUID, every call that it makes comes back as done and no payment has to be created that the settings forbid; always for an ignored message and never for one that does not decode, which change nothing. |
| ConsumerRuns.PlacementIsLost | payment/infrastructure/order_events_consumer.go:140-167 | The retries of a placement leave no payment if and only if in every attempt the lookup fails or the insert is refused. |
| ConsumerRuns.LoopLosesPlacement | payment/infrastructure/order_events_consumer.go:104-110 | After the commit the offset is past the placement, and the payment is missing if and only if no attempt that the context allowed got as far as the insert. |
| Money.HandleKeepsSafe | payment/infrastructure/order_events_consumer.go:140-216 | One attempt keeps the books of every payment and asks for at most one capture. |
| Money.ConsumerKeepsTheBooks | payment/application/payment_service.go:47-92 | On every consumer run a committed paid status comes right after a successful capture of the right amount, a refunded one right after a successful refund and after a paid one, and no capture follows a committed paid status. |
| Money.MoneyFollowsStatus | payment/application/payment_service.go:47-92 | Captures minus refunds is 1 if paid and 0 otherwise, if and only if the moves that no save followed cancel out; in particular if none is left unsaved. |
| Money.FailedAndCaptured | payment/application/payment_service.go:57-61 | A failed payment has been captured if and only if some capture of it took effect and was reported as failed, or some capture of it was done and the save right after it was refused. |
| Money.FailedMayBeCaptured | payment/application/payment_service.go:57-61 | A capture whose save fails, followed by a cancellation, leaves a failed payment with the money taken. |
| Money.DeliveryBound | payment/infrastructure/order_events_consumer.go:114-118 | One delivery asks for at most as many captures as there are attempts. |
| Money.NestedBound | payment/cmd/app/main.go:53-66 | One delivery sends at most consumer attempts times HTTP attempts capture requests, each exchange sending what the retry policy makes of its replies; times the exchanges that redirects make of one capture. |
| Money.CommandTrail | payment/application/payment_service.go:47-92 | Every command on every payment makes no provider call and no save unless it is accepted; then exactly one capture or one refund or, for a failure, none, and the save only if that is done; and it succeeds exactly if every call does. |
| Money.ProviderRequests | payment/application/payment_service.go:47-92 | MarkPaid requests one capture exactly if its load succeeds and the payment is pending or paid, Refund one refund exactly if it is paid or refunded, and no command requests anything else. |
| Money.EveryRepetitionCaptures | payment/application/payment_service.go:47-62 | Without faults n MarkPaid commands on one payment capture it n times, while the payment just stays paid. |
| Orders.Order.Place | order/domain/order.go:79-96 | Draft becomes placed with one event; anything else is refused and changes nothing. |
| Orders.Order.Confirm | order/domain/order.go:98-112 | Placed becomes confirmed with one event; anything else is refused. |
| Orders.Order.Cancel | order/domain/order.go:114-134 | The trimmed reason has at least five bytes; placed becomes cancelled with one event; anything else is refused. |
| Orders.Acceptance | order/domain/order.go:79-134 | Exactly a draft can be placed, a placed order confirmed, and a placed order cancelled for a reason that is long enough; the order that results, its event with its own data, and the error of every refusal. |
| Orders.ReconstructIsWellFormed | order/domain/order.go:61-77 | Reconstruction trims the texts and accepts exactly what is then well-formed, so quantities from 1 to 50. |
| Orders.ReasonRule | order/domain/order.go:114-122 | A placed order takes a cancellation reason exactly if its non-space characters and the further bytes of its trimmed text are five together; so it takes every reason with five non-space characters, and agrees with the documented rule on words in ASCII. |
| Orders.ShortReasonTaken | order/domain/order.go:114-122 | Two letters with three spaces between them are taken, with 2 non-space characters where the rule asks for 5. |
| Orders.MapToIntegrationEvents | order/application/order_service.go:78-103 | Placements and cancellations in order, confirmations dropped; upcasting the result gives what is sent. |
| Orders.Upcast | order/application/event_upcaster.go:13-34 | Every version 1 placement becomes version 2 with its user as customer, everything else stays, and no version 1 placement is left. |
| Orders.OutgoingInOrder | order/application/order_service.go:78-103 | What goes out for a sequence of events is what goes out for its parts, in order. |
| Orders.OrderService.Create | order/application/order_service.go:22-44 | Makes, places and saves an order. |
| Orders.OrderService.Confirm | order/application/order_service.go:46-60 | Load, confirm, save. |
| Orders.OrderService.Cancel | order/application/order_service.go:62-76 | Load, cancel, save. |
| Orders.OrderService.GetOrderById | order/infrastructure/persistence/postgres_order_repository.go:77-102 | A fresh copy of the order, or an error. |
| Orders.OrderService.Persist | order/infrastructure/persistence/postgres_order_repository.go:27-75 | The row and the outbox rows of all pending events, or neither. |
| OrderRuns.NextKeepsSound | order/application/order_service.go:22-76 | Every atomic step of interleaved order commands keeps rows and outbox consistent. |
| OrderRuns.CreateOnTables | order/application/order_service.go:22-44 | Create succeeds exactly if user and item are not blank, the quantity is 1 to 50 and the save is done; then there is one row more, with the trimmed user and item, that quantity and status placed, and exactly its version 2 placement with the same contents has been sent. |
| OrderRuns.CommandOnTables | order/application/order_service.go:46-76 | Confirm and Cancel succeed exactly if the order is placed, the reason is long enough and load and save are done; then the row has its new status, and exactly the cancellation with its trimmed reason, or for a confirmation nothing, has been sent. |
| OrderRuns.OutboxFollowsStatus | order/application/order_service.go:22-103 | In every run, with any faults, an order has sent one version 2 placement with its own data, and one cancellation exactly if it is cancelled. |
| OrderRuns.StaleSave | order/infrastructure/persistence/postgres_order_repository.go:27-75 | A save of a stale copy keeps the events fitting the row if and only if the order has not been cancelled meanwhile. |
| Relay.SelectSpec | order/infrastructure/outbox_relay.go:110-148 | A batch holds at most batchSize pending rows that nobody has locked, in order. |
| Relay.SelectTakesTheOldest | order/infrastructure/outbox_relay.go:113-118 | A pending unlocked row that is left out is younger than the whole batch, which is then full, whatever others have locked. |
| Relay.NextKeepsSound | order/infrastructure/outbox_relay.go:66-167 | Every atomic step of any number of relays keeps at-least-once publication, and no row becomes pending again. |
| Relay.AtLeastOnce | order/infrastructure/outbox_relay.go:66-167 | In every run of any number of relays, with crashes, failed publishes and rollbacks, every row is pending or in the topic, a published one is in the topic, no row is in two open batches, and retry_count is the number of committed failed publishes. |
| RelayOrder.OvertakingByABatch | order/infrastructure/outbox_relay.go:75-118 | From every sound state of any relays: a row of a batch stands behind an older row in the topic if and only if it did before and does not go out without it; the older row may be of the batch, skipped, or out already. |
| RelayOrder.OvertakingInABatch | order/infrastructure/outbox_relay.go:75-99 | Of two rows of a batch of any relay, in any sound state, the younger stands behind the older exactly if it did before the batch and does not go out while the older neither goes out nor is in the topic from before. |
| RelayOrder.OrderInABatch | order/infrastructure/outbox_relay.go:75-99 | Through a batch of any relay, in any state, the topic is in order if and only if it was before and no row of the batch overtakes an older row. |
| RelayOrder.OrderOfOneRelay | order/infrastructure/outbox_relay.go:75-118 | For a single relay and a topic in order only the rows of the batch count: none may overtake another. |
| Relay.BatchKeepsSound | order/infrastructure/outbox_relay.go:66-108 | A batch in one piece keeps what the steps keep. |
| Relay.BatchIsARun | order/infrastructure/outbox_relay.go:66-108 | A batch in one piece is a run of that relay's own atomic steps. |
| Relay.BatchOnTables | order/infrastructure/outbox_relay.go:66-108 | A batch brings into the topic exactly the rows that it reaches and whose publish takes effect, commits exactly if every update succeeds and the commit does, and then marks the rows whose publish is reported as done and counts one retry on the others. |
| Relay.CountDoneCounts | order/infrastructure/outbox_relay.go:96-107 | The reported count is the number of rows of the batch whose publish is reported as done. |
| Relay.OutboxRelay.constructor | order/infrastructure/outbox_relay.go:22-36 | A non-positive batch size becomes 100. |
| Relay.OutboxRelay.LockPendingEvents | order/infrastructure/outbox_relay.go:110-148 | Opens a transaction that holds the selected rows. |
| Relay.OutboxRelay.PublishNext | order/infrastructure/outbox_relay.go:75-98 | Publishes one row and marks it or counts the failure, inside the transaction. |
| Relay.OutboxRelay.PublishAll | order/infrastructure/outbox_relay.go:75-101 | Deals with the rows in order up to the first whose update fails, and counts the successes. |
| Relay.OutboxRelay.PublishPendingBatch | order/infrastructure/outbox_relay.go:66-108 | Lock, publish and mark each, commit or roll back; the count is that of the successful publishes, and 0 on every error. |
| RelayOrder.OneRelayKeepsOrder | order/infrastructure/outbox_relay.go:66-118 | With one relay and no publish that fails without effect, whatever is rolled back or reported as failed, no message comes before a message of every older row. |
| RelayOrder.OrderOfTwoRows | order/infrastructure/outbox_relay.go:66-118 | So for two rows of one order: the newer one's messages all stand behind one of the older. |
| RelayProgress.SelectsTheOldest | order/infrastructure/outbox_relay.go:113-118 | A single relay's batch holds a pending row if and only if fewer than batchSize pending rows are older. |
| RelayProgress.NonStarvation | order/infrastructure/outbox_relay.go:66-118 | A visible publishable row with g publishable rows up to it and b unpublishable ones before it is published within any n clean batches with n * (batchSize - b) >= g, whatever arrives and fails besides, and whichever other rows are locked or become visible only later by a late commit. |
| RelayProgress.AllArePublished | order/infrastructure/outbox_relay.go:66-118 | With k unpublishable rows in all, the g publishable ones that are visible are out after g / (batchSize - k) clean batches, rounded up. |
| RelayProgress.Starvation | order/infrastructure/outbox_relay.go:113-118 | Behind batchSize unpublishable rows, with no other transaction about, a row is never locked and never published. |
| RelayProgress.Threshold | order/infrastructure/outbox_relay.go:66-118 | A pending publishable row is published in the end if and only if fewer than batchSize unpublishable rows are older. |
| EndToEnd.OutboxByOrder | order/application/order_service.go:22-103 | The outbox holds placements of exactly the orders there are and cancellations of exactly the cancelled ones. |
| EndToEnd.NextKeepsSound | payment/infrastructure/order_events_consumer.go:93-112 | Every step of the pipeline keeps what links orders, outbox, topic, offsets and handled messages. |
| EndToEnd.PlacementPassed | order/infrastructure/kafka_outbox_publisher.go:30-49 | When a cancellation is next in its partition and was not overtaken, the consumer has gone on from the order's placement. |
| EndToEnd.PaymentsHaveOrders | payment/infrastructure/order_events_consumer.go:140-216 | At any time in any run, with no hypothesis, an order has at most one payment, no payment is without an order, and none is failed or refunded unless the order is cancelled. |
| EndToEnd.PaymentsFollowHandled | payment/infrastructure/order_events_consumer.go:140-216 | At any time, of an order that was not overtaken and not given up, the payment is what has been handled makes due. |
| EndToEnd.CleanAttemptSettles | payment/infrastructure/order_events_consumer.go:140-216 | An attempt without faults at the next message of a partition always succeeds. |
| EndToEnd.Convergence | order/infrastructure/outbox_relay.go:66-108 | With an order's rows published and its messages read, the order has one paid payment, or one refunded if cancelled, and none if there is no such order, provided it was not overtaken and not given up; whatever happens to other orders. |
| EndToEnd.ConvergenceWithOneRelay | order/infrastructure/outbox_relay.go:66-118 | With one relay and no publish that fails without effect no order is overtaken, so only giving up a message keeps an order from its payment. |
| EndToEnd.ConvergenceExactly | payment/infrastructure/order_events_consumer.go:140-216 | With an order's rows published, its messages read and all its handlings ended well, overtaken or not, it has the payment due to it if and only if, in case it is cancelled, some cancellation was handled after some placement. |
| Completion.DrainRelay | order/infrastructure/outbox_relay.go:38-108 | Whatever transactions are open, rollbacks and then finitely many batches publish every row. |
| Completion.ConsumeTopic | payment/infrastructure/order_events_consumer.go:93-118 | From every reachable state the consumer can read the whole topic, each message with one attempt. |
| Completion.CanAlwaysComplete | payment/infrastructure/order_events_consumer.go:93-118 | After any run some continuation without another order command drains the outbox, consumes the topic and gives nothing up. |
| Completion.CanAlwaysConverge | payment/infrastructure/order_events_consumer.go:93-118 | So with one relay whose publishes take effect an order of which nothing was given up can always still get its due payment. |
| Breaker.CircuitBreaker.constructor | shared/resilience/circuitbreaker.go:41-75 | Settings that are not positive become 5 failures, 1 success and 30 seconds; a new breaker is closed. |
| Breaker.CircuitBreaker.BeforeCall | shared/resilience/circuitbreaker.go:98-108 | Thaws if the time out is over, and refuses exactly if still open. |
| Breaker.CircuitBreaker.AfterCall | shared/resilience/circuitbreaker.go:110-122 | Counted failures, disregarded errors and successes are told apart. |
| Breaker.CircuitBreaker.RecordFailure | shared/resilience/circuitbreaker.go:124-132 | Opens, or opens anew, from half-open or at the threshold. |
| Breaker.CircuitBreaker.RecordSuccess | shared/resilience/circuitbreaker.go:134-145 | Ends a streak of failures; closes a half-open breaker at its threshold. |
| Breaker.CircuitBreaker.CurrentState | shared/resilience/circuitbreaker.go:77-83 | Reading the state thaws it as well. |
| Breaker.CoolDown | shared/resilience/circuitbreaker.go:98-152 | After opening, or opening anew, no operation is admitted before the time out has passed, over all interleavings and late results. |
| Breaker.Admission | shared/resilience/circuitbreaker.go:98-152 | In any run an operation is admitted if and only if the time out has passed since every failure that opened the breaker or opened it anew. |
| Breaker.Recovery | shared/resilience/circuitbreaker.go:134-152 | From a thaw on and while no operation fails the breaker is closed exactly if successThreshold operations have succeeded, and half-open before. |
| Breaker.OpeningRate | shared/resilience/circuitbreaker.go:124-152 | In any run N openings take at least (N - 1) times the time out. |
| Breaker.FailuresAreHistory | shared/resilience/circuitbreaker.go:124-145 | The failure counter is the number of counted failures since the last success or (re)opening, and below its threshold. |
| Breaker.SuccessesAreHistory | shared/resilience/circuitbreaker.go:134-152 | The success counter is zero outside half-open; inside it is the number of successes since the thaw, with no failure among them, and below its threshold. |
| Breaker.OpeningHasItsFailures | shared/resilience/circuitbreaker.go:124-132 | A step from closed to open ends exactly failureThreshold counted failures with no success between them. |
| Backoff.BaseForAttempt | shared/resilience/retry.go:79-91 | The doubling loop with its cap, in 64-bit arithmetic. |
| Backoff.ClosedForm | shared/resilience/retry.go:79-95 | Every delay is min(initial * 2^(a-1), maximum) if and only if no doubling below the maximum overflows. |
| Backoff.SmallDelaysAreExact | shared/resilience/retry.go:79-95 | In particular if both delays are below 2^62, also with the initial one above the maximum. |
| Backoff.JitterFits | shared/resilience/retry.go:93-104 | Drawing the jitter panics if and only if the spread is 2^62 or more, and every draw lands within the spread if and only if delay plus spread fit in 64 bits. |
| Backoff.JitterIsEven | shared/resilience/retry.go:93-104 | The spread is the fraction of the delay, rounded down, and the draws are in one-to-one correspondence with the delays of the window around it. |
| Backoff.JitterBounds | shared/resilience/retry.go:93-104 | If the largest delay can be jittered so can all: each stays within its spread, between 0 and twice the maximum, and at most (1 + J) times its base. |
| Retry.BackoffForAttempt | shared/resilience/retry.go:79-104 | The delay after an attempt, with jitter. |
| Retry.Do | shared/resilience/retry.go:57-77 | Ends as its trace specification says, and never by falling out of the loop. |
| Retry.EndsOnce | shared/resilience/retry.go:57-77 | The specification determines the last attempt, the error and the trace. |
| Retry.EndsAfterCalls | shared/resilience/retry.go:57-77 | It makes the number of calls a function of what the operation, the context and the sleeps return. |
| Retry.CallIsMade | shared/resilience/retry.go:57-77 | The m-th call is made exactly if every earlier one failed with a retryable error, no sleep was cut short and the context had not ended. |
| Retry.TraceIsAlternating | shared/resilience/retry.go:57-77 | At most maxAttempts calls, sleeps exactly between them, every call but the last failed with a retryable error, and success is reported exactly if the last call succeeded. |
| Retry.ErrorOfDo | shared/resilience/retry.go:57-77 | The error is that of the last call, of the sleep after it that was cut short, or of the context that had ended before the next. |
| Retry.NormalizeIsAProjection | shared/resilience/retry.go:19-55 | Normalising yields a normalised policy, changes nothing exactly on those, and is idempotent; what is not positive becomes 3 attempts, 100 ms and 2 s, and the jitter is cut off at 0 and 1. |
| Retry.TotalWait | shared/resilience/retry.go:57-104 | The s sleeps of one Do sum to at most (1 + J) * min(initial * (2^s - 1), s * maximum), with s below maxAttempts. |
| Bulkhead.Conservation | shared/resilience/http_bulkhead.go:17-26 | Tokens equal requests inside and never exceed the capacity, a token is released exactly once for each acquired, and releasing never blocks. |
| Bulkhead.LeavesOnlySo | shared/resilience/http_bulkhead.go:19-25 | In every run a request that is gone has either sent one token and taken one out, or has sent none and has given up after its context had ended. |
| Bulkhead.WaitsOnlySo | shared/resilience/http_bulkhead.go:19-25 | A waiter can go in exactly while fewer than the capacity are inside, and can give up exactly if its context has ended. |
| Transport.Client.constructor | payment/cmd/app/main.go:53-67 | The stack of breaker, bulkhead and normalised retries; no bulkhead without a positive limit. |
| Transport.Client.Retried | shared/resilience/http_retry.go:17-44 | Exactly the requests that the policy makes of the replies, at most maxAttempts; success exactly if the last reply is a response with a status below 500 and not 429, which is returned, and no reply before it is one. |
| Transport.RequestIsMade | shared/resilience/http_retry.go:17-57 | The m-th request goes out exactly if every reply before it was a network error, 429 or at least 500, no sleep was cut short and the context had not ended. |
| Transport.Client.RoundTrip | shared/resilience/http_circuitbreaker.go:22-42 | A call has exactly one result for the breaker if admitted and none if not, a success exactly if the last reply has a status below 500 and not 429, which is then the answer; it sends the requests of its retries if it gets a slot, at once or when another request leaves in time, and none otherwise; the slot that it took is free again. |
| Transport.Pacing | shared/resilience/circuitbreaker.go:85-132 | Against an upstream that always fails a sequential caller is admitted at most failureThreshold times, and once more for each time out that goes by. |
| Transport.RequestsAreBounded | payment/cmd/app/main.go:53-66 | In the ledger of such calls, at most (failureThreshold + elapsed / openTimeout) * maxAttempts requests go out. |
| Transport.CallFailing | payment/cmd/app/main.go:53-66 | Through the client itself: calls one after the other, whose replies are all errors, send at most so many requests, so failureThreshold * maxAttempts before the first time out has passed. |
| Transport.HttpPredicate | shared/resilience/http_retry.go:12-15 | Without a predicate of its own a policy retries every error. |

## Left out

- EndToEnd.Convergence: one consumer instance at a time; the attempts at one message between two starts of the consumer follow each other without calls about other messages in between. That the order is not overtaken and not given up is needed: EndToEnd.ConvergenceExactly and ConsumerRuns.PlacementIsLost say what happens otherwise.
- PaymentRuns.OutboxFollowsStatus: at most one command at a time on each payment; without that it is false, and PaymentRuns.StaleSave says exactly when.
- OrderRuns.OutboxFollowsStatus: at most one command at a time on each order; without that it is false, and OrderRuns.StaleSave says exactly when.
- Money.ConsumerKeepsTheBooks: consumer runs only; a repeated MarkPaid over HTTP captures a paid payment again, as Money.EveryRepetitionCaptures says.
- Money.NestedBound: the provider's http.Client repeats a request when the provider answers with status 307 or 308; how often is a parameter, 1 if it never does.
- RelayProgress.Starvation: with no other transaction on the rows, as RelayProgress.Threshold; another one may hold unpublishable rows and so let the relay pass them.
- Consumer.OrderEventsConsumer.HandleMessageWithRetry: how long the sleeps are, which Retry models.
- Consumer.OrderEventsConsumer.Run: the finite sequence of fetched messages is an input, and fetch errors, which only lead to the next fetch, are not in it.
- Transport.Client.RoundTrip: one call with nothing in between but, if it waits for a slot, one other request leaving; interleaved calls are covered by the step systems of Breaker and Bulkhead. A request body that cannot be read again is not modelled.
- Backoff.JitterBounds: jitter is a rational number between 0 and 1 and the product is rounded down exactly; floating-point rounding above 2^53 is not covered.
- Relay.OutboxRelay.PublishPendingBatch: the polling and waiting of the relay's Run loop.
- Publisher.MessageOf: of a payload only the order id, which the consumer reads; occurred_at is any text.
- RelayOrder.OneRelayKeepsOrder: rows stand in the order of their commits, while created_at is the start of a transaction. For two rows of one order these agree, because a cancellation starts after its placement has committed, so RelayOrder.OrderOfTwoRows is safe; EndToEnd.Convergence speaks only of the order of one order's messages.
- Uuids.Canonical: the supply of identifiers is endless, so all but its first are longer than a UUID, and the column takes exactly these besides; a message that brings such a text itself is treated as if its order had that id. On every other text it is PostgreSQL's input function.
- occurred_at, aggregate_type and JSON: payloads are records of the fields that the services use.
- Loss of acknowledged messages inside Kafka, and rebalancing between consumers.
- The limits of VARCHAR columns, and amounts beyond the check that they fit DECIMAL(10, 2).
- Nil arguments (a missing DTO, a nil payment) and the choice of the no-op provider.
- HTTP handlers, routers, middleware, configuration, and the auth, delivery and restaurant services: no rule that spans several functions.
