# Verified model of the payment service

A Dafny model of the payment-service: its idempotent, fenced payment protocol, its transactional outbox and
RabbitMQ delivery engine, and the lifecycles around them. All of it is proved for any number of concurrent calls,
worker processes and crashes. Paths below are relative to the repository root.

## How the project is laid out

| files | what they model |
|---|---|
| `Payments.dfy`, `IdempotencyRecords.dfy` | rows, the transition table, the conditional updates, the outbox envelopes and their contracts |
| `PaymentsService.dfy`, `IdempotencyService.dfy` | `create`, `capture` and `getExistingOrStart` written as the source writes them, as methods over the tables |
| `Protocol.dfy` | the same calls as a step system: one await, statement, provider answer, commit or crash per step |
| `ProtocolInvariant`, `ProtocolFrames`, `ProtocolSteps`, `ProtocolCommit`, `ProtocolRuns` | the inductive invariant across payments, outbox and idempotency tables, and what a run never takes back |
| `ProtocolFlow` | from which phase to which each step takes its call |
| `CrossTable`, `ProviderAnswers`, `Fencing`, `ErrorAnswers`, `Refusals`, `Acquisition`, `ProviderCalls`, `CaptureAfterCommit`, `Deadlock` | the main results about the protocol |
| `Continuations`, `LateCapture`, `Recovery` | what may follow a state: the undisturbed call step by step, runs built from it, and which requests can still succeed |
| `Outbox`, `OutboxProgress`, `RetryDelay` | the table, the ordered skip-locked batch, the poll, the backoff, the termination measure |
| `Messaging` | connection manager and publisher under any order of confirm, return, timeout, channel loss and close |
| `Delivery`, `DeliverySteps`, `DeliveryRuns`, `DeliveryTheorems`, `DeliveryProgress` | any number of worker processes delivering one table, compared with what the broker saw; termination and fairness |
| `DeliveryBackoff` | from a publish's outcome to its row, and the waits of one event over all workers |
| `DeliveryRecovers` | from every reachable state, which events can still be published |
| `EndToEnd` | both halves over one database |
| `Lifecycle` | worker and bootstrap lifecycles, composed |
| `Draining` | one process's lifecycle over its polls: what a shutdown waits for comes |
| `Canonical`, `JsonText`, `Decimals` | `canonicalize`, `JSON.stringify` of its result, and `String`/`Number` on amounts |
| `Options`, `Sets` | shared helpers |

## What is assumed

- PostgreSQL: read committed; a conditional UPDATE re-checks its WHERE clause once it has the row lock; a lock lasts
  until its transaction ends; a unique key makes a second insert fail or do nothing. The database may abort an open or
  committing transaction at any moment, and a commit may succeed without its caller hearing of it.
- A conditional write of the protocol waits for a lock on its row even where the committed row already fails the WHERE
  clause, so a miss reported while another transaction has the row locked is not among the runs. Such a miss changes
  no table.
- A `lost` flag covers an autocommitted statement that takes effect while its caller sees an error.
- Identifiers are drawn from a counter, so they are fresh; when one is minted does not matter. The idempotency row's
  surrogate id stands for its unique (scope, key) pair, since rows are never deleted and neither column is rewritten.
- SHA-256 is injective, so a record stores the request itself. `JsonText.RequestHashesAgreeIff` shows that the digested
  texts already separate requests.
- `resource_id` and `processing_token` are never null in a row the service wrote, so the two errors for missing values
  have no counterpart.
- The process clock is arbitrary; the database clock never goes back.
- The provider answers anything its result types allow, with any strings, or throws.
- amqplib: a return precedes the confirm of its message, and a channel whose return listener was detached (it is being
  closed, or its transport is gone) delivers no positive confirm. Returns may still arrive late.
- Closing the broker link never rejects: every close inside it is caught
  (`services/payment-service/src/messaging/rabbitmq-connection-manager.ts:194-221`).
- The HTTP server's close, the broker link's close and knex's destruction can complete, and an iteration that has no
  poll open (it is still connecting, or opening its transaction) can end.
- Routes let through amounts in 1..10^12, three currencies and a printable correlation id; configuration values are
  positive integers.

## Where the code falls short of a simpler claim

- *After one capture commits, the provider is never called again.* False: the database can abort a capture between its
  locking read and its provider call, and the caller, unaware, still calls. `LateCapture.ProviderCanBeCalledAfterCapture`
  is such a run. By `CaptureAfterCommit.CalledAfterCaptureIff`, some continuation calls again if and only if such a call
  is left when the capture has committed; none can come about later.
- *Every recorded envelope meets its JSON Schema.* Exactly when the provider's name is not empty and its reference is
  not the empty string: the service checks neither (`LateCapture.RecordedEventCanBreakContract`,
  `CrossTable.RecordedEnvelopesMeetContractIff`).
- *Knex is never destroyed under a running poll.* Exactly unless closing the HTTP server reports an error although the
  worker has been started: then `stop` skips the worker (`Lifecycle.DestroyedUnderPollIff`,
  `Lifecycle.DestroyedUnderPollSettled`, `Lifecycle.CloseErrorDestroysUnderPoll`; `Draining.DestroyedAfterPolls` says it of
  the polls themselves).
- *Equal hashes mean equal requests.* Up to key order, and up to an own `__proto__` key, which assignment loses
  (`Canonical.CanonicalIff`, `Canonical.ProtoIsLost`).
- *The backoff is min(max, base * 2^attempts).* For every attempt count exactly when max <= base * 2^52
  (`RetryDelay.CapInvisibleIff`).
- *A returned message is never counted as confirmed.* It rests on publishes not overlapping
  (`Messaging.OverlapLosesReturns`).

## Model

| member | source | states |
|---|---|---|
| CrossTable.CreateAgreement | services/payment-service/src/services/payments/payments-service.ts:169-211 | In every reachable state a payment exists iff exactly one COMPLETED create record reserves it, iff exactly one authorize-stage event is recorded for it; no record or event stands alone |
| CrossTable.CaptureAgreement | services/payment-service/src/services/payments/payments-service.ts:260-341 | A payment is CAPTURED or CAPTURE_FAILED iff exactly one COMPLETED capture record for it exists over all keys, iff exactly one capture-stage event exists |
| CrossTable.EventsTellTheStatus | services/payment-service/src/services/outbox/outbox-service.ts:48-151 | Each event carries the correlation id of the request that brought it about and its payment's fields, under the type of its payload; it announces the present status for the capture stage, the status before any capture for the authorize stage |
| ProviderAnswers.AuthorizeAnswerIsCommitted | services/payment-service/src/services/payments/payments-service.ts:156-211 | If the provider answers a create at one step and the create commits at a later one, row, event and stored response say that answer ever after: status, reference or failure, instants, and the fields asked for |
| ProviderAnswers.CaptureAnswerIsCommitted | services/payment-service/src/services/payments/payments-service.ts:285-341 | If the provider answers a capture at one step and the capture commits at a later one, the payment is CAPTURED at that time exactly on success and else CAPTURE_FAILED with the provider's code and message; event and response say the same |
| ProviderAnswers.CommittedCreateWasAnswered | services/payment-service/src/services/payments/payments-service.ts:156-162 | A committed create has its authorize call in the log and was answered by the provider at an earlier step |
| ProviderAnswers.CommittedCaptureWasAnswered | services/payment-service/src/services/payments/payments-service.ts:285-290 | A committed capture was answered by the provider at an earlier step |
| ProviderAnswers.PaymentsAreDated | services/payment-service/src/services/payments/payments-service.ts:171-183 | A committed payment's creation time is the instant of its insert |
| ProviderAnswers.EventsAreDated | services/payment-service/src/services/outbox/outbox-service.ts:129-139 | A committed event's time is the instant at which it was recorded |
| Payments.RecordedEventDescribesRow | services/payment-service/src/services/outbox/outbox-service.ts:48-120 | A recorded event has the given id, correlation id and instant, version 1, the type of its payload, and the row's fields and status at the operation's stage |
| CrossTable.RecordedEnvelopesMeetContractIff | docs/contracts/events/payment-failed.v1.schema.json:116-151 | Every recorded envelope meets its JSON Schema iff the provider's name is not empty and its reference is not the empty string |
| CrossTable.RowsAreWellShaped | services/payment-service/src/services/payments/payments-service.ts:170-196 | Timestamps and failure fields of every committed row match its status, and an AUTHORIZED row carries a non-empty provider reference |
| CrossTable.StatusFollowsTransitions | services/payment-service/src/services/payments/payment-state-service.ts:13-36 | Over any stretch of a run a payment keeps its identity and moves along at most one allowed transition, out of AUTHORIZED |
| CrossTable.NewPaymentsAreAuthorizedOrFailed | services/payment-service/src/services/payments/payments-service.ts:165-196 | A payment appears only by a commit, in a status CREATED may move to |
| ProtocolRuns.StepKeepsInv | services/payment-service/src/services/payments/payments-service.ts:129-365 | Every step of any interleaved call keeps the invariant over the three tables, locks, buffers, bookkeeping and provider log |
| ProtocolRuns.RunGrows | services/payment-service/src/data-access/idempotency/idempotency-data-access.ts:135-191 | Over any run requests, reserved ids, completed rows, events, tokens, commits and answers are never taken back |
| ProtocolCommit.DbCommitKeepsInv | services/payment-service/src/services/payments/payments-service.ts:169-211 | The commit step, which changes three tables at once, keeps the invariant |
| Fencing.CommitBelongsToCurrentToken | services/payment-service/src/services/payments/payments-service.ts:200-208 | Whatever becomes durable does so in one commit by the record's owner at that instant, and is exactly that call's payment row, event and stored answer |
| Fencing.OnlyCommitsMakeDurable | services/payment-service/src/data-access/transaction-manager.ts:17-21 | No other step changes payments or events or completes a record |
| Fencing.SupersededForever | services/payment-service/src/data-access/idempotency/idempotency-data-access.ts:110-133 | A call whose record has moved to another token stays superseded in every continuation |
| Fencing.SupersededNeverWrites | services/payment-service/src/services/idempotency/idempotency-service.ts:103-149 | A superseded call never commits; its markFailed changes nothing and, if heard, makes it answer OWNERSHIP_LOST |
| Fencing.CompletedIsAbsorbing | services/payment-service/src/data-access/idempotency/idempotency-data-access.ts:135-191 | A COMPLETED record never changes again |
| Fencing.LostAcknowledgementCannotUndo | services/payment-service/src/services/payments/payments-service.ts:214-233 | A commit whose acknowledgement was lost is not undone by the markFailed that follows |
| Fencing.ReplayEquality | services/payment-service/src/services/idempotency/idempotency-service.ts:163-169 | Over a whole run all successful answers for one (scope, key) are one answer, the stored one |
| Fencing.AnswersComeFromOneCommit | services/payment-service/src/services/payments/payments-service.ts:146-151 | Each successful answer is that of one committed call with the same key and the request the answered call itself made, for the reserved payment id, with the operation's status code |
| Fencing.AnswersShowThePayment | services/payment-service/src/services/payments/payments-service.ts:382-396 | The body of every successful answer shows the payment field by field; it has a capture time exactly when it says CAPTURED and failure details exactly when it says FAILED or CAPTURE_FAILED |
| Fencing.AnswerMatchesEvent | services/payment-service/src/services/payments/payments-service.ts:198-208 | Each successful answer says, field by field, what one recorded event of the operation's stage tells its consumers |
| ErrorAnswers.OwnershipLostMeans | services/payment-service/src/services/idempotency/idempotency-service.ts:112-124 | A call answered OWNERSHIP_LOST has been superseded by another token, or its own commit went through unheard |
| ErrorAnswers.DefiniteErrorMeans | services/payment-service/src/services/payments/payments-service.ts:214-234 | A call answered any other error but a database error has committed nothing, and in no continuation will |
| Refusals.ThrowsIff | services/payment-service/src/services/payments/payments-service.ts:260-325 | Each step of an owner's work throws each error into the catch block exactly under its own condition: not found, not capturable, not configured, reference missing, unique violation, event rejected, ownership lost |
| Refusals.RefusesIff | services/payment-service/src/services/idempotency/idempotency-service.ts:151-204 | Each acquiring step, and the catch block, answers each error exactly under its own condition |
| Refusals.WhyRefused | services/payment-service/src/services/idempotency/idempotency-service.ts:151-204 | Every error answered over a run was answered at one step of the call under that step's condition |
| Refusals.WhyFailed | services/payment-service/src/services/payments/payments-service.ts:214-234 | Every error of the owner's work that is answered was thrown at one earlier step of the call under that step's condition |
| Refusals.NotFoundMeans | services/payment-service/src/services/payments/payments-service.ts:265-271 | A call answered PAYMENT_NOT_FOUND is a capture, and at an instant of the call its payment did not exist |
| Refusals.NotCapturableMeans | services/payment-service/src/services/payments/payment-state-service.ts:23-36 | A call answered PAYMENT_NOT_CAPTURABLE is a capture of a payment that exists and is not AUTHORIZED, and never will be again |
| Refusals.KeyReusedMeans | services/payment-service/src/services/idempotency/idempotency-service.ts:155-161 | A call answered KEY_REUSED_WITH_DIFFERENT_REQUEST finds its key's record holding another request for ever |
| Refusals.UniqueViolationMeans | services/payment-service/src/services/payments/payments-service.ts:171-183 | A create that met a unique violation has its payment created, and its key completed, by another owner |
| Refusals.EventRejectedMeans | services/payment-service/src/services/outbox/outbox-service.ts:168-177 | A call whose event was rejected had a row lacking exactly the text named in the error |
| Refusals.ClosingReleases | services/payment-service/src/services/idempotency/idempotency-service.ts:130-149 | The catch block makes the record FAILED exactly if the call still owns it, and changes nothing else |
| Fencing.UnreachableErrors | services/payment-service/src/services/idempotency/idempotency-service.ts:88-97 | IDEMPOTENCY_STATE_NOT_FOUND, PAYMENT_PROVIDER_REFERENCE_MISSING, an invalid transition and a missed guarded update are unreachable |
| Acquisition.AcquireRefinesAtomic | services/payment-service/src/services/idempotency/idempotency-service.ts:56-100 | Each acquiring step leaves the rows alone undecided, or does and answers at that instant exactly what one atomic acquire does |
| Acquisition.LookupMeans | services/payment-service/src/services/idempotency/idempotency-service.ts:151-204 | A lookup inserts, refuses a different request, replays, reactivates, takes over exactly when the lease is past by the process clock, and answers IN_PROGRESS exactly when it is not |
| Acquisition.TakeoverMeans | services/payment-service/src/data-access/idempotency/idempotency-data-access.ts:110-133 | A takeover wins exactly when the record is PROCESSING and its lease is strictly past by the database clock; the winner owns it under a fresh token and the new lease |
| Acquisition.ReactivateMeans | services/payment-service/src/data-access/idempotency/idempotency-data-access.ts:85-108 | A reactivation wins exactly when the record is still FAILED |
| Acquisition.TryInsertMeans | services/payment-service/src/data-access/idempotency/idempotency-data-access.ts:60-83 | An insert wins exactly when the key is free, and reserves a fresh payment id or the payment being captured |
| Acquisition.RetryTakesOver | services/payment-service/src/services/idempotency/idempotency-service.ts:185-196 | Over a run, a retry that looks up past the lease and whose takeover runs past it, the record undisturbed, becomes the owner |
| Acquisition.SameRecordIff | services/payment-service/src/services/payments/payments-service.ts:135-143 | Two requests share a record exactly if they are of one operation, on one merchant or payment, with one key |
| Acquisition.SameRequestIff | services/payment-service/src/services/payments/payments-service.ts:130-134 | Sharing a record, they are the same request exactly if a create's amount and currency agree |
| Acquisition.GenerationStartsOneOwner | services/payment-service/src/data-access/idempotency/idempotency-data-access.ts:60-133 | Each new token generation is one call's acquiring write, and exactly that call holds the token (none, if its answer was lost) |
| Acquisition.TokensAreNotShared | services/payment-service/src/services/idempotency/idempotency-service.ts:73-78 | Over a whole run a processing token belongs to one call |
| Acquisition.TakeoverOnlyPastLease | services/payment-service/src/data-access/idempotency/idempotency-data-access.ts:110-133 | A PROCESSING record changes hands only when the database clock is strictly past the stored lease |
| Acquisition.InProgressWasTrue | services/payment-service/src/services/idempotency/idempotency-service.ts:151-204 | A call answered IN_PROGRESS had its record PROCESSING, under a token not its own, at some instant of that call |
| IdempotencyService.Service.GetExistingOrStart | services/payment-service/src/services/idempotency/idempotency-service.ts:56-100 | With at most one rival insert in between, lookup, insert, second lookup and decision return and store what one atomic acquire would; the state-not-found answer never occurs |
| IdempotencyService.Service.DecideFromExisting | services/payment-service/src/services/idempotency/idempotency-service.ts:151-204 | For a known key: refuse a different request, replay, reactivate, take over when the lease is past by both clocks, and answer IN_PROGRESS while it is not |
| IdempotencyService.Service.MarkAsCompleted | services/payment-service/src/services/idempotency/idempotency-service.ts:103-127 | Completes the row iff it is still PROCESSING under this token, otherwise reports ownership lost and changes nothing |
| IdempotencyService.Service.MarkAsFailed | services/payment-service/src/services/idempotency/idempotency-service.ts:130-149 | Fails the row iff it is still PROCESSING under this token, otherwise reports ownership lost and changes nothing |
| PaymentsService.Service.CreateOwned | services/payment-service/src/services/payments/payments-service.ts:155-234 | The owner's create: Ok iff nobody took over, the provider answered, the id is new, the row is well shaped and the commit was heard; then payment, completed record and an event announcing the provider's answer appear together; otherwise none does and the record is FAILED, an overtaken call changes nothing, an unheard commit stands |
| PaymentsService.Service.CreateTransaction | services/payment-service/src/services/payments/payments-service.ts:169-211 | Insert, outbox and completion take effect all together or not at all, and only for the current token; each error is returned exactly under its own condition |
| PaymentsService.Service.CaptureOwned | services/payment-service/src/services/payments/payments-service.ts:259-364 | The owner's capture: the same promises, and Ok only for a payment that was AUTHORIZED with a provider reference |
| PaymentsService.Service.CaptureTransaction | services/payment-service/src/services/payments/payments-service.ts:260-341 | Guarded update, outbox and completion take effect all together or not at all; each error is returned exactly under its own condition |
| PaymentsService.Service.CatchBlock | services/payment-service/src/services/payments/payments-service.ts:214-233 | markFailed under the call's token; a missed update replaces the error by OWNERSHIP_LOST |
| ProviderCalls.StableAuthorizeIdentity | services/payment-service/src/services/payments/payments-service.ts:153-162 | All authorize calls ever made for one (scope, key) carry the same payment id, merchant, amount and currency, and distinct keys never share a payment id |
| ProviderCalls.AuthorizeCallsMatchTheRow | services/payment-service/src/services/payments/payments-service.ts:156-174 | Authorize calls for an existing payment carried what its row holds |
| ProviderCalls.CaptureCallsMatchTheRow | services/payment-service/src/services/payments/payments-service.ts:285-290 | Every capture call carries the amount, currency and provider reference of the committed row |
| ProviderCalls.OneLiveCapture | services/payment-service/src/data-access/payments/payments-data-access.ts:60-63 | At most one live transaction is inside provider.capture for a payment, over all keys and owners, and the payment is AUTHORIZED then |
| ProviderCalls.CaptureAfterCommitIsDead | services/payment-service/src/services/payments/payments-service.ts:260-290 | Once a capture has committed, only a call whose transaction the database already aborted can still reach the provider |
| CaptureAfterCommit.CalledAfterCaptureIff | services/payment-service/src/services/payments/payments-service.ts:260-290 | After a committed capture, some continuation calls the provider for the payment again iff a call is left that read it AUTHORIZED and lost its transaction to an abort before its provider call |
| CaptureAfterCommit.NeverCalledAgain | services/payment-service/src/services/payments/payments-service.ts:260-290 | If no such call is left when a capture has committed, the provider log gains no capture of the payment in any continuation |
| CaptureAfterCommit.UnawareWasUnaware | services/payment-service/src/data-access/payments/payments-data-access.ts:60-85 | Over a run, no call becomes unaware of a capture that has already committed |
| ProviderCalls.CaptureCallsBounded | services/payment-service/src/services/payments/payments-service.ts:260-290 | Provider captures of a payment number at most one more than the capture transactions that reached the provider and did not commit, and exactly those while it is not captured |
| LateCapture.ProviderCanBeCalledAfterCapture | services/payment-service/src/services/payments/payments-service.ts:260-290 | A reachable state after a committed capture, and a continuation that calls the provider for the payment again |
| LateCapture.RecordedEventCanBreakContract | services/payment-service/src/services/outbox/outbox-service.ts:168-177 | A reachable state with a recorded event that its published schema rejects: the provider's name is empty |
| Deadlock.NoWaitCycle | services/payment-service/src/services/payments/payments-service.ts:260-349 | The wait-for graph over payment and idempotency rows is acyclic, and chains of waits have at most four sessions |
| Deadlock.Progress | services/payment-service/src/data-access/transaction-manager.ts:17-21 | With a pool of any size at least one, transactions and blocked statements holding connections, an unfinished call means that some productive step is possible; no call asks for a connection while it holds one |
| Recovery.CreateCanSucceedIff | services/payment-service/src/services/payments/payments-service.ts:129-234 | From every reachable state, whatever calls crashed, hang or hold locks, some continuation answers a new create Ok iff its key has not been used for another request |
| Recovery.CaptureCanSucceedIff | services/payment-service/src/services/payments/payments-service.ts:243-364 | For an existing payment, some continuation answers a new capture Ok iff that key's own capture has completed or the payment is still AUTHORIZED |
| Payments.PaymentsDataAccess.Insert | services/payment-service/src/data-access/payments/payments-data-access.ts:51-54 | Inserts a row iff its id is new, and leaves the others |
| Payments.PaymentsDataAccess.UpdateStatusIfAuthorized | services/payment-service/src/data-access/payments/payments-data-access.ts:65-85 | Updates iff the row is AUTHORIZED, along an allowed transition, keeping its identity and every other row |
| IdempotencyRecords.IdempotencyDataAccess.InsertProcessing | services/payment-service/src/data-access/idempotency/idempotency-data-access.ts:60-83 | Inserts a PROCESSING row iff the key is new |
| IdempotencyRecords.IdempotencyDataAccess.Reactivate | services/payment-service/src/data-access/idempotency/idempotency-data-access.ts:85-108 | A FAILED row of the same request becomes PROCESSING under the new token, keeping its reserved id |
| IdempotencyRecords.IdempotencyDataAccess.Takeover | services/payment-service/src/data-access/idempotency/idempotency-data-access.ts:110-133 | An expired PROCESSING row of the same request passes to the new token, keeping its reserved id |
| IdempotencyRecords.IdempotencyDataAccess.Complete | services/payment-service/src/data-access/idempotency/idempotency-data-access.ts:135-166 | Completes a row with the response iff it is PROCESSING under the token, and leaves the others |
| IdempotencyRecords.IdempotencyDataAccess.Fail | services/payment-service/src/data-access/idempotency/idempotency-data-access.ts:168-191 | Fails a row iff it is PROCESSING under the token |
| Canonical.CanonicalIff | services/payment-service/src/services/idempotency/idempotency-service.ts:279-294 | For JSON trees of any depth, two values canonicalise identically iff they are equal up to key order at every level, __proto__ aside |
| Canonical.CanonicalIdempotent | services/payment-service/src/services/idempotency/idempotency-service.ts:279-294 | Canonicalising a canonical value changes nothing |
| Canonical.CanonicalIsSame | services/payment-service/src/services/idempotency/idempotency-service.ts:279-294 | A value equals its canonical form up to key order |
| Canonical.RebuiltOk | services/payment-service/src/services/idempotency/idempotency-service.ts:284-290 | Assigning sorted keys one by one enumerates all of them but __proto__, indices by value and then the rest in sorted order |
| Canonical.ProtoIsLost | services/payment-service/src/services/idempotency/idempotency-service.ts:284-290 | An own __proto__ key is lost, whatever its value |
| JsonText.ReadOnce | services/payment-service/src/services/idempotency/idempotency-service.ts:50-53 | The JSON text of a value can be read back in only one way, whatever follows it |
| JsonText.HashesAgreeIff | services/payment-service/src/services/idempotency/idempotency-service.ts:50-53 | Digested texts agree iff the requests are equal up to key order |
| JsonText.RequestHashesAgreeIff | services/payment-service/src/services/payments/payments-service.ts:130-134 | For the service's own create and capture requests, digested texts agree iff the requests are equal field by field |
| JsonText.CreateRequestText | services/payment-service/src/services/payments/payments-service.ts:130-134 | The text digested for a create request, spelled out: its three fields in sorted order |
| Decimals.AmountsSurvive | services/payment-service/src/services/payments/payments-service.ts:174-174 | Amounts 1..10^12 survive String into the bigint column and Number back |
| Decimals.DecimalRoundTrip | services/payment-service/src/services/payments/payments-service.ts:386-386 | Reading a decimal numeral returns the number it was written from |
| RetryDelay.DelayBoundedMonotone | services/payment-service/src/workers/outbox-publisher-worker.ts:181-187 | For positive configurations the delay is positive, at most the maximum and monotone in the attempts |
| RetryDelay.CapInvisibleIff | services/payment-service/src/workers/outbox-publisher-worker.ts:181-187 | The delay is min(max, base * 2^attempts) for every attempt count iff max <= base * 2^52 |
| RetryDelay.TotalDelayBounded | services/payment-service/src/data-access/outbox/outbox-events-data-access.ts:108-120 | The delays before an event goes terminal sum to at most (maxAttempts - 1) * max |
| RetryDelay.DefaultSchedule | services/payment-service/src/workers/outbox-publisher-worker.ts:15-16 | Under the default configuration the nine delays are 1, 2, 4, 8, 16, 32, 60, 60 and 60 seconds |
| Outbox.BatchIsBatch | services/payment-service/src/data-access/outbox/outbox-events-data-access.ts:67-85 | The fetched batch is ordered, limited, made of candidates, and leaves out only later events and only when full |
| Outbox.BatchUnique | services/payment-service/src/data-access/outbox/outbox-events-data-access.ts:67-85 | Those promises determine the batch |
| Outbox.OutboxEventsDataAccess.InsertPending | services/payment-service/src/data-access/outbox/outbox-events-data-access.ts:46-64 | Inserts a pending event iff its id is new: the given columns, no attempts, created at the instant of the insert |
| Outbox.OutboxEventsDataAccess.FetchPendingBatch | services/payment-service/src/data-access/outbox/outbox-events-data-access.ts:66-85 | Returns the first pending, due and unlocked rows by creation time and id, up to the limit, and leaves out only later ones and only when full |
| Outbox.OutboxEventsDataAccess.MarkAsPublished | services/payment-service/src/data-access/outbox/outbox-events-data-access.ts:87-101 | Publishes a row iff it is pending |
| Outbox.OutboxEventsDataAccess.MarkAsFailed | services/payment-service/src/data-access/outbox/outbox-events-data-access.ts:103-126 | Counts a failure iff the row is pending, and makes it terminal iff the attempts reach the maximum |
| Outbox.OutboxPublisherWorker.PollOnce | services/payment-service/src/workers/outbox-publisher-worker.ts:125-137 | A committed poll handles each event of the locked batch as its publish ended, column by column, and no other; any other poll leaves the table unchanged |
| Outbox.OutboxPublisherWorker.PublishBatch | services/payment-service/src/workers/outbox-publisher-worker.ts:133-135 | The loop over the batch, event by event, until done or until an error escapes |
| Outbox.OutboxPublisherWorker.PublishEvent | services/payment-service/src/workers/outbox-publisher-worker.ts:139-159 | One event, column by column: published, failed with exactly its backoff or for good, or rethrown and unchanged |
| Outbox.OutcomeMeans | services/payment-service/src/workers/outbox-publisher-worker.ts:139-159 | A confirm publishes; a rejection counts one attempt and ends the event iff the attempts reach the maximum, otherwise it is eligible exactly from the failure's time plus min(max, base * 2^min(attempts, 52)) on |
| OutboxProgress.SpentIffTerminal | services/payment-service/src/data-access/outbox/outbox-events-data-access.ts:104-126 | The measure is zero iff every event is terminal |
| Messaging.SignalKeeps | services/payment-service/src/messaging/rabbitmq-publisher.ts:58-132 | Every confirm, return, timeout, channel loss, reconnect and close keeps the link's invariant |
| Messaging.SettlesOnce | services/payment-service/src/messaging/rabbitmq-publisher.ts:65-107 | A settled publish keeps its result for ever; a second settlement changes nothing, and a late confirm no promise, no pending entry and no channel |
| Messaging.TimeoutSettles | services/payment-service/src/messaging/rabbitmq-publisher.ts:79-85 | An unsettled publish has its timeout armed; firing settles it, gives up its channel and empties the pending map |
| Messaging.LateReturnMarksNoOne | services/payment-service/src/messaging/rabbitmq-publisher.ts:115-132 | A late return of a settled publish marks no attempt |
| Messaging.ReturnsAreAttributed | services/payment-service/src/messaging/rabbitmq-publisher.ts:115-132 | A return marks only the attempt the broker returned |
| Messaging.ConfirmedMeansRouted | services/payment-service/src/messaging/rabbitmq-publisher.ts:100-107 | A confirmed publish was acknowledged and never returned, before or after |
| Messaging.AckConfirmsIff | services/payment-service/src/messaging/rabbitmq-publisher.ts:100-107 | An acknowledgement on the current channel confirms a publish in flight exactly if the broker has not returned it |
| Messaging.LostChannelRejects | services/payment-service/src/messaging/rabbitmq-publisher.ts:79-107 | A publish in flight on a lost channel is only ever rejected |
| Messaging.LossGivesUp | services/payment-service/src/messaging/rabbitmq-connection-manager.ts:159-188 | Losing the current channel or connection gives up all that rests on it; losing another changes nothing |
| Messaging.PendingIsInFlight | services/payment-service/src/messaging/rabbitmq-publisher.ts:58-78 | The pending map is empty iff nothing is in flight, and never holds two entries |
| Messaging.OnlyCurrentChannelListens | services/payment-service/src/messaging/rabbitmq-connection-manager.ts:136-188 | The channel that forwards returns is exactly the current one |
| Messaging.ClosedHoldsNothing | services/payment-service/src/messaging/rabbitmq-connection-manager.ts:194-213 | Once close has finished, no connection, channel or listener is held again |
| Messaging.CloseReleases | services/payment-service/src/messaging/rabbitmq-connection-manager.ts:194-213 | Closing marks the manager at once and gives up what it holds at its end; a connection that opens late is not kept |
| Messaging.OverlapLosesReturns | services/payment-service/src/messaging/rabbitmq-publisher.ts:63-78 | Two overlapping publishes of one event could count a returned message as confirmed |
| Messaging.RabbitMqPublisher.Publish | services/payment-service/src/messaging/rabbitmq-publisher.ts:47-113 | Sends and registers the attempt, or reports it not attempted and gives up the channel |
| Messaging.RabbitMqPublisher.SettleAttempt | services/payment-service/src/messaging/rabbitmq-publisher.ts:66-78 | Settles an attempt once and drops its pending entry |
| Messaging.RabbitMqPublisher.OnConfirm | services/payment-service/src/messaging/rabbitmq-publisher.ts:100-107 | Settles an unsettled attempt as confirmed iff the broker acknowledged it and no return was marked; a settled one keeps its result |
| Messaging.RabbitMqPublisher.OnReturnedMessage | services/payment-service/src/messaging/rabbitmq-publisher.ts:115-132 | Marks the pending attempt of that message id, if any |
| Messaging.RabbitMqPublisher.OnConfirmTimeout | services/payment-service/src/messaging/rabbitmq-publisher.ts:79-85 | Gives up the attempt's channel and rejects it |
| Messaging.RabbitMqConnectionManager.Invalidate | services/payment-service/src/messaging/rabbitmq-connection-manager.ts:70-79 | Detaches and drops a channel only if it is the current one |
| Messaging.RabbitMqConnectionManager.OnChannelLost | services/payment-service/src/messaging/rabbitmq-connection-manager.ts:159-175 | Detaches and drops the channel, and its connection, only if current |
| Messaging.RabbitMqConnectionManager.OnConnectionLost | services/payment-service/src/messaging/rabbitmq-connection-manager.ts:177-188 | Detaches and drops channel and connection only if the connection is current |
| DeliveryRuns.StepKeepsInv | services/payment-service/src/workers/outbox-publisher-worker.ts:125-159 | Every step of any number of worker processes keeps the invariant between table, transactions and broker links |
| DeliveryTheorems.PublishedWasRouted | services/payment-service/src/workers/outbox-publisher-worker.ts:139-159 | A PUBLISHED event has a broker-confirmed, never returned publish of exactly its own id, routing key and body |
| DeliveryTheorems.CopiesAgree | services/payment-service/src/messaging/rabbitmq-publisher.ts:55-99 | All copies of an event the broker ever saw are the row's own message |
| DeliveryTheorems.StatusTellsAttempts | services/payment-service/src/data-access/outbox/outbox-events-data-access.ts:104-126 | PENDING means attempts < maxAttempts, FAILED means attempts = maxAttempts, and attempts count the recorded failures |
| DeliveryTheorems.AttemptsAreReal | services/payment-service/src/workers/outbox-publisher-worker.ts:145-156 | Recorded attempts never exceed the publishes of the event that really were rejected, over all processes and rollbacks |
| DeliveryTheorems.BatchesAreDisjoint | services/payment-service/src/data-access/outbox/outbox-events-data-access.ts:83-84 | Batches held by different live transactions share no event |
| DeliveryTheorems.MarksNeverMiss | services/payment-service/src/data-access/outbox/outbox-events-data-access.ts:88-126 | The ignored null result of markPublished or markPublishFailed never occurs for a fetched event |
| DeliveryTheorems.CommitIsPointwise | services/payment-service/src/workers/outbox-publisher-worker.ts:125-159 | A concurrent poll's commit equals the outcome function applied pointwise to its batch |
| DeliveryBackoff.OutcomeIsCommitted | services/payment-service/src/workers/outbox-publisher-worker.ts:139-159 | Over runs of any number of workers, an outcome recorded at one step and committed at a later one publishes its event at the recorded instant, or counts the failure with its error and ends it or makes it wait its backoff from the recorded clock |
| DeliveryBackoff.PendingWaitsItsBackoff | services/payment-service/src/workers/outbox-publisher-worker.ts:149-155 | A PENDING event that has failed waits exactly min(max, base * 2^min(attempts - 1, 52)) from the clock of its last failure |
| DeliveryBackoff.FetchWaits | services/payment-service/src/data-access/outbox/outbox-events-data-access.ts:72-77 | No worker fetches an event before its wait is over |
| DeliveryBackoff.EventsWaitTheirSchedule | services/payment-service/src/data-access/outbox/outbox-events-data-access.ts:108-120 | All the waits an event is ever given add up to at most its schedule, and so to (maxAttempts - 1) * max |
| DeliveryTheorems.CommitLowersMeasure | services/payment-service/src/workers/outbox-publisher-worker.ts:125-159 | Whoever commits, the attempts left drop by at least the batch length |
| DeliveryProgress.RunBudget | services/payment-service/src/data-access/outbox/outbox-events-data-access.ts:104-126 | In every state of every run, for any set of events, those handled by committed polls and the attempts they have left fit in maxAttempts each |
| DeliveryProgress.BoundedlyManyCommits | services/payment-service/src/workers/outbox-publisher-worker.ts:125-159 | At most (events * maxAttempts) non-empty polls ever commit, over all workers and with inserts at any moment; if that many have, every event is terminal |
| DeliveryProgress.PassedOverIsFilledAhead | services/payment-service/src/data-access/outbox/outbox-events-data-access.ts:67-85 | A committed poll whose fetch left out an eligible, unlocked event had a full batch from ahead of it |
| DeliveryProgress.BoundedOvertakingByWorkers | services/payment-service/src/data-access/outbox/outbox-events-data-access.ts:67-85 | Such polls number at most k * maxAttempts / batchSize for one event, over all workers, k counting the events ahead of it |
| DeliveryTheorems.AbortedLeavesNoTrace | services/payment-service/src/data-access/transaction-manager.ts:17-21 | An aborted poll is behind no recorded failure and no publication |
| DeliveryTheorems.TerminalForever | services/payment-service/src/data-access/outbox/outbox-events-data-access.ts:88-126 | A PUBLISHED or FAILED row never changes again |
| DeliveryRecovers.EverythingCanBePublished | services/payment-service/src/workers/outbox-publisher-worker.ts:125-159 | From every reachable state, some continuation publishes every PENDING event and leaves all other rows as they were |
| DeliveryRecovers.CanBePublishedIff | services/payment-service/src/data-access/outbox/outbox-events-data-access.ts:88-126 | Some continuation has an event PUBLISHED iff it is not FAILED |
| EndToEnd.RunOk | services/payment-service/src/services/outbox/outbox-service.ts:122-151 | Over any joint run the outbox table is exactly the protocol's recorded events, each under its own routing key |
| EndToEnd.CommitInsertsNewRow | services/payment-service/src/data-access/outbox/outbox-events-data-access.ts:46-64 | A commit inserts one outbox row: the envelope's columns, PENDING, no attempts, created at the instant of the insert |
| EndToEnd.EveryOutcomeHasItsRow | services/payment-service/src/services/payments/payments-service.ts:185-196 | Every payment has one authorize-stage outbox row, and one capture-stage row iff it has been captured |
| EndToEnd.PublishedTellsThePayment | services/payment-service/src/workers/outbox-publisher-worker.ts:139-159 | What a PUBLISHED row's broker-confirmed message announces is a status its payment has reached, under the correlation id of the request that recorded it |
| Lifecycle.StepKeepsInv | services/payment-service/src/bootstrap/payment-service-bootstrap.ts:63-151 | Every event of the process keeps the invariant over worker and bootstrap |
| Lifecycle.OneTimerOrIteration | services/payment-service/src/workers/outbox-publisher-worker.ts:161-179 | While running, exactly one of an armed timer or an iteration in flight; iterations never overlap |
| Lifecycle.NoneBeginsAfterStop | services/payment-service/src/workers/outbox-publisher-worker.ts:108-123 | No iteration begins once stop has been called |
| Lifecycle.NeverStartsAfterShutdown | services/payment-service/src/bootstrap/payment-service-bootstrap.ts:109-121 | Once shutdown has begun the worker never starts and bootstrap is refused |
| Lifecycle.KnexDestroyedOnceAndLast | services/payment-service/src/bootstrap/payment-service-bootstrap.ts:123-199 | Knex is destroyed at most once on any path, and on the graceful one only after the broker link has closed |
| Lifecycle.DestroyedUnderPollIff | services/payment-service/src/bootstrap/payment-service-bootstrap.ts:123-169 | Outside the forced exit, a destroyed knex can still be polled iff closing the server failed although the worker was started |
| Lifecycle.DestroyedUnderPollSettled | services/payment-service/src/bootstrap/payment-service-bootstrap.ts:123-199 | Whether knex can be polled after its destruction is settled at that moment for the rest of the run |
| Lifecycle.FailedListenIsHarmless | services/payment-service/src/bootstrap/payment-service-bootstrap.ts:109-121 | A server that never listened may fail to close without harm |
| Lifecycle.CloseErrorDestroysUnderPoll | services/payment-service/src/bootstrap/payment-service-bootstrap.ts:123-169 | A run that destroys knex with a poll in flight |
| Lifecycle.ShutdownAdvances | services/payment-service/src/bootstrap/payment-service-bootstrap.ts:123-151 | A shutdown is never stuck: what it waits for can happen and brings it closer to its end |
| Lifecycle.SignalsAndDeadlines | services/payment-service/src/bootstrap/payment-service-bootstrap.ts:82-107 | A signal begins the shutdown and arms its deadline; graces that end drop the server or hurry the link and are still awaited; the deadline closes what is left and exits |
| Lifecycle.BootstrapRuns | services/payment-service/src/bootstrap/payment-service-bootstrap.ts:109-121 | An uninterrupted bootstrap ends with the service running and the worker's timer armed |
| Draining.DestroyedAfterPolls | services/payment-service/src/workers/outbox-publisher-worker.ts:108-123 | Over joint runs of a process's lifecycle and its polls, knex is destroyed under an open poll of that process only after a failed server close or the forced exit |
| Draining.PollAdvances | services/payment-service/src/messaging/rabbitmq-publisher.ts:79-85 | An open poll has a next step that needs neither the broker nor another process and lowers its rank: a publish times out and gives up its channel, the outcome is recorded, the poll commits or throws |
| Draining.ShutdownFinishes | services/payment-service/src/bootstrap/payment-service-bootstrap.ts:123-169 | From every reachable state with a shutdown begun and not forced, the process can finish it by its own steps, at most 37, whatever the broker does |
| Lifecycle.OutboxPublisherWorker.Start | services/payment-service/src/workers/outbox-publisher-worker.ts:95-106 | Starts once; refuses to restart after stop |
| Lifecycle.OutboxPublisherWorker.Stop | services/payment-service/src/workers/outbox-publisher-worker.ts:108-123 | Clears the timer and waits for the iteration in flight, once |
| Lifecycle.OutboxPublisherWorker.OnIterationSettled | services/payment-service/src/workers/outbox-publisher-worker.ts:167-176 | Clears the iteration in flight and schedules the next only while running |
| Lifecycle.PaymentServiceBootstrap.CallShutdown | services/payment-service/src/bootstrap/payment-service-bootstrap.ts:82-91 | The first call begins stopping; later calls join it |
| Lifecycle.PaymentServiceBootstrap.OnHttpClosed | services/payment-service/src/bootstrap/payment-service-bootstrap.ts:125-135 | A close error skips stopping the worker |
| Lifecycle.PaymentServiceBootstrap.ForceShutdownAfterDeadline | services/payment-service/src/bootstrap/payment-service-bootstrap.ts:208-221 | Closes what is left, each resource once, and exits |

## Left out

- Express routes, controllers, middlewares, Joi validation, dependency containers, environment parsing, logging.
- The API gateway, ledger-service, webhook-service and openapi-kit.
- `PaymentsService.getById`: a read of one row.
- Mock provider amounts: the provider is arbitrary instead.
- `expires_at` retention timestamps: no code reads them.
- Crash and restart of a process as such: a crashed call stays crashed, its transaction is resolved by the database,
  and later calls are new calls; a worker process that crashes is replaced by another.
- JSON numbers other than integers, and the text of a response body on its way through the database and back
  (`normalizeResponseBody`): bodies are values.
- The constant envelope fields `source` and `aggregateType`.
- The contents of error messages and codes beyond the error kinds of `Protocol.Error`.
- Wall-clock lengths of timers: any timer may fire at any moment while it is armed.
- Protocol.Apply: `create`, `capture` and `getExistingOrStart` interleave as steps on values, not as heap methods; the
  methods in `PaymentsService.dfy` and `IdempotencyService.dfy` keep the source's own form with interference given as
  a parameter.
- IdempotencyService.Service.GetExistingOrStart: one rival insert between the two lookups is the only interference the
  method form admits; `Acquisition.AcquireRefinesAtomic` covers all of it.
- IdempotencyService.Service.DecideFromExisting: nothing comes between the read and the conditional write in the method
  form; `Acquisition.AcquireRefinesAtomic` covers what does.
- PaymentsService.Service.CreateOwned: interference in the method form is one takeover, placed at the start of the
  attempt; the protocol's runs place any number anywhere.
- PaymentsService.Service.CaptureOwned: as for `CreateOwned`.
- DeliveryProgress.BoundedOvertakingByWorkers: k counts the events ahead of the given one in the final table, including
  those inserted ahead of it later; a fetch that finds the event locked by another transaction does not pass it over.
- Recovery.CaptureCanSucceedIff: stated for payments that exist; one that does not exist yet may be created later.
- Delivery.Apply: polls of different processes interleave per publish; the loop of one poll as a method is
  `Outbox.OutboxPublisherWorker.PollOnce`.
