# Usage metering and billing: a model and its proofs

A completion request passes an API key check and a balance check, may be answered from a shared
cache, is otherwise answered by a provider, and then publishes a `usage.recorded` event. A consumer
charges that event to a ledger with three separate store calls. Nothing in this chain is
transactional. This project models the chain as state machines whose steps are the single calls to
the database, the cache, the broker and the provider, each of which may fail, and proves what holds
over every interleaving and every run. The objects of the program are modelled as classes whose
methods are proved to be runs of those machines.

## How the pieces fit

| layer | modules |
|---|---|
| texts and numbers | `Text`, `Json`, `CacheKey`, `UsageEvent`, `Cost`, `Rounding`, `Sums` |
| ledger | `Ledger` (machine), `LedgerSteps`, `Overdraft`, `OverdraftTight`, `Reconcile`, `AtomicLedger`, `CallerOrder`, `UsageSummary` |
| queue and consumers | `Delivery` (machine), `QueueSteps`, `Custody`, `DeliverySafety`, `ExactlyOnce`, `Drain`, `Attempts`, `Stuck`, `Completion`, `Termination`, `QueueLedger` |
| proxies and cache | `Proxy` (machine), `ProxySteps`, `Transparency`, `Stampede`, `StampedeTight` |
| whole pipeline | `System` (machine), `Attribution`, `EndToEnd`, `Admission`, `AdmissionTight`, `OneConsumer` |
| objects | `Billing`, `ConsumerLoop`, `ProxyService`, `AuthService`, `Stats` |

Each machine is an `Enabled` predicate, a `Step` function, and `Runs`/`Exec` over sequences of
actions. A theorem over runs therefore speaks about every finite interleaving. What the single steps do
is told from the outside in `LedgerSteps`, `QueueSteps` and `ProxySteps`, and at the end of `System` and
`Stats`.

* A ledger slot is one concurrent caller: `Begin`, then `Read`, `Update` and `Insert` as in
  `internal/billing/service/service.go:32-58`. A write ends `Fine`, `Refused` (an error and no effect)
  or `Lost` (the effect, and still an error). A failed balance read answers 0, as in
  `internal/billing/store/store.go:36-45`. `Abort` is a caller that dies half way.
* The queue adds the broker side: `Deliver`, `Take`, `Settle` (the answer after a charge), `Close`,
  `Reconnect` and `Crash`, as in `internal/billing/consumer/consumer.go:34-99`. Redelivery follows
  section 3.1.8 of AMQP 0-9-1; `basic.nack` is RabbitMQ's extension. Any ready message may be
  delivered next: no order is assumed. Consumer i charges through slot i; the other slots are HTTP
  deposits.
* The proxy machine gives every request its own place in `internal/llmproxy/service/service.go:46-83`;
  expiry and flush of the cache are steps of the environment. Any number of requests, from any
  number of proxy instances, interleave.
* The system machine joins the three with the key table: a request validates only with a live key, a
  publish that reaches the broker puts a message into the queue, and a balance answer is an error,
  the balance, or the 0 of a failed read.

The fields `applied`, `msg`, `src`, `deliveries`, `debits`, `rows`, `origin`, `past`, `sent` and
`history` are history: the program does not store them and no step looks at them, apart from the
step that adds to them. They let a theorem speak about what a message has caused.

## Assumptions, where they are used

* Deposits are not negative: in `Overdraft`, `QueueLedger`, `Admission` and the single-consumer
  refinement. The program does not check it (`internal/billing/handler/handler.go:71`), and
  `OverdraftTight.NegativeDepositOverdraws` shows that the bound fails without it.
* Costs are not negative: tokens and prices are not.
* SHA-256 has no collisions: cache entries and keys are looked up by what is hashed.
* A freshly drawn API key was never issued before.
* Which steps may fail is said by the predicates `Faultless`, `Logged`, `Clean`, `Steady`, `Fair`,
  `Undisturbed` and `Brisk`. Theorems that name none of them hold with every fault, at every step. `Clean` is the
  weakest of its kind: `ExactlyOnce.ExactlyOnceIffClean` shows that exactly the clean runs charge
  every message once. In it a connection or process may go at any time except between a deduction
  and its acknowledgement.
* A message can be under charge twice when the connection of its first delivery has gone. When the
  second charge has been paid, the first may be refused, and its answer reaches nobody. The theorems
  that say that no charge is refused speak of the others: `DeliverySafety.Collectable`. With one
  consumer there is nothing to leave out, as `OneConsumer` shows.

## Where the documentation and the code differ

The repository's README.md (line 172) gives the cost of an event as `tokens / 1000 * price`. The code
multiplies by 100 and rounds up (`internal/billing/service/service.go:47`); the model follows the
code. The same line speaks of reconnecting with backoff; the code waits a fixed five seconds, and the
model lets a reconnect happen at any time.

A genuine U+FFFD and an invalid byte are written differently by `encoding/json`, but all invalid
bytes are written alike. So two requests share a cache entry exactly when they differ only in which
invalid bytes they hold; requests that arrive as JSON bodies hold none.

A user may be drawn as low as -(n-1)*C by n consumers, a lost acknowledgement or a failed insert
charges twice, and a refused insert leaves a deduction that no row explains. These are proved as
properties of the code, with concrete runs.

## Model

| member | source | states |
|---|---|---|
| `LedgerSteps.ReadDecides` | internal/billing/service/service.go:48-54 | a charge goes on if the balance covers it, a missing row and a failed read counting as 0, and has failed otherwise |
| `LedgerSteps.UpdateMoves` | internal/billing/store/store.go:47-54 | an update that is not refused changes its user's balance by the amount or the cost and no other balance; only a reported success goes on |
| `LedgerSteps.InsertRecords` | internal/billing/store/store.go:56-62 | an insert that is not refused appends one row with its operation and time |
| `LedgerSteps.CallEnds` | internal/billing/service/service.go:32-59 | a caller that returns or dies leaves the tables as they are |
| `Overdraft.OverdraftBound` | internal/billing/service/service.go:48-55 | over every interleaving of deposits and n charging callers, with failed reads, refused and lost writes and callers that die, no balance falls below -(n-1)*C; with one caller none falls below 0 |
| `Overdraft.StepKeepsInv` | internal/billing/service/service.go:39-58 | balance minus all costs that passed their check and are not deducted stays at or above -(n-1)*C at every single store call |
| `Overdraft.OthersPromised` | internal/billing/service/service.go:52-55 | when one caller has just passed its check, the other n-1 can have passed theirs for at most C each |
| `OverdraftTight.OverdraftBoundIsReached` | internal/billing/service/service.go:48-55 | for every n and C some run in which every store call succeeds ends at exactly -(n-1)*C |
| `OverdraftTight.NegativeDepositOverdraws` | internal/billing/handler/handler.go:62-77 | a negative deposit is accepted and leaves the balance negative at once |
| `OverdraftTight.SeveralConsumersAreNotAtomic` | internal/billing/service/service.go:48-55 | with two or more consumers some faultless run ends where no history of an atomic ledger can end |
| `Reconcile.Reconciliation` | internal/billing/service/service.go:32-58 | in every run, balance minus (deposit rows - usage rows + changes applied and not yet logged) changes by exactly the drift of the lost updates, refused inserts and deaths before an insert |
| `Reconcile.StepDrift` | internal/billing/service/service.go:55-58 | only a lost update, a refused insert or a death between the two makes the tables drift apart, by exactly that operation's amount |
| `Reconcile.NoDrift` | internal/billing/service/service.go:33-36 | a run without those three faults has no drift, whatever is refused or fails to be read |
| `Reconcile.QuiescentBalance` | internal/billing/service/service.go:33-36 | without those faults, whenever nobody is inside a call the balance is the opening gap plus deposits minus usage, as recorded |
| `Reconcile.RefusedInsertDrifts` | internal/billing/service/service.go:55-58 | one refused insert of a usage row: the cost is deducted and the transactions table is as before |
| `AtomicLedger.AtomicIffCovered` | internal/billing/service/service.go:32-58 | for any number of callers, a faultless run gives the answers, balances and rows of an atomic ledger, success taking effect at the update and refusal at the read, if and only if each deduction was still covered when it was made |
| `AtomicLedger.StepIsAtomic` | internal/billing/service/service.go:48-57 | each store call is one atomic step or none, exactly unless it is an uncovered deduction |
| `AtomicLedger.OneConsumerIsAtomic` | cmd/billing-service/main.go:64-70 | the single consumer as deployed, interleaved with any deposits that are not negative and any balance queries, is an atomic ledger |
| `AtomicLedger.OneConsumerIsCovered` | cmd/billing-service/main.go:64-70 | with one consumer what passed its check is still covered when it is deducted |
| `AtomicLedger.RepliesAreHistory` | internal/billing/service/service.go:32-58 | every reply a caller gets is one event of the atomic history, and each event is told once |
| `CallerOrder.CallersAreToldTheirEvents` | internal/billing/service/service.go:32-58 | caller by caller, the sequence of replies is the sequence of that caller's events in the atomic history, but for the one still to be told |
| `CallerOrder.EventsAreOfBegun` | internal/billing/service/service.go:32-58 | caller by caller, those events are of the operations it began, in that order |
| `CallerOrder.HistoryKeepsRealTime` | internal/billing/service/service.go:32-58 | wherever a run is cut, what has been answered by then stands in the first part of the history and what is begun later in the second |
| `CallerOrder.MarksAreHistory` | internal/billing/service/service.go:48-57 | the history with its callers is the history |
| `AtomicLedger.RowsAreAtomicRows` | internal/billing/store/store.go:56-62 | operation by operation, the atomic ledger's rows are the rows of the table plus those about to be inserted |
| `AtomicLedger.AtomicNeverOverdraws` | internal/billing/service/service.go:48-54 | the atomic ledger, the reference, never takes a balance below 0 |
| `UsageSummary.UsageRowByRow` | internal/billing/store/store.go:85-99 | no rows give zeros, and each row adds its tokens, cost and one request exactly if it is the user's usage and not older than 604800 seconds for a week, 2592000 for a month, 86400 for any other period |
| `UsageSummary.PeriodsAreNested` | internal/billing/store/store.go:85-103 | tokens, amount and requests of a day are at most those of a week, and those at most a month's; an unknown period is a day |
| `UsageSummary.PeriodsOfRunAreNested` | internal/billing/store/store.go:85-103 | so it is for the log of any run that begins no charge with negative tokens or a negative cost |
| `UsageSummary.RecordedWasBegun` | internal/billing/store/store.go:56-62 | a run records only operations that were begun: whatever holds of those holds of every row |
| `UsageSummary.AmountMatchesTokens` | internal/billing/store/store.go:95-99 | at one price p the total amount lies in [tokens*p/10, tokens*p/10 + requests) |
| `UsageSummary.LogIsPriced` | internal/billing/service/service.go:39-58 | every usage row that any run leaves carries the charge of the tariff for its model and tokens, for any tariff |
| `UsageSummary.SummaryOfRun` | internal/billing/store/store.go:85-103 | so for a user charged exactly at the price list, on models of one price, the statistics of any log left by any run lie in that interval, for every period |
| `UsageSummary.FloatSummaryOfRun` | internal/billing/store/store.go:85-103 | for a user charged in float64, nothing overflowing and each exact cost below 2^50, they lie in [tokens*p/10 - requests, tokens*p/10 + 2*requests) |
| `UsageSummary.SummaryExplainsBalance` | internal/billing/store/store.go:85-103 | with no row missed and nobody inside a call, the balance is the deposits minus the amount the statistics report |
| `Cost.CeilIsLeast` | internal/billing/service/service.go:47 | the ceiling is the least integer that is not below the amount |
| `Cost.CostMonotone` | internal/billing/service/service.go:47 | more tokens never cost less; none cost nothing; no cost is negative |
| `Cost.CostSubadditive` | internal/billing/service/service.go:47 | two parts cost at least as much apart as together, and at most one more |
| `Cost.BillForEvents` | internal/billing/service/service.go:47 | a list of k events at price p is billed at least T*p/10 and less than T*p/10 + k for their T tokens |
| `Cost.SplittingCostsMore` | internal/billing/service/service.go:47 | splitting a request never lowers the bill and raises it by less than the number of parts |
| `Cost.PriceCases` | internal/billing/service/service.go:40-46 | the price is the listed one, else that of "default" unless missing or zero, else 0.03 |
| `Cost.ListPrice` | cmd/billing-service/main.go:53-57 | of the price list at one price every model has that price, but an unlisted one has 0.03 when it is zero |
| `Cost.MockRequestCostsOne` | internal/llmproxy/provider/provider.go:49-56 | any total the mock provider can report, 80 to 328 tokens, costs exactly 1 at price 0.03 |
| `Cost.ZeroPriceIsNotFreeForAll` | internal/billing/service/service.go:40-46 | with a zero price configured, listed models are free and every other model still costs |
| `Rounding.FloatCostWithinOne` | internal/billing/service/service.go:47 | with the conversion and the three operations rounded as in section 4.3.1 of IEEE 754-2019, accurate on zero and the normal numbers only, the cost differs from the exact one by at most 1 whenever that is below 2^50 and nothing overflows; amounts may underflow |
| `Rounding.TinyCost` | internal/billing/service/service.go:47 | an exact cost small enough to underflow somewhere is 1 when rounded up, and the computed one is 0 or 1 |
| `Rounding.Stages` | internal/billing/service/service.go:47 | when the exact cost is zero or at least 200 times the smallest normal number, each of the four rounded numbers is zero or normal, and so rounded accurately |
| `Rounding.Chain` | internal/billing/service/service.go:47 | the four roundings together are off by at most 5 * 2^-53 relatively |
| `Rounding.FloatCostMonotone` | internal/billing/service/service.go:47 | as long as nothing overflows the rounded cost never falls when the tokens grow, underflow included |
| `Rounding.MockRequestCostsOneInFloat` | internal/llmproxy/provider/provider.go:49-56 | a mock request costs exactly 1 in float64 too, with 0.03 itself rounded |
| `Json.UnitRoundTrip` | internal/llmproxy/service/service.go:113-120 | an escaped code point is read back, whatever text follows; an invalid byte comes back as an invalid byte |
| `Json.StringRoundTrip` | internal/llmproxy/service/service.go:113-120 | escaped strings are prefix-free: reading one back stops exactly at its closing quote (section 7 of RFC 8259) |
| `Json.IntRoundTrip` | internal/llmproxy/service/service.go:99-100 | a written integer is read back, and reading stops where it ends |
| `CacheKey.KeyRoundTrip` | internal/llmproxy/service/service.go:113-120 | the text that is hashed can be parsed back to the request, up to which invalid bytes it held |
| `CacheKey.KeyLooksLike` | internal/llmproxy/service/service.go:113-117 | the text of a request without messages and of one with one message, letter by letter |
| `CacheKey.SameKeyIffSameBlurred` | internal/llmproxy/service/service.go:113-120 | two requests have the same key text if and only if they agree once all invalid bytes are made equal |
| `CacheKey.ValidRequestsHaveOwnKeys` | internal/llmproxy/service/service.go:113-120 | a request of valid UTF-8 text shares its key text with no other request, valid or not; a missing messages field differs from an empty one |
| `UsageEvent.StampRoundTrip` | internal/llmproxy/service/service.go:101 | a UTC time written as in section 5.6 of RFC 3339 is read back, cut to seconds |
| `UsageEvent.EventRoundTrip` | internal/billing/consumer/consumer.go:84-90 | every event the proxy can publish decodes to the same user, model and token counts, time cut to seconds; so none is ever dropped |
| `UsageEvent.EncodedAs` | internal/llmproxy/service/service.go:96-103 | the text of an event has the keys completion_tokens, model, prompt_tokens, timestamp and user_id in this order, each with its value |
| `Delivery.RunIsLedgerRun` | internal/billing/consumer/consumer.go:91-95 | seen from the ledger every run of the queue protocol is a run of store calls, so every ledger theorem applies to it |
| `QueueSteps.TakeCharges` | internal/billing/consumer/consumer.go:84-91 | taking a decodable message begins a charge of its prompt and completion tokens together, at its model's tariff |
| `QueueSteps.TakeDrops` | internal/billing/consumer/consumer.go:84-89 | taking an undecodable one drops it, if the connection is there |
| `QueueSteps.SettleAnswers` | internal/billing/consumer/consumer.go:91-96 | a successful charge acknowledges its message and a failed one requeues it, over an open connection only |
| `QueueSteps.CloseTakesBack` | internal/billing/consumer/consumer.go:78-79 | a lost connection makes its unacknowledged messages ready and leaves the consumer its buffer and its charge |
| `QueueSteps.CrashTakesBack` | internal/billing/consumer/consumer.go:48-99 | a process that dies leaves nothing, and its unacknowledged messages are ready |
| `Custody.StepKeepsInv` | internal/billing/consumer/consumer.go:74-98 | every step, faults included, keeps it that an unacknowledged message is with the consumer the broker names, an acknowledged one has left a row, and only an undecodable one was dropped |
| `DeliverySafety.DeliveryIsSafe` | internal/billing/consumer/consumer.go:34-99 | in every run with crashes, lost acknowledgements, reconnects and requeues, for any number of consumers: acknowledged means a row in the table, dropped means undecodable, unacknowledged means in somebody's hands, and rows <= deductions <= deliveries |
| `DeliverySafety.MessagesArePermanent` | internal/billing/consumer/consumer.go:84-96 | a published message never disappears or changes, and acknowledged and dropped are final |
| `DeliverySafety.StepKeepsFaithful` | internal/billing/service/service.go:55-58 | the per-message counts are the counts of that message in the balance history and in the transactions table |
| `ExactlyOnce.ChargesAreExplained` | internal/billing/consumer/consumer.go:84-96 | in every run, whatever fails, the deductions for a message are one for its acknowledgement, those still in a consumer's hands, and those wasted by a lost update, a failed insert, a death in between, or an answer sent when the connection is gone; and likewise its rows |
| `ExactlyOnce.StepWastes` | internal/billing/service/service.go:55-58 | at each step the unexplained deductions of a message grow by what that step wastes |
| `ExactlyOnce.ChargedOnceIffNothingWasted` | internal/billing/consumer/consumer.go:91-96 | an acknowledged message with no deduction in hand has exactly one deduction if and only if no step of the run wasted one for it, and exactly one row if and only if none wasted a row |
| `ExactlyOnce.ExactlyOnceIffClean` | internal/billing/consumer/consumer.go:91-96 | when no deduction is in hand at the end, every acknowledged message is deducted once and every other not at all if and only if the run is clean: no update is lost, none is made over a dead connection, no insert of a charge fails, and no connection or process goes between a deduction and its acknowledgement |
| `ExactlyOnce.ChargedExactlyOnce` | internal/billing/consumer/consumer.go:91-96 | in a clean run, requeues and lost connections with any number of buffered messages included, at every moment an acknowledged message has one deduction and one row, a ready or dropped one none, and none has more |
| `Drain.EveryRunIsAccounted` | internal/billing/consumer/consumer.go:80-96 | with nothing new coming in, what leaves a user's balance is the cost of each message as often as it was deducted, in every run, faults included |
| `Drain.RunConserves` | internal/billing/consumer/consumer.go:80-96 | with nothing new coming in, a user's balance minus what the queue still owes never changes, under any delivery and requeue order, in clean runs as above |
| `Drain.CoveredQueueDrains` | internal/billing/service/service.go:47-58 | in clean runs, if the balance covers a user's queued events, no charge for that user is ever refused unless its message has been paid already, and a settled queue leaves the balance minus their total whatever the order |
| `Completion.CoveredQueueCanDrain` | internal/billing/consumer/consumer.go:80-96 | from any quiet queue with a connected consumer, where every user's balance covers what is queued, some undisturbed run settles every message and charges each user exactly what was owed |
| `Completion.SettleOne` | internal/billing/consumer/consumer.go:84-96 | any message left can be settled next, leaving a quiet, covered queue with one message less |
| `Termination.EveryRunDrains` | internal/billing/consumer/consumer.go:80-96 | connected consumers, a covered queue and no disturbances: every run has at most seven steps for each open message, and where it can go no further every message is settled and each user has paid exactly what was owed |
| `Termination.StepWorks` | internal/billing/consumer/consumer.go:80-96 | each delivery, store call and answer brings its message nearer to being settled and no other further from it |
| `OneConsumer.CoveredQueueIsNeverRefused` | cmd/billing-service/main.go:64-70 | with the one consumer that is deployed, in clean runs of a queue that a user's balance covers, every charge for that user passes its check, without exception |
| `Drain.SuccessesAreBounded` | internal/billing/consumer/consumer.go:80-96 | at most as many deliveries succeed as messages are open, in every run, faults included |
| `Stuck.StuckIffHopeless` | internal/billing/consumer/consumer.go:80-96 | at any moment of a queue to which nothing new comes, whatever is buffered, under charge or disconnected: no undisturbed run acknowledges anything more if and only if every event left costs more than its user's balance and no charge that has passed its check can still be answered |
| `Stuck.StuckIffTooExpensive` | internal/billing/consumer/consumer.go:91-95 | when nothing is buffered or under charge, if and only if every event left costs more than its user's balance |
| `Stuck.Finished` | internal/billing/service/service.go:55-58 | a charge that has passed its check over an open connection can be brought to its acknowledgement |
| `Stuck.Renewed` | internal/billing/consumer/consumer.go:53-93 | a consumer that has deducted nothing can let go of its charge and its buffer and connect anew, with no balance changed |
| `Stuck.RunStaysHopeless` | internal/billing/consumer/consumer.go:91-95 | from there no undisturbed run, however long it requeues, acknowledges anything more |
| `Attempts.AttemptRuns` | internal/billing/service/service.go:48-58 | a covered message can be delivered and charged, and what that leaves behind exactly |
| `Attempts.LostAckChargesTwice` | internal/billing/consumer/consumer.go:78-96 | a connection lost between the charge and its acknowledgement charges the user twice |
| `Attempts.FailedInsertChargesTwice` | internal/billing/service/service.go:55-58 | an insert that fails after the deduction makes the message requeued and charged again: two deductions, one row, no connection lost |
| `QueueLedger.QueueOverdraftBound` | cmd/billing-service/main.go:64-70 | no fault of store, connections, consumers or broker takes a balance below -(n-1)*C with n consumers, or below 0 with the one deployed |
| `QueueLedger.QueueIsAtomic` | internal/billing/consumer/consumer.go:74-98 | with one consumer and every store call answered, requeues and lost connections included, the ledger shows a run of the atomic ledger |
| `Transparency.StepKeepsInv` | internal/llmproxy/service/service.go:60-82 | every step keeps it that a cached entry was given by the provider to a request with that key, and that only a provider's answer is published |
| `Transparency.CacheOnlyRepeats` | internal/llmproxy/service/service.go:60-82 | over every interleaving with flushes, expiries and failed cache calls, each cached entry and each answer was returned by the provider to a request with the same key |
| `Transparency.AnswersAreTheProviders` | internal/llmproxy/service/service.go:60-71 | if the provider is a function of the request, every answer to a request of valid text, cached or not, is the uncached one |
| `Transparency.AnswersAreAsWritten` | internal/llmproxy/service/service.go:60-71 | if the provider is a function of the request as it is written, invalid bytes all alike, the same holds of every request |
| `Stampede.StampedeBound` | internal/llmproxy/service/service.go:60-75 | from any state, while a key's entry is neither flushed nor expired and cache calls succeed, at most as many provider calls succeed for it as requests for it are ever in flight at once |
| `Stampede.StepAccounts` | internal/llmproxy/service/service.go:60-75 | until the first answer is saved, every request that called the provider is still about to save |
| `Stampede.SequentialRequestsCallOnce` | internal/llmproxy/service/service.go:60-75 | one request at a time for a key that was not cached: if it is cached in the end, exactly one provider call was made for it |
| `StampedeTight.StampedeBoundIsReached` | internal/llmproxy/service/service.go:60-75 | for every n some run makes exactly n provider calls for one key |
| `System.ShipSendsText` | internal/llmproxy/service/service.go:95-110 | what the queue holds after a publish is what the consumer decodes from the JSON text the proxy wrote |
| `System.RevokeRevokes` | internal/auth/store/store.go:81-84 | revoking a key marks it, keeps its owner and touches nothing else |
| `System.ValidationNeedsLiveKey` | internal/auth/service/service.go:73-88 | a request can be validated exactly with an existing key that is not revoked, as its owner's |
| `System.RunIsQueueRun` | internal/llmproxy/service/service.go:77-80 | seen from the queue, every run of the pipeline is a run of the queue protocol |
| `System.RunIsFrontRun` | internal/llmproxy/service/service.go:46-83 | seen from the proxies, every run of the pipeline is a run of the proxies over their cache |
| `Attribution.RowsAreAttributed` | internal/billing/consumer/consumer.go:90-96 | in every run each usage row goes back to one published request: its user owns that request's key, its tokens are the prompt and completion tokens the provider reported to it, its cost is the tariff's |
| `Attribution.RowsWereValidated` | internal/auth/service/service.go:73-88 | for each usage row some step of the run validated the request behind it, at a moment when its key was not revoked and belonged to the row's user |
| `Attribution.WasValidated` | internal/llmproxy/service/service.go:47-50 | a request has a user only through such a step |
| `Attribution.RequestsStay` | internal/llmproxy/service/service.go:46-83 | a request keeps its key and body, and its user and response once it has them |
| `Attribution.EventsAreProviderCalls` | internal/llmproxy/service/service.go:68-82 | usage events correspond one to one to successful provider calls whose publish succeeded, and none is dropped |
| `EndToEnd.PublishedIsChargedOnce` | internal/llmproxy/service/service.go:77-80 | in runs of the pipeline with a clean queue, each message is the event of the one request that published it, with exactly one deduction and one row once acknowledged, none while ready, and never more |
| `Attribution.RevocationIsFinal` | internal/auth/service/service.go:94-96 | from the moment a key is revoked it stays revoked, and any request with it that has a user later had it at that moment |
| `Attribution.RevokedKeyValidatesNothing` | internal/auth/service/service.go:80-82 | from then on no step can validate a request with it |
| `Attribution.RowsAfterRevoke` | internal/auth/service/service.go:80-82 | a row that a key still leaves after its revocation goes back to a request validated before |
| `Attribution.NothingValidatesAfterRevocation` | internal/auth/service/service.go:73-96 | a revoked key stays revoked and validates no further request |
| `Attribution.RowsAfterRevocation` | internal/auth/service/service.go:80-82 | a row that a revoked key still leaves goes back to a request validated before the revocation |
| `Admission.ReserveDegrades` | internal/llmproxy/service/service.go:44-58 | with at most w requests outstanding for a user, each costing at most c, and deposits that are not negative, over every run with any fault: the balance minus c for each outstanding request, plus c for each deduction beyond a message's first, stays at or above min(0, 10 - c*w) |
| `Admission.ReserveIsKept` | internal/llmproxy/service/service.go:44-58 | in clean runs with deposits that are not negative, at most w requests outstanding for a user and each costing at most c, the balance minus c for each outstanding request stays at or above min(0, 10 - c*w) |
| `Admission.AdmittedIsNeverRefused` | internal/billing/service/service.go:47-54 | in such clean runs with c*w <= 10, every charge for the user passes its check, of a message not yet deducted or over a connection still open |
| `OneConsumer.AdmittedIsNeverRefused` | cmd/billing-service/main.go:64-70 | in such clean runs with c*w <= 10 and the one consumer that is deployed, every charge for the user passes its check, without exception |
| `OneConsumer.StepKeepsFresh` | internal/billing/consumer/consumer.go:80-96 | what a single consumer buffers or charges has not been acknowledged, at every step and whatever fails |
| `Admission.TenMockRequestsAreNeverRefused` | internal/llmproxy/provider/provider.go:49-56 | over every clean run with deposits that are not negative, mock responses, a tariff that prices them at 1 and at most ten requests outstanding for a user, every such charge for that user passes its check |
| `Admission.MockRunIsFair` | internal/llmproxy/provider/provider.go:49-56 | such a run is one with costs of at most 1 and at most 10 outstanding |
| `Admission.ShippedPriceCostsOne` | cmd/billing-service/main.go:53-57 | the price list of gpt-4, gpt-4-turbo and default at 0.03 prices every mock response, of any model, at 1 |
| `Admission.ShippedPriceCostsOneInFloat` | cmd/billing-service/main.go:53-57 | and so does that list computed with in float64 |
| `AdmissionTight.NeverRefusedIff` | internal/llmproxy/service/service.go:44-58 | over all clean runs with deposits that are not negative, responses of at most c and at most w outstanding, the minimum balance of 10 guarantees that no such charge is refused if and only if c*w <= 10 |
| `AdmissionTight.AdmittedIsRefused` | internal/llmproxy/service/service.go:56-58 | whenever c*w > 10 some such clean run admits w requests and then refuses the charge of one of them |
| `AdmissionTight.ReserveBoundIsReached` | internal/llmproxy/service/service.go:44-58 | whenever c*w >= 10 the reserve bound is met with equality by some run |
| `Billing.Store.GetBalance` | internal/billing/store/store.go:36-45 | the stored amount; 0 for a missing row and for any error |
| `Billing.Store.UpdateBalance` | internal/billing/store/store.go:47-54 | adds to the user's row or creates it, all others unchanged; a refused call changes nothing; an error may hide an effect |
| `Billing.Store.CreateTransaction` | internal/billing/store/store.go:56-62 | appends one row, or none when refused |
| `Billing.Service.Deposit` | internal/billing/service/service.go:32-37 | both tables and the error for every outcome of the two store calls; exactly the ledger's steps of one caller |
| `Billing.Service.RecordUsage` | internal/billing/service/service.go:39-59 | what a charge, priced with every float64 operation rounded, does to both tables and whether it succeeds, for every outcome of its three store calls; exactly the ledger's steps of one caller |
| `Billing.Service.Price` | internal/billing/service/service.go:40-46 | a listed model has its price, even zero; any other the entry "default" unless missing or zero; else 0.03 as the nearest float64 |
| `Billing.PaidInFull` | internal/billing/service/service.go:48-58 | a covered charge with nothing failing takes its cost from the balance, leaves one row and succeeds |
| `Billing.NotPaid` | internal/billing/service/service.go:48-54 | a charge above the balance as read, 0 for a failed read, changes nothing and does not succeed |
| `Billing.PaidInPart` | internal/billing/service/service.go:55-58 | a refused update changes nothing, a failed insert leaves the deduction, and neither succeeds |
| `Billing.DepositEnds` | internal/billing/service/service.go:32-37 | where the steps of a deposit leave both tables, for every outcome of the two calls |
| `Billing.UsageEnds` | internal/billing/service/service.go:48-58 | where the steps of a charge leave both tables, for every outcome of the three calls |
| `ConsumerLoop.HandleRuns` | internal/billing/consumer/consumer.go:84-96 | taking, charging and answering one message is a run of the queue protocol that ends in acknowledged, ready again or dropped, or unanswered when the connection is gone |
| `ConsumerLoop.HandledMeans` | internal/billing/consumer/consumer.go:84-96 | what that leaves in the tables, the queue and the message's history, for an undecodable message and for every outcome of a charge, over an open and over a dead connection |
| `ConsumerLoop.EachInputHasItsTurn` | internal/billing/consumer/consumer.go:74-97 | the receive loop goes through its inputs one by one, each in the state the others have left |
| `ConsumerLoop.NothingAfterTheEnd` | internal/billing/consumer/consumer.go:76-83 | and through none after the one that ends it |
| `ConsumerLoop.SessionIs` | internal/billing/consumer/consumer.go:48-53 | a failed dial does nothing; otherwise a session reconnects with an empty buffer, works through its inputs and hangs up if still connected |
| `ConsumerLoop.EachSessionFollows` | internal/billing/consumer/consumer.go:34-46 | each connection follows on what the ones before have left |
| `ConsumerLoop.Consumer.Handle` | internal/billing/consumer/consumer.go:84-96 | the method does exactly that run, on the tables, the broker and the message's history |
| `ConsumerLoop.Consumer.Charge` | internal/billing/consumer/consumer.go:90-91 | charges prompt plus completion tokens of one event and counts what that did to its message |
| `ConsumerLoop.Consumer.ChargeAndAnswer` | internal/billing/consumer/consumer.go:90-96 | a decoded message is charged and acknowledged, or requeued when the charge reports an error |
| `ConsumerLoop.Consumer.Drop` | internal/billing/consumer/consumer.go:84-89 | a message that cannot be decoded is rejected without requeue and charges nobody |
| `ConsumerLoop.Consumer.Turn` | internal/billing/consumer/consumer.go:74-97 | for each input: a ready message that arrives is buffered and unacknowledged, a picked one leaves the buffer and is dropped, or charged and acknowledged or requeued, a lost connection returns what was unacknowledged, and nothing else has an effect |
| `ConsumerLoop.Consumer.Serve` | internal/billing/consumer/consumer.go:74-97 | the receive loop is exactly the turns of its inputs up to the first that ends it |
| `ConsumerLoop.Consumer.Run` | internal/billing/consumer/consumer.go:48-99 | one connection is exactly the run its session prescribes, nothing when the dial fails, and leaves the connection closed |
| `ConsumerLoop.Consumer.Start` | internal/billing/consumer/consumer.go:34-46 | the reconnect loop is exactly the run its sessions prescribe, one after the other |
| `ConsumerLoop.Broker.Close` | internal/billing/consumer/consumer.go:53 | when the connection goes, what was not acknowledged is ready again and nothing else changes |
| `ConsumerLoop.Broker.Answer` | internal/billing/consumer/consumer.go:87-96 | an ack or nack changes one message over an open connection and none over a closed one |
| `ProxyService.Service.Complete` | internal/llmproxy/service/service.go:46-83 | which error or response is returned, whether a response is cached under the request's key, and whether one usage event with which tokens leaves, for every outcome of the key check, the balance against 10, the cache, the provider, the Set and the publish; a run of the proxy machine by this one request |
| `ProxyService.Service.Admit` | internal/llmproxy/service/service.go:47-58 | refuses with the authentication, billing or balance error in that order, and passes exactly from a balance of 10 |
| `ProxyService.Service.Fetch` | internal/llmproxy/service/service.go:68-82 | a provider error saves and publishes nothing; otherwise the response is returned whether or not the Set and the publish succeed |
| `ProxyService.Service.Finish` | internal/llmproxy/service/service.go:73-82 | after a provider response neither the Set nor the publish can fail the request, and one event leaves if the publish succeeds |
| `ProxyService.Service.PublishUsage` | internal/llmproxy/service/service.go:95-110 | appends the JSON text of exactly one event, or nothing on an error |
| `ProxyService.Service.Save` | internal/llmproxy/service/service.go:73-75 | a successful Set replaces this key's entry only; a failed one goes unnoticed |
| `ProxyService.Service.ClearCache` | internal/llmproxy/service/service.go:91-93 | the cache is empty afterwards, and requests, events and texts are as before |
| `ProxySteps.FlushForgets` | internal/llmproxy/service/service.go:91-93 | after a flush every lookup goes to the provider, until a Set for its key succeeds |
| `ProxySteps.ExpiryForgets` | internal/llmproxy/service/service.go:73-75 | after an entry has expired, so does every lookup of its key |
| `ProxySteps.ExpiryRemovesOne` | internal/llmproxy/service/service.go:74 | an expiry removes one entry and no other |
| `ProxySteps.SavedIsServed` | internal/llmproxy/service/service.go:60-75 | what a request saves answers every later lookup of its key, until the entry is replaced, flushed or expired |
| `ProxySteps.BalanceDecides` | internal/llmproxy/service/service.go:52-58 | a balance of 10 admits, a lower one or an error refuses |
| `ProxySteps.CacheDecides` | internal/llmproxy/service/service.go:60-66 | a hit answers with the cached response, a miss or a failed call goes to the provider |
| `ProxySteps.SetStores` | internal/llmproxy/service/service.go:73-75 | a Set that succeeds replaces the entry of the request's key and no other |
| `ProxySteps.PublishAnswers` | internal/llmproxy/service/service.go:77-82 | the response is returned whether or not the publish succeeds |
| `ProxySteps.KeyDecides` | internal/llmproxy/service/service.go:47-50 | a request goes on as the key's owner, or has failed |
| `ProxySteps.ProviderDecides` | internal/llmproxy/service/service.go:68-71 | a provider error fails the request and a response is kept for it |
| `AuthService.Service.ValidateAPIKey` | internal/auth/service/service.go:73-88 | succeeds if and only if the key was issued, is not revoked and the store answers, and then names its owner |
| `AuthService.Service.RevokeAPIKey` | internal/auth/service/service.go:94-96 | revokes exactly the key behind that row; an unknown row is not an error; a store error may or may not hide the effect |
| `AuthService.Service.GenerateAndStoreAPIKey` | internal/auth/service/service.go:121-133 | a fresh key belongs to its user and changes no other; without random bytes nothing is stored; a store error hands out no key |
| `Stats.Counter.Inc` | pkg/stats/stats.go:21-26 | total and map stay the counts of exactly the requests counted, the new one included |
| `Stats.Counter.Snapshot` | pkg/stats/stats.go:64-70 | the copy made key by key, in any order, is exactly the counts |
| `Stats.TotalIsSum` | pkg/stats/stats.go:21-26 | the total is the sum of the map over all statuses |
| `Stats.IncCounts` | pkg/stats/stats.go:21-26 | an increment that gets the mutex adds one to the total and to its status, and gives the mutex back |
| `Stats.SnapshotIsTaken` | pkg/stats/stats.go:64-70 | a snapshot that gets the mutex can be completed and has the counts of that moment |
| `Stats.SnapshotsAreConsistent` | pkg/stats/stats.go:62-70 | over every interleaving of increments and snapshots, the total is the map's sum whenever the mutex is free, and each snapshot is the counts of exactly the increments before it |
| `Stats.SnapshotsGrow` | pkg/stats/stats.go:62-70 | a later snapshot is at least as large, in total and for every status |
| `Stats.StepKeepsInv` | pkg/stats/stats.go:21-26 | mutual exclusion, the half-done increment and the partial copy stay consistent at every step |

## Left out

* HTTP routing, body decoding, status codes and the HTTP clients between the services: plumbing. Of
  the handlers only the unchecked deposit amount matters here.
* Register, Login, JWT, bcrypt, roles and the listing of keys and models: no part in metering.
* The bits of SHA-256 and of random key generation: hashing is an injective function, a new key a
  fresh value.
* SQL, pgx, Redis, AMQP framing, the OpenAI call, sleeps and latencies: each call is one atomic step
  that may fail. A cached value that fails to decode counts as a failed lookup.
* GetTransactions: the loop copies the rows the database selects; it would only add an easy member.
* The range of int64 and BIGINT: amounts are unbounded. An overflow in the database is an error of
  that call, which the model has as a refused update.
* Broker restarts that lose messages, and redelivery limits: a message in the queue stays there until
  it is acknowledged or dropped.
* The panic of the mock provider on an empty message list: a request that never returns, which the
  model has as `Abandon`.
* Telemetry, middleware, health checks, HAProxy modes, dashboards and start-up wiring, apart from the
  price table and the single consumer.
* `Rounding.FloatCostWithinOne`: the bits of float64 are not modelled; a rounding is any function that
  keeps order and is accurate on the normal numbers, and the conversion of the ceiling back to int64
  is exact.
* `UsageEvent.EventRoundTrip`: the decoder accepts the texts of this layout with the fields in any
  order, but no white space, unknown fields or surrogate pairs, none of which the proxy writes; which
  malformed texts other writers could send, and whether they decode, is left to the `event` of a
  published message.
* `Json.StringRoundTrip`: works on code points and invalid bytes, not on UTF-8 bytes.
* `ConsumerLoop.Consumer.Handle`: store calls of other callers do not interleave inside one method
  call; the interleavings are those of the machines, which the method's steps are a run of.
* `ProxyService.Service.Complete`: likewise for other requests; `Transparency` and `Stampede` cover
  the interleavings.
* `AuthService.Service.ValidateAPIKey`: the lookup of the user row and the role are folded into
  whether the store answers; rows are named by their hash, not by a separate identifier.
* `Admission.ReserveIsKept`: a request counts from its balance read; the time between the read in the
  billing service and the comparison in the proxy is one step.
