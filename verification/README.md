# Verified model of the paid-job protocol

The service takes orders for generated images and videos, charges for them, has background
workers run them at an external provider, and refunds the ones that fail. PostgreSQL holds
the state; a message broker wakes the workers; any number of workers may run at once, crash
anywhere, come back late, or receive a message twice or never. What keeps money and results
right is not a lock but a handful of conditional `UPDATE` statements. This project models
those statements and everything that may happen between them, and proves what they add up to.

How it is organised:

- `Tables`, `Transactions`: the rows, and what each transaction does to them as a function.
- `Database`: the same transactions written as the repositories write them, as a class whose
  methods update the tables in place; every method is proved against its function. The batch
  loops and `process_generation` with its handlers are methods too.
- `JobSystem`: the state machine. Clients, the clock, the broker (which may lose and
  duplicate), dispatchers, the recovery task and worker tasks interleave at every transaction
  boundary. `JobInvariant` and `TableInvariant` hold in every reachable state.
- `Fencing`, `OneOwner`, `Ledger`, `Replays`, `Recovery`: what follows for whole runs. Lemmas
  that ask for `Inv` hold in particular in every reachable state, by
  `TableInvariant.ReachableInv`.
- `CallbackDelivery`, `CallbackInvariant`: the client webhooks, a second lease machine that
  runs beside the first.
- `Guarantees` (modules `JobGuarantees` and `WebhookGuarantees`): what the invariants give to
  users of the service, stated about reachable states and their continuations only.
- `Providers`, `Queueing`: who is asked for a result and what a finished row records; which rows
  the periodic tasks take first, and how long recovery waits.
- `WebhookRecovery`: what is on record about a webhook is true, and no webhook is ever stuck.
- `RetryChain`, `Dispatch`: one message and its retries, and dispatch batches, without
  interference; `ChainRuns` and `BatchRuns` find them again among the runs of the protocol.
  `Outcomes` tells what becomes of a generation from the settings and the answers alone.
- `RateLimiter`, `Pricing`, `FalPolling`: the Redis script, the floating-point price, and the
  polling loop whose duration has to fit the lease. `Binary64` is the rounding behind prices;
  `Binary64.RoundingExists` shows that what is assumed of it can be met.
- `Common`: sums over maps, lists without repetition, and `ORDER BY ... LIMIT`.

Time is one integer clock: the code mixes the database's `now()` with the workers' own clocks,
and the model takes them to agree. A value drawn by `uuid4` is one never drawn before. The
tables start empty. Two requests have the same `request_hash` exactly when they are equal.

Where the code and its documentation differ, the model follows the code:

- `docs/architecture.md:87` allows only `created -> queued -> processing`. The code also claims
  `created` rows directly and `processing` rows whose lease has expired
  (`src/app/infrastructure/generation_repository.py:142-150`).
- `max_retries` counts the redeliveries of one message. A republished message starts at zero
  again, so `attempt_count` has no fixed bound; `ChainEnds` bounds it for one message.
- Recovery of a stale `queued` row reopens its event without touching `updated_at`, so the row
  stays stale and the same oldest rows are chosen again until a worker claims them.
- A worker whose lease has expired may still submit to the provider; only the save is unique.

Four properties turned out to hold under a condition, each of which is stated as an
equivalence: a retry chain can leave a generation in the queue when the fallback provider
cannot be constructed (`ChainAlwaysEndsExactlyWhen`); the rate limiter keeps its sliding bound
exactly when no block is shorter than the window it cuts short (`SlidingBoundExactlyWhen`);
the products priced exactly reach up to 9007199254741000, which is eight above 2^53, and down
to -9007199254740998, and no farther on either side, although single larger products may still
come out right (`ExactExactlyWhen`); and a request id is polled at the provider that issued it
unless the failover's own claim finds an id that the primary provider has issued since the
failover gave the row back (`AsksElsewhereExactlyWhen`), which can happen wherever there is a
fallback (`FallbackMayPollPrimarysId`).

## Model

| member | source | states |
|---|---|---|
| Store.Database.constructor | src/app/infrastructure/models.py:21-146 | The empty tables satisfy every table constraint: the unique keys, non-negative balances, one outbox row per generation, callback rows for exactly the terminal generations that want one. All methods below keep them. |
| Store.Database.Register | src/app/infrastructure/user_repository.py:12-17 | A new user starts with balance zero; nothing else changes. |
| Store.Database.ApplyCredit | src/app/infrastructure/payment_repository.py:21-69 | The in-place credit is the credit transaction: one payment row and the amount on the balance, or a duplicate, a conflict, an unknown user or a rejected amount with all tables as before. |
| Store.Database.FindByKey | src/app/infrastructure/generation_repository.py:91-96 | The search finds a row with this user and key whenever there is one. |
| Store.Database.CreateAndCharge | src/app/infrastructure/generation_repository.py:55-122 | Insert, charge and outbox row happen together or not at all; a used key answers with the earlier generation or a conflict. |
| Store.Database.StartProcessing | src/app/infrastructure/generation_repository.py:133-169 | A claim takes created, queued and lapsed rows only, and sets token, lease and attempt count. |
| Store.Database.SaveProviderRequest | src/app/infrastructure/generation_repository.py:204-224 | The id is stored only under the current token and only when none is stored. |
| Store.Database.Requeue | src/app/infrastructure/generation_repository.py:226-252 | The claim is given back only under the current token. |
| Store.Database.Complete | src/app/infrastructure/generation_repository.py:171-202 | The result is recorded only under the current token, together with the callback row if one is wanted. |
| Store.Database.FailAndRefund | src/app/infrastructure/generation_repository.py:254-302 | Failure, refund and callback row happen together, only under the current token of an unrefunded row. |
| Store.Database.DispatchOutboxBatch | src/app/workers/tasks.py:494-543 | The batch takes the oldest pending events up to the limit; every published one is marked processed and its created generation queued; where publication or commit fails the event stays pending with the attempt counted; locked events are skipped; the result is the number of accepted publications, which are listed in order. |
| Store.Database.RecoverStale | src/app/workers/tasks.py:546-608 | The oldest stale rows not locked by others are taken up to the limit; every row taken ends up queued with its event pending, without a claim if it held an expired one; nothing else changes. |
| TableInvariant.RecoverReopens | src/app/workers/tasks.py:578-607 | The two UPDATEs of recovery, the first of which checks status and lease again, do exactly that to any selection of stale rows. |
| Store.Database.DispatchCallbackBatch | src/app/workers/tasks.py:611-673 | The oldest due events up to the limit: sent ones are reserved for thirty seconds, failed ones lose their reservation, locked and other rows are untouched; the accepted events are counted and listed in the order of the batch. |
| Store.Database.ClaimCallbackDelivery | src/app/workers/tasks.py:237-274 | A delivery claim takes only undelivered events that are due, not in flight and under five attempts, and counts the attempt. |
| Store.Database.FinishCallbackDelivery | src/app/workers/tasks.py:277-308 | A report counts only under the current claim token; success is final, failure delays the next attempt by fifteen seconds. |
| Store.Database.SubmitAndSave | src/app/workers/tasks.py:76-88 | An error of the provider is raised and stores nothing; an id is stored exactly if the claim is still held and none is stored, and otherwise the attempt ends quietly. |
| Store.Database.PollAndComplete | src/app/workers/tasks.py:90-98 | An error of the provider is raised and changes nothing; a result completes the generation exactly if the claim is still held. |
| Store.Database.ProcessGenerationOnce | src/app/workers/tasks.py:55-104 | Undisturbed: a refused claim changes nothing; a granted one changes this generation alone, as the provider's answers say. |
| Store.Database.FailClaim | src/app/workers/tasks.py:428-445 | The owner's failure is recorded and refunded and nothing else changes; without the claim nothing changes at all. |
| Store.Database.FailOver | src/app/workers/tasks.py:448-491 | Exactly if a fallback is configured, the claim is held and no id is stored, the claim is given back, a second one is made for the fallback and the job failed if that breaks; an unconstructible fallback raises and leaves the row queued. |
| Store.Database.ProcessGeneration | src/app/workers/tasks.py:107-176 | One message with its handlers: a no-op if the generation cannot be claimed; otherwise done, failed and refunded, requeued for a retry, or handed to the fallback. |
| Store.Database.RunRetryChain | src/app/workers/tasks.py:107-176 | The loop over the message and its retries ends with the row, verdict and submission count of `AfterChain`, or does nothing if the generation cannot be claimed. |
| JobInvariant.JobsStep | src/app/infrastructure/generation_repository.py:133-309 | Every step of clients, clock, broker, dispatchers, recovery and workers keeps the invariant tying each row to its claims, ids and settlement and to every worker that holds or held one of its tokens. |
| TableInvariant.ReachableInv | src/app/infrastructure/models.py:21-146 | The invariant, table constraints included, holds in every reachable state. |
| Fencing.CoupledRow | src/app/infrastructure/generation_repository.py:152-159 | In every reachable row token, lease and status move together, the refund marker means failed, and its single outbox row is pending while it is created. |
| Fencing.EveryRowMove | src/app/infrastructure/generation_repository.py:133-302 | The complete list of ways a step can change a generation row: claims of claimable rows, four writes by the current owner, queueing of created rows, recovery of lapsed ones. |
| Fencing.RecoverySparesLiveLeases | src/app/workers/tasks.py:553-599 | Recovery neither selects nor changes a row whose lease has not expired. |
| JobGuarantees.TerminalAbsorbs | src/app/infrastructure/generation_repository.py:171-302 | From no reachable state does any continuation change a completed or failed row. |
| JobGuarantees.ReplacedTokenIsFenced | src/app/infrastructure/generation_repository.py:133-302 | A token that was drawn and is not current never becomes current again, and saving, requeueing, completing and failing under it change no table, ever. |
| JobGuarantees.ClaimsExclude | src/app/infrastructure/generation_repository.py:134-161 | Of two successive claims, either the earlier owner gave its claim back or the later came strictly after the earlier lease. |
| JobGuarantees.HolderStaysCurrent | src/app/infrastructure/generation_repository.py:134-161 | Over any run within the lease in which the holder does not end its claim itself, its token stays current. |
| JobGuarantees.OneSettlement | src/app/infrastructure/generation_repository.py:171-302 | At most one terminal write per generation ever succeeds, by the last token issued for it; the refund marker is set exactly when that write was the failure. |
| JobGuarantees.RefundNeedsOwnership | src/app/infrastructure/generation_repository.py:262-272 | The refund guard fires exactly for the current owner of a processing row: its `queued` alternative never does. |
| JobGuarantees.OwnersWriteGoesThrough | src/app/infrastructure/generation_repository.py:199-201 | The unique constraint on the callback outbox never aborts a terminal write: the owner's completion and failure always succeed. |
| JobGuarantees.RequestIdIsFinal | src/app/infrastructure/generation_repository.py:204-224 | A stored provider request id never changes. |
| JobGuarantees.RequestIdOrigin | src/app/workers/tasks.py:71-98 | Every poll ever made used the stored id; the id was saved once, by a holder of a claim; claims that found an id never submit; submissions never outnumber claims; completed means an id is stored. |
| JobGuarantees.PollerHasStoredId | src/app/workers/tasks.py:76-90 | A polling worker, however late, polls the id in the row. |
| JobGuarantees.ResultIsProvidersAnswer | src/app/workers/tasks.py:90-98 | The result of a completed generation is what the provider answered, under the stored id, to the very claim that completed it; it is never replaced. |
| JobGuarantees.FailoverFindsNoId | src/app/workers/tasks.py:459-473 | Although the id is read without a fence, whenever the failover requeue succeeds no id is stored at that commit and none was ever saved or polled. |
| Providers.ClaimedExactlyWhen | src/app/infrastructure/generation_repository.py:134-169 | In every reachable state a claim is granted exactly if the generation is open and no unexpired lease is on it; it sets owner, lease and start, counts the attempt and keeps id and provider. |
| Providers.PolledWhereIssued | src/app/workers/tasks.py:71-98 | Every id was issued by the primary provider or the fallback, an open row names the issuer, and every poll asked the issuer, unless it asked the fallback under a claim that found the id. |
| Providers.AsksElsewhereExactlyWhen | src/app/workers/tasks.py:476-478 | A claim that finds an id polls the issuer, or the fallback if it is the failover's; so it asks elsewhere exactly if it is the failover's and the primary provider issued the id. |
| Providers.FallbackMayPollPrimarysId | src/app/workers/tasks.py:459-478 | From every reachable state in which a generation waits for its first id, message in the broker, a run makes the fallback poll an id of the primary provider, under every setting with a working fallback. |
| Providers.FallbackComesLast | src/app/workers/tasks.py:129-138 | In every reachable state a worker that will ask the fallback is on its fourth delivery or later, and the settings name a second provider that can be constructed. |
| Providers.EndsAreRecorded | src/app/infrastructure/generation_repository.py:171-302 | A reachable row has a result exactly if it is completed, and then an id and a provider and no refund; a failed one has the refund and one of four error codes. |
| Queueing.ChangesAreStamped | src/app/infrastructure/generation_repository.py:152-159 | Every change of a row is stamped with its time, and its time of creation never changes. |
| Queueing.RecoveryWaits | src/app/workers/tasks.py:549-577 | Counted from the last step that changed a row, recovery may take it exactly if it is queued and that was longer ago than the setting, or its lease has run out, and it is not locked. |
| Queueing.OldestGenerationsFirst | src/app/workers/tasks.py:497-505 | A dispatcher takes waiting generations in the order they were created, and passes over none while there is room in the batch. |
| Queueing.LongestLeftFirst | src/app/workers/tasks.py:553-576 | Recovery takes the rows left alone the longest, and all of them while there is room in the batch. |
| OneOwner.StepRefines | src/app/infrastructure/generation_repository.py:133-302 | Every step of the concurrent system is one move of a system in which each job has at most one owner, or invisible there. |
| OneOwner.RunRefines | src/app/workers/tasks.py:55-176 | Every concurrent run, zombies, crashes and duplicates included, is a run of the one-owner system. |
| Ledger.MoneyIsConserved | src/app/infrastructure/payment_repository.py:39-69 | In every reachable state, for every set of users, balances plus unrefunded charges equal applied payments, and no balance is negative. |
| Ledger.AccountBalances | src/app/infrastructure/generation_repository.py:85-122 | One account's balance is its payments minus the cost of its unrefunded generations. |
| Ledger.MetricsBalance | src/app/main.py:94-110 | The published totals satisfy charged minus refunded equals payments minus balances. |
| Replays.CreateSucceedsExactlyWhen | src/app/infrastructure/generation_repository.py:85-122 | A create succeeds exactly when the price is positive, the key free and the balance sufficient. Then there is one new row for the command, one pending event, both stamped now, the price is off this balance and nothing else has changed; otherwise nothing has, and the reply says why. |
| Replays.PaymentAppliesExactlyWhen | src/app/infrastructure/payment_repository.py:21-69 | A payment is applied exactly when the user exists, the amount is positive and the external id free; the reply carries the balance after it, only this account changes, and every other reply, each with its own condition, leaves all tables alone. |
| Replays.PayersAreToldTheBooks | src/app/infrastructure/payment_repository.py:53-69 | In every reachable state the balance told to a payer, now or on a replay, is the sum of the account's payments, this one included, less its charges that were not refunded. |
| Replays.Conflicts | src/app/infrastructure/generation_repository.py:97-99 | A key in use for another request and an external id in use for another payment are refused, each with its own reply, and change nothing. |
| Replays.CreateOnce | src/app/infrastructure/generation_repository.py:85-101 | After a success and any run, the same create returns the same generation and changes nothing, even at another price. |
| Replays.PayOnce | src/app/infrastructure/payment_repository.py:45-56 | After a success and any run, the same payment is a duplicate and changes nothing. |
| Replays.ReplaysAreAbsorbed | src/app/infrastructure/payment_repository.py:39-69 | Erasing every replay from a run leaves a run that ends in the very same state. |
| Recovery.MessageToEnd | src/app/workers/tasks.py:107-176 | From a message and a claimable row a constructed run ends the generation, without failing it if the primary provider can be constructed. |
| Recovery.Drain | src/app/workers/tasks.py:494-543 | Batch after batch within the limit, oldest first, a waiting generation's message gets into the broker. |
| Recovery.KindRescue | src/app/workers/tasks.py:494-608 | A run without a failing step never fails a generation. |
| Recovery.NoStuckWork | src/app/workers/tasks.py:494-608 | From every reachable state, and also after losing the broker and all workers, some run of the periodic tasks and fresh workers ends every generation; if the primary provider can be constructed every open one completes. |
| CallbackInvariant.WorldStep | src/app/workers/tasks.py:237-342 | Every step of the job protocol and of callback delivery together keeps the joint invariant. |
| CallbackInvariant.JobsAreReachable | src/app/workers/tasks.py:237-342 | Callback delivery is invisible to the jobs: the jobs of a reachable joint state are a reachable state of the job protocol, so every guarantee about jobs holds beside it. |
| WebhookGuarantees.RowsAreExact | src/app/infrastructure/generation_repository.py:299-301 | A callback row exists exactly for terminal generations with a callback URL, and only one. |
| WebhookGuarantees.AlwaysSomethingToSend | src/app/workers/tasks.py:186-196 | A claimed delivery always finds a terminal generation with a URL: the early return is unreachable from the task. |
| WebhookGuarantees.FivePosts | src/app/workers/tasks.py:237-308 | An event is claimed at most five times and POSTed at most once per claim, over all crashes and duplicates. |
| WebhookGuarantees.AttemptSpacing | src/app/workers/tasks.py:240-296 | The claim number k after the first comes at least k times min(15, lease) later; between two claims lies the lease, or a recorded failure and then the retry delay. |
| WebhookGuarantees.PostSpacing | src/app/workers/tasks.py:311-342 | If a POST goes out within d of its claim, POSTs of later claims follow at least min(15, lease - d) after it. |
| WebhookGuarantees.SamePayload | src/app/workers/tasks.py:198-224 | All POSTs of an event carry one payload, that of the generation as it ended. |
| WebhookGuarantees.DeliveryIsFinal | src/app/workers/tasks.py:248-258 | No claim ever follows a recorded delivery. |
| WebhookGuarantees.StaleReportIsStutter | src/app/workers/tasks.py:298-308 | A delivery token that is no longer current never becomes current again, and reporting under it changes nothing. |
| WebhookRecovery.DeliveredWasPosted | src/app/workers/tasks.py:217-224 | An event on record as delivered had a successful POST before that time, and a claim on record as failed had none. |
| WebhookRecovery.ReportTellsTheTruth | src/app/workers/tasks.py:277-342 | A report under the current claim records a delivery exactly if the POST of that claim succeeded, and else makes the event due again in fifteen seconds; it frees the event either way. Any other report changes nothing. |
| WebhookRecovery.DeliveryClaimedExactlyWhen | src/app/workers/tasks.py:237-274 | In every reachable state a delivery claim is granted exactly if the event is undelivered, due, attempted fewer than five times and not within the lease of another claim; it counts, holds the event for the lease and ends the reservation. |
| WebhookRecovery.LongestDueFirst | src/app/workers/tasks.py:616-636 | A callback batch takes the events due the longest, and all of them while there is room. |
| WebhookRecovery.NoStuckWebhook | src/app/workers/tasks.py:237-342 | From every reachable state, and also after losing all messages, dispatchers and tasks, an undelivered event can use all the attempts left of five, fail and then succeed, and is then recorded as delivered; the first attempt comes at once, one after a known failure in fifteen seconds, one after a silent claim when the lease is over. |
| WebhookRecovery.PayloadTellsTheOutcome | src/app/workers/tasks.py:198-210 | Every POST tells how the generation ended: completed with the result the provider gave the claim that completed it, or failed with its error code, no result, and the charge refunded. |
| WebhookRecovery.OneMessagePerReservation | src/app/workers/tasks.py:638-661 | After an event was sent no dispatcher sends it again for the thirty seconds from the start of that batch, unless it is claimed meanwhile. |
| Dispatch.DispatchEffect | src/app/workers/tasks.py:507-543 | A batch read off row by row: which events and which generations change, how, and what is announced in which order. |
| Dispatch.BatchesDrain | src/app/workers/tasks.py:494-543 | Without refusals and arrivals n pending events are gone exactly from the ceil(n/limit)-th batch on. |
| BatchRuns.BatchIsRun | src/app/workers/tasks.py:494-543 | From any state an undisturbed batch is a run of the protocol, with one message in the broker per accepted event. |
| BatchRuns.CallbackIterationIsStep | src/app/workers/tasks.py:638-672 | What the callback batch does with one event is what the protocol lets a callback dispatcher do with it, message included. |
| RetryChain.MessageFacts | src/app/workers/tasks.py:107-176 | One message ends the generation or requeues it for a retry, adds one or two claims, never submits when an id is stored, and returns an id at most once. |
| RetryChain.ChainEnds | src/app/workers/tasks.py:113-176 | For every sequence of answers the chain completes the generation, or fails and refunds it, within four ordinary claims and one for the fallback, with at most one submission that returned an id. |
| RetryChain.ChainAlwaysEndsExactlyWhen | src/app/workers/tasks.py:474-476 | The chain ends for every sequence of answers if and only if no failover to an unconstructible provider is possible from this row. |
| Outcomes.FallbackIsAskedExactlyWhen | src/app/workers/tasks.py:128-153 | A second claim, the fallback's, is made exactly on the last delivery of a row without an id whose submission to a working provider failed temporarily, if the fallback is not blank, not the primary and can be constructed. |
| Outcomes.FirstClearAnswerDecides | src/app/workers/tasks.py:107-176 | Over all answers: after up to three messages of passing trouble the first one answered in full completes the generation with that result, provider and id, and the first refusal fails it; one claim for each message. |
| Outcomes.LastTroubleDecides | src/app/workers/tasks.py:113-176 | Four messages of passing trouble fail the generation under the code of the last, in four claims; if that was temporary and no id was ever given, a working fallback's answers decide in a fifth, with the code for its errors; one that cannot be constructed leaves the row queued. |
| ChainRuns.MessageIsRun | src/app/workers/tasks.py:107-176 | From any state the undisturbed delivery of one message is a run of the protocol with the same tokens and answers, and ends in the row of `AfterMessage`, with a retry in the broker if one is due. |
| ChainRuns.ChainIsRun | src/app/workers/tasks.py:107-176 | So is the whole chain, each delivery at its own time: the run ends in the row of `AfterChain`. |
| RateLimiter.RedisRateLimiter.Check | src/app/infrastructure/rate_limiter.py:47-59 | For settings of any sign, one request changes the keys of its user only, as the script says; the wait reported is at least one second, and an expiry that `SET` refuses is raised. |
| RateLimiter.WindowAnswers | src/app/infrastructure/rate_limiter.py:12-23 | From a request that opens a window, as many as the limit are let through and told when it ends; the next is refused with the whole block, or raises if `SET` refuses it. |
| RateLimiter.BlockIsExact | src/app/infrastructure/rate_limiter.py:7-21 | Whoever trips the limit at t is refused until t + block, each time with exactly the time that is left, whatever is asked meanwhile; the first request from then on opens a new window and is let through. |
| RateLimiter.WindowEnds | src/app/infrastructure/rate_limiter.py:12-15 | The first request after the time of a window that no block cut short opens a new one. |
| RateLimiter.NoWindowNoLimit | src/app/infrastructure/rate_limiter.py:12-15 | A window of no length refuses nobody. |
| RateLimiter.ServeInGroups | src/app/infrastructure/rate_limiter.py:12-21 | Unless a block is shorter than the window, accepted requests fall into groups of at most the limit whose first requests are a window apart. |
| RateLimiter.BoundHolds | src/app/infrastructure/rate_limiter.py:7-23 | Then every interval of k windows, in every run, sees at most (k + 1) times the limit less one; less than twice the limit for one window. |
| RateLimiter.BudgetIsReached | src/app/infrastructure/rate_limiter.py:7-23 | That bound is the best one: for windows of two seconds or more some run uses it up. |
| RateLimiter.ShortBlockBreaksBound | src/app/infrastructure/rate_limiter.py:17-21 | With a shorter block, bursts of one request too many exceed even (k + 1) times the limit. |
| RateLimiter.SingleWindowBreaks | src/app/infrastructure/rate_limiter.py:17-21 | A block two seconds shorter than the window lets three times the limit, less one, into a single window. |
| RateLimiter.SlidingBoundExactlyWhen | src/app/infrastructure/rate_limiter.py:7-23 | For settings of any sign, the bound holds for all runs if and only if no block is shorter than the window it cuts short. |
| Pricing.VideoPriceIsExact | src/app/application/generations.py:88-95 | Under any rounding to nearest, the price is the least whole number covering base * (duration / 5) * percent / 100, for all products from -9007199254740998 to 9007199254741000. |
| Pricing.ExactExactlyWhen | src/app/application/generations.py:88-95 | With ties to even, as Python rounds, all products between two bounds on either side of zero are priced exactly if and only if the bounds lie in that range. |
| Pricing.PriceOfEachKind | src/app/application/generations.py:79-95 | Image orders cost their tariff per image; video orders the least whole number of credits covering the tariff per five seconds at the percentage of the resolution; neither depends on the other's parameters. |
| Pricing.PriceIsPositive | src/app/application/generations.py:76-95 | Positive tariffs give positive prices for all four kinds, exact or not, so the cost constraint accepts them; tariffs and percentages up to 1e29, where nothing overflows. |
| Pricing.LargePricesAreEven | src/app/application/generations.py:95 | Whatever the tariff, the percentage (both up to 1e29) and the ties, a price above 2^53 is even. |
| FalPolling.GetResult | src/app/infrastructure/fal_provider.py:72-106 | Whenever some status answer ends the loop, it ends with the verdict, and at the time, of the first status answer that is not a timely "still pending". |
| FalPolling.OutcomeExactlyWhen | src/app/infrastructure/fal_provider.py:72-115 | By status codes and bodies alone, each class of outcome exactly when: temporary for transport failures, 408, 409, 425, 429, 5xx and a timeout; permanent for other codes, malformed bodies and other statuses; the result exactly for COMPLETED followed by a 2xx JSON body; and the exact duration. |
| FalPolling.SubmitExactlyWhen | src/app/infrastructure/fal_provider.py:51-70 | The same for the submission: the id exactly for a 2xx JSON object with the field, and each error class exactly when. |
| FalPolling.StatusCodeDecides | src/app/workers/tasks.py:120-176 | From the status code to the row: an unavailable or slow provider requeues the generation, a denial fails and refunds it at once, a result completes it. |
| FalPolling.DeadlineEnds | src/app/infrastructure/fal_provider.py:80-95 | Some answer does end it as soon as every round takes time, because of the deadline. |
| FalPolling.FewPolls | src/app/infrastructure/fal_provider.py:80-95 | The pauses before the last poll but one fit the timeout, which bounds the number of polls. |
| FalPolling.GetResultBound | src/app/infrastructure/fal_provider.py:80-99 | With calls of at most d, whatever the answers, `get_result` takes at most timeout + poll interval + 2d. |
| FalPolling.LiveWorkerIsHeard | src/app/workers/tasks.py:71-98 | If timeout + poll interval + 3d fits the lease, then whatever happens meanwhile a worker that returns from the provider in that time finds its token current, and completing, failing or requeueing is accepted. |

## Left out

- One clock for all hosts and the database; sub-second parts of leases and of Redis TTLs. Clock skew would weaken every statement about leases in time.
- HMAC and SHA-256, API-key issuing and JSON canonicalisation: `request_hash` is an injective value of the request.
- FastAPI routes, validation, dependency injection, logging and the text format of the metrics. The validated ranges appear as conditions in `Pricing`.
- SQLAlchemy, Celery, HTTPX and Redis themselves. A transaction is one atomic step; publishing adds to a multiset that may lose and duplicate; a delivery leaves the message where it is, so that it may be delivered again, and only losing it takes it away; HTTP calls answer anything.
- Error messages, `last_error`, prompts and result documents are opaque or absent; completed rows keep the `error_code` of an earlier retry, as in the code.
- Migrations and rows older than the final schema.
- The retry countdown: a retry may be delivered at any time. Celery's own retry limit enters as the `retries` field of a message.
- The names providers report for themselves: a provider is its configured name, and the fallback setting is taken without the whitespace around it, as the code strips it.
- Fairness: `NoStuckWork` constructs a run, it does not say that the scheduler will take it. The condition on the batch limit is that it is positive.
- Rows locked by other transactions enter as a set that selections skip; lock waits are not modelled.
- Store.Database.DispatchOutboxBatch: nobody else touches the tables while the batch runs, and the dispatcher does not die in the middle; both are steps of `JobSystem`.
- Store.Database.DispatchCallbackBatch: the same restriction; the other outcomes are steps of `CallbackDelivery`.
- Store.Database.ProcessGenerationOnce: no other transaction falls between claim, save and completion, and no acknowledgement is lost; the interleaved claim is part of `JobSystem`, of which `ChainRuns` shows the undisturbed one to be a case.
- Store.Database.FailOver: likewise undisturbed between its read, its requeue and the fallback's claim.
- Store.Database.ProcessGeneration: likewise undisturbed.
- Store.Database.RunRetryChain: likewise undisturbed, and no database call fails; failing calls are crashes and lost acknowledgements in `JobSystem`.
- Pricing.PriceIsPositive: tariffs or percentages beyond 1e29 are excluded, so that no operation overflows; a BIGINT column holds no such price.
- FalPolling.GetResult: says nothing about a loop that never ends, which takes a status that stays pending and rounds that take no time; `finally` blocks and the client's life cycle are absent.
- FalPolling.LiveWorkerIsHeard: `d` bounds a whole call, whereas the 30 seconds given to HTTPX bound each phase and each read of one; database calls count as instantaneous.
- The fake provider, and the input documents built for Fal.
