# Cloud gateway: models and proofs

This project models the stateful core of the gateway and proves what it
guarantees, and, where a guarantee fails, exactly when it holds.

* **Model router.** Smooth weighted round robin (`Wrr.dfy`, `Turns.dfy`), the
  circuit breaker (`Breaker.dfy`, `BreakerRuns.dfy`, `ProbeExclusivity.dfy`),
  the endpoint pool with its two indexes (`Pool.dfy`, `PoolReplace.dfy`,
  `RouterShares.dfy`), retries (`Retry.dfy`), the failover loop
  (`Forward.dfy`) and the health checker (`HealthChecks.dfy`).
  What a request does is recorded as it does it (`History.dfy`), and
  `Provider.dfy` holds what the gateway learns from a call.
* **Quota.** The rate-limit script and the limiter (`Quota.dfy`), the balance
  over every interleaving of requests (`Ledger.dfy`), the sliding window over
  every run (`Window.dfy`, `WindowLimits.dfy`, `WindowBounds.dfy`,
  `WindowExpiry.dfy`, and `WindowLedger.dfy`, which shows that these runs are
  exactly the ledger's) and the reserve, forward, settle bracket (`Serve.dfy`).
* **Priority scheduler.** Its steps as a transition system (`Scheduler.dfy`),
  the object with its fields updated step by step (`SchedulerProcess.dfy`),
  what every step keeps (`SchedulerSafety.dfy`), what holds over every
  interleaving (`SchedulerRuns.dfy`) and what gets done
  (`SchedulerProgress.dfy`).
* **Stream translation.** JSON literals and values, printed and read
  (`Json.dfy`, `JsonValue.dfy`), strings as bytes (`Utf8.dfy`), the OpenAI
  stream reader and writers (`OpenAIStream.dfy`, `StreamRoundTrip.dfy`), the
  Anthropic adapter's loop (`ClaudeStream.dfy`) and what its output means
  (`StreamMeaning.dfy`).

Objects that the program updates in place are classes (`Breaker`, `Member`,
`Pool`, `Redis`, `Limiter`, `Scheduler`, `Checker`, `Reader`, `Client`); their
methods are proved against functions on values, and the theorems are about
those functions. `Options.dfy`, `Collections.dfy`, `Sums.dfy`, `Int64.dfy` and
`Usage.dfy` hold small shared definitions.

Inputs from outside are parameters: the clock, what a provider call answers,
which writes to a client fail, which case a `select` takes, the number
formatting of the Redis script runtime, and the JSON decoders. Reports by other
requests that land in the middle of a `Pick` are a havoc step; a ghost flag
`quiet` marks the runs without them.

## What the proofs turned up

Where the code does not do what its comments or documentation say, the model
follows the code.

* The script's comment says that count + 1 makes a member unique
  (`lua/rate_limit_prededuct.lua:42`). It does not: on clocks that never step
  back the limit holds exactly when stamps closer than the window print
  differently, and otherwise any number of requests can pass
  (`LimitHoldsIffStampsPrintApart`). Once stamps may step back at all, as the
  counter in `pkg/limiter/limiter.go:86` lets them (`SkewReached`), and the
  limit is above one, there are runs of the script that let any number pass,
  however numbers print (`SkewLiftsTheLimit`).
* Even without clashing members a skew of d protects intervals of length
  window - d and no longer ones (`WindowIsExact`).
* The scheduler's comment says the high queue is always drained first
  (`pkg/scheduler/scheduler.go:55`). At most one low job gets ahead of a waiting
  high one (`AtMostOneOvertakes`), and one can exactly when the dispatcher has
  already looked past the high queue and is free to take, or holds, a low job
  that is not canceled (`OvertakenIffExposed`); such states are reached
  (`OneCanOvertake`).
* An unnamed event after a named one is read under the stale name; the adapter
  takes every event for what it is exactly when that never happens
  (`MeansWhatItSaysIffNoStaleName`).
* Duplicate endpoint IDs make the two indexes disagree, and only they do
  (`AgreementIffUnique`). The latency of a report that straddles a `Replace` is
  lost (`ReportAcrossReplace`).
* A request admitted before a trip breaks the one-probe rule
  (`LateRequestBreaksExclusivity`); the rule holds exactly when none is left
  over (`ExclusiveIffNoLeftovers`). A probe whose outcome is never reported, as
  when its provider is not registered (`internal/aigateway/gateway.go:218-223`),
  keeps the slot until some other request still outstanding reports
  (`ProbeSlotHeld`).
* A request whose client is gone is not retried and is charged at most once
  (`GoneRequestEnds`), but it is charged to the endpoint exactly when the
  cancellation comes back through an adapter, which hides it
  (`CancellationCountsIffWrapped`); enough of them open the breaker of an
  endpoint that never failed (`CancellationsTrip`).
* A provider's Retry-After is waited for only after the last attempt and
  ignored before it (`WaitAfterRateLimit`), as long as every attempt excludes
  one endpoint; a Pick that a report interrupts can exclude two. With the
  default base the backoff shift shows its overflow on attempt 37, counted from
  0, and on most later ones (`DefaultBackoff`).

## Model

| member | source | states |
|---|---|---|
| WeightedRoundRobin.StepKeepsSum | internal/endpoint/wrr.go:6-15 | a step keeps the sum of the credits |
| WeightedRoundRobin.FirstMaxTo | internal/endpoint/wrr.go:8-14 | the candidate kept so far is the first one in list order with the largest credit |
| WeightedRoundRobin.CreditLaw | internal/endpoint/wrr.go:6-15 | after k steps a credit is its start plus k weights minus one total for each pick |
| WeightedRoundRobin.RunIsBalanced | internal/endpoint/wrr.go:3-17 | from zero, credits cancel out and each stays above minus the total |
| WeightedRoundRobin.CreditBounds | internal/endpoint/wrr.go:6-15 | every credit stays within -total and (n-1)(total-1), however many steps |
| WeightedRoundRobin.NoOverflow | internal/endpoint/wrr.go:6-15 | every number a step touches, bumped credits included, stays within n times the total |
| WeightedRoundRobin.CycleReturnsToZero | internal/endpoint/wrr.go:3-17 | after total-many steps all credits are zero again |
| WeightedRoundRobin.PeriodIsTotal | internal/endpoint/wrr.go:3-17 | the state is periodic in the total weight |
| WeightedRoundRobin.ExactShares | internal/endpoint/wrr.go:3-17 | every window of total-weight consecutive steps, aligned or not, takes each candidate exactly weight times |
| WeightedRoundRobin.PrefixFairness | internal/endpoint/wrr.go:3-17 | after k steps a candidate is less than one pick ahead of its share and behind it by a fixed bound at most |
| Turns.TurnKeepsSum | internal/endpoint/wrr.go:6-15 | a step among any subset of a model's members keeps the sum over all of them |
| Turns.StepAmongIsTurn | internal/endpoint/pool.go:84-106 | a step on the candidate list alone is a turn of the full list that leaves the others as they are |
| Turns.CreditConserved | internal/endpoint/pool.go:84-130 | over any run of turns with changing candidate sets the total credit stays |
| CircuitBreaker.Breaker.Eligible | internal/breaker/breaker.go:63-76 | true exactly when Allow would grant now; only the passing of the cooldown changes the state |
| CircuitBreaker.Breaker.Allow | internal/breaker/breaker.go:78-95 | grants as the phase says and takes the probe slot when half-open |
| CircuitBreaker.Breaker.Success | internal/breaker/breaker.go:97-103 | closes the breaker, forgets failures and frees the slot, in any phase |
| CircuitBreaker.Breaker.Failure | internal/breaker/breaker.go:105-120 | counts the failure, frees the slot and opens at the threshold or from half-open |
| CircuitBreaker.Breaker.Release | internal/breaker/breaker.go:122-126 | frees the probe slot and nothing else |
| CircuitBreaker.Breaker.MaybeHalfOpen | internal/breaker/breaker.go:128-133 | an open breaker past its cooldown becomes half-open with a free slot |
| CircuitBreaker.Config.WithDefaults | internal/breaker/breaker.go:32-40 | settings below one failure or not above zero time become five failures and ten seconds; others stand |
| BreakerRuns.TripsExactlyAtThreshold | internal/breaker/breaker.go:97-133 | over every history the breaker is closed exactly while fewer than threshold failures came since the last success; a probe in flight means half-open |
| BreakerRuns.CooldownHolds | internal/breaker/breaker.go:78-133 | from the failure at t that brings the count since the last success to the threshold, or comes after it, while no success intervenes and the clock stays within [t, t + cooldown), nothing is admitted before t + cooldown and a call is admitted exactly from the cooldown after the latest failure on, which is t itself if no other failure came |
| BreakerRuns.OpenSinceLastFailure | internal/breaker/breaker.go:105-120 | over every history, an open breaker has been open since its last reported failure |
| BreakerRuns.ReleaseReadmits | internal/breaker/breaker.go:122-126 | after every history that leaves the breaker half-open, a release lets the next call through, whenever it comes |
| BreakerRuns.EpisodeEnds | internal/breaker/breaker.go:78-133 | a call at or after the end of the cooldown is granted and nobody else is until its outcome; then a success admits everyone, a release the next caller, and a failure at v exactly the calls from v + cooldown on |
| BreakerRuns.ProbeSlotHeld | internal/breaker/breaker.go:84-94 | a taken probe slot admits nobody at any later time until some outcome is reported |
| BreakerRuns.OutcomeBetweenProbes | internal/breaker/breaker.go:78-126 | between any two granted half-open calls a Success, Failure or Release lies |
| ProbeExclusivity.EpisodeBound | internal/breaker/breaker.go:78-126 | during a half-open episode outstanding requests never exceed those left over plus the probe |
| ProbeExclusivity.ExclusiveIffNoLeftovers | internal/breaker/breaker.go:78-133 | at most one request is outstanding through every continuation of an episode if and only if none was as it began |
| ProbeExclusivity.OneProbeAtATime | internal/breaker/breaker.go:78-133 | over whole runs whose half-open entries are clean, a half-open breaker has at most its one probe outstanding |
| ProbeExclusivity.LateRequestBreaksExclusivity | internal/breaker/breaker.go:97-126 | a concrete run in which a request admitted before the trip makes two outstanding |
| EndpointPool.AllowAmong | internal/breaker/breaker.go:78-95 | a granted Allow counts once for its breaker and a refused one for none |
| EndpointPool.Pool.Pick | internal/endpoint/pool.go:80-131 | quiet: the first qualified member with the largest bumped credit, or none if and only if none qualifies, and then no breaker has moved; always: an endpoint returned is not excluded and its own breaker granted exactly once in this Pick, no other breaker granted, none did when Pick fails, and every model's total credit is kept; it fails only when two elected members were denied in turn or, the second look included, every fit member was declined or shares its ID with one denied; the exclude map gains the ID of a denied first choice and nothing else |
| EndpointPool.JudgedMeans | internal/endpoint/pool.go:84-101 | a member qualifies if and only if it is not excluded, is healthy, has a weight of at least one, and its breaker admits when it is consulted |
| EndpointPool.Pool.Build | internal/endpoint/pool.go:50-77 | the first invalid endpoint fails the whole list; otherwise both indexes mirror the input in order and known IDs carry on |
| EndpointPool.Pool.Replace | internal/endpoint/pool.go:49-78 | a list is accepted if and only if every endpoint has an ID, a base URL, a model and a weight of zero or more; a rejected one changes nothing; an accepted one becomes both indexes at once, each member with its endpoint's ID, model, base URL and weight, an unset weight counting as one |
| EndpointPool.AcceptedIffComplete | internal/endpoint/endpoint.go:102-116 | the error is that of the first incomplete endpoint, for the first thing that it lacks |
| EndpointPool.Pool.Successor | internal/endpoint/pool.go:62-71 | a retained ID keeps its breaker object, health, credit and latency; a new one starts fresh and healthy |
| EndpointPool.Pool.Record | internal/endpoint/pool.go:141-158 | success closes and smooths the latency, 429 and non-retryable errors only free a probe, the rest is a failure |
| EndpointPool.Pool.Report | internal/endpoint/pool.go:133-158 | reaches exactly the member under the ID; health and credit stay |
| EndpointPool.LatencyFollowsSamples | internal/endpoint/pool.go:141-152 | a measured success moves the latency three tenths of the way to the sample in milliseconds, rounded down and never past it; the first one sets it and nothing else moves it |
| EndpointPool.Pool.SetHealth | internal/endpoint/pool.go:160-166 | sets the health of a known ID and touches nothing else of it |
| PoolReplace.AgreementIffUnique | internal/endpoint/pool.go:72-73 | both indexes hold the same members if and only if the input IDs are distinct |
| PoolReplace.Refresh | cmd/main.go:245-255 | an empty listing changes nothing; any other is installed if and only if all its endpoints are complete; retained IDs keep breaker, health, credit and latency, new ones start healthy, closed and at zero, and a model with the same IDs keeps its total credit |
| PoolReplace.ReportAcrossReplace | internal/endpoint/pool.go:133-158 | a report split around a Replace still moves the live breaker; its latency sample is lost |
| RouterShares.FullTurnIsStep | internal/endpoint/pool.go:84-106 | when every member qualifies, a Pick is one round robin step |
| RouterShares.PicksHonourWeights | internal/endpoint/pool.go:80-131 | any total-weight consecutive such Picks return each member exactly weight times |
| RouterShares.ConfiguredShares | internal/endpoint/pool.go:49-131 | the same in terms of the list given to Replace: each endpoint gets its configured weight in picks, or one if it has none |
| Retry.TripsOnChargedErrorsOnly | internal/aigateway/gateway.go:259-270 | over every history of provider calls the breaker is closed exactly while fewer than threshold charged errors came since the last success; 429 and other 4xx never count |
| Retry.HistoryIsExec | internal/endpoint/pool.go:141-158 | reporting call outcomes drives the breaker exactly as the corresponding Success, Failure and Release calls do |
| Retry.ReportMovesIffCharged | internal/endpoint/pool.go:153-157 | a failed call moves the breaker beyond freeing its probe slot if and only if its error is charged |
| Retry.RetriedErrors | internal/retry/retry.go:35-61 | a 429 is retried elsewhere, no status, 408, server errors, timeouts and network failures anywhere, and nothing else or canceled at all; an error that is not canceled is retried anywhere if and only if it counts against the breaker |
| Retry.CancellationCountsIffWrapped | internal/provider/claude/adapter.go:153-156 | a client's cancellation counts as a failure of the endpoint if and only if it comes through an adapter; a bare one only frees the probe slot, and a stream that stops between lines counts as a success |
| Retry.CancellationsTrip | internal/breaker/breaker.go:105-120 | threshold wrapped cancellations with no success between them open the breaker |
| Retry.Backoff | internal/retry/retry.go:63-73 | no delay exceeds the cap |
| Retry.BackoffIsCappedExponential | internal/retry/retry.go:63-73 | the delay is base times a power of two, capped, if and only if the product fits 64 bits or its low 64 bits lie between the cap and the largest integer |
| Retry.BackoffMonotone | internal/retry/retry.go:63-73 | while the shift fits, delays are positive and never shrink |
| Retry.DefaultBackoff | internal/retry/retry.go:63-73 | with the default base that is so if and only if the attempt, counted from 0, is below 37 or one of 38, 44, 46, 51 to 54 |
| Forwarding.TryProvider | internal/aigateway/gateway.go:225-299 | one call is recorded, reported on once with its own outcome, and waited after exactly when it is to be retried |
| Forwarding.TryOnce | internal/aigateway/gateway.go:207-299 | one attempt: what it adds to the history, excludes and returns in each of its outcomes |
| Forwarding.PickNext | internal/aigateway/gateway.go:207-215 | a quiet pick of a request finds nothing if and only if no member that is not excluded qualified when it was consulted, and then every member of the model is still excluded, unhealthy or was held back by its breaker |
| Forwarding.WaitAfterRateLimit | internal/aigateway/gateway.go:286-294 | after a 429 the wait is the Retry-After if and only if that is positive and the attempt is the last, and zero otherwise, when each attempt excluded one endpoint |
| Forwarding.WaitAfterFailure | internal/aigateway/gateway.go:286-294 | after any other retried failure of attempt n, from 0, the wait is base times 2^n, at most 800ms, as long as that fits 64 bits; a base that is not positive counts as 100ms |
| Forwarding.ContinuesIffTransient | internal/aigateway/gateway.go:217-299 | another attempt follows if and only if the provider is not registered, or the error is transient, not canceled, the context is not done and the sleep not cut short |
| Forwarding.TotalSleep | internal/aigateway/gateway.go:286-298 | a log timed that way sleeps at most the cap for each attempt plus one Retry-After |
| Forwarding.GoneRequestEnds | internal/aigateway/gateway.go:280-283 | a call after which the context is done is reported on once and nothing follows |
| Forwarding.Forward | internal/aigateway/gateway.go:202-307 | fails over: attempt k is followed by another if and only if its answer says so, until the attempts run out or a Pick finds nothing, which on a quiet run it does only with each member already tried, unhealthy or held back by its breaker, and the last answer decides the result; picks are distinct endpoints of the model, each call is to the one just picked and is followed by exactly one report of its outcome before the next pick, none after an answer that ends the request; every wait is the one of its attempt; while no report lands inside a Pick, total sleep is at most the cap per attempt plus one Retry-After |
| HealthChecks.Checker.Mark | internal/health/checker.go:107-120 | moves one streak and the endpoint's health; credit and latency stay |
| HealthChecks.Checker.CheckAll | internal/health/checker.go:75-79 | one round moves every endpoint by its own probe alone |
| HealthChecks.StreakCountsTrailingFailures | internal/health/checker.go:107-114 | the streak is the number of failures since the last good check |
| HealthChecks.UnhealthyIffLastTwoFailed | internal/health/checker.go:107-116 | an endpoint that starts healthy is unhealthy if and only if its last two checks failed |
| Quota.Redis.RunScript | lua/rate_limit_prededuct.lua:15-51 | the script is the atomic step on the two keys and touches no other key |
| Quota.Redis.IncrBy | pkg/limiter/limiter.go:133-138 | adds to the balance, a missing key counting as zero |
| Quota.Redis.SetNX | pkg/limiter/limiter.go:79-83 | seeds a missing key only |
| Quota.KeysDiffer | pkg/limiter/limiter.go:154-160 | different users never share a key, and no window key is a balance key |
| Quota.WindowMicros | pkg/limiter/limiter.go:162-168 | the window in microseconds is its nanoseconds divided by a thousand, rounded down, or one below that |
| Quota.ScriptMeans | lua/rate_limit_prededuct.lua:15-51 | after seeding: limited if and only if the stored stamps after the cutoff have reached the limit; else insufficient if and only if the funds are missing or short; only an admission takes tokens and adds one stamp; exactly the stamps up to the cutoff go |
| Quota.Limiter.PreDeduct | pkg/limiter/limiter.go:71-117 | rejects a missing user or amount untouched; otherwise seeds, advances the counter and is one script step at the stamp the counter gives; each verdict if and only if, over the seeded balance and the number of stored stamps after the cutoff; the balance after each verdict; other users' accounts stay |
| Quota.Limiter.SettleQuota | pkg/limiter/limiter.go:121-144 | moves the difference between reservation and clamped use, in either direction, as the ledger's settlement does, and nothing when they agree |
| Quota.Limiter.Credit | pkg/limiter/limiter.go:147-152 | adds the tokens to that user's balance only |
| Ledger.Conservation | pkg/limiter/limiter.go:71-152 | in every interleaving of the single Redis commands the balance is the start plus seed and credits, less actual use of settled requests, less what unsettled ones hold |
| Ledger.NetChargeIsActualUse | internal/aigateway/gateway.go:163-187 | once all requests have settled, estimates have dropped out and each was charged what it used |
| Ledger.SeededOnce | pkg/limiter/limiter.go:79-83 | the default balance is paid out at most once |
| Ledger.BalanceFloor | lua/rate_limit_prededuct.lua:35-40 | from zero or more the balance never falls below minus what overruns and negative credits took; from below zero never below that much less |
| Ledger.ReservationNeverOverdraws | lua/rate_limit_prededuct.lua:35-40 | an admitted reservation takes exactly its tokens and leaves the balance at zero or more |
| SlidingWindow.SetRemembers | lua/rate_limit_prededuct.lua:23-43 | past the largest cutoff so far the set holds exactly the admitted stamps |
| SlidingWindow.RoomAtAdmission | lua/rate_limit_prededuct.lua:21-28 | when a call is admitted, fewer than limit earlier stamps lie in the protected interval |
| SlidingWindow.WindowHolds | lua/rate_limit_prededuct.lua:21-43 | with stamps at most d behind and no member clash, no interval of length window - d holds more than limit admitted stamps |
| WindowLedger.WindowRunsAreLedgerRuns | lua/rate_limit_prededuct.lua:15-51 | a run of calls on the set is possible if and only if it is what the reservations of some run of the ledger do |
| WindowLedger.LedgerWindowHolds | lua/rate_limit_prededuct.lua:21-43 | the window guarantee over every interleaving of the ledger |
| WindowBounds.WindowIsExact | lua/rate_limit_prededuct.lua:21-43 | over clash-free d-skewed runs a length is protected if and only if it is at most window - d |
| WindowLimits.NamesStayUnique | lua/rate_limit_prededuct.lua:42-43 | on clocks that never step back, if close stamps print differently no added member is already there |
| WindowLimits.GrowsIffCharged | lua/rate_limit_prededuct.lua:23-43 | then the set grows by one exactly when the balance drops by the tokens |
| WindowBounds.Flood | lua/rate_limit_prededuct.lua:23-43 | when two stamps print alike, a run admits any number of calls on one stamp |
| WindowBounds.LimitHoldsIffStampsPrintApart | lua/rate_limit_prededuct.lua:42-43 | on clocks that never step back the limit holds for every run if and only if stamps closer than the window print differently |
| WindowBounds.SkewLiftsTheLimit | pkg/limiter/limiter.go:85-87 | with a limit of two or more and any skew below the window, some run admits any number of calls on one stamp, however stamps print |
| WindowBounds.LimitOneNeverClashes | lua/rate_limit_prededuct.lua:25-28 | with a limit of one no member ever clashes |
| WindowExpiry.ExpireCoversWindow | lua/rate_limit_prededuct.lua:45-49 | the key's lifetime is the window rounded up to whole seconds |
| WindowExpiry.ExpiryIsInvisible | lua/rate_limit_prededuct.lua:23-49 | on one clock that never steps back, dropping expired keys never changes a decision |
| WindowExpiry.SuccessiveStamps | pkg/limiter/limiter.go:85-87 | successive calls send their clock readings bumped by the 64-bit counter modulo 1000 |
| WindowExpiry.SequentialSkew | pkg/limiter/limiter.go:85-87 | one gateway calling in sequence on a monotone clock sends stamps at most 999 behind |
| WindowExpiry.OneGatewayHolds | pkg/limiter/limiter.go:85-87 | such a gateway alone protects every interval 999 shorter than the window while no names clash |
| WindowExpiry.SkewReached | pkg/limiter/limiter.go:85-87 | a step back of 999 does occur |
| Serving.Serve | internal/aigateway/gateway.go:163-190 | admitted if and only if fewer than limit stamps are stored and the seeded balance covers the estimate, which is at least one; then forwarded, with the outcome Forward states, and the balance falls by the reported total, or by prompt plus completion if that is zero, or by nothing without usage or for a negative count; a rejected request costs nothing and nothing is forwarded; other users are untouched |
| Serving.ChargeIsSettledTotal | internal/aigateway/gateway.go:176-182 | the charge for a stream is the total its adapter settled on, for all counts, wrap-around included |
| SchedulerSafety.SlotsKept | pkg/scheduler/scheduler.go:104-123 | every step keeps occupancy equal to unreleased workers plus the dispatcher's slot, within the maximum |
| SchedulerSafety.FifoKept | pkg/scheduler/scheduler.go:146-180 | every step keeps each queue's history: submitted is dequeued followed by queued |
| SchedulerSafety.JobKept | pkg/scheduler/scheduler.go:99-144 | every step keeps each taken job in one place with matching starts and closes |
| SchedulerSafety.AwaitedKept | pkg/scheduler/scheduler.go:100-143 | every step keeps the wait group equal to live workers plus the live dispatcher |
| SchedulerRuns.InvAlways | pkg/scheduler/scheduler.go:99-180 | all of these hold in every state of every interleaving |
| SchedulerRuns.ConcurrencyCapped | pkg/scheduler/scheduler.go:131-140 | jobs inside their function never outnumber the slots; no receive from the semaphore waits |
| SchedulerRuns.ReacquireNeverWaits | pkg/scheduler/scheduler.go:111-123 | after a blocking dequeue the dispatcher always finds a free slot |
| SchedulerRuns.JobsConserved | pkg/scheduler/scheduler.go:70-144 | every accepted job is in exactly one place, starts at most once and closes done at most once, exactly once when retired; done closes without a start only for a canceled job or a stopped scheduler |
| SchedulerRuns.JobsMoveForward | pkg/scheduler/scheduler.go:99-144 | no step of any run moves a job back |
| SchedulerRuns.DequeuedInOrder | pkg/scheduler/scheduler.go:146-180 | each class is dequeued in the order it was submitted |
| SchedulerRuns.OvertakenWhileWaiting | pkg/scheduler/scheduler.go:146-180 | while the high queue is not empty at most one low job is handed out, and none unless the dispatcher was exposed |
| SchedulerRuns.AtMostOneOvertakes | pkg/scheduler/scheduler.go:99-180 | from a high job's arrival until it is dequeued at most one low job is handed to a worker, and none unless the dispatcher was exposed as it arrived |
| SchedulerRuns.OvertakenIffExposed | pkg/scheduler/scheduler.go:99-180 | in every reachable state with a high job queued, some continuation hands out a low job before that job is dequeued if and only if the dispatcher is exposed |
| SchedulerRuns.OneCanOvertake | pkg/scheduler/scheduler.go:146-161 | a concrete run reaches such an exposed state with a high job queued |
| SchedulerRuns.StopDrains | pkg/scheduler/scheduler.go:89-97 | when the wait group is empty the dispatcher has halted, no worker is left and no step can start one |
| SchedulerProgress.DispatcherBlockedIff | pkg/scheduler/scheduler.go:99-180 | in every reachable state the dispatcher cannot move if and only if it has halted, waits for a slot with all of them held by workers, or waits for a job with both queues empty, and no stop has come |
| SchedulerProgress.WorkConserving | pkg/scheduler/scheduler.go:99-180 | in every reachable state with a job queued or a stop to heed and a slot no worker holds, the dispatcher has a step that changes the state, unless it has halted |
| SchedulerProgress.SlotFreeIff | pkg/scheduler/scheduler.go:104-108 | at its first select the dispatcher can take a slot if and only if fewer than maxConcurrency workers hold one |
| SchedulerProgress.WorkersNeverWait | pkg/scheduler/scheduler.go:136-144 | every worker in every reachable state can take its next step |
| SchedulerProgress.CapIsReached | pkg/scheduler/scheduler.go:99-144 | for all sizes some run has maxConcurrency jobs running at once |
| SchedulerProgress.EveryScheduleDrains | pkg/scheduler/scheduler.go:89-180 | from every reachable state every schedule of dispatcher and worker steps ends within a bound; one that cannot go on has left the wait group empty after a stop, and otherwise has closed every accepted job, run or canceled |
| SchedulerProgress.CanceledNeverStarts | pkg/scheduler/scheduler.go:126-142 | from its cancellation on, over every run, a job does not start and gets no worker if it has none |
| SchedulerProcess.Scheduler.Send | pkg/scheduler/scheduler.go:65-77 | a send succeeds exactly when its queue has room, and appends to it |
| SchedulerProcess.Scheduler.TryDequeue | pkg/scheduler/scheduler.go:146-161 | the polling selects move as the transition system says |
| SchedulerProcess.Scheduler.Dequeue | pkg/scheduler/scheduler.go:164-180 | the blocking dequeue moves as the transition system says |
| SchedulerProcess.Scheduler.TakeSlot | pkg/scheduler/scheduler.go:104-123 | both acquisitions of a slot, and stop, move as the transition system says |
| SchedulerProcess.Scheduler.Start | pkg/scheduler/scheduler.go:126-133 | a canceled job is dropped and its slot returned, any other gets a worker |
| SchedulerProcess.Scheduler.DispatchOnce | pkg/scheduler/scheduler.go:99-134 | one dispatcher step happens exactly when its case is ready and refines the transition system |
| SchedulerProcess.Scheduler.Unwind | pkg/scheduler/scheduler.go:137-139 | the deferred calls run in order: close done, return the slot, leave the wait group |
| SchedulerProcess.Scheduler.WorkOnce | pkg/scheduler/scheduler.go:136-144 | one worker step refines the transition system |
| Json.StringRoundTrip | internal/provider/openaicompat/compat.go:186-190 | an escaped string literal reads back as its text, whatever follows |
| Json.EscapeIsPlain | internal/provider/openaicompat/compat.go:186-190 | a printed literal holds no control character, line separator or HTML markup character |
| Json.IntRoundTrip | internal/provider/openaicompat/compat.go:205 | a printed integer reads back as itself when no digit follows |
| JsonValues.ValueRoundTrip | internal/provider/openaicompat/compat.go:182-208 | every printed JSON value reads back as itself by the grammar alone, whatever follows |
| JsonValues.PrintIsPlain | internal/provider/openaicompat/compat.go:182-208 | a printed value holds no control character, line separator or HTML markup character |
| Utf8.DecodeEncode | internal/provider/openaicompat/compat.go:137-139 | the bytes of a string, which the estimate counts, decode to the string |
| OpenAIStream.SplitAppend | internal/provider/openaicompat/compat.go:157 | the lines of a stream that ends in a line feed and a continuation are the lines of both |
| OpenAIStream.LinesPartition | internal/provider/openaicompat/compat.go:157-160 | the lines of a stream put together are the stream, and each ends at a line feed or at the end of the stream |
| OpenAIStream.TrimAround | internal/provider/openaicompat/compat.go:107-115 | white space around a text is trimmed, and nothing else |
| OpenAIStream.LineForms | internal/provider/openaicompat/compat.go:106-118 | a payload is read the same with or without the field name, a space after it, and a carriage return or line feed at the end |
| OpenAIStream.ContentsAppend | internal/provider/openaicompat/compat.go:124-128 | every choice adds its delta, its text and its message, in this order |
| OpenAIStream.Reader.ParseSSELine | internal/provider/openaicompat/compat.go:106-131 | one line moves the text and the usage as the reader's line function says |
| OpenAIStream.EstimateCoversText | internal/provider/openaicompat/compat.go:133-142 | usage with a total is kept as reported; without one a missing completion count becomes the least number that covers the bytes of the text at four each, given parts stand and the total is their wrapped sum |
| OpenAIStream.WriteFrame | internal/provider/openaicompat/compat.go:194-201 | without a failed write exactly one frame is sent, otherwise a prefix of it |
| OpenAIStream.WriteOpenAIDelta | internal/provider/openaicompat/compat.go:182-202 | sends one delta frame, or nothing for an empty text |
| OpenAIStream.WriteOpenAIUsage | internal/provider/openaicompat/compat.go:204-217 | sends one usage frame |
| OpenAIStream.WriteOpenAIDone | internal/provider/openaicompat/compat.go:219-222 | sends the end marker |
| OpenAIStream.CopyStream | internal/provider/openaicompat/compat.go:144-180 | returns the usage the lines carry whether or not writes fail; the client sees the lines, or a prefix of them after a failed write |
| StreamRoundTrip.DeltaIsRead | internal/provider/openaicompat/compat.go:93-104 | a JSON reader finds in a delta payload exactly choices, one element, delta, and content with the text; read by the field names of a chunk it is one choice with that delta |
| StreamRoundTrip.UsageIsRead | internal/types/chat.go:23-27 | a JSON reader finds in a usage payload exactly usage with prompt_tokens, completion_tokens and total_tokens and the three counts; read by the field names of a chunk it is that usage |
| StreamRoundTrip.ChunkDecoderDecodes | internal/provider/openaicompat/compat.go:93-123 | reading JSON by the field names of a stream chunk decodes what the writers print |
| StreamRoundTrip.FrameIsRead | internal/provider/openaicompat/compat.go:106-123 | the line reader takes a frame after any whole lines as its payload, and passes over one that does not decode |
| StreamRoundTrip.DeltaFrameIsRead | internal/provider/openaicompat/compat.go:106-131 | reading one more delta frame appends exactly its text |
| ClaudeStream.TakeLine | internal/provider/claude/adapter.go:93-119 | one line moves event, usage, text and output as the transducer says; a failed write stops output only |
| ClaudeStream.WriteTrailer | internal/provider/claude/adapter.go:128-135 | the end marker is written last whether or not the usage got through, and gets through whenever the client takes that write |
| ClaudeStream.ChatStream | internal/provider/claude/adapter.go:83-137 | the usage returned depends on the lines alone; without a failed write the client gets the deltas in order and, unless the read broke off, usage and end marker |
| StreamMeaning.OutcomeSettles | internal/provider/openaicompat/compat.go:133-142 | settling a usage that was settled before changes nothing, wrap-around included |
| StreamMeaning.OutputReadsBack | internal/provider/claude/adapter.go:90-136 | for every upstream stream, every event decoder and every chunk decoder that decodes what the writers print, the emitted stream read by the line reader gives exactly the text and exactly the usage ChatStream returned |
| StreamMeaning.AdapterHeeds | internal/provider/claude/adapter.go:93-119 | the adapter hears each frame under the last event name given |
| StreamMeaning.MeansWhatItSaysIffNoStaleName | internal/provider/claude/adapter.go:96-100 | every event is taken for what its own frame says, for all decoders, if and only if no unnamed frame follows a named one |
| StreamMeaning.MeantIsSaid | internal/provider/claude/adapter.go:256-274 | parsing frame by frame yields the concatenated delta texts and the last positive counts of message_start and message_delta |
| StreamMeaning.NamedFramesAreTranslated | internal/provider/claude/adapter.go:90-136 | with own event lines the stream read back is the concatenated deltas and the usage the events give |

## Left out

- HTTP serving, routing, headers, authentication, logging, metrics, status pages and `cmd/` other than the refresh tick.
- `pkg/proxy`, which is not wired into the program and settles one request on several paths; the ledger is about `internal/aigateway`.
- `internal/store`, its cache and database: they would add only easy members.
- `pkg/prefixcache`, a thin wrapper over a library that is not part of this model.
- Redis transport and script errors: each command is one atomic step that succeeds. INCRBY and DECRBY do not overflow 64 bits.
- ExpiryIsInvisible: assumes the key's lifetime runs on the clock of the stamps and that this clock never steps back; with several skewed clocks nothing is claimed.
- LimitHoldsIffStampsPrintApart: how the script runtime prints numbers is a parameter; it assumes only that the counts up to the limit print apart and without a dash.
- Forward: the endpoint list stays the same for the length of one request; reports, health checks and picks by others go on. The usage of a failed attempt that is retried is dropped, as in the source.
- Pick: the caller's exclude map is always present; `forward` never passes a missing one.
- Serve: without a limiter the bracket is `Forward` alone. Other gateways' steps between reserve and settle are the subject of `Ledger`.
- Breaker: the failure counter does not wrap.
- Full JSON: event and chunk decoders are parameters. The chunk decoder is only assumed to decode the payloads the writers print, usage counts in 64 bits; the one by the field names of a chunk does. The reader of JSON values leaves out white space, fractions, exponents, true, false and null, which the writers never print.
- OutputReadsBack: text is a sequence of Unicode characters, as the event decoder delivers it; the bytes of UTF-8 appear only in the estimate of completion tokens, and their number fits 64 bits.
- StreamMeaning.MeansWhatItSaysIffNoStaleName: frames have one data line each.
- The OpenAI and Azure adapters except for the shared stream functions, the non-streaming `Chat` paths, request building, and the tokenizer.
- Submit's second select: what it returns to the caller. That done was closed does not mean that the job ran (`JobsConserved` says when it did). Two concurrent `Stop` calls, which may both reach the close.
- EveryScheduleDrains: a job's function returns in one step, and no jobs are submitted along the schedule; while high jobs keep coming, how long a low one waits depends on which ready case each `select` takes.
