# Resilience engine of the API gateway: a Dafny model

This project models the stateful decisions of the gateway's data plane and proves what they keep over
whole runs: whether a request is admitted (`pkg/ratelimit`), where it goes (`internal/loadbalancer`,
`internal/router`), how often it is retried and who hears of the outcome (`internal/proxy`), when a
failing upstream recovers (`pkg/circuitbreaker`), and how configurations are validated, built and
swapped while requests are in flight (`internal/config`, `internal/plugin`, `internal/runtime`).

    dafny verify dfyconfig.toml

Each component comes in two layers. A class (or a method with loops) has the source's fields and
branches; its contract ties the new state to a pure step function. The lemmas are about that step
function: runs of it, interleavings of it, or a simpler specification it refines. Clock readings,
random draws, upstream answers, health and the strings' library operations are arguments.

| file | contents |
|---|---|
| `Common.dfy`, `Sorting.dfy`, `GatewayConfig.dfy` | shared vocabulary, unstable sorting, the typed configuration |
| `TokenBucket.dfy`, `LateReadings.dfy`, `EvictionBound.dfy` | keyed token buckets with lazy eviction and a sweep; when the sweep can be seen; what eviction adds to the rate |
| `SlidingWindow.dfy` | the Redis script and the log of admissions it stands for |
| `CircuitBreaker.dfy` | the three-state breaker and its clients |
| `RateLimitFactory.dfy`, `RedisLimiter.dfy`, `Failover.dfy`, `FailoverRecovery.dfy` | limiter construction, the composite limiter, its interleavings, and when it comes back |
| `RoundRobin.dfy`, `SmartBalancer.dfy` | the two balancers |
| `ProxyCalls.dfy`, `ProxyMachine.dfy`, `ProbeRecovery.dfy`, `ReverseProxy.dfy` | one proxied call, any number of them, which half-open breakers they can resolve, and the retry loop on objects |
| `Validator.dfy`, `Router.dfy`, `RuntimeBuilder.dfy`, `Reload.dfy` | validation, routing, runtime assembly, hot reload |

## Results that differ from what the code's comments say

* Breaker recovery. `circuitbreaker.go:97-98` and `redis.go:126` describe a single probe that
  resolves HalfOpen. `Allow` refuses every question in HalfOpen, so with the default success threshold of
  two a client whose calls do not overlap never returns to Closed (`CircuitBreakers.RecoveryCharacterised`:
  recovery is possible if and only if the threshold is at most 1). For the Redis limiter, in every
  interleaving of calls on all its keys, which share one breaker and one flag, an Open breaker can close
  again if and only if some call, on whatever key, is still pending (`OpenNeedsOverlap`;
  `FailoverRecovery.RecoveryCharacterised` covers all phases); with none pending at most one more
  evaluation succeeds (`RedisAnswersOnceMore`).
* Probes without an outcome. `Next` questions the breaker of every healthy instance but only the selected
  one gets an outcome, so the others on which nothing is pending stay HalfOpen for good
  (`SelectionStrandsTheRest`). The selected one fares no better when it succeeds and one success is too
  few (`SuccessfulProbeStrands`). Call a breaker dead when it is HalfOpen, nothing under way can fail any
  more, and the successes under way are none or too few to close it. From every reachable state, some
  continuation lets a call through to the service if and only if its breaker is not dead
  (`AdmissionCharacterised`, `ProbeTakesServiceDown`), and selects an instance if and only if neither its
  own breaker nor its service's is dead (`SelectionCharacterised`).
* Draining. `loader.go:24` asks for a window at least as long as the longest request. Equality is not
  enough: the window protects every request if and only if requests live strictly less (`DrainCharacterised`).
* Routing. The key `method + ":" + path` is ambiguous when a configured method name contains a colon. The
  priority order holds for every configuration over a set of names, and every request HTTP allows, if
  and only if, once upper-cased as `router.go:138` does, no name is empty and none has `:/` at its start or
  after a name that is an HTTP token and in the set (`PriorityCharacterised`); being non-empty and
  colon-free suffices
  (`ColonFreeNamesSeparable`). The package comment announces a radix trie; the code keeps a sorted list,
  and the model follows the code.
* Token buckets. The admissions are exactly those that fit a burst-and-rate test on the log since the last
  eviction (`BucketAdmitsWhatFits`). Eviction hands out a full bucket, so the test on the whole log can
  fail: for rate >= 0, every window is within burst + rate * time if and only if burst < 1 or burst <=
  rate * evictionTTL (`PlainBoundCharacterised`); max(rate, burst / evictionTTL) in place of the rate always
  bounds it (`WindowBound`). Since `now` is read before the lock, a call can find its bucket swept that
  an unswept one would not answer from full: for rate >= 0 and readings at most `lag` late the sweep is
  invisible if and only if lag = 0, burst < 1 or burst <= rate * (evictionTTL - 2 * lag)
  (`TransparencyCharacterised`).
* Sliding window. The script floors the server's microseconds, so a window of them holds at most the limit
  in every run if and only if it starts on a whole millisecond (`WindowsOnTheServerClock`).
* Round robin. Fairness holds up to a wrap of the 64-bit counter, and across wraps if and only if the number
  of eligible instances divides 2^64 (`FairForeverIff`).
* Versions. The version counter starts at 0, so the first reload installs version 1. Installed versions
  increase over the initial runtime's as well if and only if that one is 0 (`VersionsCharacterised`).

## Model

| member | source | states |
|---|---|---|
| TokenBuckets.Bucket.TakeToken | pkg/ratelimit/tokenbucket.go:93-114 | the critical section maps tokens and last refill, and answers, as the pure decision does: reset when stale, refill, cap, spend |
| TokenBuckets.TokenBucket.LoadOrStore | pkg/ratelimit/tokenbucket.go:86-91 | a missing key gets a full bucket; all other keys keep theirs |
| TokenBuckets.TokenBucket.Allow | pkg/ratelimit/tokenbucket.go:83-125 | a cancelled context answers an error and changes nothing; otherwise exactly one key changes, as one decision changes it |
| TokenBuckets.TokenBucket.VisitKey | pkg/ratelimit/tokenbucket.go:130-138 | deletes the key exactly when its last refill is before the cutoff, and touches nothing else |
| TokenBuckets.TokenBucket.Sweep | pkg/ratelimit/tokenbucket.go:128-140 | afterwards a key is present exactly if it was and a call now would not find it stale; survivors are unchanged |
| TokenBuckets.TokenBucket.constructor | pkg/ratelimit/tokenbucket.go:45-52 | an empty store with the given rate and burst and a ten-minute eviction time |
| TokenBuckets.WindowBound | pkg/ratelimit/tokenbucket.go:83-115 | on a nondecreasing clock, from any state, one key's calls in [lo, hi] admit at most burst + max(rate, burst/evictionTTL) * (hi - lo) |
| TokenBuckets.OutOfOrderBound | pkg/ratelimit/tokenbucket.go:83-115 | without eviction and with timestamps in any order, admits up to any admitted call, hence over the whole run up to its last one, are at most burst + rate * (that call's time - first time) |
| TokenBuckets.EvictionFreeAdmits | pkg/ratelimit/tokenbucket.go:102-114 | the same from any bucket: its tokens plus the refill up to that call |
| EvictionBound.PlainBoundCharacterised | pkg/ratelimit/tokenbucket.go:96-114 | for rate >= 0, every window of every run on one clock admits at most burst + rate * time if and only if burst < 1 or burst <= rate * evictionTTL |
| EvictionBound.TwoCycles | pkg/ratelimit/tokenbucket.go:96-114 | otherwise draining any bucket, idling past the eviction time and draining again admits more than its tokens plus the refill |
| TokenBuckets.AnswersAsMissing | pkg/ratelimit/tokenbucket.go:87-107 | a bucket answers as no bucket at all if and only if eviction or refill brings it to capacity |
| TokenBuckets.SweepInvisibleFrom | pkg/ratelimit/tokenbucket.go:86-140 | from a store that agrees with a never-swept bucket up to an entry every later call would find full, all later answers for the key agree, late readings included |
| TokenBuckets.SweepAndKeyTransparency | pkg/ratelimit/tokenbucket.go:84-140 | in every interleaving of sweep visits and calls on all keys, with readings as late as the next row allows, a key's decisions and remaining values are those of one never-swept bucket fed only its calls |
| LateReadings.TransparencyCharacterised | pkg/ratelimit/tokenbucket.go:84-140 | for rate >= 0 and readings at most lag behind their steps, that holds of every run if and only if lag = 0, burst < 1 or burst <= rate * (evictionTTL - 2 * lag) |
| LateReadings.LateCallsShowSweep | pkg/ratelimit/tokenbucket.go:84-93 | otherwise a dry bucket, a late call, a sweep and a late call give an answer the unswept bucket would not |
| TokenBuckets.BucketAdmitsWhatFits | pkg/ratelimit/tokenbucket.go:83-115 | for all parameters and timestamps in any order, a call is admitted if and only if over every stretch of calls since the key was last idle for the eviction time the admissions leave room for one more within burst + rate * elapsed |
| TokenBuckets.StoreAdmitsWhatFits | pkg/ratelimit/tokenbucket.go:83-140 | the same for every key of the shared, swept store, for readings as late as the sweep stays invisible to |
| TokenBuckets.StoreWindowBound | pkg/ratelimit/tokenbucket.go:83-140 | the window bound for every key of the shared, swept store |
| SlidingWindows.RedisKey.Execute | pkg/ratelimit/redis.go:25-54 | the Redis calls in their order leave the sorted set, counter and both expiry times, and reply, as the script function says |
| SlidingWindows.RedisKey.Run | pkg/ratelimit/redis.go:25-54 | an evaluation admits, and reports what remains, exactly as the ideal limiter does on the log of all admissions |
| SlidingWindows.NoCollision | pkg/ratelimit/redis.go:43-49 | the member a grant adds was never used before, even after the counter expired and restarted |
| SlidingWindows.TrimmedIsWindow | pkg/ratelimit/redis.go:32-40 | after expiry and trimming, the sorted set is exactly the admissions in (now - window, now] |
| SlidingWindows.ScriptAnswersIdeal | pkg/ratelimit/redis.go:39-53 | one evaluation answers and logs as: admit if and only if fewer than the limit lie in (now - window, now] |
| SlidingWindows.ScriptKeepsHolds | pkg/ratelimit/redis.go:36-53 | every evaluation keeps the correspondence between Redis and the log: distinct members, none missing that can still count, TTLs that outlast the window |
| SlidingWindows.ScriptRefinesIdeal | pkg/ratelimit/redis.go:25-54 | over every run on a nondecreasing server clock, whatever Redis expires at a deadline, all replies equal the ideal limiter's |
| SlidingWindows.ScriptKeepsAdmissible | pkg/ratelimit/redis.go:42-53 | the admission log stays one the ideal limiter would have produced |
| SlidingWindows.WindowHoldsLimit | pkg/ratelimit/redis.go:42-46 | every half-open window of such a log holds at most the limit |
| SlidingWindows.WindowsHoldLimits | pkg/ratelimit/redis.go:42-46 | k windows in a row hold at most k times the limit |
| SlidingWindows.WindowsOnTheServerClock | pkg/ratelimit/redis.go:32-46 | for positive limit and window, every legal run holds at most the limit in the window of microseconds from a start if and only if the start is a whole millisecond |
| CircuitBreakers.CircuitBreaker.constructor | pkg/circuitbreaker/circuitbreaker.go:55-90 | Closed with zero counters; a failure threshold of 0 means 5, a success threshold of 0 means 2, a reset timeout of 0 means 30 s |
| CircuitBreakers.CircuitBreaker.Transition | pkg/circuitbreaker/circuitbreaker.go:159-167 | enters the phase, clears both counters, tells the callback the edge |
| CircuitBreakers.CircuitBreaker.Allow | pkg/circuitbreaker/circuitbreaker.go:99-118 | granted if and only if Closed, or Open for at least the reset timeout (entering HalfOpen); state and callback log stay a function of the event log |
| CircuitBreakers.CircuitBreaker.RecordSuccess | pkg/circuitbreaker/circuitbreaker.go:121-129 | the success step, closing a HalfOpen breaker at the threshold; the event log still explains the state |
| CircuitBreakers.CircuitBreaker.RecordFailure | pkg/circuitbreaker/circuitbreaker.go:132-148 | the failure step, opening at the threshold or from HalfOpen; the event log still explains the state |
| CircuitBreakers.BreakerRefinesHistory | pkg/circuitbreaker/circuitbreaker.go:121-167 | counters are the trailing runs since the phase was entered and never both positive; Closed is below its threshold, HalfOpen has seen no failure, Open dates from the failure that opened it |
| CircuitBreakers.PhaseFollowsHistory | pkg/circuitbreaker/circuitbreaker.go:99-148 | the next phase is determined by the events since the phase was entered and the one that entered it |
| CircuitBreakers.GrantFollowsHistory | pkg/circuitbreaker/circuitbreaker.go:99-118 | for every log, a question is granted if and only if the breaker is Closed, or Open and the failure that opened it is at least the reset timeout old; and outside Closed exactly the grants enter HalfOpen |
| CircuitBreakers.OpensAtThreshold | pkg/circuitbreaker/circuitbreaker.go:55-144 | a breaker built with failure threshold k opens at its k-th failure in a row and not before, dated from it; with 0 at the fifth |
| CircuitBreakers.ProbesAfterTimeout | pkg/circuitbreaker/circuitbreaker.go:64-113 | after any log that leaves it Open, a question enters HalfOpen if and only if the opening failure is at least the configured timeout ago, 30 s for 0 |
| CircuitBreakers.ClosesAtThreshold | pkg/circuitbreaker/circuitbreaker.go:61-129 | after any log that has just entered HalfOpen, it closes at the k-th success in a row for success threshold k and not before; with 0 at the second |
| CircuitBreakers.TransitionsFormPath | pkg/circuitbreaker/circuitbreaker.go:159-167 | the callback log is a connected path over the four legal edges from Closed to the current phase |
| CircuitBreakers.ProbesAreSpaced | pkg/circuitbreaker/circuitbreaker.go:99-148 | while the breaker is never Closed, granted questions are at least the reset timeout apart, whatever stale outcomes arrive |
| CircuitBreakers.ProbeBudget | pkg/circuitbreaker/circuitbreaker.go:99-118 | such a segment of length L grants at most 1 + L / resetTimeout |
| CircuitBreakers.TrippedForever | pkg/circuitbreaker/circuitbreaker.go:107-148 | with a threshold of two or more, no sequence of non-overlapping calls leaves Open or a spent HalfOpen |
| CircuitBreakers.RecoveryCharacterised | pkg/circuitbreaker/circuitbreaker.go:99-148 | from Open, some non-overlapping run reaches Closed if and only if the success threshold is at most 1 |
| CircuitBreakers.StaleSuccessesClose | pkg/circuitbreaker/circuitbreaker.go:121-129 | a HalfOpen breaker closes exactly at the success that reaches the threshold, whoever records it |
| RateLimitFactory.LimitMatchesRate | pkg/ratelimit/factory.go:47-68 | the Redis backend is refused if and only if the rate yields less than one request per window; else the limit is that yield rounded down and the fallback has positive rate and burst |
| RateLimitFactory.FactoryHonoursConfig | pkg/ratelimit/factory.go:47-79 | for every configuration: which backends exist; a minute's refill is the requests per minute; an absent burst is 10; a key is evicted after 600 s; the Redis limit is the whole requests the rate yields over the window, refused when below one |
| TokenBuckets.DrawIsRefill | pkg/ratelimit/factory.go:47-53 | when rate * evictionTTL covers the burst, what a key can draw is just its refill |
| RedisLimiters.RedisLimiter.constructor | pkg/ratelimit/redis.go:91-115 | a breaker with thresholds 5 and 2 and 30 s, flag down, no sleeping goroutine |
| RedisLimiters.RedisLimiter.ConsultGate | pkg/ratelimit/redis.go:121-131 | Redis is skipped while the flag is up or when the breaker refuses, which raises the flag for 30 s |
| RedisLimiters.RedisLimiter.Allow | pkg/ratelimit/redis.go:119-156 | the script's reply decides on the calls that reach it, the bucket on all others; breaker, flag and bucket change as the sequential decision says and only the decider's state changes |
| RedisLimiters.RedisLimiter.WakeUp | pkg/ratelimit/redis.go:127-130 | lowers the flag and ends one goroutine |
| RedisLimiters.SkippedWhen | pkg/ratelimit/redis.go:119-143 | a call skips Redis if and only if the flag is up, a probe is out, or the breaker opened less than 30 s ago; skipping leaves the flag up, and raising it leaves one wakeup 30 s later |
| RedisLimiters.FifthFailureOpens | pkg/ratelimit/redis.go:99-147 | from Closed, failures in a row all reach Redis up to the fifth, which opens the breaker at the moment it is recorded |
| RedisLimiters.SpentProbeSkipsAll | pkg/ratelimit/redis.go:121-133 | once HalfOpen, a non-overlapping run never evaluates the script again |
| RedisLimiters.RedisNeverReturns | pkg/ratelimit/redis.go:99-155 | after the breaker has opened, in any non-overlapping run at most one evaluation succeeds and every later call goes to the fallback |
| Failover.StepKeepsScriptInv | pkg/ratelimit/redis.go:119-156 | every atomic step of any call, on the followed key or another, keeps the key's Redis state in correspondence with an admissible log |
| Failover.StepKeepsScriptBacked | pkg/ratelimit/redis.go:139-155 | every script grant a call on the key holds is its own log entry, also after runs that timed out |
| Failover.StepKeepsStoreInv | pkg/ratelimit/redis.go:132-147 | every step keeps the fallback's store, which all keys share, equal to its history of calls and sweeps |
| Failover.StepKeepsFallbackBacked | pkg/ratelimit/redis.go:132-147 | every fallback grant on the key is its own granted answer of the key's bucket |
| Failover.AdmittedIsNotRefused | pkg/ratelimit/redis.go:119-156 | in a reachable state the calls on the key that count as admitted are exactly those not refused |
| Failover.FailoverBound | pkg/ratelimit/redis.go:71-156 | in every interleaving of calls on all keys of a limiter, which share breaker, flag and fallback store, and every pattern of failures, a key's calls admitted in any window, whatever nanosecond it starts at, are at most k * limit + burst + max(rate, burst/evictionTTL) * length, where k script windows cover the milliseconds it touches |
| Failover.WindowsCovered | pkg/ratelimit/redis.go:33-34 | k = 1 for windows a millisecond shorter than the script's, and for the script's own length from a whole millisecond; k = 2 for that length from anywhere |
| Failover.FactoryFailoverBound | pkg/ratelimit/factory.go:47-68 | for the same runs, as the factory builds the limiter and with rate * evictionTTL >= burst: at most burst + 2 * rate * W on a key for every window one script window covers |
| Failover.UninterruptedCallDecides | pkg/ratelimit/redis.go:119-156 | a call nobody interrupts is a run of the interleaved machine with exactly the sequential limiter's decision, gate and answer |
| FailoverRecovery.RecoveryCharacterised | pkg/ratelimit/redis.go:71-150 | from a reachable state of any number of interleaved calls on any keys some continuation closes the shared breaker if and only if it is Closed, or Open with a call pending, or HalfOpen with two pending or one that can add to a success |
| FailoverRecovery.OpenNeedsOverlap | pkg/ratelimit/redis.go:119-150 | from a reachable state with an Open breaker, if and only if some granted call, on whatever key, has not recorded its outcome |
| FailoverRecovery.RedisAnswersOnceMore | pkg/ratelimit/redis.go:119-155 | from an Open breaker with no call pending on any key, in every interleaving of calls on all keys at most one evaluation succeeds and no call has the script evaluated after it |
| RoundRobins.RoundRobin.FilterEligible | internal/loadbalancer/roundrobin.go:47-55 | the loop returns the filter of the instances |
| RoundRobins.FilterKeepsOrder | internal/loadbalancer/roundrobin.go:47-55 | the filter keeps exactly the healthy, unskipped instances, in their order |
| RoundRobins.RoundRobin.Next | internal/loadbalancer/roundrobin.go:26-44 | no candidate: an error and no count; else the counter advances modulo 2^64 and selects modulo the list |
| RoundRobins.FairUntilWrap | internal/loadbalancer/roundrobin.go:37-38 | over m consecutive selections from n instances without a wrap, each is chosen floor(m/n) or ceil(m/n) times |
| RoundRobins.FairForeverIff | internal/loadbalancer/roundrobin.go:37-38 | with wraps, that holds for all stretches if and only if n divides 2^64 |
| RoundRobins.UnfairAtWrap | internal/loadbalancer/roundrobin.go:37-38 | otherwise a stretch around the wrap chooses the first instance twice in one round |
| SmartBalancing.WeightIsGeometric | internal/loadbalancer/smart/state.go:60-73 | a sample with k later ones weighs alpha * (1 - alpha)^k |
| SmartBalancing.FadedIsGeometric | internal/loadbalancer/smart/state.go:60-73 | after n samples the starting value weighs (1 - alpha)^n |
| SmartBalancing.AverageClosedForm | internal/loadbalancer/smart/state.go:60-73 | the moving average is the faded start plus the geometrically weighted sum of the samples |
| SmartBalancing.ReportsAverage | internal/loadbalancer/smart/state.go:57-74 | after any reports, latency and error rate are the moving averages of their own samples at their own smoothing, errors counting as 1 and successes as 0, and each report ended one attempt |
| SmartBalancing.CellStaysWithin | internal/loadbalancer/smart/state.go:34-74 | when concurrent updates interleave their separate load and store, the average still stays between any bounds on its start and samples |
| SmartBalancing.ErrorRateIsRate | internal/loadbalancer/smart/state.go:66-73 | under every interleaving the error rate stays in [0, 1] |
| SmartBalancing.LatencyIsBounded | internal/loadbalancer/smart/state.go:60-64 | under every interleaving the latency stays between the least and the greatest of 50 and the samples |
| SmartBalancing.BetterNeverScoresLower | internal/loadbalancer/smart/balancer.go:109-138 | with nonnegative weights, lower latency, error rate and load never lower a score |
| SmartBalancing.ScoreRange | internal/loadbalancer/smart/balancer.go:109-138 | scores lie between 0.01 and max(0.01, sum of the weights) |
| SmartBalancing.ScoreIsRemaining | internal/loadbalancer/smart/balancer.go:105-138 | a score is the sum of the weights less each weight times how far its own measurement uses up its own cap, fully from the cap on; never below 0.01 |
| SmartBalancing.LatencyMovesScore | internal/loadbalancer/smart/balancer.go:109-116 | below the cap and above the floor, a change of latency alone by d moves the score by -(latency weight) * d / maxLatency |
| SmartBalancing.ErrorsMoveScore | internal/loadbalancer/smart/balancer.go:118-122 | a change of the error rate alone by d moves it by -(error weight) * d |
| SmartBalancing.LoadMovesScore | internal/loadbalancer/smart/balancer.go:124-129 | a change of the attempts in flight alone by d moves it by -(load weight) * d / maxConcurrent |
| SmartBalancing.IdleScore | internal/loadbalancer/smart/balancer.go:105-138 | at zero latency, errors and load the score is max(0.01, sum of the weights) |
| SmartBalancing.StretchesDisjoint | internal/loadbalancer/smart/balancer.go:150-160 | no target selects two instances |
| SmartBalancing.StretchLength | internal/loadbalancer/smart/balancer.go:150-160 | the targets that select an instance are one interval within [0, total], exactly as long as its score |
| SmartBalancing.WheelIsPartitioned | internal/loadbalancer/smart/balancer.go:150-165 | every target in [0, total) selects exactly one instance |
| SmartBalancing.Spin | internal/loadbalancer/smart/balancer.go:151-160 | the loop stops at the owner of the target, and runs out exactly when the total is below it |
| SmartBalancing.SpinWheel | internal/loadbalancer/smart/balancer.go:150-165 | a drawn target always has an owner, so the rounding fallback is unreachable |
| SmartBalancing.ShareFloor | internal/loadbalancer/smart/balancer.go:130-160 | an interval of random draws of length 0.01 / (n * max(0.01, sum of the weights)) lands on every candidate |
| SmartBalancing.InstanceState.constructor | internal/loadbalancer/smart/state.go:27-32 | nothing in flight, 50 ms, no errors |
| SmartBalancing.InstanceState.RecordStart | internal/loadbalancer/smart/state.go:77-79 | one more in flight, averages unchanged |
| SmartBalancing.InstanceState.Record | internal/loadbalancer/smart/state.go:57-74 | one less in flight and both averages blended with the sample |
| SmartBalancing.Balancer.constructor | internal/loadbalancer/smart/balancer.go:55-66 | unseen telemetry for the listed instances and nobody else |
| SmartBalancing.Balancer.GetState | internal/loadbalancer/smart/balancer.go:182-191 | the instance's state, inserted as unseen when missing; all others kept |
| SmartBalancing.Balancer.ScoreOf | internal/loadbalancer/smart/balancer.go:105-138 | the branches compute the score that ScoreIsRemaining and the three rows after it characterise |
| SmartBalancing.Balancer.ScoreAll | internal/loadbalancer/smart/balancer.go:99-146 | the loop computes every candidate's score on the telemetry at entry, and their sum |
| SmartBalancing.Balancer.Choose | internal/loadbalancer/smart/balancer.go:83-165 | uniform pick when exploring, else the instance whose stretch holds the spin's target |
| SmartBalancing.Balancer.Next | internal/loadbalancer/smart/balancer.go:70-180 | selects among exactly the eligible, and only the selected instance gains an attempt in flight |
| SmartBalancing.Balancer.Done | internal/loadbalancer/smart/balancer.go:92-94 | the callback records one attempt on that instance and on no other |
| ProxyCalls.CallAccounting | internal/proxy/proxy.go:62-165 | a complete call makes at most 3 attempts (1 unless idempotent), backs off at most 198 ms, calls back and records on the instance once per selection, records on the service exactly what its exit owes, and never reaches the return after the loop |
| ProxyCalls.AnswersDecide | internal/proxy/proxy.go:101-153 | in every complete call only the last answer can be fine (no error, and not 502, 503 or 504), and it succeeds if and only if it is; it fails if and only if all 3 attempts (1 unless idempotent) were used up, with the last status, or 502 when there is none |
| ProxyCalls.OthersAreForced | internal/proxy/proxy.go:62-162 | every other exit comes from a refusing service breaker, a deadline, a missing instance or a cancellation, and each of these ends the call with its own exit |
| ProxyMachine.StepConserves | internal/proxy/proxy.go:87-133 | every step of every call keeps each in-flight counter equal to the attempts under way |
| ProxyMachine.InFlightConservation | internal/loadbalancer/smart/balancer.go:90-95 | in every interleaving an instance's counter is the number of its attempts between selection and callback, never negative, and 0 when all calls have finished |
| ProbeRecovery.SelectionCharacterised | internal/proxy/proxy.go:62-165 | from every reachable state, some continuation on the clock selects an instance if and only if neither its own breaker nor the service's is HalfOpen with nothing left that can fail and the successes under way none or too few to reach the threshold |
| ProbeRecovery.DeadForever | internal/proxy/proxy.go:81-133 | from such a state no continuation selects the instance, whatever the service's breaker |
| ProbeRecovery.SelectionStrandsTheRest | internal/proxy/proxy.go:81-133 | one selection brings that about for every listed instance whose breaker is due, that has nothing pending and is not selected |
| ProbeRecovery.SuccessfulProbeStrands | internal/proxy/proxy.go:105-112 | so does the success of the only pending attempt when one success is too few |
| ProbeRecovery.AdmissionCharacterised | internal/proxy/proxy.go:62-165 | from a reachable state, some continuation lets a call through to the service if and only if its breaker is not HalfOpen with every call under way bound to succeed and none under way or too few to reach the threshold |
| ProbeRecovery.ProbeTakesServiceDown | internal/proxy/proxy.go:74-162 | the only call under way brings that about when it leaves through the deadline or cancellation exit, or succeeds when one success is too few |
| ProxyMachine.ReachableShareFloor | internal/loadbalancer/smart/balancer.go:98-150 | the share floor holds in every reachable state of any number of calls |
| ProxyMachine.BreakersSeeTheirEvents | internal/proxy/proxy.go:61-153 | over any trace of a call, every breaker is where exactly its own questions and outcomes, at their own readings and in order, take it: the service's those on the service, an instance's those on it, and all others stay |
| ProxyMachine.GenuinePathIsRun | internal/proxy/proxy.go:52-166 | the operations of an uninterrupted call are a run of the machine with the same effect on the breakers |
| ReverseProxy.IsSkipped | internal/proxy/proxy.go:82-85 | asks the instance's breaker, if it has one, and changes no other |
| ReverseProxy.AskEach | internal/loadbalancer/roundrobin.go:46-55 | the filter questions every listed breaker in order, each at its own reading of the clock, and keeps the granted instances |
| ReverseProxy.RecordOn | internal/proxy/proxy.go:110-133 | the outcome lands on the selected instance's breaker only |
| ReverseProxy.Invocation.Choose | internal/proxy/proxy.go:87-96 | picks among the instances whose breakers granted, or reports that none did |
| ReverseProxy.Invocation.Forward | internal/proxy/proxy.go:101-133 | one upstream answer is classified, called back and recorded on the instance, in that order |
| ReverseProxy.Invocation.Judge | internal/proxy/proxy.go:113-162 | success and final failure are told to the service's breaker; otherwise the loop backs off 100 ms per earlier attempt plus jitter, or leaves when cancelled |
| ReverseProxy.Invocation.TakeTurn | internal/proxy/proxy.go:72-163 | one turn of the loop ends the call or leads to the next attempt, of which there is one only below the retry limit |
| ReverseProxy.ProxyRequest | internal/proxy/proxy.go:52-233 | on breaker objects, the operations performed are a complete path of the call; each carries the data of its own turn, the k-th answer being turn k's, and reports what the breakers really answered; together they account for every change of the breakers; success, failure and status follow from those answers, with 3 attempts for GET, HEAD, OPTIONS, PUT, DELETE and keyed POST or PATCH, 1 otherwise |
| Validation.Validate | internal/config/validator.go:18-123 | accumulates the problems, writes both defaults, and reports none if and only if the configuration is valid |
| Validation.ValidationExact | internal/config/validator.go:21-122 | the report is clean if and only if names and ids are present and unique, orders are unique within a route, references resolve, patterns compile and are at most 20 |
| Validation.ProblemsExact | internal/config/validator.go:21-117 | each problem, with its index or name, is reported if and only if the configuration has it |
| Validation.ServicesExact | internal/config/validator.go:30-48 | no service problem if and only if all services are well formed and pairwise named apart |
| Validation.RefsExact | internal/config/validator.go:98-112 | no reference problem if and only if all references name known plugins and no two orders are equal |
| Validation.RoutesExact | internal/config/validator.go:61-113 | no route problem if and only if every route is well formed and ids are pairwise different |
| Validation.CheckServices | internal/config/validator.go:30-48 | the loop reports and remembers exactly that, also for entries without a name |
| Validation.CheckRefs | internal/config/validator.go:98-112 | the loop reports unknown plugins and repeated orders of named references |
| Validation.CheckRoutes | internal/config/validator.go:60-113 | the loop reports ids, paths, match types, patterns, services and references, counts patterns and writes the default match type |
| Routing.BuildRoute | internal/router/router.go:124-165 | one configured route, exact or a pattern if configured so and prefix for any other match type, or a pattern that does not compile |
| Routing.EnterExact | internal/router/router.go:66-72 | in whatever order methods are visited, exactly their keys, or the wildcard's, now hold the route |
| Routing.New | internal/router/router.go:54-86 | succeeds if and only if all patterns compile; the map, the sorted prefixes and the patterns are those of the declared routes |
| Routing.Match | internal/router/router.go:90-121 | returns what the lookup function returns, and for separable names the route the declaration-order scan ranks first |
| Routing.KeysCollide | internal/router/router.go:68 | two method and path pairs share a key only if they are equal or one name extends the other by a colon |
| Routing.RequestedKeysCollide | internal/router/router.go:91-100 | and for a request, whose method is a token, only if a configured name goes on with `:/` after the method |
| Routing.MatchFollowsPriority | internal/router/router.go:90-121 | for routes whose names, upper-cased when the route is built, are separable: the last exact route for the method, else the last for any method, else a longest allowed prefix, else the first allowed pattern, whatever the sort did with ties |
| Routing.ColonFreeNamesSeparable | internal/router/router.go:67-69 | non-empty colon-free names are separable |
| Routing.PriorityCharacterised | internal/router/router.go:67-138 | for requests HTTP allows, the priority order holds for every configuration whose exact routes write their methods from a set of names if and only if, of those names in upper case, none is empty and none has `:/` at its start or after another that is a token |
| Routing.FoundIffAdmitted | internal/router/router.go:90-121 | for separable names and allowed requests, a route is found if and only if some route has the method (or none at all) and its path equals, begins or its pattern matches the request's, and it is one that does |
| Routing.FoundIffConfigured | internal/router/router.go:54-165 | the same from the configuration as written: methods in upper case, any match type but exact and regex meaning prefix |
| Routing.MatchIsConfigured | internal/router/router.go:90-121 | whatever the names, a match is a configured route |
| Routing.PrefixTiesShareThePath | internal/router/router.go:80-83 | equally long matching prefixes are the same path |
| RuntimeBuilding.Registry.Register | internal/plugin/registry.go:27-32 | a new type is added; a registered one is refused and kept |
| RuntimeBuilding.Registry.Build | internal/plugin/registry.go:40-71 | succeeds if and only if every reference can be constructed; the k-th plugin is what the factory of the type last defined for the k-th reference's name makes of that reference's own settings, over an order-ascending arrangement; an error is some reference's own |
| RuntimeBuilding.ConstructExact | internal/plugin/registry.go:40-68 | one reference yields exactly that plugin; it is refused for a name without definition, a type without factory, or settings the factory refuses, and the error says which |
| RuntimeBuilding.BuildChains | internal/runtime/builder.go:32-45 | a chain for every configured id and no other, built from the last route with that id, or one reference's error |
| RuntimeBuilding.Build | internal/runtime/builder.go:20-52 | succeeds if and only if all patterns compile and all plugins can be constructed; the runtime has the given version, the router of the routes and their chains |
| RuntimeBuilding.ArrangementsAgree | internal/plugin/registry.go:47-52 | with distinct orders all sorts of the same references agree, though none is stable |
| RuntimeBuilding.ValidatedRuntimeIsConsistent | internal/runtime/builder.go:32-51 | on a validated configuration a matched route names a configured service and its id leads to the chain of that same route's plugins, in the one strictly ascending order |
| RuntimeBuilding.ValidatedBuildFailures | internal/runtime/builder.go:27-43 | after validation only an unregistered type or a factory's refusal can fail the build |
| RuntimeBuilding.DefaultsStayValid | internal/config/validator.go:25-81 | the configuration with its defaults written is as valid as the one validated |
| RuntimeBuilding.DefaultsKeepRoutes | internal/router/router.go:152-153 | the written default changes no route |
| Sorting.SortBy | internal/router/router.go:156-162 | some ascending arrangement of the same elements; the order of equal keys is left open |
| Sorting.ArrangementUnique | internal/plugin/registry.go:50-52 | without equal keys there is only one such arrangement |
| Reloading.StepKeepsRetired | internal/runtime/reloader.go:76-109 | every step keeps installed attempts increasing and timers retiring each installed runtime but the current one, in order |
| Reloading.StepKeepsDrained | internal/runtime/reloader.go:100-108 | a fired timer has waited out the window, which began after every capture of its runtime |
| Reloading.DrainingIsSafe | internal/runtime/reloader.go:76-109 | in every interleaving no request younger than the window holds a closed runtime, the current runtime is not closed, and none is closed twice |
| Reloading.DrainCharacterised | internal/config/loader.go:22-25 | requests living at most a given time never hold a closed runtime if and only if that time is strictly less than the window |
| Reloading.InstalledAreSwapped | internal/runtime/reloader.go:77-95 | the installed runtimes are exactly the attempts that reached their swap; a failed build only uses up its number |
| Reloading.ReloadedVersionsIncrease | internal/runtime/reloader.go:77-98 | versions installed by reloads strictly increase in every run |
| Reloading.VersionsCharacterised | internal/runtime/reloader.go:77 | they increase over the initial runtime's in every run if and only if that is 0 |
| Reloading.ReloadIsItsSteps | internal/runtime/reloader.go:76-109 | an uninterrupted reload is its protocol steps |
| Reloading.GatewayRuntime.Close | internal/runtime/runtime.go:36-40 | every chain is closed exactly once more |
| Reloading.RuntimeHolder.Get | internal/runtime/runtime.go:57-59 | the current runtime |
| Reloading.RuntimeHolder.Swap | internal/runtime/runtime.go:63-65 | installs the new runtime and returns the outgoing one |
| Reloading.Reloader.Install | internal/runtime/reloader.go:94-108 | swaps and schedules the outgoing runtime's close, keeping the count of closes of every runtime ever installed |
| Reloading.Reloader.ApplyReload | internal/runtime/reloader.go:76-109 | succeeds if and only if the configuration can be built; then the new current runtime is one built from it under the attempt's number, else the current runtime stays; the fields change as the protocol does |
| Reloading.Reloader.Wake | internal/runtime/reloader.go:102-108 | after the window the goroutine closes its runtime's chains, once, and nothing current |

## Left out

- HTTP: `doRequest`, transports, streaming and headers; an upstream call is an arbitrary (status, error) result. `proxy.go` retries after the response was already written to the client; that effect on the client is not modelled.
- Redis client and connections: only the script's effect on a sorted set, a counter and two expiry times. Eviction by Redis memory policy, number formatting in the script and other users of the keys are not modelled.
- `cmd/gateway/main.go` is not part of this model (it is absent from the repository), nor therefore the wiring of breakers and balancers or the initial runtime's version, which is a parameter.
- Floating point and time types: exact reals and unbounded integers. NaN, infinities and rounding are not modelled; the 64-bit wrap-around is modelled for the round-robin counter only.
- TokenBuckets.TokenBucket.VisitKey: check and delete are one step; in the source the bucket's lock is released between them.
- TokenBuckets.TokenBucket.Sweep: one pass runs without calls in between; passes interleaved with calls key by key are the subject of SweepAndKeyTransparency.
- TokenBuckets.TokenBucket.Allow: loading the bucket and deciding under its lock are one step, so a sweep between the two is not modelled.
- SmartBalancing.Balancer.Next: one call runs alone; concurrent writes to its map of states are a data race in the source and not modelled. Like ScoreOf, ScoreAll and Choose it requires normalising constants other than 0, for which the source computes with infinities and NaN.
- SmartBalancing.Balancer.ScoreOf: not for a normalising constant of 0 (see Balancer.Next).
- SmartBalancing.Balancer.ScoreAll: not for a normalising constant of 0 (see Balancer.Next).
- SmartBalancing.Balancer.Choose: not for a normalising constant of 0 (see Balancer.Next).
- SmartBalancing.InstanceState.Record: the load and store of the averages run without interruption here; their interleavings are the subject of CellStaysWithin.
- ReverseProxy.ProxyRequest: asks about skipping and health in one list per turn and takes the balancer's pick as an argument; balancer telemetry is threaded through in ProxyMachine instead. Request context fields and log lines are left out.
- Failover: the Redis state of one key, chosen freely, is followed; on the other keys a script run may answer anything. Keys are independent in Redis, so each can be the one followed.
- ProbeRecovery.SelectionCharacterised: takes one selection, with all its questions to breakers, as one step.
- Validation.Validate: the report is the list of problems with the indices and names they concern, not their wording; strategies and match types are enumerated values plus one for any other text.
- Routing.MatchFollowsPriority: request methods are tokens (sections 5.6.2 and 9.1 of RFC 9110) and request paths start with a slash or are empty or `*` (section 3.2 of RFC 9112); upper-casing and patterns are uninterpreted functions.
- RuntimeBuilding.Registry.Register: the source's panic on a duplicate is a refusal here.
- Reloading.Reloader.ApplyReload: one reloader goroutine; `applyServiceDiff` (registry, health checkers, balancer map) is left out, and a runtime counts as closed as soon as its close begins.
- Plugin chain execution, the random balancer, load shedding, health thresholds of instances, metrics, logging, admin endpoints, file watching and event fan-out: members of their own with little state in common with the above.
