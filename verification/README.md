# A verified model of the Toska Mesh core

Toska Mesh is a small service mesh: a gateway that forwards requests to backends with retries, per-backend circuit
breakers and per-client rate limits; a load balancing library; a health monitor that probes instances in rounds; and a
discovery server that tracks registrations and publishes events. This project models the parts of it that keep state
under concurrency and proves what they guarantee over every run.

Verify the whole project with `dafny verify dfyconfig.toml`.

## How the model is built

Where the Go code changes fields in place, the model has a class whose methods change the same fields
(`CircuitBreaker`, `BreakerTable`, `RateLimiter`, `LoadBalancer`, `Proxy`, `Cache`, `Worker`, `Server`); the variables of
the retry loop are kept together as one value, `Progress`. Each method is proved to have the effect of a function on values (`AfterAllow`, `AfterCall`, `Recorded`, `ProbedOn`, ...). A second
module takes those functions as the steps of a transition system and proves the properties of all its runs:

| classes | runs |
|---|---|
| `Breakers` | `BreakerRuns`: any number of requests interleave `Allow`, `Record*` and `State` on one breaker |
| `RateLimits` | `RateLimitRuns`: calls by any clients with sweeps in between |
| `Balancers` (`RoundRobin`, `Weighted`, `LeastConnections`, `Hashing`, `Statistics`, `Routing`) | `BalancerRuns`: selections for any services with any strategies, and reports |
| `Proxies` | `Gateways`: any number of requests run the retry loop and share the breakers |
| `Health` | `Rounds`: the goroutines of a round step in any order, over any number of rounds |
| `Discovery` | `Discovery`: handler calls interleave between their locks |

`Common`, `Arithmetic` and `Sums` hold what they share.

Assumptions, all visible in the contracts:

- The clock does not go back. Instants and durations are whole nanoseconds.
- What the network, the registry, the route table, the publisher and the random sources answer is an arbitrary input.
- The instances of one probe round have distinct IDs (`WellKeyed`, `DistinctTargets`).
- Nothing is assumed of thresholds and limits: a failure threshold or a rate limit below one acts as one (`TripCount`,
  `Allowance`), and windows and break durations may be of any size.
- A call that holds one mutex throughout is one step. A call that takes several locks is several steps wherever other
  calls may come in between.

## Where the code departs from what it documents

The model follows the code.

- The breaker is documented to stay open for its break, to let nothing through meanwhile, and to close only after
  `recoveryThreshold` consecutive successes in half-open. A success that is recorded while the breaker is open, by a
  request let through earlier, closes it at once, whatever the thresholds. `DocumentedUnlessLateSuccess` shows that this is
  the only way a run departs from the documented life of a breaker (`Documented`), and `OnlyStragglersCutBreaksShort` that
  a running break can be cut short if and only if a request is outstanding. `LateSuccessCutsBreakShort` gives the run, and
  `GoodResponseCutsBreakShort` the same in the gateway. The health worker is not affected (`WorkerBreakersAreDocumented`).
- "Only one probe at a time" fails exactly because of stragglers: from a tripped breaker, two probes can come to be in
  flight if and only if a request is outstanding that does not hold the half-open slot (`SecondProbeNeedsStraggler`).
  `TwoProbesAtOnce` gives the run, and `EveryBreakerCanDoubleProbe` one for any settings.
- The first request of a rate-limit window passes even if the limit is zero or negative: such a limit acts as one
  (`LowLimitActsAsOne`).
- Round robin repeats a position at the pick that wraps its 64-bit counter (`WrapRepeats`); it is fair exactly until
  then (`FairUntilWrap`).
- A service named like another one with "-weighted" appended shares that one's weighted counter (`SharedCounters`),
  which can keep an instance from ever being selected (`SharedCounterStarves`).
- A round in which one service's instances cannot be listed evicts that service's cache entries, just as if they had
  been deregistered (`FailedListingEvicts`).
- Overlapping calls on one service can leave the event log ending in a status that is not the tracked one, if and only if
  two of them store different statuses and the service is tracked or being registered (`OutOfStepIffDifferent`). Two reports
  can, even if one repeats the tracked status (`OverlapBreaksReplay`, and `CrossingReports` from the empty server on), and
  so can a registration and a report (`RegistrationBreaksReplay`).

## Model

| member | source | states |
|---|---|---|
| Breakers.CircuitBreaker.constructor | internal/healthmonitor/breaker.go:51-59 | a new breaker is closed with nothing counted and recovers after one success |
| Breakers.CircuitBreaker.WithRecovery | internal/healthmonitor/breaker.go:63-74 | as above, with a recovery threshold raised to at least one |
| Breakers.CircuitBreaker.Allow | internal/healthmonitor/breaker.go:80-105 | the answer and the new state are those of the step `BreakerRuns` reasons about: open admits once the break is over and turns half-open, half-open admits if the slot is free and takes it |
| Breakers.CircuitBreaker.RecordSuccess | internal/healthmonitor/breaker.go:109-128 | the whole new state after a success, in each of the three states |
| Breakers.CircuitBreaker.RecordFailure | internal/healthmonitor/breaker.go:131-143 | the whole new state after a failure, which opens a half-open breaker always and any other at the threshold |
| Breakers.CircuitBreaker.Look | internal/healthmonitor/breaker.go:146-155 | reading the state turns an open breaker half-open once the break is over, and leaves the slot free |
| Breakers.BreakerTable.Get | internal/gateway/proxy.go:209-218 | the breaker of an ID is made fresh on first use, belongs to no other ID, and no other breaker changes |
| Breakers.BreakerTable.Ask | internal/gateway/proxy.go:101-102 | asking through the table changes the value of that ID's breaker alone, as `Allow` does |
| Breakers.BreakerTable.Tell | internal/gateway/proxy.go:109-116 | an outcome changes the breaker that admitted the request and no other |
| BreakerRuns.RunInv | internal/healthmonitor/breaker.go:80-155 | in every state of every interleaving: the counters are the trailing runs of the outcome log, a taken slot is held by an outstanding probe, and half-open is entered only after a full break |
| BreakerRuns.NoLostProbeSlot | internal/healthmonitor/breaker.go:80-143 | the half-open slot is taken only while the request that took it is outstanding; with nothing outstanding, `Allow` admits if and only if no break is running |
| BreakerRuns.OpensExactlyAtThreshold | internal/healthmonitor/breaker.go:131-143 | in every run `failureCount` is the length of the trailing failure run, and a closed breaker opens exactly when that reaches the threshold |
| BreakerRuns.StepAsDocumented | internal/healthmonitor/breaker.go:80-143 | a call in a run does what is documented (closed: opens exactly at the threshold; open: lets nothing through and stays open for the break, and does not close; half-open: closes exactly after recoveryThreshold consecutive successes in half-open) if and only if it is not a success recorded while open |
| BreakerRuns.DocumentedUnlessLateSuccess | internal/healthmonitor/breaker.go:48-128 | a whole run is as documented if and only if no success is recorded while open, for every recovery threshold |
| BreakerRuns.SequentialRunsAreDocumented | internal/healthmonitor/breaker.go:80-143 | when requests do not overlap, every call does what is documented |
| BreakerRuns.BreakIsKept | internal/healthmonitor/breaker.go:84-95 | an open breaker stays open to any moment before its break is over if and only if no late success is recorded by then, and until one is, nothing is let through |
| BreakerRuns.FailuresStartBreaks | internal/healthmonitor/breaker.go:138-142 | a failure in half-open, or one with at least a threshold's worth of consecutive failures, even while open, leaves the breaker open with a break that starts at that moment; no other call moves the start of a break |
| BreakerRuns.BreakCountsFromLastFailure | internal/healthmonitor/breaker.go:138-142 | in every run the break of a tripped breaker counts from the last such failure |
| BreakerRuns.FailureIsFollowedByBreak | internal/healthmonitor/breaker.go:84-95 | after such a failure the breaker is open to any moment before a whole break has passed if and only if no late success is recorded by then, and until one is, nothing is let through |
| BreakerRuns.LookFindsHalfOpen | internal/healthmonitor/breaker.go:146-155 | reading the state of an open breaker finds it half-open if and only if the break is over, and then the next request is let through |
| BreakerRuns.OnlyStragglersCutBreaksShort | internal/healthmonitor/breaker.go:84-128 | while a break is running, something can be let through before it is over if and only if a request is outstanding |
| BreakerRuns.LateSuccessCutsBreakShort | internal/healthmonitor/breaker.go:126-127 | a concrete run, for any recovery threshold, that lets a request through in the middle of a break |
| BreakerRuns.FollowsLogUnlessLateSuccess | internal/healthmonitor/breaker.go:109-128 | the outcome log by itself decides throughout a run whether the breaker is closed if and only if no success is recorded while open or the recovery threshold is one |
| BreakerRuns.SequentialRunsFollowLog | internal/healthmonitor/breaker.go:109-143 | when requests do not overlap, a tripped breaker closes exactly after `recoveryThreshold` successes in a row |
| BreakerRuns.LateSuccessClosesAtOnce | internal/healthmonitor/breaker.go:126-127 | a concrete run with two overlapping requests that closes the breaker after fewer successes than `recoveryThreshold` |
| BreakerRuns.ProbesAreSeparated | internal/healthmonitor/breaker.go:84-104 | in every run an outcome is recorded between any two requests let through in half-open |
| BreakerRuns.AtMostOneProbe | internal/healthmonitor/breaker.go:76-105 | if no request let through while closed is outstanding whenever open turns half-open, the holder of the slot is the only request in flight in half-open and no probe is in flight elsewhere |
| BreakerRuns.SecondProbeNeedsStraggler | internal/healthmonitor/breaker.go:76-143 | exact condition: a run that ends with the breaker tripped can go on, without letting anything through while closed, to two probes in flight if and only if a request is outstanding at its end that does not hold the slot, whether the slot is taken, free or the breaker still open |
| BreakerRuns.ContinuationIsExclusive | internal/healthmonitor/breaker.go:84-104 | without such a straggler, the holder of the slot stays the only request in flight for as long as nothing is let through while closed |
| BreakerRuns.StragglerAdmitsSecondProbe | internal/healthmonitor/breaker.go:135-142 | with the slot taken, the failure of a straggler and one more break put a second probe beside the first |
| BreakerRuns.TwoProbesAtOnce | internal/healthmonitor/breaker.go:80-143 | a concrete run of six calls on a fresh breaker that ends with two probes in flight |
| BreakerRuns.EveryBreakerCanDoubleProbe | internal/healthmonitor/breaker.go:80-143 | whatever the thresholds and the break duration, a fresh breaker has a run that ends with two probes in flight |
| BreakerRuns.FailingBackendBound | internal/healthmonitor/breaker.go:80-155 | if every admitted call fails before the next is let through, admissions beyond the threshold times the break duration never exceed the time passed, whatever refused calls and `State` calls are mixed in |
| BreakerRuns.FailingProbesBound | internal/healthmonitor/breaker.go:80-155 | in every interleaving without a success, the probes let through times the break duration never exceed the time passed |
| RateLimits.RateLimiter.constructor | internal/gateway/middleware.go:76-84 | no buckets, and the window in nanoseconds |
| RateLimits.RateLimiter.Allow | internal/gateway/middleware.go:121-138 | the answer and the one bucket that changes, for a missing, an expired, a full and an open bucket |
| RateLimits.RateLimiter.Sweep | internal/gateway/middleware.go:95-104 | exactly the expired buckets go, in whatever order the map is visited |
| RateLimitRuns.AnswersAreTheClientsOwn | internal/gateway/middleware.go:95-138 | every answer in every run is that of a limiter that never sweeps and has seen only this client's calls: sweeps are invisible and clients independent |
| RateLimitRuns.SweepLeavesRunningWindows | internal/gateway/middleware.go:98-102 | after a sweep exactly the clients whose window is still running have a bucket |
| RateLimitRuns.RateBound | internal/gateway/middleware.go:121-138 | any closed interval of n windows holds fewer than n + 1 allowances of one client's admitted requests, in every run |
| RateLimitRuns.LowLimitActsAsOne | internal/gateway/middleware.go:127-134 | in every run a limit below one gives the answers of a limit of one, so a client's first request passes whatever the limit |
| RateLimitRuns.RateBoundIsAttained | internal/gateway/middleware.go:121-138 | for n up to the window in nanoseconds, some run admits exactly one request less than n + 1 allowances, so the bound cannot be lowered |
| RateLimitRuns.BucketCounts | internal/gateway/middleware.go:125-137 | a bucket's count is the number of requests admitted since its window opened |
| RateLimitRuns.DenialMeansSpent | internal/gateway/middleware.go:132-134 | a refusal means that exactly one allowance was admitted in the window still running |
| RateLimitRuns.CompliantClientsPass | internal/gateway/middleware.go:125-137 | a client with at most one allowance of calls in every closed interval of one window is never refused |
| RoundRobin.Position | internal/router/balancer.go:129-131 | the index is in range for every 64-bit counter value, the smallest included |
| RoundRobin.HitsAsQuotients | internal/router/balancer.go:127-132 | before the wrap, the hits of one position in any stretch of picks are a difference of two quotients |
| RoundRobin.BlockShare | internal/router/balancer.go:127-132 | a block of neighbouring positions gets its exact share of any stretch of picks |
| RoundRobin.FairUntilWrap | internal/router/balancer.go:127-132 | every stretch of the first n picks over k positions hits each position m / k times, rounded down or up, if and only if k is one or n is at most 2^63 - 1 |
| RoundRobin.WrapRepeats | internal/router/balancer.go:282-290 | the pick that wraps the counter hits the same position as the one before |
| Routing.FirstNamedStrategyDecides | internal/router/balancer.go:215-222 | the first candidate that names a strategy decides it |
| Routing.NamesIgnoreCase | internal/router/router.go:25-40 | a strategy name and its lower-case form mean the same |
| Routing.NamesMeanStrategies | internal/router/router.go:25-40 | each spelling of a strategy means that strategy, and a name that is no spelling means round robin |
| Routing.LowerOfAnyCase | internal/router/router.go:26-26 | a spelling with any of its letters in upper case is still that spelling |
| Routing.WeightIsRead | internal/router/balancer.go:160-165 | a positive 64-bit weight written in decimal is read back exactly, and zero or a larger number counts as one |
| Routing.PlusSignIsIgnored | internal/router/balancer.go:160-165 | a plus sign before the number changes nothing |
| Routing.WeightOtherwise | internal/router/balancer.go:160-165 | without a weight, or with one that is empty or has a character that does not belong in a number, an instance weighs one |
| Routing.WithStatusContents | internal/router/balancer.go:195-213 | filtering keeps exactly the instances of the wanted status |
| Routing.WithStatusKeepsOrder | internal/router/balancer.go:195-213 | filtering keeps every instance of the wanted status at its place in the order, each as often as it is listed |
| Weighted.Expand | internal/router/balancer.go:158-169 | the expansion loops build the list the next three members speak about |
| Weighted.ExpandedIsPrefixSum | internal/router/balancer.go:157-171 | the expanded list is a prefix-sum lookup: its length is the total weight and instance i fills exactly the slots between the weights before it and its own end |
| Weighted.SlotOwner | internal/router/balancer.go:157-171 | every slot belongs to some instance |
| Weighted.SlotsOfID | internal/router/balancer.go:157-171 | with distinct IDs a slot returns an ID if and only if it lies in that instance's range |
| Weighted.SharedCounters | internal/router/balancer.go:170-170 | two uses share a counter if and only if they are the same use or one service is named like the other's weighted counter |
| LeastConnections.Scan | internal/router/balancer.go:137-147 | the scan with the -1 sentinel finds the first least load if no load is negative |
| LeastConnections.ReadLoads | internal/router/balancer.go:140-142 | every candidate's load is read and missing counters are created at zero |
| LeastConnections.CountersAreInFlight | internal/router/balancer.go:69-80 | with each ID in one service and each report answering an earlier choice, every counter is the number of requests in flight |
| LeastConnections.NoCounterGoesNegative | internal/router/balancer.go:69-80 | no interleaving of the atomic loads and adds drives a 64-bit counter below zero, as long as the raises fit in 64 bits |
| Hashing.ComputeFnv1a | internal/router/balancer.go:269-280 | the loop computes the hash the next members speak about |
| Hashing.HashSpelledOut | internal/router/balancer.go:270-278 | the empty key hashes to 2166136261, and one more rune is exclusive or with it, then times 16777619 modulo 2^32 |
| Hashing.XorBits | internal/router/balancer.go:276-276 | a bit of the exclusive or is set if and only if it is set in exactly one operand |
| Hashing.HashStepOnWords | internal/router/balancer.go:275-278 | on 32-bit machine words a hash step uses their own exclusive or |
| Hashing.StepRoundTrip | internal/router/balancer.go:275-278 | each hash step is a bijection of the 32-bit state, with an explicit inverse |
| Hashing.SuffixKeepsDifference | internal/router/balancer.go:275-278 | two states stay different under any further runes |
| Hashing.OneRuneChangesHash | internal/router/balancer.go:269-280 | changing one rune of a key changes the hash if and only if the rune is a different one |
| Hashing.TwoRunesReach | internal/router/balancer.go:275-278 | from every state two Unicode scalar values lead to every 32-bit hash |
| Hashing.EveryHashIsReached | internal/router/balancer.go:269-280 | every 32-bit hash is that of some key |
| Statistics.StepsKeepConsistent | internal/router/balancer.go:312-326 | recording and reporting keep every entry's instance count equal to its request count |
| Statistics.Summarize | internal/router/balancer.go:87-123 | the summary is the sums over the entries of the service, and the average divides toward zero |
| Statistics.TotalIsSumOfCounts | internal/router/balancer.go:115-122 | a reported total is the sum of the reported instance counts |
| Statistics.EntryIsHistory | internal/router/balancer.go:257-326 | an entry is its instance's history: the service it was first selected for, its selections, its good and its bad reports since then, and the sum of their response times |
| Statistics.SummaryIsHistory | internal/router/balancer.go:87-123 | a summary adds these up over exactly the instances first selected for the service |
| Statistics.AverageIsQuotient | internal/router/balancer.go:110-113 | the average times the requests is the sum of the response times, rounded toward zero |
| Statistics.TotalsAreSelections | internal/router/balancer.go:257-266 | over all service names the totals add up to the number of selections |
| Statistics.AverageIsBounded | internal/router/balancer.go:110-113 | if no response time exceeds M and no ID is reported on more often than selected, no average exceeds M |
| Balancers.LoadBalancer.constructor | internal/router/balancer.go:23-30 | a balancer starts with no counters and no statistics |
| Balancers.LoadBalancer.Select | internal/router/balancer.go:32-67 | which error case applies, that the instance is a healthy one if there is any and never an unknown one, that it is the one the strategy's own rule picks, and the whole new state |
| Balancers.LoadBalancer.SelectRoundRobin | internal/router/balancer.go:127-132 | one counter advances, and its absolute value picks the instance |
| Balancers.LoadBalancer.SelectWeightedRoundRobin | internal/router/balancer.go:157-171 | the weighted counter advances and picks from the expanded list |
| Balancers.LoadBalancer.SelectLeastConnections | internal/router/balancer.go:134-155 | the first candidate with the least load is taken and its counter raised; counters stay non-negative |
| Balancers.LoadBalancer.SelectIPHash | internal/router/balancer.go:173-186 | the session ID, else the correlation header, else a random key decides by its hash |
| Balancers.StickyByHash | internal/router/balancer.go:183-185 | among up to 2^32 - 1 candidates with distinct IDs, candidate i is chosen for a key if and only if the key's hash leaves remainder i |
| Balancers.EveryCandidateIsSomeSessions | internal/router/balancer.go:173-186 | every candidate is the choice for some session |
| Balancers.KeyPrecedence | internal/router/balancer.go:174-182 | the session ID decides, without one the correlation header, without both the random key |
| Balancers.LoadBalancer.ReportResult | internal/router/balancer.go:69-85 | the ID's positive counters are lowered by one in every service, its statistics updated, nothing else changed |
| Balancers.LoadBalancer.RecordRequest | internal/router/balancer.go:257-266 | the entry of the ID, made for this service if it is new, counts one more request of that ID |
| Balancers.LoadBalancer.RecordReport | internal/router/balancer.go:319-326 | the entry of the ID, if any, counts one more success or failure and the response time |
| Balancers.LoadBalancer.Stats | internal/router/balancer.go:87-123 | the summary of the current statistics |
| Balancers.FilterHealthy | internal/router/balancer.go:195-203 | the healthy instances in order |
| Balancers.FilterNonUnknown | internal/router/balancer.go:205-213 | the instances of known status in order |
| Balancers.CandidateStatuses | internal/router/balancer.go:38-44 | candidates are listed instances of known status, all healthy if any is, and there are none if and only if every status is unknown |
| Balancers.PickIsCandidate | internal/router/balancer.go:46-60 | every strategy returns one of the candidates |
| BalancerRuns.CounterCountsUses | internal/router/balancer.go:224-233 | in every run a round-robin counter depends only on how often it was used itself |
| BalancerRuns.RoundRobinIsFair | internal/router/balancer.go:127-132 | in any part of any run in which a service keeps its k candidates, whatever they were before, m selections return each of them m / k times, rounded down or up, whatever else happens in between |
| BalancerRuns.WeightedIsProportional | internal/router/balancer.go:157-171 | in any part of any run in which a service keeps its candidates, whatever they and their weights were before, m selections over total weight W return an instance of weight w between w times m / W rounded down and rounded up, and exactly w times q if m is q times W |
| BalancerRuns.SharedCounterStarves | internal/router/balancer.go:170-170 | with two instances of equal weight, selections alternating with those of the service that shares their counter all return the second instance |
| BalancerRuns.StarvedInstance | internal/router/balancer.go:170-170 | the same for concrete instances that ask for the weighted strategy in their metadata |
| BalancerRuns.ConnectionsRun | internal/router/balancer.go:134-155 | a run with this strategy alone is a run of the connection counters that always chooses the first least load |
| BalancerRuns.LoadsStayTogether | internal/router/balancer.go:134-155 | in any part of any run in which a service keeps its candidate IDs, with whatever strategies elsewhere, the spread of their loads is at most the larger of one and the spread at its start, plus the number of reports in it |
| BalancerRuns.NewLoadsStayTogether | internal/router/balancer.go:134-155 | from a new balancer on, any two loads differ by at most one plus the number of reports |
| BalancerRuns.LoadsAreInFlight | internal/router/balancer.go:69-80 | in runs with this strategy alone and paired reports, each counter is exactly its instance's requests in flight |
| BalancerRuns.LoadIsLargestBalance | internal/router/balancer.go:69-80 | in every run, with any mix of strategies and any reports, a load is the largest balance (selections of the ID for the service by this strategy minus reports on the ID) of any stretch that ends now |
| BalancerRuns.SessionsStick | internal/router/balancer.go:173-186 | the same non-empty session among the same candidates gets the same instance, whatever came between |
| BalancerRuns.StatsAreCounted | internal/router/balancer.go:62-64 | the statistics of a run are those of its selections and reports, so all that `Statistics` proves holds of them |
| BalancerRuns.StatsReportHistory | internal/router/balancer.go:87-123 | in every state of every run, what Stats reports of a service are the selections, good and bad reports and response times of the instances first selected for it |
| BalancerRuns.TotalsAreSelections | internal/router/balancer.go:87-123 | in every state of every run the totals over all services are the selections made so far |
| Proxies.OwedReplyIsUnique | internal/gateway/proxy.go:79-140 | a finished history of attempts owes exactly one reply |
| Proxies.RetriesAreUsedUp | internal/gateway/proxy.go:83-122 | a request that gets no response below 500 is attempted exactly RetryCount + 1 times |
| Proxies.Proxy.constructor | internal/gateway/proxy.go:29-37 | a proxy starts without breakers; they will recover after one success |
| Proxies.Proxy.ServeHTTP | internal/gateway/proxy.go:62-141 | 404 or 502 without an attempt, or what `Retry` promises |
| Proxies.Proxy.Retry | internal/gateway/proxy.go:79-140 | the reply is the one owed (the first response below 500, else the last response received, else 503 if some attempt was refused, else 502) after at most RetryCount + 1 turns, each at the backend last looked up; an attempt is refused if and only if that backend's breaker says so, and each admission tells exactly one outcome to the breaker that made it |
| Proxies.Proxy.TakeTurn | internal/gateway/proxy.go:100-122 | one turn: one breaker asked, and told one outcome if and only if it admitted |
| Proxies.TurnIsRequest | internal/gateway/proxy.go:101-116 | a turn is the calls of one request on one breaker: `Allow`, then a success for a status below 500, or a failure for 500 and above or no response; no other breaker changes |
| Proxies.TurnsExtendRuns | internal/gateway/proxy.go:83-122 | the turns of a request carry each breaker from the end of a legal run to the end of a longer one whose further outcomes are those of the turns at its backend |
| Proxies.ServedBreakersFollowLog | internal/gateway/proxy.go:62-141 | hence after a served request those outcomes decide each breaker's state, and a backend that only fails gets no more requests than breaks allow |
| Gateways.BreakersRunLegally | internal/gateway/proxy.go:100-116 | whatever concurrent requests do to a breaker is a legal run of that breaker, so everything proved in `BreakerRuns` holds in the gateway |
| Gateways.RunInvariants | internal/gateway/proxy.go:83-122 | in every interleaving a request is outstanding at a breaker exactly while it waits for that backend, and its loop variables are those of its own attempts |
| Gateways.RepliesAreOwed | internal/gateway/proxy.go:79-140 | in every interleaving each reply is the one owed for that request's attempts, and a request that has its reply occupies no breaker |
| Gateways.RequestsCanProceed | internal/gateway/proxy.go:83-122 | until its reply a request can always start or end a turn |
| Gateways.IdleBackendIsAdmitted | internal/gateway/proxy.go:101-116 | with no request waiting on a backend, its breaker refuses if and only if a break is running |
| Gateways.BreakersFollowLog | internal/gateway/proxy.go:214-214 | under every interleaving the outcome log by itself decides whether a gateway breaker is closed, because one success is enough |
| Gateways.BreaksAreKept | internal/gateway/proxy.go:101-116 | under every interleaving a backend's open breaker stays open to any moment before its break is over if and only if no request waiting on it gets a good response by then, and until one does, nothing is sent to that backend |
| Gateways.GoodResponseCutsBreakShort | internal/gateway/proxy.go:109-110 | a concrete run of three requests in which the third is sent to the backend in the middle of its break |
| Health.Cache.constructor | internal/healthmonitor/cache.go:41-45 | an empty cache |
| Health.Cache.Update | internal/healthmonitor/cache.go:48-65 | one entry is replaced |
| Health.Cache.GetAll | internal/healthmonitor/cache.go:68-77 | exactly the entries, each once |
| Health.Cache.Remove | internal/healthmonitor/cache.go:107-112 | one entry is removed |
| Health.Cache.PreviousStatus | internal/healthmonitor/cache.go:140-148 | the cached status, or unknown |
| Health.Worker.constructor | internal/healthmonitor/worker.go:233-234 | the settings every breaker of the worker gets |
| Health.Worker.ProbeInstance | internal/healthmonitor/worker.go:122-139 | the new breakers, cache and events are those of probing this instance once |
| Health.Worker.RunProbe | internal/healthmonitor/worker.go:122-136 | the finding is the probe's, or an open circuit if the breaker refuses, and that ID's breaker alone changes |
| Health.Worker.UpdateStatus | internal/healthmonitor/worker.go:201-223 | the cache entry is replaced, and an event published if and only if a known status changes |
| Health.Worker.ProbeAll | internal/healthmonitor/worker.go:70-120 | nothing happens if services cannot be listed; else all listed instances are probed and the cache keeps exactly their IDs |
| Health.NoteLive | internal/healthmonitor/worker.go:94-98 | the IDs of a service's instances are added to the live ones |
| Health.Worker.ProbeService | internal/healthmonitor/worker.go:94-109 | a service's IDs become live and all its instances are probed |
| Health.Worker.EvictStale | internal/healthmonitor/worker.go:115-119 | exactly the entries that are not live are dropped |
| Rounds.SharesOnTheWay | internal/healthmonitor/worker.go:100-139 | at every moment of every interleaving, each ID's breaker, cache entry and events stand where its own goroutine stands |
| Rounds.ScheduleDoesNotMatter | internal/healthmonitor/worker.go:70-139 | after any complete interleaving, each ID's breaker, cache entry and events are those of probing it alone |
| Rounds.SchedulesAgree | internal/healthmonitor/worker.go:70-139 | two complete interleavings of a round leave the same breakers, cache and events per ID |
| Rounds.InterleavingIsSequential | internal/healthmonitor/worker.go:70-139 | any complete interleaving leaves what probing the instances one by one in any order leaves |
| Rounds.RoundShare | internal/healthmonitor/worker.go:70-120 | what a round with its eviction does to each ID |
| Rounds.CacheHoldsListedIDs | internal/healthmonitor/worker.go:88-119 | after a round whose services were listed, an ID is cached if and only if some service's instances were listed with it |
| Rounds.FailedListingEvicts | internal/healthmonitor/worker.go:88-119 | an ID of a service whose instances could not be listed loses its cache entry |
| Rounds.RoundFindings | internal/healthmonitor/worker.go:122-139 | after a round an ID it listed is cached with what its probe found if its breaker let the probe through, and as unhealthy if not |
| Rounds.OpenMeansUnhealthy | internal/healthmonitor/worker.go:125-128 | an ID that is listed while the break of its breaker is running is cached as unhealthy, whatever a probe would find |
| Rounds.RoundEvents | internal/healthmonitor/worker.go:201-222 | a round publishes about an ID exactly the change of its cached status, if that was known, with the ID's service and message |
| Rounds.HealthyNewsIsProbed | internal/healthmonitor/worker.go:122-139 | no round announces that an ID became healthy unless a probe let through found so |
| Rounds.EventsAreChanges | internal/healthmonitor/worker.go:211-222 | over all rounds no event starts from unknown or from its own target |
| Rounds.QuietKeepsStatus | internal/healthmonitor/worker.go:201-222 | without an event or a gap the cached status does not change |
| Rounds.EventsJoinUp | internal/healthmonitor/worker.go:201-222 | consecutive events of an ID join up unless it was uncached or of unknown status in between |
| Rounds.WorkerBreakersRunAlone | internal/healthmonitor/worker.go:122-139 | over all rounds and schedules, the worker's breaker of an ID has gone through a legal run with one request at a time whose outcomes are those of the ID's own probes |
| Rounds.WorkerBreakersAreDocumented | internal/healthmonitor/worker.go:122-139 | hence every call on a worker's breaker does what is documented, for every recovery threshold |
| Rounds.WorkerBreakersFollowLog | internal/healthmonitor/worker.go:122-139 | the outcomes of an ID's probes decide whether its breaker is closed, and its slot is free between rounds |
| Rounds.FailingInstanceBound | internal/healthmonitor/worker.go:122-139 | an instance that keeps failing is probed the threshold's number of times, then at most once for each break that has passed |
| Discovery.LogReplays | internal/discovery/server.go:85-250 | in every run whose overlapping calls on a service never store different statuses, whenever no call on it is under way the log replays to its tracked status |
| Discovery.RunSettles | internal/discovery/server.go:85-250 | the same with calls under way: the log is in step, or some call is about to publish the tracked status |
| Discovery.ChangesChainUp | internal/discovery/server.go:85-250 | if calls on one service do not overlap, each change in the log starts from the status replayed before it, and changes and deregistrations name the service as last registered |
| Discovery.TrackedTimes | internal/discovery/server.go:94-235 | under every interleaving an entry tells when its service was registered and, since then, last deregistered, checked and updated |
| Discovery.RunIsSound | internal/discovery/server.go:85-250 | without overlaps, what holds at each stage of the one call under way |
| Discovery.OutOfStepIffDifferent | internal/discovery/server.go:85-250 | from a service at rest and in step, calls of given kinds can leave the log out of step if and only if two of the kinds store different statuses and the service is tracked or can be registered |
| Discovery.OverlapBreaksReplay | internal/discovery/server.go:211-250 | from any state that tracks a service, two overlapping reports of different statuses, one of them new, can leave the log out of step |
| Discovery.RegistrationBreaksReplay | internal/discovery/server.go:94-117 | from any state, a registration and an overlapping report of another status than healthy can too |
| Discovery.CrossingReports | internal/discovery/server.go:94-250 | a closed run from the empty server, one registration and two crossing reports, that leaves the log out of step |
| Discovery.Server.constructor | internal/discovery/server.go:45-52 | an empty table and log, in step |
| Discovery.Server.Register | internal/discovery/server.go:54-130 | table and log after a registration or its refusal, still in step |
| Discovery.Server.Deregister | internal/discovery/server.go:132-169 | table and log after a deregistration or its refusal, still in step |
| Discovery.Server.ReportHealth | internal/discovery/server.go:207-253 | table and log after a report or its refusal: an event if and only if the service is tracked and its status changes, still in step |

## Left out

- Forwarding, body buffering, header copying and `retryDelay` of internal/gateway/proxy.go: a forward is an arbitrary result, a delay an arbitrary advance of the clock.
- JWT, CORS, request logging and client addresses of internal/gateway/middleware.go: they rest on libraries; a client is any key.
- The ticker of `evictLoop`: sweeps may come at any time.
- The route table of internal/gateway/routes.go: a lookup returns any backend or none.
- The Consul registry, the messaging transport, the dashboard, the commands and the generated code.
- HTTP and TCP probes and the choice between them: a probe finds any status, probe type and message.
- Generated service IDs, address resolution, metadata merging, health status conversion, `GetInstances`, `GetServices` and the metadata of a registration in internal/discovery/server.go: single branches or library calls.
- `Get`, `GetByService`, `RemoveByService` and `EvictOlderThan` of internal/healthmonitor/cache.go: they would only add easy members.
- Event IDs, event timestamps, log output and failures of the publisher: events count in the order they are handed over.
- Panics: a hashed selection among a multiple of 2^32 candidates divides by zero and is excluded by `Hashable`.
- Reads of a tracking entry after its lock is released: internal/discovery/server.go looks an entry up under the lock and reads its fields just after; both are one step here.
- Breakers.CircuitBreaker.RecordFailure: `failureCount` is unbounded here, where Go's counter would wrap after 2^63 failures in a row.
- Statistics.StepsKeepConsistent: request counts and response times are unbounded here, where Go's would wrap at 64 bits.
- Statistics.Summarize: its sums are unbounded for the same reason.
- LeastConnections.CountersAreInFlight: the counters are unbounded here; `NoCounterGoesNegative` models them at 64 bits.
- BalancerRuns.LoadsStayTogether: speaks of calls one after the other; concurrent scans may read loads that change under them.
- Balancers.LoadBalancer.SelectLeastConnections: the scan and the raise are one step on unbounded counters; `NoCounterGoesNegative` models the atomic steps.
- Weighted.Expand: the expanded list is not limited by memory.
- Routing.NamesIgnoreCase: lower case covers the characters that can lead to a strategy name, not all of Unicode.
