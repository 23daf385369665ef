# Hikyaku: a verified model of its balancer, streams and small protocols

Hikyaku is an LLM reverse proxy. This project models the parts of it where state, concurrency and
arithmetic meet, and proves what holds of them over every input and every run.

- **Load balancer.** The affinity table is modelled twice: as a recency-ordered sequence of pins
  (`AffinityModel`, `AffinityRuns`) and as the code's map plus doubly linked list (`LruList`,
  `AffinityStore`), the second proved against the first. `BackendModel`, `FlowStats` and
  `BackendState` hold a backend's health, ramp-up, cooldown, metrics and counters; `LoadScore`,
  `SelectorModel` and `StickySelector` the choice; `Balancer` the methods over groups.
  `BalancerSystem` is the state machine in which selections, requests, invalidations, probe loops
  and passive recovery interleave step by step; a selection reads one backend per step, and starts
  from any pool that the scans of `PoolScan` can yield. `BalancerRefinement` and
  `SelectionRefinement` show that the effects of CompleteAndDecr, markHealthy, markUnhealthy,
  InvalidatePin, a passive-recovery tick and Select, when nothing interrupts them, are runs of its
  steps, and `BalancerRuns` follows the heap object through Select, InvalidatePin and
  CompleteAndDecr from one of its states to the next. The whole-run theorems are in
  `SelectionReadings`, `SessionStability`, `FailoverExclusion`, `DemotionSafety` and
  `FlowConservation`; the runs of `OverlappingSelections` and `TrustOutlivesMark`, built from the
  steps in `TwoBackends`, show that their conditions are needed. `ReloadedCounters` follows the
  counters across reloads that replace the balancer.
- **Streams.** `SseModel`/`SseParser` (line parser and capture), `IdleBody` (reader goroutine,
  one-slot channel and leftovers), `InterceptedBody`.
- **Small protocols.** `Semaphores` (swapped on reload), `Capture` (compare-and-swap window),
  `LoopDetector` (counting with background cleanup).
- **Transformations and arithmetic.** `ParamPipeline`, `DeepMerge` and `OllamaRequest` (flatten,
  merge, inject, translate, nest), `AffinityKey` (64-bit FNV-1a), `CodeFences`.

Each class or method with state is proved against a function of the values before it; the theorems
are about these functions. Time is an explicit instant in nanoseconds, passed as `now` and never
decreasing over a run. Scores and durations in metrics are real numbers.

## Where code and documentation disagree

The model follows the code.

- LOAD-BALANCING.md:447 says that bailing off an overloaded pin leaves the pin alone; the code
  overwrites it unless it chooses the same backend again or finds none ready
  (`SelectorModel.BailedPinSurvives`, `SelectorModel.OverloadedPinMoves`).
- LOAD-BALANCING.md:524-525 promises escalation after M further requests; for M >= 2, the default,
  it never comes (`LoopDetector.TwoOrMoreNeverEscalates`).
- Recovery after failed probes is meant to ramp up; the probe loops zero their counter before they
  ask whether it was positive (`DemotionSafety.ProbesNeverRampUp`).
- LOAD-BALANCING.md:445 has the first backend included by force when all are unhealthy; the code
  then takes every unhealthy one, and the force-include branch is reached exactly when every member
  was read as unhealthy in one scan and as healthy in the next
  (`PoolScan.ForceIncludesIff`, `PoolScan.ForceIncludeHappens`).
- Requests that return early after being counted in are never counted out
  (`FlowConservation.LeaksAreForever`, `FlowConservation.LeaksBlindProbesAndPins`).
- config.example.yaml:103 limits the requests in flight to a backend; across a reload the limit
  holds per semaphore generation (`Semaphores.LimitCanBeExceeded` says exactly when it can be
  exceeded).
- LOAD-BALANCING.md:333-351 describes look-up, choice and pinning as one sequence; the code holds no
  lock across it, so two overlapping first requests of a session can pin one after the other, and
  the second pin stays (`OverlappingSelections.OverlappingFirstSelections`); and a selection that
  trusts a pin returns a backend marked as failing meanwhile
  (`TrustOutlivesMark.TrustedBackendIsReturned`).
- A reload replaces the balancer while requests run; they are counted out on the new one. So are
  requests of routes that name a backend, which nothing counts in
  (`ReloadedCounters.InFlightIsOpenMinusLate`).
- After Close the reader goroutine of an idle-timeout body may never end
  (`IdleBody.ReaderEndsIff`).
- docs/configuration.md:258 says that the clamp always wins and that callers cannot override it. A
  clamped max_completion_tokens is dropped as soon as the caller, or a default, sets max_tokens
  (`ParamPipeline.ClampedLimitHoldsIff`, `ParamPipeline.CallerEscapesClamp`).
- The two token limits are deduplicated because backends reject both; injection runs later and can
  bring the second one back (`ParamPipeline.BothLimitsIff`).
- An option called "model" takes the real model with it under options
  (`ParamPipeline.ModelStaysOnTop`).

## Model

| member | source | states |
|---|---|---|
| AffinityRuns.ApplyKeeps | internal/balancer/store.go:53-146 | every operation of the table keeps its keys distinct and its size at most max(0, maxSize) |
| AffinityRuns.RunKeeps | internal/balancer/store.go:53-146 | so does every sequence of operations |
| AffinityRuns.SetFronts | internal/balancer/store.go:66-89 | after Set with capacity for one, the key is first with the given backend and time, and the others follow in their old order, cut at capacity only when the key is new |
| AffinityRuns.SetEvictsTail | internal/balancer/store.go:79-88 | inserting an absent key into a full table removes exactly the least recently used pin |
| AffinityRuns.StepAhead | internal/balancer/store.go:66-98 | the keys more recent than a pin grow by the key just used and by nothing else, for reads, inserts and touches exactly |
| AffinityRuns.StackDistance | internal/balancer/store.go:66-98 | LRU stack distance: a pin not deleted, swept or migrated survives every run while fewer than maxSize distinct other keys are ahead of it or used |
| AffinityRuns.RecentSurvives | internal/balancer/store.go:66-98 | the same for a key just set or touched: only maxSize distinct other keys can push it out |
| AffinityRuns.EvictedIffDistance | internal/balancer/store.go:66-98 | exact law: with only reads, inserts and touches, the front key is still stored if and only if fewer than maxSize distinct other keys were used |
| AffinityRuns.ExactDistance | internal/balancer/store.go:66-98 | the same law for a pin at any position |
| AffinityRuns.AbsentStays | internal/balancer/store.go:66-146 | over every run, sweeps and deletions included, a key that is out of the table comes back only by Set |
| AffinityModel.DropTwice | internal/balancer/store.go:109-146 | removing two sets of keys one after the other removes their union, in either order of the sweeps |
| AffinityModel.WithoutIsDrop | internal/balancer/store.go:100-107 | deleting one key is the one-key sweep |
| AffinityModel.WithoutKeys | internal/balancer/store.go:100-107 | deletion removes the key's pin and no other |
| LruList.List.PushFront | internal/balancer/store.go:77 | the ring of list elements gets the new element at the front, both links of every element intact |
| LruList.List.Remove | internal/balancer/store.go:87 | exactly the given element leaves the ring, the others stay doubly linked in order |
| LruList.List.MoveToFront | internal/balancer/store.go:73 | the element moves to the front, the others stay doubly linked in order |
| LruList.List.Back | internal/balancer/store.go:81 | the last element, or null for an empty list |
| AffinityStore.MapIsListed | internal/balancer/store.go:36-42 | the map holds exactly the listed keys, each with its own node |
| AffinityStore.Store.constructor | internal/balancer/store.go:44-51 | a valid empty store |
| AffinityStore.Store.Get | internal/balancer/store.go:53-64 | the heap structure answers as the recency sequence does: the pin unless absent or older than the time-to-live |
| AffinityStore.Store.Set | internal/balancer/store.go:66-89 | map, nodes and list after the call stand for the recency sequence with the key set in front and the tail evicted down to capacity |
| AffinityStore.Store.Touch | internal/balancer/store.go:91-98 | map and list stand for the sequence with the pin refreshed and in front |
| AffinityStore.Store.Delete | internal/balancer/store.go:100-107 | map and list stand for the sequence without the key |
| AffinityStore.Store.EvictExpired | internal/balancer/store.go:109-123 | exactly the expired pins are gone, order kept, whatever order the map is scanned in |
| AffinityStore.Store.Len | internal/balancer/store.go:126-130 | the map's size is the number of pins |
| AffinityStore.Store.Migrate | internal/balancer/store.go:132-146 | exactly the pins to backends that are not kept are gone, order kept |
| FlowStats.FlowStats.Dispatch | internal/balancer/flow_stats.go:31-36 | one more dispatched, everything else unchanged but the time stamp |
| FlowStats.FlowStats.Complete | internal/balancer/flow_stats.go:39-53 | one more completed and one more of exactly one kind: timeout before success before failure |
| FlowStats.FlowStats.GetStats | internal/balancer/flow_stats.go:57-85 | with balanced counters the stall count is never clipped and the success rate lies between 0 and 1 |
| BackendState.BackendState.SetHealthy | internal/balancer/state.go:87-99 | healthy with a clean counter; in ramp-up only for a positive length |
| BackendState.BackendState.RecordFailure | internal/balancer/state.go:103-115 | the counter becomes the caller's; a healthy backend at or past the threshold (3 when 0) is demoted, an unhealthy one keeps its time stamp |
| BackendState.BackendState.RecordDispatchFailure | internal/balancer/state.go:120-127 | the cooldown runs for the given seconds, ten when not positive |
| BackendState.BackendState.RecordRequestOutcome | internal/balancer/state.go:140-170 | a success heals and resets, a failure counts and demotes at the threshold |
| BackendModel.FailuresDoNotDelayRetry | internal/balancer/state.go:162-184 | over every trace without a success, further failures and timeouts of an unhealthy backend do not put its retry off |
| BackendState.BackendState.UpdateMetrics | internal/balancer/state.go:187-195 | the scraped figures are stored and nothing else changes |
| BackendModel.HealthIsASuffixProperty | internal/balancer/balancer.go:608-627 | from traffic alone a backend is healthy if and only if, timeouts erased, fewer than three failures trail; the counter is their number |
| LoadScore.DispatchRaisesScore | internal/balancer/select.go:46-86 | without timeouts, one more dispatched request raises the score by at least three per weight |
| LoadScore.DispatchCanLowerScore | internal/balancer/select.go:46-86 | with timeouts it need not: a concrete backend scores lower with one more request than without |
| LoadScore.LowestIsLeast | internal/balancer/select.go:24-33 | the lowest score is attained and no score is below it |
| LoadScore.TiesMembers | internal/balancer/select.go:24-33 | the ties are exactly the positions with the lowest score |
| LoadScore.LeastIndexIs | internal/balancer/select.go:21-40 | the chosen position has the lowest score and exactly keyHash mod n such positions before it, n being their number; for hash 0 it is the first |
| LoadScore.LeastLoadedIsLeast | internal/balancer/select.go:21-40 | the choice is a pool member and nobody scores lower |
| LoadScore.PickLeastLoaded | internal/balancer/select.go:21-40 | the one-pass loop with its list of ties returns that choice |
| LoadScore.ScoreBounds | internal/balancer/select.go:46-86 | with balanced counters, L + 3*stalled <= weight*score <= 12*L + 3*stalled |
| AffinityKey.HashBytes | internal/balancer/affinity_key.go:76-87 | the loop computes FNV-1a modulo 2^64 |
| AffinityKey.TimesInverse | internal/balancer/affinity_key.go:78-84 | multiplying by 0xCE965057AFF6957B undoes the prime modulo 2^64 |
| AffinityKey.MixSeparatesStates | internal/balancer/affinity_key.go:82-85 | one round is injective in the state |
| AffinityKey.MixSeparatesBytes | internal/balancer/affinity_key.go:82-85 | one round is injective in the byte |
| AffinityKey.FnvSeparatesStates | internal/balancer/affinity_key.go:82-85 | hashing the same bytes from different states gives different results |
| AffinityKey.FnvSeparatesOneByte | internal/balancer/affinity_key.go:76-87 | texts of one length that differ in exactly one byte have different hashes |
| AffinityKey.FormatHexInjective | internal/balancer/affinity_key.go:39 | base-16 formatting is injective |
| AffinityKey.StringifyContent | internal/balancer/affinity_key.go:47-66 | string content as it is, text parts of an array concatenated, anything else empty |
| AffinityKey.FirstUserMessageKey | internal/balancer/affinity_key.go:18-43 | the key of the first user message, empty without one or without a message list |
| AffinityKey.OneByteChangesKey | internal/balancer/affinity_key.go:18-43 | first user messages of one length that differ in exactly one byte within maxBytes get different keys |
| AffinityKey.AppendingKeepsFirstUser | internal/balancer/affinity_key.go:24-32 | appending messages does not change which one is the first user message |
| AffinityKey.AppendingKeepsKey | internal/balancer/affinity_key.go:13-16 | so later turns keep the session's key |
| SelectorModel.ChosenIsSafe | internal/balancer/sticky_selector.go:27-101 | the answer is a pool member, and a failing one only if the whole pool is failing |
| SelectorModel.FreshIsSafe | internal/balancer/sticky_selector.go:62-93 | the choice without a pin is a pool member, and a failing one only if the whole pool is failing |
| SelectorModel.FreshChoiceIsLeast | internal/balancer/sticky_selector.go:62-93 | the choice without a pin scores lowest in its class, and a ramping one means that no ready backend exists |
| SelectorModel.CandidatesAre | internal/balancer/sticky_selector.go:64-93 | the candidates are the best populated class: ready before ramping before failing |
| SelectorModel.BailedPinSurvives | internal/balancer/sticky_selector.go:83-98 | a live pin that is not honoured still leads to its backend afterwards if and only if the fresh choice fell on it again or no pool member is ready; otherwise it leads to the choice, contrary to LOAD-BALANCING.md:447 |
| SelectorModel.OverloadedPinMoves | internal/balancer/sticky_selector.go:42-98 | a concrete pool with an overloaded pinned backend and an idle one, in which the pin moves |
| SelectorModel.OnlyOwnPinChanges | internal/balancer/sticky_selector.go:44-98 | a selection writes no pin but its own key's, and that one leads to the answer |
| SelectorModel.FindByIDFinds | internal/balancer/sticky_selector.go:104-111 | the look-up finds a backend of the pool by its id |
| StickySelector.StickyLeastLoaded.Select | internal/balancer/sticky_selector.go:27-101 | the imperative selection over store and pool returns the model's choice and leaves the model's pins; no backend's state changes |
| StickySelector.FindInPool | internal/balancer/sticky_selector.go:104-111 | the loop finds the pool member with the id, or none |
| StickySelector.Split | internal/balancer/sticky_selector.go:64-75 | the three slices hold the ready, ramping and failing members in pool order |
| PoolScan.ForceIncludesIff | internal/balancer/balancer.go:140-163 | a member is included by force if and only if every member was read as unhealthy in the first scan and as healthy in the second |
| PoolScan.ScanGivesMembers | internal/balancer/balancer.go:140-166 | with every member read at an instant of its own during any run: a group that has members gets a non-empty pool of distinct members, from which the machine lets a selection start; an empty group gets none |
| PoolScan.ForceIncludeMeansRecovery | internal/balancer/balancer.go:140-163 | over every run, force-inclusion means that each member of the group was made healthy, by a good probe, a passive recovery or a successful request, between its two readings |
| PoolScan.OnlyThreeStepsHeal | internal/balancer/balancer.go:524-764 | only a good probe, a passive recovery and a successful request make an unhealthy backend healthy |
| PoolScan.ForceIncludeHappens | internal/balancer/balancer.go:140-163 | a complete run from start-up of a group of one backend in which both scans come out empty and it is included by force |
| SelectionReadings.BackedThroughout | internal/balancer/sticky_selector.go:27-101 | over every run: a selection that trusts a pin has read its backend as not failing; the classes and scores it holds it has read, one backend at a time; and what it has chosen it has read as not failing, or its whole pool as failing |
| SelectionReadings.FreshChoiceIsLeastRead | internal/balancer/sticky_selector.go:64-93 | over every run: a fresh choice has the lowest score read among the members of the best class read, and of several such it is the one with as many of them before it as the hash of the key modulo their number |
| SelectionReadings.CandidatesAreBest | internal/balancer/sticky_selector.go:64-93 | the candidates are exactly the members sorted into the best class that has any |
| DemotionSafety.OnlyTwoStepsDemote | internal/balancer/balancer.go:542-572 | a healthy backend turns unhealthy only by a failed request or by the last step of a probe loop past its threshold |
| DemotionSafety.DemotionIsJustified | internal/balancer/balancer.go:542-572 | over every run: each demotion is a non-timeout request failure bringing the counter to at least 3, or ends at least threshold consecutive failed probes whose own checks saw nothing in flight and no success within 60 s |
| DemotionSafety.LoopCountsFailedProbes | internal/balancer/balancer.go:358-396 | over every run a probe loop's counter is the number of its failed probes since its last good one or its start |
| DemotionSafety.HealthyMeansFewFailures | internal/balancer/state.go:103-170 | in every reachable state Healthy implies ConsecutiveFailures < max(3, threshold) |
| DemotionSafety.RampUpOnlyByPassiveRecovery | internal/balancer/balancer.go:740-764 | only a passive recovery with a positive length puts a backend into ramp-up |
| DemotionSafety.ProbesNeverRampUp | internal/balancer/balancer.go:385-392 | a system with probe loops only never ramps up, however it is configured: the loops pass `failures > 0` after zeroing it |
| FailoverExclusion.CooldownLasts | internal/balancer/state.go:120-134 | no later step of any run shortens the ten seconds that InvalidatePin set |
| FailoverExclusion.LocalThroughout | internal/balancer/balancer.go:632-650 | in every reachable state each pin, what each running InvalidatePin found, and what each running selection carries lead to members of their own group |
| FailoverExclusion.MarkedBackendIsExcluded | internal/balancer/balancer.go:632-650 | with every reading of a backend a step of its own: a selection of any group and key that returns the marked backend within ten seconds held, when it was marked, an earlier reading of it as not failing, or has read every member of its pool as failing |
| FailoverExclusion.ReturnsIffDecided | internal/balancer/balancer.go:632-650 | the exact rule for a selection that read some member as not failing and was not between reading the marked backend and deciding when the mark was set: finishing within ten seconds it returns the backend if and only if it had decided for it |
| FailoverExclusion.ReturnsIffNotOverloaded | internal/balancer/sticky_selector.go:41-46 | likewise for one that had read the backend as not failing and was about to read its load: it returns the backend if and only if that reading finds it not overloaded |
| FailoverExclusion.MarkedBackendReadsFailing | internal/balancer/balancer.go:632-650 | every reading of the marked backend within ten seconds of the mark finds it failing, whatever other steps occur meanwhile |
| TrustOutlivesMark.TrustedBackendIsReturned | internal/balancer/sticky_selector.go:37-46 | the first exception is real: a complete run from start-up in which a backend is marked while a selection trusts it and returned within ten seconds, although the other backend is never failing |
| FailoverExclusion.DecisionStands | internal/balancer/sticky_selector.go:27-101 | over every run, once a selection has settled on a backend it carries it to its end and returns it, whatever happens to the backend or the pin |
| FailoverExclusion.SelectionsProceed | internal/balancer/sticky_selector.go:27-101 | in every reachable state a running selection has a next step |
| FailoverExclusion.ReadingsEnd | internal/balancer/sticky_selector.go:27-101 | each reading brings a selection closer to its end: it makes at most 3 n + 6 for a pool of n |
| FailoverExclusion.InvalidationRemovesPin | internal/balancer/balancer.go:632-650 | InvalidatePin ends with the key unpinned |
| FailoverExclusion.PinsSoundThroughout | internal/balancer/store.go:66-89 | in every reachable state each group's pins have distinct keys and respect its capacity |
| SessionStability.PinSurvives | internal/balancer/store.go:66-98 | between two writes of a key its pin stays in the table while fewer than maxSize other keys are written, and only those get ahead of it |
| SessionStability.LookUpFinds | internal/balancer/sticky_selector.go:37-46 | a look-up of the key, granted what stability asks for, finds the pin to b |
| SessionStability.SelectionPins | internal/balancer/sticky_selector.go:95-98 | a fresh choice that its selection found ready leaves the key pinned to it, in front |
| SessionStability.SessionIsStable | internal/balancer/sticky_selector.go:27-101 | with selections split into their single readings and overlapping freely: once the key is pinned to b and no other running selection of it is past its look-up with another result, every selection of the key that finishes later returns b, while each look-up comes within the time-to-live and fewer than maxSize other keys' writes of the last write, each look at b finds it in the pool, not failing and not overloaded, and the pin is not invalidated |
| SessionStability.StableFromFirstSelection | internal/balancer/sticky_selector.go:27-101 | the same from start-up: the first selection that pins the key fixes what all later ones return |
| SessionStability.HeldThroughout | internal/balancer/sticky_selector.go:27-101 | between any two steps of such a run the key's pin, if stored, leads to b, the last write put it in front, and every running selection of the key is on its way to b |
| SessionStability.SettledSelectionBreaksStability | internal/balancer/sticky_selector.go:27-101 | the condition is needed: a selection of the key that has settled on another backend when the key is pinned returns that one by its own last step, in every run |
| SessionStability.OverlapMovesSession | internal/balancer/sticky_selector.go:96-98 | and whatever the key was pinned to, a selection that found another choice of its own ready moves the pin when it writes |
| OverlappingSelections.OverlappingFirstSelections | internal/balancer/sticky_selector.go:37-98 | a complete run from start-up with two overlapping first selections: everything but that condition holds, the first pins x, and the third selection returns the other backend |
| FlowConservation.ConservedThroughout | internal/balancer/balancer.go:176-194 | for one balancer, in every reachable state: InFlight is the number of requests between Incr and Decr, dispatched - completed the number between Dispatch and Complete, and completed = success + failure + timeout |
| FlowConservation.StalledIsExact | internal/balancer/flow_stats.go:71-74 | 0 <= stalled = dispatched - completed <= InFlight, with equality exactly when no request is between paired steps |
| FlowConservation.QuiescentCounters | internal/proxy/server.go:459-460 | with every request over, the counters read the abandoned requests and no more |
| FlowConservation.LeaksAreForever | internal/proxy/server.go:489-493 | a request abandoned on an early return after Dispatch is never counted out again |
| FlowConservation.LeaksBlindProbesAndPins | internal/proxy/server.go:610-615 | after one leak probes can no longer demote the backend, after eleven it counts as overloaded for good |
| FlowConservation.ScoresAreBounded | internal/balancer/select.go:46-86 | in every reachable state the score of a positive-weight backend is within its bounds |
| ReloadedCounters.InFlightIsOpenMinusLate | internal/proxy/server.go:462-635 | across reloads that replace the balancer, and with requests of routes that name a backend and so are never counted in: InFlight is the open requests minus the late ones, exact if and only if none is late, negative if and only if these are the majority |
| ReloadedCounters.StalledIsSentMinusLate | internal/proxy/server.go:126-135 | likewise dispatched - completed |
| ReloadedCounters.LateIsFromBefore | internal/proxy/server.go:635 | a late request was counted in on an older balancer, or never |
| ReloadedCounters.ReloadCanMakeItNegative | internal/proxy/server.go:635 | any request under way during a reload can make the new counter negative |
| Balancer.Balancer.Select | internal/balancer/balancer.go:134-174 | over any map order: a member of the group's pool in the model's sense, chosen and pinned as the model says |
| Balancer.Balancer.BuildPool | internal/balancer/balancer.go:140-166 | the pool enumerates the healthy members, or all members when none is healthy |
| Balancer.Balancer.Incr | internal/balancer/balancer.go:177-184 | with unique ids, one more in flight at that backend and no other change |
| Balancer.Balancer.Decr | internal/balancer/balancer.go:187-194 | one less in flight at that backend and no other change |
| Balancer.Balancer.Dispatch | internal/balancer/balancer.go:584-593 | one more dispatched at that backend and no other change |
| Balancer.Balancer.Complete | internal/balancer/balancer.go:596-605 | one more completed at that backend and no other change |
| Balancer.Balancer.CompleteAndDecr | internal/balancer/balancer.go:608-616 | counters and, unless timed out, health of that backend change as the model says, of no other |
| Balancer.Balancer.RecordOutcome | internal/balancer/balancer.go:619-627 | the outcome is recorded with threshold 3 and no ramp-up |
| Balancer.Balancer.MarkHealthy | internal/balancer/balancer.go:524-540 | healthy again, ramping only if the caller says it was unhealthy and the length is positive |
| Balancer.Balancer.MarkUnhealthy | internal/balancer/balancer.go:542-572 | nothing while requests are in flight or a success is under 60 s old, else a failure against the group's threshold |
| Balancer.Balancer.UpdateMetrics | internal/balancer/balancer.go:575-581 | the metrics of that backend are stored and nothing else changes |
| Balancer.Balancer.InvalidatePin | internal/balancer/balancer.go:632-650 | a live pin's backend gets ten seconds of cooldown and the key is unpinned |
| Balancer.Balancer.IsBackendHealthy | internal/balancer/balancer.go:653-660 | the health flag, false for an unknown id |
| Balancer.Balancer.ShouldRetry | internal/balancer/balancer.go:664-671 | whether a retry is due, true for an unknown id |
| Balancer.Balancer.PassiveTick | internal/balancer/balancer.go:740-764 | an unhealthy backend past its cooldown turns healthy with ramp-up; any other is left alone |
| BalancerRefinement.CompleteAndDecrIsSteps | internal/balancer/balancer.go:608-616 | uninterrupted, the method's effect is that of the machine's Complete, Decr and RecordOutcome steps |
| BalancerRefinement.MarkUnhealthyIsSteps | internal/balancer/balancer.go:542-572 | uninterrupted, the method's effect is that of the machine's two checks and the commit |
| BalancerRefinement.InvalidatePinIsSteps | internal/balancer/balancer.go:632-650 | uninterrupted, the look-up, mark and delete steps unpin the key and cool down the found backend if the group has it, and no other |
| SelectionRefinement.SelectIsSteps | internal/balancer/sticky_selector.go:27-101 | uninterrupted, the selection's start, readings and last step return the model's choice and leave the model's pins |
| SelectionRefinement.ChoiceIsFresh | internal/balancer/sticky_selector.go:64-93 | sorting and scoring the members one by one in one state chooses what the model chooses from the whole pool |
| BalancerRefinement.MarkHealthyIsStep | internal/balancer/balancer.go:524-540 | a successful probe's step has the method's effect, without ramp-up |
| BalancerRefinement.PassiveTickIsSteps | internal/balancer/balancer.go:740-764 | uninterrupted, a tick is the machine's check and, if it is due, the recovery |
| BalancerRuns.CountOut | internal/balancer/balancer.go:608-616 | an object that stands for a state of the machine stands, after CompleteAndDecr, for the state that the steps lead to |
| BalancerRuns.PoolStands | internal/balancer/balancer.go:140-166 | the pool that the object collects is a pool in the machine's sense |
| BalancerRuns.Choose | internal/balancer/balancer.go:134-174 | an object that stands for a state stands, after Select, for the state that the selection steps lead to, and returns the backend they return; for an empty group nothing changes |
| BalancerRuns.Invalidate | internal/balancer/balancer.go:632-650 | and after InvalidatePin for the state that its three steps lead to |
| SseModel.FeedConcat | internal/proxy/stream.go:71-112 | feeding a and then b leaves the same state as feeding a + b, for all byte strings |
| SseModel.ChunkingIsInvisible | internal/proxy/stream.go:71-112 | any split of a stream gives the state of one call |
| SseModel.FeedIsByteByByte | internal/proxy/stream.go:71-112 | the buffered parser equals a one-byte-at-a-time reference machine |
| SseModel.RepeatedStopsAreOne | internal/proxy/stream.go:190-202 | any number of message_stop or [DONE] lines in a row has the effect of one |
| SseModel.UsageIsConserved | internal/proxy/stream.go:143-202 | for input and output usage, emitted + waiting + replaced equals announced over every stream: nothing is counted twice |
| SseModel.CaptureIsPrefix | internal/proxy/stream.go:242-257 | the captured content is the first 32 KB of the text, flagged exactly when something was cut |
| SseParser.SseParser.Feed | internal/proxy/stream.go:71-112 | the loop over the line buffer leaves the model's state |
| SseParser.SseParser.HandleLine | internal/proxy/stream.go:82-111 | one line, its carriage return trimmed, has the model's effect |
| SseParser.SseParser.HandleOpenAIEvent | internal/proxy/stream.go:114-141 | an OpenAI event has the model's effect on counts, content and first-token flag |
| SseParser.SseParser.HandleAnthropicEvent | internal/proxy/stream.go:143-188 | an Anthropic event has the model's effect |
| SseParser.SseParser.RecordAnthropicTokens | internal/proxy/stream.go:190-202 | positive counts are emitted and cleared, so none is left to emit again |
| SseParser.SseParser.AppendContent | internal/proxy/stream.go:242-257 | appends up to the limit |
| SseParser.CappedKeepsPrefix | internal/capture/capture.go:189-204 | the buffer keeps the first max bytes of everything written; the flag is raised exactly when bytes were dropped or the last write found the buffer full |
| SseParser.FlagIsExact | internal/capture/capture.go:189-204 | with non-empty chunks, the only ones the program writes, the flag is raised if and only if some byte was dropped |
| SseParser.EmptyWriteRaisesFlag | internal/capture/capture.go:189-204 | for every limit, an empty write to a buffer that is just full would raise it |
| SseParser.CappedBuffer.Write | internal/capture/capture.go:189-204 | the buffer grows as the model says and the whole length is reported as written |
| IdleBody.InvariantThroughout | internal/proxy/stream.go:358-402 | under every interleaving and buffer size: delivered + pending + in channel + held equals the bytes read upstream, in order, and an error stays behind its bytes |
| IdleBody.DeliveredInOrder | internal/proxy/stream.go:358-402 | what callers received is a prefix of the upstream bytes, all of them once the upstream error has been returned |
| IdleBody.NothingIsStuck | internal/proxy/stream.go:358-402 | while the upstream error is on its way, a step that brings it closer is enabled |
| IdleBody.ReadStepSplits | internal/proxy/stream.go:372-402 | one Read splits what is at hand into what it returns and what is pending, losing nothing |
| IdleBody.ParserSeesTheStream | internal/proxy/stream.go:71-112 | a parser fed the delivered chunks ends as one fed the upstream bytes at once |
| IdleBody.ReaderEndsIff | internal/proxy/stream.go:358-370 | after Close or a timeout and without further Reads, the reader goroutine can end if and only if the slot is empty and it holds no packet without an error |
| IdleBody.FateStays | internal/proxy/stream.go:404-407 | and no step but a Read changes that |
| IdleBody.IdleTimeoutBody.Put | internal/proxy/stream.go:358-370 | the send fills the free one-slot channel and changes nothing else |
| IdleBody.IdleTimeoutBody.Read | internal/proxy/stream.go:372-402 | the method takes the model's read step; a timeout returns no bytes and closes upstream |
| IdleBody.IdleTimeoutBody.Close | internal/proxy/stream.go:404-407 | upstream is closed, leftovers and the channel stay as they are |
| InterceptedBody.InterceptedBody.AfterRead | internal/proxy/stream.go:426-438 | the bytes go once to the parser and once to the tee, and the last error is kept |
| InterceptedBody.InterceptedBody.Close | internal/proxy/stream.go:440-447 | however often it is closed the callback runs once, with the error seen before the first close |
| InterceptedBody.EmptyReadsAreInvisible | internal/proxy/stream.go:426-438 | skipping empty reads changes nothing for the parser |
| InterceptedBody.TeeIsExact | internal/proxy/stream.go:426-438 | the tee holds the first bytes of the stream, flagged if and only if some were dropped |
| Semaphores.SoundThroughout | internal/proxy/server.go:168-198 | over every interleaving of look-ups, sends, releases and reloads each generation's tokens are its holders and stay within its limit |
| Semaphores.ReleaseNeverBlocks | internal/proxy/server.go:189-198 | a holder can always release without blocking, whatever reloads happened since |
| Semaphores.NoHolderNoToken | internal/proxy/server.go:189-198 | a generation without holders is empty: no token is lost |
| Semaphores.LimitCanBeExceeded | internal/proxy/server.go:118-121 | from a reachable state in which a backend has a limit, it can come to serve more requests than that without a further reload if and only if some request of it is not bound by the current semaphore: it holds or awaits an older one, or was let in without one |
| Semaphores.OneGenerationKeepsLimit | internal/proxy/server.go:184-198 | as long as everybody a backend serves holds a slot of one generation, there are no more of them than that generation allows |
| Semaphores.InsidersStay | internal/proxy/server.go:184-198 | without a further reload nobody becomes unbound by the current semaphore |
| Semaphores.ReloadCanExceedLimit | internal/proxy/server.go:118-121 | the smallest exceeding run: two holders at a limit of one across a reload |
| Semaphores.BuiltIs | internal/proxy/server.go:168-179 | the generations that a reload adds are those BuildSemaphores builds, one for each limited id with its limit |
| Semaphores.Server.BuildSemaphores | internal/proxy/server.go:168-179 | a fresh empty channel of the configured capacity for exactly the backends with a positive limit, which are the generations that the protocol's reload adds |
| Semaphores.Channel.Acquire | internal/proxy/server.go:184-198 | one more token, with room |
| Semaphores.Channel.Release | internal/proxy/server.go:189-198 | one token less, from a channel that has one |
| Capture.WindowIsExact | internal/capture/capture.go:75-99 | under every interleaving of arms, loads and swaps, stale loads included: remaining stays in [0, max], the k-th reservation since the latest arm gets number k, never more than max |
| Capture.WindowCloses | internal/capture/capture.go:85-99 | loads find the window closed exactly when max slots are out |
| Capture.FailedSwapMeansMoved | internal/capture/capture.go:91-98 | a swap of the current count hands out the next number; any other changes nothing |
| Capture.Capture.Arm | internal/capture/capture.go:75-81 | the whole window is open again |
| Capture.Capture.Reserve | internal/capture/capture.go:85-99 | the retry loop, for every interference between its loads and swaps: each turn but the last failed because the count had moved, the last one found the window empty or took the slot that the count stands for |
| LoopDetector.AnswerDependsOnCountAlone | internal/proxy/defender.go:43-105 | over every run, other keys interleaved: the answer to the n-th identical request of a window depends on n alone |
| LoopDetector.EscalationRule | internal/proxy/defender.go:74-104 | with a threshold T >= 2: detected if and only if n >= T; escalated if and only if also E <= 0, or E = 1 and n >= T + 1; and it lasts for the window |
| LoopDetector.TwoOrMoreNeverEscalates | internal/proxy/defender.go:103 | with E >= 2 no run ever escalates, contrary to LOAD-BALANCING.md:524-525 |
| LoopDetector.CleanupIsInvisible | internal/proxy/defender.go:32-39 | with one window length, cleanup never changes an answer |
| LoopDetector.CleanupShows | internal/proxy/defender.go:32-39 | with two window lengths, one cleanup shows in a later answer if and only if it drops an entry that is over for the short window, not over for the long one, and whose next request would have been detected |
| LoopDetector.MixedCleanupIsInvisible | internal/proxy/defender.go:32-39 | over every run that mixes window lengths, cleanup changes no answer as long as it drops only entries that are over for their own key |
| LoopDetector.LongWindowsCleanSafely | internal/proxy/defender.go:55-58 | which is so when no cleaning check has a shorter window than the entries it meets |
| LoopDetector.LoopDetector.CleanupStale | internal/proxy/defender.go:32-39 | exactly the entries older than the window are gone |
| LoopDetector.LoopDetector.CheckLoop | internal/proxy/defender.go:43-105 | the method changes the table and answers as the model does |
| CodeFences.FindIsFirst | internal/journal/analyze.go:144-164 | the search returns the first occurrence, or none exactly when there is none |
| CodeFences.GreedyIsMaximal | internal/journal/analyze.go:130-133 | no set of non-overlapping fences is larger than the left-to-right count |
| CodeFences.TwoFencesPerBlock | internal/journal/analyze.go:144-164 | every JSON block uses up two fences of its own |
| CodeFences.BlocksAtMostFences | internal/journal/analyze.go:130-164 | for every text the JSON blocks are at most the fence pairs |
| CodeFences.CountJSONBlocks | internal/journal/analyze.go:144-164 | the scanning loop terminates with the model's count |
| CodeFences.Analyze | internal/journal/analyze.go:46-101 | for every request body the totals are those of its texts and JSONBlocks <= CodeFences |
| DeepMerge.LeavesOfMerge | internal/proxy/server.go:1204-1217 | the merged object has a leaf at a path if and only if the source has it, or the destination has it and the source is silent about the path |
| DeepMerge.MergeIsIdempotent | internal/proxy/server.go:1204-1217 | merging the same source twice is merging it once |
| DeepMerge.DeepMergeInto | internal/proxy/server.go:1207-1217 | the recursive loop over the source, in any key order, computes the merge |
| OllamaRequest.MergeParams | internal/router/router.go:119-135 | the three loops compute defaults < caller's sampling keys < clamp |
| OllamaRequest.Request.FlattenOptions | internal/proxy/server.go:365-375 | the options move to the top level and exactly their keys are noted |
| OllamaRequest.Request.ApplyParams | internal/proxy/server.go:465-478 | merged parameters overwrite the body, max_tokens drops max_completion_tokens, the real model is set |
| OllamaRequest.Request.ApplyInjection | internal/proxy/server.go:540-550 | the body is deep-merged with the injection and its keys are noted |
| OllamaRequest.Request.TranslateParams | internal/proxy/server.go:1061-1109 | the backend-specific translation |
| OllamaRequest.Request.RenestOptions | internal/proxy/server.go:557-572 | exactly the noted keys move under options |
| OllamaRequest.Request.Rewrite | internal/proxy/server.go:365-572 | the stages in the code's order compute the rewritten body |
| ParamPipeline.NoSamplingKeyOnTop | internal/proxy/server.go:557-572 | after the rewrite a sampling key is at the top level if and only if it is the temperature that translation wrote for a thinking Anthropic backend and nobody had mentioned it |
| ParamPipeline.SamplingPrecedence | internal/proxy/server.go:465-572 | sampling keys, max_tokens included, end in options with clamp > caller > defaults, injection merged over the result, or nowhere |
| ParamPipeline.CompletionTokensPrecedence | internal/proxy/server.go:473-475 | max_completion_tokens ends in options with the value of the layers only if no layer sets max_tokens, else with the injected value or nowhere |
| ParamPipeline.ClampedLimitHoldsIff | internal/proxy/server.go:473-475 | a clamped max_completion_tokens that is not injected as well reaches the backend if and only if neither defaults nor caller nor clamp set max_tokens |
| ParamPipeline.CallerEscapesClamp | internal/proxy/server.go:473-475 | a caller who sets max_tokens to 9999 gets it past a clamp of max_completion_tokens to 100 |
| ParamPipeline.BothLimitsIff | internal/proxy/server.go:472-537 | exactly when the backend is given both limits, and that this takes injection |
| ParamPipeline.ForcedTemperature | internal/proxy/server.go:465-572 | the temperature of a thinking Anthropic backend is 1, under options if anybody mentioned one, else at the top level |
| ParamPipeline.ProfilePrecedence | internal/router/router.go:119-135 | route keys outside the sampling set override the caller: clamp, then defaults |
| ParamPipeline.ModelStaysOnTop | internal/proxy/server.go:478 | the real model is at the top level if and only if no option, route or injected key is called model |
| ParamPipeline.FlattenRenestIsIdentity | internal/proxy/server.go:365-572 | with an empty route and disjoint options the round trip gives back the body, apart from the model, if and only if no sampling key is at the top level, no thinking parameter is an option and the options lack one of the max-tokens keys |

## Left out

- AffinityStore.Store.EvictExpired, AffinityStore.Store.Migrate: proved on the store and part of the table theorems, but no production code calls them, so the state machine has no step for them.
- BalancerSystem.PoolIsNeverEmpty, BalancerRuns.PoolStands: speak of one state; `PoolScan` is about scans during a run.
- SelectorModel.FreshChoiceIsLeast: reads all pool members at one instant, as an uninterrupted selection does; SelectionReadings.FreshChoiceIsLeastRead says what holds when they are read one by one.
- SelectionReadings.FreshChoiceIsLeastRead: the overload test and the score look at several counters of one backend under separate locks; in the machine each is one reading of that backend.
- FlowConservation.ConservedThroughout: is about one balancer and requests counted in by Incr; replaced balancers, and routes that name a backend directly, are the subject of `ReloadedCounters`.
- FailoverExclusion.ReturnsIffDecided: leaves out selections that, at the mark, have read the backend as not failing but not decided. FailoverExclusion.ReturnsIffNotOverloaded is about those that follow a pin; of those that choose afresh FailoverExclusion.MarkedBackendIsExcluded says one direction, the other depends on scores still to be read.
- BalancerRuns.Choose, BalancerRuns.Invalidate, BalancerRuns.CountOut: follow the object through calls that nothing interrupts.
- Semaphores.Channel.Acquire, Semaphores.Channel.Release: change one channel; that a protocol state describes all channels of a server is proved when they are built, not kept through every call.
- IdleBody.ReaderEndsIff: takes an upstream read after Close to return an error, perhaps with last bytes.
- FlowStats.FlowStats.GetStats: leaves out average latency, throughput and the staleness factor, which no decision of the balancer reads.
- ParamPipeline.SamplingPrecedence: does not cover the thinking parameters, which translation consumes; max_completion_tokens and a forced temperature have lemmas of their own.
- ParamPipeline.NoSamplingKeyOnTop: is about routed Ollama requests; unrouted passthrough requests skip the merge.
- IdleBody.NothingIsStuck: is about steps being enabled; that the scheduler takes them, and the timer's precision, are not modelled.
- Capture.Capture.Reserve: interference ends after finitely many turns, without which the loop need not.
- HTTP transport, the reverse proxy, probe and scrape clients, URL resolution and file writes: a probe is a step that succeeds or fails.
- JSON and YAML decoding, SHA-256 and logging: event decoding is a function from bytes to an optional object, a loop key an opaque value, white-space trimming of a block a function parameter.
- Several readings of the wall clock inside one method are one reading, and the saturation of durations beyond 292 years is not modelled.
- Floating-point rounding and NaN: scores and ratios are real numbers; token budgets are numbers of the same kind as any other JSON number.
- Backend ids are taken to be unique, which the configuration does not check; the methods of `Balancer` require it.
- Only sticky groups are modelled: the round-robin, single and plain least-loaded selectors and the metrics text parser are short and have no state worth a run theorem.
- Telemetry at the end of a stream (recordFinal, ResponseText, the Ollama parser's delegation), message normalisation, system-prompt edits, empty-message checks, the zero-content defender and the choice of the message that the loop detector hashes.
- Route resolution apart from the parameter merge, multimodal fallback and configuration cascades.
- Sharing of nested maps between a route's injection and request bodies: JSON is modelled as values, so nothing is claimed about configuration staying unmodified.
