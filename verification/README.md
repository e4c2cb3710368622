# Route search, modelled and proved in Dafny

GreenRoute finds driving routes with as little congestion as possible. A client asks the
edge service to start a search; the orchestrator creates it once, spends a bounded number
of provider requests, evaluates and ranks candidate routes, probes detours around
congestion, and publishes a numbered event log that clients follow. This project models
that path and proves what every run keeps.

| file | models |
|---|---|
| `Idempotency.dfy`, `StartProtocol.dfy`, `StartRecovery.dfy` | idempotency keys in Redis and in memory; the start protocol as interleaved steps; how a start ends and which claims are given up |
| `SearchStore.dfy` | the search record and event log, in memory and as four Redis keys; the event stream reader |
| `Budget.dfy`, `RateGate.dfy`, `Breaker.dfy` | request budget and leases, adapter retry loop, sliding-window gate, circuit breaker |
| `Evaluation.dfy`, `EvaluationLaws.dfy`, `Ranking.dfy`, `RankingOrder.dfy`, `Sorting.dfy` | evaluation of a route, hard constraints, STRICT_GREEN evidence, ranking; what they mean field by field |
| `Dgis.dfy`, `DgisResponse.dfy` | what is gathered from a 2GIS response; apportionment of 2GIS totals and its end-to-end consequence for STRICT_GREEN |
| `Polyline.dfy`, `ExternalLinks.dfy`, `Dedupe.dfy` | line simplification in Go and TypeScript, link points, deduplication |
| `Clusters.dfy`, `Ladder.dfy`, `Avoidance.dfy`, `Enhance.dfy`, `Selection.dfy` | congestion clusters, the detour ladder, which traffic its plans forbid, the whole enhancing search and what it finally selects |
| `Domain.dfy` | shared values |

Code that updates objects or loops over buffers is a class or a method with loops, proved
against functions of its inputs; the laws are lemmas about those functions. Protocols with
concurrency are state machines whose steps may interleave in any order. Clocks, provider
answers, cancellations, evaluation losses, distances on the globe, SHA-256 and the stable
identifier are parameters or injective constructors. `int` stands for int64 and `real` for
float64. `dafny verify dfyconfig.toml` checks the whole project.

Where the code falls short of a natural expectation, a lemma shows the failing run and
another says exactly when the expectation holds:

- a probe of the half-open breaker without an outcome blocks it, most simply by a rate limit with a retry left (`RateLimitedProbeIsLost`; `Routes` decides every exit, `GrantIsExact` says when a later call passes);
- readings taken before the gate's lock can arrive out of order; a lag of a millisecond can exceed the quota (`LateReadingBreaksQuota`), and runs of a given lag keep it if and only if there is none or the limit is one (`QuotaSurvivesLag`);
- a stream can end without the terminal event (`FinalizeBetweenReadsIsMissed`); it has it if and only if no Finalize took effect between its last poll and its status read and the client did not start past the event (`EndedStreamIsComplete`);
- a late Update can replace a finished result and let a second Finalize take effect (`LateUpdateReopens`; `ResultStaysIsExact` and `SecondFinalizeIsExact` say exactly when), and leaves a reopened search out of the active set (`ReopenedLeavesActiveSet`; `ActiveCoverageIsExact` per script, `RedisRefinesMemory` over runs);
- the Redis log restarts at one when its list elapsed before its result (`LogRestartsAfterElapse`, `AppendAgreesUntilListElapses`);
- a Forget between another caller's fingerprint check and its SETNX leaves record and fingerprint with different bodies (`ForgetRaceMisaligns`, `LosingFingerprintIsExact`, `AlignmentIsExact`);
- a selection that is merely kept can violate the limits (`KeptSelection`, a run of the whole search; `FinalSelectionIsExact` for every run);
- the worker of a deleted search can finish the one recreated in its place (`OldWorkerFinishesRecreated`, `LateFinalizeTouches`);
- the adapter takes eight zones where the ladder may ask for twelve (`NineZonesAreRefused`, `AdapterAcceptsLadder`);
- a route more like its baseline can be charged more only if the configured minimum similarity is below 0.2 (`MismatchFallsIsExact`; the default is 0.72);
- the error bound of the Go simplification holds of the input only up to 512 points (`BoundHoldsUpToSampleSize`);
- a link budget below two points cannot be met (`ExternalRoutePoints`).

## Model

| member | source | states |
|---|---|---|
| `Idempotency.MemoryState.BeginIdempotency` | services/edge-api/state.go:60-91 | the live keys and the answer change exactly as the one-step rule says; other keys, and the agreement of record and fingerprint, are kept; expiries are set from the clock |
| `Idempotency.MemoryState.CompleteIdempotency` | services/edge-api/state.go:93-110 | succeeds if and only if the held record is the pending claim with this body and token; otherwise nothing a reader sees changes |
| `Idempotency.MemoryState.ForgetIdempotency` | services/edge-api/state.go:112-127 | removes both keys if and only if the token holds the pending claim |
| `Idempotency.UninterruptedCommandsAgree` | services/edge-api/state.go:181-244 | GET/SETNX run without interruption answer as the locked form does, and leave the same keys if and only if the record was not found beside a fingerprint of another body |
| `Idempotency.CommandKeepsGenerations` | services/edge-api/state.go:181-230 | every GET or SETNX command keeps the generation invariant: rising tokens, one grant per record generation |
| `Idempotency.CompleteKeepsGenerations` | services/edge-api/state.go:246-258 | completing keeps the invariant: completions are distinct granted tokens |
| `Idempotency.SpentTokenHasNoEffect` | services/edge-api/state.go:246-287 | the token of an earlier or completed generation neither completes nor forgets |
| `StartProtocol.SameSearchStep` | services/edge-api/server.go:126-240 | every step keeps: one worker per live or removed record, and only the deterministic id in every stage, answer and record |
| `StartProtocol.SameSearchAlways` | services/routing-orchestrator/engine.go:198-240 | the same over every interleaving of requests, expiries, losses and removals |
| `StartProtocol.RetriesNameOneSearch` | services/edge-api/server.go:126-257 | two successful requests with one body name one search; workers equal removals plus the live record, so exactly one worker while nothing was removed |
| `StartRecovery.ForgettingHasCause` | services/edge-api/server.go:191-223 | in every run, a request that is about to forget its claim received the answer Unprocessable, or its owner could not be stored and its search was gone right after |
| `StartRecovery.LossHasCause` | services/edge-api/server.go:178-223 | in every run, a record or fingerprint disappears by its expiry, or from under its own token for one of those causes |
| `StartRecovery.AnswerIsVerdict` | services/routing-orchestrator/engine.go:173-240 | every answer carries the verdict with which an earlier step handled this very start |
| `StartRecovery.ExecutionDecides` | services/routing-orchestrator/engine.go:173-240 | one answer per start; a worker is started exactly when the start is accepted and its record was not there |
| `StartRecovery.HeldClaimIsOwn` | services/edge-api/state.go:181-258 | in every reachable state a token that holds the record holds the claim of its request's own body |
| `StartRecovery.LostAnswerIsRecovered` | services/edge-api/server.go:178-189 | from every reachable state in which a request waits with its claim, giving up and its own commands end in success with its deterministic search and a completed record if that search is live, and otherwise keep the claim |
| `StartRecovery.AnswerDecides` | services/edge-api/server.go:178-234 | Started ends in success and a completed record, Unprocessable gives the claim back, any other answer is treated as a lost one |
| `StartRecovery.OwnerFailureDecides` | services/edge-api/server.go:214-223 | an owner that cannot be stored gives the claim back if the search was deleted, and otherwise leaves everything as it was |
| `StartRecovery.FirstRequestClaims` | services/edge-api/state.go:181-219 | a request that finds neither key claims both and sends its start |
| `StartRecovery.FingerprintDecides` | services/edge-api/state.go:196-219 | under a fingerprint without its record the same body claims again and any other is refused without a trace |
| `StartRecovery.RetryIsReplayed` | services/edge-api/server.go:163-175 | a retry replays the completed search as long as that is there, and changes nothing |
| `StartRecovery.RetryRecovers` | services/edge-api/server.go:152-161 | a retry under a pending claim starts nothing: it completes the record with the live search, or leaves the claim |
| `StartRecovery.OtherBodyIsRefused` | services/edge-api/server.go:149-151 | another body under a live record is refused at once, without a trace |
| `StartProtocol.GenerationsAlways` | services/edge-api/state.go:181-303 | the generation invariant in every reachable state |
| `StartProtocol.StaleTokenHasNoEffect` | services/edge-api/state.go:246-303 | in every run a stale token neither completes nor forgets a later generation |
| `StartProtocol.AlignedStep` | services/edge-api/state.go:196-215 | a step that neither expires nor forgets the fingerprint keeps record, claimants and fingerprint on one hash |
| `StartProtocol.LosingFingerprintIsExact` | services/edge-api/state.go:196-287 | a step that expires or forgets it keeps the alignment if and only if no record stays behind and no request is ready to claim |
| `StartProtocol.OneBodyPerFingerprint` | services/edge-api/state.go:181-230 | from an aligned state, while the fingerprint is kept, every claim granted carries its hash |
| `StartProtocol.AlignmentIsExact` | services/edge-api/state.go:196-219 | where a live fingerprint and the record agree, every continuation that keeps the fingerprint grants claims to its body alone if and only if the state is aligned |
| `StartProtocol.ForgetRaceMisaligns` | services/edge-api/state.go:196-215 | a concrete run after which the record carries one body and the live fingerprint another |
| `SearchStore.Memory.Create` | internal/searchstore/store.go:49-58 | refuses a live id, else starts an empty log; purges exactly the expired records |
| `SearchStore.Memory.Update` | internal/searchstore/store.go:72-82 | replaces the result of a live record and extends it, nothing else |
| `SearchStore.Memory.Delete` | internal/searchstore/store.go:84-92 | removes one record and reports whether there was one |
| `SearchStore.Memory.AppendEvent` | internal/searchstore/store.go:94-106 | appends the next numbered event to a live record |
| `SearchStore.Memory.Finalize` | internal/searchstore/store.go:108-124 | logs and replaces the result only while it is not terminal |
| `SearchStore.Memory.EventsAfter` | internal/searchstore/store.go:126-147 | returns the index slice of a live record's log |
| `SearchStore.ReachableLogsAreNumbered` | internal/searchstore/store.go:94-124 | in every reachable state event ids are exactly 1..n and nextEvent is n |
| `SearchStore.ReplayIsFirstBatchAbove` | internal/searchstore/store.go:126-147 | the index slice is the first 128 events with an id above the cursor |
| `SearchStore.FinalizeDecides` | internal/searchstore/store.go:108-124 | without a late Update at most one Finalize takes effect, and the record is then terminal |
| `SearchStore.FinalizedResultIsFixed` | services/routing-orchestrator/engine.go:673-692 | with no Update after the effective Finalize the result never changes and one Finalize wrote an event, whatever finalizations race |
| `SearchStore.LogIsWritten` | internal/searchstore/store.go:94-124 | the log only grows, by exactly what effective appends and finalizations wrote |
| `SearchStore.RecordIsLastWritten` | internal/searchstore/store.go:72-124 | in every run of one generation the record holds the result the last effective operation wrote and lives until the end of the lifetime the last effective one gave it |
| `SearchStore.LateUpdateReopens` | internal/searchstore/store.go:72-82 | a run with an Update after Finalize in which two Finalize calls take effect |
| `SearchStore.ResultStaysIsExact` | internal/searchstore/store.go:72-124 | a terminal result stays for the rest of the run if and only if no Update finds the record live and writes another one |
| `SearchStore.SecondFinalizeIsExact` | internal/searchstore/store.go:72-124 | once the record is terminal a further Finalize takes effect if and only if a live Update writes an unfinished status and a live Finalize follows before a terminal Update does |
| `SearchStore.LateFinalizeTouches` | services/routing-orchestrator/engine.go:631-692 | a late Finalize changes whatever record it finds if and only if that is live and unfinished |
| `SearchStore.OldWorkerFinishesRecreated` | services/routing-orchestrator/engine.go:631-692 | Create, Delete, Create, Finalize by the old worker: the recreated search carries the old worker's result |
| `SearchStore.Redis.CreateScript` | internal/searchstore/store.go:199-206 | the script's effect on the four keys, other searches untouched |
| `SearchStore.Redis.AppendScript` | internal/searchstore/store.go:185-197 | counter, list and lifetimes after one append |
| `SearchStore.Redis.FinalizeScript` | internal/searchstore/store.go:208-228 | takes effect only on an unfinished result; always leaves the active set |
| `SearchStore.Redis.DeleteScript` | internal/searchstore/store.go:230-235 | removes all four keys of one search |
| `SearchStore.Redis.Update` | internal/searchstore/store.go:283-293 | renews only the result key |
| `SearchStore.Redis.SweepActive` | internal/searchstore/store.go:389-441 | reports the unfinished searches among the listed ones in their order, and is the sweep step of every search |
| `SearchStore.ScriptsRefineMemory` | internal/searchstore/store.go:185-235 | until a lifetime elapses each script refines the memory operation, outcome included |
| `SearchStore.RedisRefinesMemory` | internal/searchstore/store.go:185-441 | over every timely run of scripts and sweeps the keys represent the record, so counter, list length and nextEvent agree; and the active set holds every unfinished search if no Update reopens one |
| `SearchStore.FinalizeTakesEffectAlike` | internal/searchstore/store.go:208-228 | Finalize takes effect in the same states of both forms |
| `SearchStore.ReplayAgrees` | internal/searchstore/store.go:357-387 | LRANGE with the id filter returns what the memory slice returns |
| `SearchStore.ActiveCoverageIsExact` | internal/searchstore/store.go:199-235 | a script keeps every unfinished search in the active set except an Update that reopens a finished one |
| `SearchStore.ReopenedLeavesActiveSet` | internal/searchstore/store.go:283-293 | Create, Finalize, Update: an unfinished search that is not in the active set |
| `SearchStore.AppendAgreesUntilListElapses` | internal/searchstore/store.go:185-197 | the two forms agree on an append if and only if the log was empty or its list is still there |
| `SearchStore.LogRestartsAfterElapse` | internal/searchstore/store.go:185-197 | Create, Append, Update, Append with the list elapsed: the second event has id one in Redis and two in memory |
| `SearchStore.ReaderStaysInStep` | services/routing-orchestrator/server.go:146-190 | through appends, drops and reconnects the cursor equals what was received, entry by entry |
| `SearchStore.ReaderSeesConsecutiveIds` | services/routing-orchestrator/server.go:146-190 | a reader sees start+1, start+2, … without gap or repeat |
| `SearchStore.EndedStreamIsComplete` | services/routing-orchestrator/server.go:146-197 | in every run of polls, status reads, drops and store operations and for every start cursor, a stream that ended normally delivered the terminal event if and only if no Finalize took effect between its last poll and its status read and the cursor did not start past it |
| `SearchStore.FinalizeBetweenReadsIsMissed` | services/routing-orchestrator/server.go:177-197 | from a created record: poll, Finalize, status read; the stream ends and its client received nothing |
| `Budget.RequestBudget.Lease` | services/routing-orchestrator/budget.go:21-36 | reserves min(allowance, free budget), or nothing when none is free; reserved stays the sum of open leases |
| `Budget.BudgetLease.Finish` | services/routing-orchestrator/budget.go:38-53 | settles once: releases the allowance and charges the clamped use |
| `Budget.AdapterBudget.Consume` | services/provider-yandex/provider.go:57-64 | spends one request if one remains; the state machine of the whole search spends by the same function |
| `Budget.Routes` | services/provider-yandex/dgis.go:165-265 | attempts never exceed the budget or the retry limit, an answer reports exactly the attempts made, every exit has its cause (a refused admission or gate decision at that instant included), and for every exit a probe is outstanding if and only if the last admission led to no attempt, or to a refusal that is a rate limit, the credential's fault or not worth a retry, and as before when nothing was admitted |
| `Budget.RateLimitedProbeIsLost` | services/provider-yandex/dgis.go:178-260 | a half-open probe answered with a rate limit while a retry is left ends in a refused retry with the probe outstanding |
| `Budget.AccountedStep` | services/routing-orchestrator/engine.go:585-605 | every step of concurrent leased calls, with the adapter's own counters and the usage it reports, keeps reserved and used exact and within the limit |
| `Budget.HonestUsageIsAcceptable` | services/routing-orchestrator/provider_client.go:332-341 | what the adapter reports always passes the caller's usage check, so an answer is charged as reported |
| `Budget.AccountedRun` | services/routing-orchestrator/budget.go:21-53 | reserved is the sum of unfinished allowances and used + reserved fits the limit in every run |
| `Budget.OutboundAttemptsStayWithinLimit` | services/routing-orchestrator/budget.go:21-53 | all outbound attempts of a search together, those of calls given up on included, never exceed its limit |
| `RateGate.SlidingWindowGate.Try` | services/provider-yandex/resilience.go:45-70 | the in-place compaction decides and remembers as the specification does |
| `RateGate.QuotaHolds` | services/provider-yandex/resilience.go:45-70 | for ordered readings every window of every run holds at most limit admissions |
| `RateGate.DecidesAsHistory` | services/provider-yandex/resilience.go:45-70 | the pruned list decides exactly as the full admission history would |
| `RateGate.AttemptsBounded` | services/provider-yandex/resilience.go:45-70 | the list never exceeds the limit, whatever the readings |
| `RateGate.RetrySucceeds` | services/provider-yandex/resilience.go:57-66 | a refused call repeated after the advertised delay with nothing in between is admitted, and at no earlier instant |
| `RateGate.LateReadingBreaksQuota` | services/provider-yandex/resilience.go:45-70 | for every limit above one and every window, readings with a lag of one millisecond that put one admission too many in one window |
| `RateGate.QuotaSurvivesLag` | services/provider-yandex/resilience.go:45-70 | every run whose readings lag by at most a given amount keeps the quota if and only if that is zero or the limit is one |
| `Breaker.CircuitBreaker.Allow` | services/provider-yandex/resilience.go:193-205 | admits if and only if the history rule does; the fields stay a summary of the history |
| `Breaker.CircuitBreaker.ReportSuccess` | services/provider-yandex/resilience.go:207-213 | closes the breaker |
| `Breaker.CircuitBreaker.ReportFailure` | services/provider-yandex/resilience.go:215-227 | open if and only if the failures since the last success reach the threshold |
| `Breaker.OneProbePerOpenPeriod` | services/provider-yandex/resilience.go:193-241 | after a trip and until an outcome, at most one admission, and none before the open duration |
| `Breaker.FailuresAreSinceSuccess` | services/provider-yandex/resilience.go:193-246 | the count is that of the failures after the last success, and the latest failure is followed by admissions alone |
| `Breaker.OutstandingIsExact` | services/provider-yandex/resilience.go:193-241 | whoever made the calls, a probe is outstanding if and only if a grant comes after the last outcome of any of them |
| `Breaker.LostProbeRefusesForever` | services/provider-yandex/resilience.go:193-205 | after a probe without outcome every admission is refused |
| `Breaker.OutcomeReopens` | services/provider-yandex/resilience.go:207-227 | after a success every call is admitted; after a failure exactly when it does not trip or the open duration has passed |
| `Breaker.GrantIsExact` | services/provider-yandex/resilience.go:193-227 | after a probe, a later call is granted if and only if an outcome was reported since and the last one left the breaker untripped, or is an old failure that was not probed yet |
| `Polyline.KeptIndicesSimplify` | internal/geometry/geometry.go:201-234 | endpoints kept, input order, and every skipped point within the tolerance of the chord of its kept neighbours |
| `Polyline.KeptIndicesNested` | internal/geometry/geometry.go:212-226 | a larger tolerance keeps a subset |
| `Polyline.KeptIsNeeded` | internal/geometry/geometry.go:209-229 | every kept point between the ends is the earliest farthest point of a chord of kept points and lies beyond the tolerance |
| `Polyline.Simplify` | internal/geometry/geometry.go:201-234 | the stack loop keeps exactly the recursion's points of the sampled line: rising input indices from end to end, the sample chosen evenly (each index nearest to its share of the length), within the tolerance of the sample |
| `Polyline.SimplifiedIsSubsequence` | internal/geometry/geometry.go:201-246 | kept input indices rise from first to last, and up to 512 points the error bound holds of the input itself |
| `Polyline.BoundHoldsUpToSampleSize` | internal/geometry/geometry.go:201-246 | the error bound holds of every input of a size if and only if the size is at most 512 |
| `Polyline.SimplifyForLink` | apps/web/src/lib/external-links.ts:36-60 | the TypeScript loop computes the same recursion |
| `Polyline.FarthestFromChord` | internal/geometry/geometry.go:212-221 | the scan finds the earliest point of greatest deviation, or none above zero |
| `Polyline.FarthestBeyond` | apps/web/src/lib/external-links.ts:44-52 | the scan that starts at the tolerance finds the same point, or none beyond it |
| `Polyline.Decimate` | internal/geometry/geometry.go:236-246 | short lines unchanged, else exactly maximum points: both ends, in order, each at the index nearest to its share of the length |
| `Polyline.DecimationIsSubsequence` | internal/geometry/geometry.go:236-246 | decimation indices strictly rise from first to last, and each is the nearest one: 2·(index·(maximum−1) − q·(size−1)) lies above −(maximum−1) and at most at maximum−1 |
| `Polyline.EvenNeighbours` | internal/geometry/geometry.go:236-246 | hence neighbouring kept indices differ by (size−1)/(maximum−1), rounded down or up |
| `ExternalLinks.FitsIsMonotone` | apps/web/src/lib/external-links.ts:95-126 | once a tolerance fits the budget, every larger one does |
| `ExternalLinks.FitTolerance` | apps/web/src/lib/external-links.ts:95-126 | the bisection fits or reaches its upper end, and no tolerance more than a metre smaller fits |
| `ExternalLinks.NudgeDownstream` | apps/web/src/lib/external-links.ts:76-83 | moves to the first vertex far enough down the line, or not at all |
| `ExternalLinks.MovedDownstream` | apps/web/src/lib/external-links.ts:76-83 | an intermediate point is moved from its last occurrence to the first vertex at least 60 m down the line, or stays if none is |
| `ExternalLinks.NudgeViaPoints` | apps/web/src/lib/external-links.ts:116-125 | every intermediate point is moved past its turn, or dropped only where a via point lies closer than 40 m to where it is moved; endpoints exact, only input points, spacing kept |
| `ExternalLinks.ChooseViaPoints` | apps/web/src/lib/external-links.ts:95-114 | the line of the fitted tolerance, cut to the budget with both ends when even the coarsest is too long |
| `ExternalLinks.ExternalRoutePoints` | apps/web/src/lib/external-links.ts:95-126 | at most maximum points if and only if maximum is at least two or the line is that short; both endpoints, input points only, and the nudged points of the most detailed line that fits |
| `Dedupe.Deduplicate` | internal/geometry/geometry.go:174-198 | the loop computes the greedy selection; kept plus dropped is the input count |
| `Dedupe.DeduplicateRepresents` | internal/geometry/geometry.go:174-198 | output rising by duration, then identifier, and irredundant; every dropped route duplicates a kept one that is no slower |
| `Dedupe.DeduplicateIsIdempotent` | internal/geometry/geometry.go:174-198 | a second application drops nothing |
| `Evaluation.Evaluate` | internal/scoring/scoring.go:41-144 | the accumulating loop yields the route described segment by segment |
| `Evaluation.EvidenceIsConserved` | internal/scoring/scoring.go:41-144 | the five class distances and durations sum to the larger of route total and segment sum |
| `Evaluation.WorstStretchIsLongestRun` | internal/scoring/scoring.go:99-108 | the reported stretch occurs and no contiguous ORANGE/RED run is longer |
| `Evaluation.UnknownNeverRaisesConfidence` | internal/scoring/scoring.go:203-250 | more unknown distance never raises a route's confidence, in score or in level |
| `Evaluation.GreenShare` | services/routing-orchestrator/greensearch.go:486-506 | green numerator and larger-of-two denominator by time and distance |
| `Evaluation.GreenShareAgreesWithEvaluate` | services/routing-orchestrator/greensearch.go:486-506 | on an evaluated route these are Evaluate's green metrics and five-class totals |
| `EvaluationLaws.SegmentClassIsExact` | internal/scoring/scoring.go:25-81 | a provider colour is kept as long as there is traffic data; any other segment is UNKNOWN if and only if there is nothing to compare, else GREEN, YELLOW, ORANGE or RED if and only if its duration is below that multiple of the baseline and of no milder one |
| `EvaluationLaws.SegmentRatio` | internal/scoring/scoring.go:56-81 | a coloured segment has no ratio and full similarity; any other keeps its similarity, and its ratio times its baseline is its duration |
| `EvaluationLaws.ProviderColourIsMedium` | internal/scoring/scoring.go:146-167 | a coloured segment is trusted at MEDIUM, never more, and LOW if and only if it has no class or is a forecast from stale data |
| `EvaluationLaws.WeakerSegmentIsNoSurer` | internal/scoring/scoring.go:178-201 | weaker evidence, no baseline or less similarity never raise a segment's confidence, in score or in level |
| `EvaluationLaws.SegmentDoubtsCost` | internal/scoring/scoring.go:178-201 | each lack costs a segment at least its share; one that lacks nothing is fully trusted |
| `EvaluationLaws.SegmentLackIsExact` | internal/scoring/scoring.go:178-201 | a lack that is the only one costs a segment exactly its share |
| `EvaluationLaws.MismatchFallsIsExact` | internal/scoring/scoring.go:215-223 | a route more like its baseline is never charged more if and only if the minimum similarity is at least 0.2 |
| `EvaluationLaws.WeakerRouteIsNoSurer` | internal/scoring/scoring.go:203-250 | weaker evidence, less similarity and more unknown distance together never raise a route's confidence, where that holds |
| `EvaluationLaws.RouteDoubtsCost` | internal/scoring/scoring.go:203-250 | each thing that speaks against a route costs at least its share, and unknown distance caps the level |
| `EvaluationLaws.DeductionsAdd` | internal/scoring/scoring.go:203-250 | what speaks against a route adds up, each with its own share whatever else does |
| `EvaluationLaws.AgeAdds` | internal/scoring/scoring.go:232-238 | data older than five minutes costs up to 0.2 over the next hour, data of unknown age 0.05 |
| `EvaluationLaws.MismatchIsExact` | internal/scoring/scoring.go:215-223 | an average similarity below the minimum costs 0.35, one below 0.9 half of what it lacks |
| `EvaluationLaws.RouteScoreIsExact` | internal/scoring/scoring.go:203-262 | the score is what these deductions and the unknown distance leave, to four decimals |
| `EvaluationLaws.NoDoubtIsCertain` | internal/scoring/scoring.go:203-250 | a route nothing speaks against is fully trusted |
| `EvaluationLaws.MetricsAreClassTotals` | internal/scoring/scoring.go:41-144 | metres and seconds of each class are those of its segments, what no segment covers is unknown; delay and baseline follow |
| `EvaluationLaws.SegmentlessRoute` | internal/scoring/scoring.go:41-144 | a route without segments is evaluated as one segment with its own measurements |
| `EvaluationLaws.PercentagesAreShares` | internal/scoring/scoring.go:127-133 | the percentages are shares of the five-class totals up to half a thousandth |
| `EvaluationLaws.SimilarityIsAverage` | internal/scoring/scoring.go:41-144 | the similarity of a route lies between those of its segments, weighted by length |
| `EvaluationLaws.DelayIsTimeLost` | internal/scoring/scoring.go:41-144 | the delay is never negative and, where every segment has a baseline, at least the time lost in all, and exactly that if and only if no segment beats its baseline |
| `Ranking.StrictGreenEvidence` | internal/scoring/scoring.go:310-392 | the evidence loop yields the violations of the declarative rule |
| `Ranking.StrictGreenIsExact` | internal/scoring/scoring.go:310-392 | no violation if and only if the route is proven green |
| `RankingOrder.StrictGreenInFields` | internal/scoring/scoring.go:310-392 | field by field: observed or forecast evidence, a confident route, some segment that counts, every one of them confidently GREEN, and measurements that add up |
| `Ranking.ConstraintsAreExact` | internal/scoring/scoring.go:267-298 | no violation if and only if the route is usable, within every limit against the fastest route, confident, on permitted roads and, in STRICT_GREEN, proven green |
| `Ranking.TupleOrder` | internal/scoring/scoring.go:554-561 | every tuple comparator is a strict total order on distinct identifiers |
| `Ranking.FindFastest` | internal/scoring/scoring.go:401-446 | the loop finds the fastest route |
| `Ranking.FastestIsLeast` | internal/scoring/scoring.go:401-446 | no route is quicker, ties by identifier |
| `Ranking.FastestIsQuickest` | internal/scoring/scoring.go:401-446 | in terms of the fields: no other route takes less time, and none of the same duration has a smaller identifier |
| `Ranking.Rank` | internal/scoring/scoring.go:401-446 | filtering, scoring and both sorts yield the declared ranking, whose order is pinned field by field below |
| `Ranking.RankForgetsOrder` | internal/scoring/scoring.go:401-561 | with distinct identifiers the ranking is the same for every permutation of the pool |
| `Ranking.EqualIdsKeepInputOrder` | internal/scoring/scoring.go:554-561 | with equal identifiers and keys the order of the pool shows through |
| `Ranking.ArrangementPartitions` | internal/scoring/scoring.go:401-446 | eligible routes are the accepted ones, scored and reordered; with distinct identifiers every other route is rejected |
| `Ranking.BestEffortIsRejected` | internal/scoring/scoring.go:401-455 | best effort is at most three rejected routes of a STRICT_GREEN search |
| `Ranking.SelectedIsBest` | internal/scoring/scoring.go:507-561 | the selected route compares no worse than any eligible route under the getters of the mode (which the order lemmas below pin) |
| `RankingOrder.FastestOrder` | internal/scoring/scoring.go:507-513 | FASTEST: the selected route leads, and eligible routes rise by duration, then distance, then identifier |
| `RankingOrder.StrictGreenOrder` | internal/scoring/scoring.go:514-552 | STRICT_GREEN: the first of ten keys in which an earlier route differs from a later one is smaller, ties by identifier |
| `RankingOrder.GreenestOrder` | internal/scoring/scoring.go:516-531 | GREENEST: likewise over nine keys, lateness against the fastest route counted with the red seconds |
| `RankingOrder.ScoreIsCost` | internal/scoring/scoring.go:563-581 | BALANCED: the score is the product of one plus each of five burdens, to eight decimals, and one for a route without any |
| `RankingOrder.OtherScores` | internal/scoring/scoring.go:563-566 | in the other modes a red second scores 1000 orange ones and an orange one 1000 seconds |
| `RankingOrder.BalancedScoreRises` | internal/scoring/scoring.go:563-581 | BALANCED: a route no better in traffic, time, distance, doubt and tolls scores no lower, and higher by at least the sum of what it is worse by, up to 10⁻⁸ |
| `RankingOrder.BalancedOrder` | internal/scoring/scoring.go:532-581 | BALANCED: eligible routes rise by score, then identifier, and none that follows is better in every respect by more than the precision of a score |
| `RankingOrder.BestEffortOrder` | internal/scoring/scoring.go:436-498 | STRICT_GREEN shows at most three routes, exactly from those not proven green, in the order of thirteen keys led by the green share; a route is left out only after three preferred to it; no other mode shows any |
| `RankingOrder.RatiosAreShares` | internal/scoring/scoring.go:500-624 | the shares in these keys are the part of the whole, at most one; unknown traffic without a whole counts fully |
| `RankingOrder.CodesAreExact` | internal/scoring/scoring.go:267-392 | each of the eighteen violation codes is reported if and only if what it says of the route is so |
| `RankingOrder.RejectionIsExplained` | internal/scoring/scoring.go:401-446 | with distinct identifiers exactly the routes that deserve a code are rejected, under exactly those codes |
| `Ranking.StrictGreenFailsClosed` | internal/scoring/scoring.go:267-446 | every eligible STRICT_GREEN route is proven green, whatever the pool |
| `Dgis.SharesConserve` | services/provider-yandex/dgis.go:737-763 | for every total of at least n, shares are at least one and sum to the total |
| `Dgis.AllocateMeasurements` | services/provider-yandex/dgis.go:737-763 | the loop returns those shares, or nothing when the total is too small or a weight is not positive |
| `Dgis.RemainderStaysProportional` | services/provider-yandex/dgis.go:737-763 | with no clamp binding, the remainder after k parts is within k/2 of its proportional value |
| `Dgis.NormalizeRoute` | services/provider-yandex/dgis.go:544-683 | normalizes exactly the responses within every limit whose parts cover ground, fit the total length and can be shared out; the measurements are the rounded totals, shared out over the parts, as live durations with traffic and as baselines without evidence otherwise |
| `DgisResponse.GatherIsExact` | services/provider-yandex/dgis.go:568-613 | gathering succeeds if and only if no path has a negative measurement, there are at most 4096 parts, and every part has a line within the point and length limits; it then holds all parts and all points in order, without immediate repetition |
| `DgisResponse.PartAt` | services/provider-yandex/dgis.go:580-611 | every gathered part has the line, weight and colour of the part at its place in the response |
| `DgisResponse.DistinctCollapses` | services/provider-yandex/yandex.go:509-518 | the geometry keeps every point in order and drops exactly the immediate repetitions |
| `Dgis.NormalizedIsCovered` | services/provider-yandex/dgis.go:621-646 | segment measurements are positive and sum exactly to the route's |
| `Dgis.HasCompleteProviderTrafficClasses` | services/routing-orchestrator/engine.go:739-762 | true if and only if every meaningful segment carries a provider class and the sums match |
| `Dgis.NormalizedNeedsNoBaseline` | services/routing-orchestrator/engine.go:384-390 | every normalized traffic route passes, so no baseline request is sent |
| `Dgis.GatheredColours` | services/provider-yandex/dgis.go:705-722 | every gathered colour is the trimmed and lower-cased colour of a part of the response |
| `Dgis.ColoursBecomeClasses` | services/provider-yandex/dgis.go:705-735 | fast and free become GREEN, normal YELLOW, fluid ORANGE, slow and slow-jams RED, anything else UNKNOWN, with the matching confidence, and evaluation keeps the class while there is traffic data |
| `Dgis.StrictGreenOnDgisIsExact` | services/routing-orchestrator/engine.go:966-975 | from parts to ranking: no STRICT_GREEN violation if and only if every part, trimmed and lower-cased, is fast or free |
| `Clusters.NewCluster` | services/routing-orchestrator/greensearch.go:134-154 | made of the stretch: centre its middle point, heading that of the whole stretch, the smallest enclosing circle around the centre between 180 and 2500 m, its totals and weight |
| `Clusters.CandidateClusters` | services/routing-orchestrator/greensearch.go:102-132 | each cluster is made of one whole congested stretch; together they have exactly the congested length, and every congested segment of positive length has the cluster of its stretch |
| `Clusters.HoldsCovers` | services/routing-orchestrator/greensearch.go:102-154 | that cluster is at least as severe and as long as the segment and encloses it |
| `Clusters.MergeClusters` | services/routing-orchestrator/greensearch.go:156-180 | every cluster is near a merged one that is at least as large, long, slow, severe and heavy; merged centres are more than 420 m apart and no value is invented |
| `Clusters.CongestionClusters` | services/routing-orchestrator/greensearch.go:75-100 | exactly the merged clusters that are not too close to an endpoint, shrunk to keep clear of both, heaviest first; for every congested segment of every candidate a merged cluster stands for the cluster of its stretch |
| `Clusters.PoolIsHeeded` | services/routing-orchestrator/greensearch.go:75-100 | that merged cluster is in the result, shrunk, or too close to an endpoint |
| `Avoidance.ClusterSeverity` | services/routing-orchestrator/greensearch.go:59-132 | the cluster of a stretch has severity 3 if and only if a segment is RED, 2 if and only if one is ORANGE and none RED, 1 if and only if one is YELLOW and none worse |
| `Avoidance.StretchTotals` | services/routing-orchestrator/greensearch.go:102-132 | its length is that of its segments, negative lengths as zero, and its lost time the delay an evaluation measures on them |
| `Avoidance.MergedHasWorst` | services/routing-orchestrator/greensearch.go:156-180 | a merged cluster stands for everything it absorbed and is exactly as severe as the worst of it |
| `Avoidance.MergedSeverity` | services/routing-orchestrator/greensearch.go:75-180 | a merged cluster reaches a severity if and only if it absorbed a whole stretch of some candidate with a class that bad |
| `Avoidance.ZonesLieOverJams` | services/routing-orchestrator/greensearch.go:197-395 | every zone of a plan that avoids all red (red and orange, every non-green) is that of a merged cluster which absorbed RED (RED or ORANGE, any of the three), its circle and 160 m around it, kept 700 m from both endpoints and within 2500 m |
| `Avoidance.JamsAreDealtWith` | services/routing-orchestrator/greensearch.go:197-395 | every segment of every candidate of such a class belongs to a stretch whose merged cluster is forbidden by that plan, unless it is within 1040 m of an endpoint, cannot be drawn, or twelve zones of clusters at least as heavy are |
| `Avoidance.RedComesFirst` | services/routing-orchestrator/greensearch.go:353-380 | where zones are allowed, a drawable cluster that absorbed RED puts a plan that forbids it, or twelve at least as heavy, on the ladder's first place |
| `Ladder.ZonesFor` | services/routing-orchestrator/greensearch.go:217-230 | the first drawable zones up to the limit |
| `Ladder.RungIsSound` | services/routing-orchestrator/greensearch.go:197-230 | over clear clusters every plan stays within the anchor capacity and twelve zones, and every zone's radius is at most its centre's distance to either endpoint minus 700 m |
| `Ladder.LateralOffsets` | services/routing-orchestrator/greensearch.go:330-347 | between 400 m and 25 km, at least 150 m apart, every ring reached to within 150 m; no farther than a third of the allowance, and to within 150 m of it |
| `Ladder.CorridorOffsets` | services/routing-orchestrator/greensearch.go:310-328 | at most two, at least 500 m apart and 3 km wide, present exactly when trip and allowance are wide enough; no wider than half of either, and to within 500 m of that |
| `Ladder.GreenDetourPlans` | services/routing-orchestrator/greensearch.go:353-448 | a plan is on the ladder if and only if it is one of the six kinds of rung; rungs come in the order of their kinds, nearer rings first and left before right, so labels are pairwise distinct |
| `Ladder.AdapterAcceptsLadder` | services/provider-yandex/validation.go:54-56 | the adapter takes every plan of the ladder if and only if no rung is overfull: more than eight drawable red zones, more with orange ones where these add any, or more in all where all are forbidden at once |
| `Ladder.NineZonesAreRefused` | services/provider-yandex/validation.go:54-56 | nine drawable red clusters put a plan on the ladder that the adapter refuses |
| `Ladder.NextUntriedPlan` | services/routing-orchestrator/greensearch.go:474-481 | the first untried plan, none if and only if all were tried |
| `Enhance.SanitizeProviderCandidates` | services/routing-orchestrator/engine.go:914-955 | the first plausible routes up to the capacity; the others are counted |
| `Enhance.EvaluateAll` | services/routing-orchestrator/engine.go:344-382 | the evaluations that were not lost, in the order of the routes |
| `Enhance.Absorb` | services/routing-orchestrator/engine.go:541-566 | changes the pool if and only if a plausible route of the same trip fits, and then to the deduplicated union |
| `Enhance.AdmittedConnect` | services/routing-orchestrator/engine.go:541-554 | admitted routes are plausible answers of the same trip, no more than the pool can take |
| `Enhance.AdmittedIsExact` | services/routing-orchestrator/engine.go:541-554 | exactly the plausible routes of the same trip are admitted that were answered before plausible ones had used up the free capacity |
| `Enhance.JoinedRepresents` | services/routing-orchestrator/engine.go:541-566 | the joined pool fits the limit, holds only old routes and evaluated admissions, and represents each of them by a route that is no slower |
| `Enhance.RoundDecides` | services/routing-orchestrator/engine.go:530-583 | a probe without an answer fails, one that is heard enlarges the pool by exactly its evaluated routes up to duplicates, any other changes nothing |
| `Enhance.ProbeTollFree` | services/routing-orchestrator/engine.go:461-497 | asked only when a toll route is in the pool and tolls are allowed; the pool stays bounded and no slower |
| `Enhance.TollFreeDecides` | services/routing-orchestrator/engine.go:461-497 | the pool is enlarged if and only if the probe is switched on, tolls are allowed and used, the budget lasts and a route is heard |
| `Enhance.ChoosePlan` | services/routing-orchestrator/engine.go:504-511 | the untried plan of the ladder over the pool with the lowest place, none if and only if all were tried |
| `Enhance.ProbeOnce` | services/routing-orchestrator/engine.go:530-583 | a failed probe changes nothing, an answer that admits nothing changes nothing, any other is joined, ranked and adopted |
| `Enhance.ProbeLadder` | services/routing-orchestrator/engine.go:499-583 | every round is the one that must follow the rounds before it, and the loop ends exactly when it is out of iterations, twice failed, stopped, full or has tried everything |
| `Enhance.ChronicleKeeps` | services/routing-orchestrator/engine.go:499-583 | in every such run: no label twice, sound plans, bounded pools, fastest never slower, fail-closed after every round, two failures in a row only at the end |
| `Enhance.ProbesFitProvider` | services/routing-orchestrator/engine.go:450-528 | every probe asks for something, for at most twelve zones where zones are allowed, and for no more points than the provider takes |
| `Enhance.LateralIsOffered` | services/routing-orchestrator/greensearch.go:383-408 | where the provider takes one point more than the trip has, every ring beside the heaviest cluster is on the ladder on both sides |
| `Enhance.Search` | services/routing-orchestrator/engine.go:299-317 | computes the run: initial ranking, toll-free probe and rounds, for every behaviour of provider, budget and evaluation; a STRICT_GREEN search with enhancement and reranking on ends without a selection only where the loop must stop |
| `Enhance.SearchKeeps` | services/routing-orchestrator/engine.go:299-317 | every run keeps what the loop keeps, from the initial ranking to the last probe |
| `Enhance.ProbingIsExact` | services/routing-orchestrator/engine.go:702-725 | a search probes, and then ends only where the loop must stop, if and only if it is green, switched on, and its first ranking selects nothing in STRICT_GREEN or selects a route with any red, orange, yellow or unknown metre or second |
| `Selection.RankingDecides` | internal/scoring/scoring.go:401-446 | a ranking selects a route of the pool that meets every demand, or every route of the pool fails one |
| `Selection.SearchOffers` | services/routing-orchestrator/engine.go:566-583 | every search ends with the selection and alternatives of the last ranking that selected a route, the best-effort routes and fastest route of the last ranking, and the selection leading the alternatives |
| `Selection.PoolOrigins` | services/routing-orchestrator/engine.go:461-583 | every route of the final pool was evaluated at first or is the evaluation of a plausible answer to a probe that makes the same trip as the selected, else the fastest, route |
| `Selection.FinalSelectionIsExact` | services/routing-orchestrator/engine.go:499-583 | in every run the final selection meets every demand against the final fastest route if and only if the last ranking selected a route, or deduplication dropped the selection from the ranked pool and it is within the extra limits |
| `Selection.KeptSelection` | services/routing-orchestrator/engine.go:566-579 | a run of the whole search in which a faster unacceptable route joins: the kept selection violates the limits exactly when it is more than a minute slower, whether or not it was dropped as a duplicate |

## Left out

- HTTP, JSON, WKT parsing, headers, authentication, telemetry, audit, migrations and configuration loading.
- Trigonometry: distances, headings, anchors and octagons are parameters; a zone is its circumscribed circle, and the bounding-box prefilter and Hausdorff similarity of the duplicate test are one parameter.
- Rounding and NaN of float64, and int64 overflow, the cursor guard of EventsAfter included.
- Reason codes, explanations, warnings and event texts; ladder labels are constructors, one per text.
- The distribution of a baseline duration over segments and the control points of the baseline request: an evaluation in the enhancing loop is any function of the route.
- The shared cooldown, its delay, the credential latch and the jitter of retries: in the retry loop they are inputs.
- Ownership and rate-limit counters of the edge service; starting a search without an idempotency key.
- Ranked top-green routes and event hysteresis: they do not influence selection.
- Budget.Routes: decides the outstanding probe of a call during which no other call reports to the shared breaker; with interleaved calls the last outcome of any of them decides (`OutstandingIsExact`).
- Trimming and lower-casing of provider colours are a parameter.
- The in-memory ActiveBefore listing, which only filters and sorts.
- Several idempotency keys at once: they share no state, and one is modelled.
- The instant of expiry itself, at which a Redis key is already missing and the in-memory record is still there.
