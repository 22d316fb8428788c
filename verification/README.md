# StatGate: verified model of the canary operator

StatGate moves traffic to a canary step by step. At every step it holds a weight in an Istio VirtualService
for a configured pause, polls four Prometheus counters per metric, and runs a sequential probability ratio
test (Wald, *Sequential Analysis*, 1947, section 3.2) that either lets the step pass or rolls back.

This project models, in Dafny, the analyzer (`internal/controller/metrics_analyzer.go`), the reconciler
(`internal/controller/reconciler.go`), the VirtualService patch (`internal/controller/virtualservice.go`) and
the argument splitter of `statctl` (`cmd/statctl/main.go`), and proves what they keep over every run.

`dafny verify dfyconfig.toml` checks everything.

## How it is put together

| module | content |
|---|---|
| `Sprt` | one analyzer cycle: the imperative `RunSprt`, proved against `Cycle`, which is built from independent per-metric steps |
| `AnalyzerLaws` | what one poll and one cycle mean, in terms of counters, rates and bounds alone |
| `MetricRuns` | one metric over any number of cycles: bands, conservation, batching |
| `StepTraffic` | what a metric's observations count, against the traffic of the step |
| `WaldBounds` | the outcome tree of one test, change of measure, Wald's inequalities for the two hypotheses and beyond, and the claim that is too strong |
| `StepErrors` | both errors of a whole step: several metrics, missing data, counter restarts |
| `RolloutErrors` | false rollbacks of a whole rollout, whatever the number of its steps |
| `BoundedDecision` | how many requests of one-sided traffic can leave a test undecided, however they are polled |
| `Aggregation` | many metrics: independence, order, abandoned cycles |
| `VirtualServices` | the in-place route rewrite and its laws |
| `Rollout` | one reconcile: the imperative `Reconciler`, proved against `Next` and `Returned` |
| `ReconcilerLaws` | what one reconcile does and returns, branch by branch, in literal terms; aborts, traffic and the rest of the VirtualService over runs |
| `RolloutSafety` | invariants of every run, under spec edits and write faults |
| `RouteAgreement` | the weights in the route against those in the status under every pattern of failed writes, with runs in which they part |
| `PromotionCertificate` | what a step advance or a promotion proves about the run before it |
| `StepReachability` | which steps a rollout can ever get past |
| `StoredStates` | the single-metric theorems, carried over to the states a status stores |
| `StepDuration` | how much one-sided traffic, and how many reconciles, a step can take |
| `RolloutProgress` | termination of an undisturbed rollout, with or without analysis, with an explicit count |
| `AnalysedProgress` | the same from the readings alone, for healthy metrics |
| `Arguments` | the argument splitter and its normal form |
| `Scaling` | powers of positive reals used by the above |

The accumulator is kept as the likelihood ratio, the exponential of the source's log-likelihood: adding
`k * ln(x)` becomes multiplying by `x^k`, and the bounds become `(1 - beta) / alpha` and `beta / (1 - alpha)`.
The analyzer's preconditions appear as types: `0 < alpha, beta < 1`, `delta > 0`, and a stable version that
does not fail every single request. Distinct metric names and `alpha + beta < 1` are stated where they are needed.

A reconcile is a step over (stored status, VirtualService) with the clock, the pods, the counters and the fate
of every read and write as inputs. A write is acknowledged, rejected, or accepted with its reply lost. The
status in memory (`CanaryRollout`) is separate from the stored one (`StatusStore`). A `Run` is any sequence of
worlds in which each comes out of the previous one by one reconcile; the spec may change between reconciles
unless a theorem says `Fixed`.

## Where the code and its documentation differ

- README.md:364 promises error rates within alpha and beta themselves (5 % each by default). That holds for no
  alpha and beta at all: `NeverWithinAlphaBeta`. The bounds of README.md:353 do hold: `WaldErrorBounds`.
- internal/controller/metrics.go:34 describes the observations as counted "since the current step started". They
  are the requests of the step, plus those carried over from before it, less those missed by a restart of the test
  or served after its verdict: `ObservationsOfAStep`. While a metric is undecided they are the step's own exactly
  when it `StartsClean`. `EarlierTrafficReported` is a run whose second step reports a request of the first.
- README.md:48 says a promoted canary has reached 100 %. Promotion writes 100 into the status and leaves the route
  alone. Without write faults the canary has 100 % exactly when the last step's weight is 100:
  `FaultFreePromotedShare`, with the failing run `PromotedAtHalf`. With write faults, and a positive last weight, it
  must also not be astray: a drain of which only the patch arrived, and no patch since. Then it has nothing:
  `PromotedShare`, with the failing run `PromotedAstray`. A last weight of zero is an exception of its own:
  `PromotedBeyondZero`.
- README.md:49 says an aborted rollout is back at 100 % stable. A rollback whose patch fails is never retried:
  `AbortDrains` gives the exact condition, `AbortedWithTraffic` a run that fails it.
- api/v1alpha1/types.go:100-101 says that without a Prometheus URL the analysis is skipped. The analyzer is, the
  gate is not: a step can be passed exactly when there is no analysis, or there are a URL and at least one metric, or
  no step up to it has a pause: `PassableSteps`. (The resource's schema asks for one metric.)
- The phase table (README.md:50) reads as if `Failed` were an end. It is not: a failed rollout does whatever a
  running one in its place would: `FailedIsNotTerminal`.
- New failures that arrive while the request counter stands still are dropped: `CountersConserved` says exactly
  when, `StalledFailureIsLost` is an instance.

## Model

| member | source | states |
|---|---|---|
| Sprt.RunSprt | internal/controller/metrics_analyzer.go:37-174 | the imperative cycle steps every metric from its own stored state and is settled by the first one that fails a query or newly rolls back |
| Sprt.Accumulate | internal/controller/metrics_analyzer.go:101-156 | one metric's deltas, reset, ratio and verdict equal the specified step |
| Sprt.FindOrInitState | internal/controller/metrics_analyzer.go:178-185 | the search loop finds the first state of that name or a fresh one |
| Sprt.PromotesAll | internal/controller/metrics_analyzer.go:160-169 | the scan is true exactly for a non-empty list of promoted states |
| Sprt.FirstStop | internal/controller/metrics_analyzer.go:61-157 | the metric that ends a cycle early is the first whose query fails or that newly rolls back |
| AnalyzerLaws.WeighIsLikelihoodRatio | internal/controller/metrics_analyzer.go:128-135 | new requests multiply the accumulator by their likelihood under the alternative over that under the baseline, defined by powers of the two rates |
| AnalyzerLaws.IdleSteps | internal/controller/metrics_analyzer.go:64-98 | a decided metric is not queried, a failed query gives up the cycle, a poll with a counter missing or no traffic on stable changes nothing |
| AnalyzerLaws.PollMeans | internal/controller/metrics_analyzer.go:100-157 | what a complete poll makes of every field of an undecided state: a test begun again after a restart, otherwise counts, ratio, last-seen counters, baseline and verdict, with the rates clamped by 1e-10 |
| AnalyzerLaws.FirstOfName | internal/controller/metrics_analyzer.go:178-185 | the state looked up is the first of that name, or ratio 1 with nothing counted and undecided |
| AnalyzerLaws.CycleFails | internal/controller/metrics_analyzer.go:71-86 | a cycle is given up iff a query of some undecided metric fails before any metric rolls back |
| AnalyzerLaws.RollbackReturns | internal/controller/metrics_analyzer.go:137-150 | a rollback returns the metrics' own steps up to the one that rolls back, with its verdict, a ratio of at least (1 - beta)/alpha, its name, and the counters and counts of that poll |
| MetricRuns.DecidedIsFrozen | internal/controller/metrics_analyzer.go:64-68 | no sequence of readings changes a decided metric |
| MetricRuns.BoundsStraddleOne | internal/controller/metrics_analyzer.go:55-56 | both bounds are positive, and lie on either side of the starting ratio iff alpha + beta < 1 |
| MetricRuns.RunKeepsBands | internal/controller/metrics_analyzer.go:115-156 | every run keeps a pending ratio strictly between the bounds, a promoted one at or below the lower, a rolled-back one at or above the upper |
| MetricRuns.VerdictBands | internal/controller/metrics_analyzer.go:62-156 | all reachable states lie in the band of their verdict iff alpha + beta < 1 |
| MetricRuns.LedgerBase | internal/controller/metrics_analyzer.go:115-126 | the base of the present test is zero or the counters of the poll that showed a counter going backwards |
| MetricRuns.CountersConserved | internal/controller/metrics_analyzer.go:89-139 | observations equal the last-seen counter minus the base whatever cycles failed or had no data; failures do so too iff no poll since the base showed new failures without a new request |
| MetricRuns.StalledFailureIsLost | internal/controller/metrics_analyzer.go:129-138 | two polls, the second with a failure and no request, leave the failure seen but not counted |
| StepTraffic.ObservationsOfAStep | internal/controller/metrics_analyzer.go:110-139 | for every sequence of polls, restarts and verdicts, observations are the step's requests plus those carried over less those missed; while undecided they are the step's own iff the counter stood at zero or restarted before the first poll, or nothing had been served when the test last restarted |
| MetricRuns.TwoPolls | internal/controller/metrics_analyzer.go:110-139 | two forward polls in a row leave what the second alone would have left |
| MetricRuns.Batching | internal/controller/metrics_analyzer.go:100-139 | with one baseline and no bound reached on the way, any polling schedule leaves the state of a single poll at its end |
| MetricRuns.FailureRaisesEvidence | internal/controller/metrics_analyzer.go:105-135 | one failure in place of a success strictly raises the ratio, iff p0 + delta < 1 or p0 lies below the cap of p1 |
| BoundedDecision.HealthyTracks | internal/controller/metrics_analyzer.go:89-153 | on successes alone, and while undecided, the ratio depends on nothing but the number of new requests, whatever polls repeat themselves or have no data |
| BoundedDecision.HealthyStreamPromotes | internal/controller/metrics_analyzer.go:89-153 | a failure-free stream of polls promotes once they have shown (ratio/lower - 1)(1 - p1)/(p1 - p0) new requests |
| BoundedDecision.BrokenStreamRollsBack | internal/controller/metrics_analyzer.go:89-150 | an all-failure stream of polls rolls back once they have shown (upper/ratio - 1) p0/(p1 - p0) new requests |
| BoundedDecision.FruitfulPollsBring | internal/controller/metrics_analyzer.go:110-135 | one-sided polls show at least one new request for each fruitful one among them |
| BoundedDecision.RequestsFromScratch | internal/controller/metrics_analyzer.go:55-56 | both limits from a fresh state, in alpha, beta, p0 and p1 |
| WaldBounds.VerdictsPartition | internal/controller/metrics_analyzer.go:142-153 | at every horizon the probabilities of promote, rollback and pending are non-negative and total 1 |
| WaldBounds.ChangeOfMeasure | internal/controller/metrics_analyzer.go:128-153 | for every policy and horizon, the ratio times the H1-probability of a verdict is on the verdict's side of the bound times its H0-probability |
| WaldBounds.WaldUnrelaxed | internal/controller/metrics_analyzer.go:55-56 | (1 - beta) P0(rollback) <= alpha P1(rollback) and (1 - alpha) P1(promote) <= beta P0(promote) |
| WaldBounds.WaldErrorBounds | README.md:353-354 | P0(rollback) <= alpha/(1 - beta) and P1(promote) <= beta/(1 - alpha), for every horizon, adaptive batch schedule and sequence of rates |
| WaldBounds.WaldSumBound | internal/controller/metrics_analyzer.go:142-153 | P0(rollback) + P1(promote) <= alpha + beta |
| WaldBounds.RobustErrorBounds | README.md:353-354 | alpha/(1 - beta) bounds the rollback of every canary none of whose requests is likelier to fail than stable's, beta/(1 - alpha) the promotion of every one none of whose requests is less likely to fail than the alternative, each request with its own chance given all before it |
| StepErrors.StepErrorBound | internal/controller/metrics_analyzer.go:61-173 | a canary no worse than stable is rolled back in a step, by any of its mutually dependent metrics, with probability at most (metrics + counter restarts) alpha/(1 - beta), whichever metrics have no data at which polls |
| StepErrors.MissedDegradationBound | internal/controller/metrics_analyzer.go:61-173 | a canary one of whose metrics is never better than its alternative is promoted by some cycle of a step with probability at most (1 + restarts of that counter) beta/(1 - alpha), whatever the other metrics do |
| RolloutErrors.RolloutErrorBound | internal/controller/reconciler.go:146-245 | with one stable rate per metric and counters that start at zero and do not restart, a canary no worse than stable is rolled back at all with probability at most metrics alpha/(1 - beta), whatever the number of steps |
| WaldBounds.NeverWithinAlphaBeta | README.md:364 | the claim "false rollbacks within alpha and missed degradations within beta" fails for every alpha and beta |
| WaldBounds.FalseRollbackExceedsAlpha | README.md:364 | for every alpha and beta some metric and single batch roll back falsely with more than alpha |
| WaldBounds.MissedDegradationCanExceedBeta | README.md:364 | for alpha + beta < 1 and alpha above the floor on p0, one request misses a degradation with more than beta; for smaller alpha the claim fails by its other half |
| Aggregation.CycleMeaning | internal/controller/metrics_analyzer.go:25-28 | an answered cycle rolls back iff some metric newly does, and promotes iff there are metrics and all have passed |
| Aggregation.Independence | internal/controller/metrics_analyzer.go:60-185 | until the first rollback, every stored state is what its metric's test holds when run alone on its own readings in the cycles that no failed query abandoned |
| Aggregation.OrderIrrelevant | internal/controller/metrics_analyzer.go:61-173 | with every query answered, no order of the metrics changes any cycle's decision |
| VirtualServices.RewriteInPlace | internal/controller/virtualservice.go:55-75 | the loop leaves in the array exactly the specified rewrite |
| VirtualServices.Mesh.SetVirtualServiceWeights | internal/controller/virtualservice.go:26-91 | the object is patched as specified, or left alone with an error, for every shape of object and every fate of read and write |
| VirtualServices.AttemptMeans | internal/controller/virtualservice.go:34-91 | the patch succeeds iff the object can be read and patched and the write is acknowledged; it changes, entry by entry, the weights of the two hosts in the first HTTP route and nothing else: not the other routes, not the rest of the first one, not the rest of the object |
| ReconcilerLaws.OnlyWeightsEverChange | internal/controller/virtualservice.go:77-82 | over every run, under any spec edits and write faults, nothing of the VirtualService but weights in its first HTTP route ever changes |
| VirtualServices.RewriteFrame | internal/controller/virtualservice.go:55-75 | length, order, hosts and all entries of other hosts stay; an entry changes in its weight only |
| VirtualServices.RewriteShares | internal/controller/virtualservice.go:63-72 | each of the two hosts carries its weight per entry, every other host what it had |
| VirtualServices.WeightsTotal100 | internal/controller/virtualservice.go:63-72 | complementary weights total 100 for every canary weight iff each host has exactly one entry |
| VirtualServices.LastPatchWins | internal/controller/virtualservice.go:41-82 | the last of any sequence of patches alone determines the object |
| Rollout.CanaryRollout.SetStatus | internal/controller/reconciler.go:248-263 | memory takes the new status; the store takes it unless the write is rejected |
| Rollout.Reconciler.Reconcile | internal/controller/reconciler.go:34-246 | one reconcile changes status and route, and returns, exactly as specified, under every fate of its reads and writes |
| Rollout.Reconciler.ReconcileStep | internal/controller/reconciler.go:98-139 | the same from the readiness check on |
| Rollout.Reconciler.ReconcileAnalysis | internal/controller/reconciler.go:146-184 | the same from the analyzer on |
| Rollout.Reconciler.ReconcileTimer | internal/controller/reconciler.go:186-245 | the same for timer, gate and advance |
| ReconcilerLaws.NothingToDo | internal/controller/reconciler.go:37-55 | a resource that is gone, aborted, or promoted and not asked to abort is left alone |
| ReconcilerLaws.AbortIsObeyed | internal/controller/reconciler.go:50-68 | in every phase but Aborted an abort request patches 0 and 100, and the status becomes Aborted at the same step with weight 0 iff the patch is known to have been made and the status is stored |
| ReconcilerLaws.AbortedOnRequest | internal/controller/reconciler.go:57-68 | once an abort request has met working writes a run is aborted and drained from then on |
| ReconcilerLaws.PauseIsObeyed | internal/controller/reconciler.go:70-77 | in every phase that is not an end a pause request stores Paused, and step, weight, route and states stay |
| ReconcilerLaws.ResumeIsObeyed | internal/controller/reconciler.go:79-83 | a paused rollout runs again where it was, its timer begun anew, and comes back after one second |
| ReconcilerLaws.Begins | internal/controller/reconciler.go:85-89 | a new resource starts running at step 0 with weight 0 and comes back after one second |
| ReconcilerLaws.Overruns | internal/controller/reconciler.go:94-96 | beyond the last step the status becomes Promoted with weight 100 |
| ReconcilerLaws.WaitsForPods | internal/controller/reconciler.go:98-116 | with the pods not ready for up to five minutes nothing changes and the reconcile comes back after ten seconds; if readiness cannot be checked nothing changes and it fails |
| ReconcilerLaws.GivesUpOnPods | internal/controller/reconciler.go:103-113 | after five minutes the route is patched to 0 and the status becomes Failed, whether or not the patch can be made |
| ReconcilerLaws.SetsTheWeight | internal/controller/reconciler.go:118-139 | with the pods ready a step gets its weight, stored iff the patch is known to have been made and the status is stored, and the reconcile comes back after pauseSeconds seconds |
| ReconcilerLaws.RetriesQueries | internal/controller/reconciler.go:152-165 | a failed query changes nothing and is tried again after fifteen seconds |
| ReconcilerLaws.RollsBackAtOnce | internal/controller/reconciler.go:167-183 | a rollback stores Aborted with the returned states and patches to 0, whether or not the patch can be made |
| ReconcilerLaws.WaitsForTimer | internal/controller/reconciler.go:186-201 | until the pause is over only the states change, and the reconcile comes back after the analysis interval or when the pause is over, whichever is sooner |
| ReconcilerLaws.WaitsAtGate | internal/controller/reconciler.go:203-226 | in front of a closed gate only the states change, and it comes back after the analysis interval |
| ReconcilerLaws.LeavesTheStep | internal/controller/reconciler.go:228-246 | otherwise the step is left without states, for the next one at the same weight after one second, or for Promoted |
| ReconcilerLaws.SharesNeedReadiness | internal/controller/reconciler.go:98-139 | a reconcile that gives the canary a share, other than none and other than the one it had, found the pods ready and nobody asking to pause or abort, and the share is the step's weight |
| ReconcilerLaws.TrafficWasEarned | internal/controller/reconciler.go:98-139 | under any write faults, a canary with traffic was given just that share by a reconcile that found its pods ready, and has had it since |
| RolloutSafety.PlanMoves | internal/controller/reconciler.go:45-245 | every reconcile intends one of nine moves: idle, abort, give up, toggle pause, start, overrun, set weight, observe, advance |
| RolloutSafety.AbortedIsFinal | internal/controller/reconciler.go:45-48 | after Aborted neither status nor weights ever change, under any spec edit |
| RolloutSafety.PromotedOnlyAborts | internal/controller/reconciler.go:50-55 | after Promoted the status stands still until Aborted |
| RolloutSafety.StepsMoveForward | internal/controller/reconciler.go:85-89 | the step index never decreases and grows by at most one per reconcile, under any spec edit and write fault |
| RolloutSafety.StepsInRange | internal/controller/reconciler.go:237-245 | with fixed non-empty steps the index is in range until Promoted and equals their number there |
| RolloutSafety.OverrunOnlyWithoutSteps | internal/controller/reconciler.go:94-96 | with fixed steps the overrun branch is reachable iff there are none |
| RolloutSafety.NoStrandedVerdict | internal/controller/reconciler.go:160-182 | whatever writes fail and however the spec is edited, a rollback verdict is stored only together with Aborted |
| ReconcilerLaws.AbortedByAnalysis | internal/controller/reconciler.go:167-183 | conversely, a run that enters Aborted without a request stores last a Rollback state that is its metric's own test over the readings stored in the step and the last poll |
| RolloutSafety.AbortDrains | internal/controller/reconciler.go:171-183 | the canary stays without traffic after an abort iff the operator asked for it, there was none, or the patch arrived |
| RouteAgreement.AbortedWithTraffic | internal/controller/reconciler.go:171-183 | a run that rolls back while the patch is rejected ends in Aborted with half of the traffic on the canary |
| RolloutSafety.FailedIsNotTerminal | internal/controller/reconciler.go:45-55 | a failed rollout plans what a running one in its place would, but for the phase it keeps while it waits |
| RolloutSafety.ExposureUnderFaults | internal/controller/reconciler.go:98-139 | with positive weights, whatever writes fail, the canary has nothing, the current step's weight or the previous one's, and stable the rest |
| RolloutSafety.OnlyReachedSteps | internal/controller/reconciler.go:118-139 | with any weights, no step not yet reached ever receives its share |
| RouteAgreement.NextAgrees | internal/controller/reconciler.go:57-183 | a reconcile spoils the agreement of route and status iff it tears: one of its two writes takes effect without the other and the patch changes something |
| RouteAgreement.WeightAgreement | internal/controller/reconciler.go:57-245 | under any write faults, route and status agree throughout a run iff no reconcile of it tears |
| RouteAgreement.FaultFreeAgreement | internal/controller/reconciler.go:57-245 | without write faults the route carries the weight in the status, and in Promoted the last step's weight |
| RouteAgreement.RouteHolds | internal/controller/reconciler.go:103-245 | under any write faults, a step the status reports as set has its weight in the route, unless a half drain has led it astray; then, with positive weights, it has none |
| RouteAgreement.PromotedShare | internal/controller/reconciler.go:237-240 | a promoted canary has the last step's weight unless astray; if that weight is positive, nothing iff astray, so 100 iff the weight is 100 and it is not astray |
| RouteAgreement.FaultFreePromotedShare | internal/controller/reconciler.go:237-240 | without write faults and for any weights, a promoted canary has 100 iff the last step's weight is 100 |
| RouteAgreement.PromotedAtHalf | internal/controller/reconciler.go:237-240 | a fault-free run that ends promoted with half of the traffic on stable |
| RouteAgreement.PromotedAstray | internal/controller/reconciler.go:103-113 | a run with one lost write that ends promoted with no traffic on the canary |
| RouteAgreement.PromotedBeyondZero | internal/controller/reconciler.go:103-113 | with a last weight of zero, a run with one lost write that ends promoted with all traffic on the canary |
| PromotionCertificate.ScanAgrees | internal/controller/reconciler.go:208-215 | the gate's scan of the states agrees with the analyzer's aggregate |
| PromotionCertificate.AdvanceCondition | internal/controller/reconciler.go:186-245 | exactly when a reconcile leaves its step, for every configuration |
| PromotionCertificate.GateRefinement | internal/controller/reconciler.go:152-226 | with URL and analysis, a step with a pause is left iff its timer elapsed and the analyzer returned promote in that same reconcile, and the status write was not rejected |
| StepReachability.PassableSteps | internal/controller/reconciler.go:208-226 | from any fresh resource with a route, some run gets past a step iff there is no analysis, or there are a URL and some metrics, or no step up to it has a pause |
| StepReachability.NeverPasses | internal/controller/reconciler.go:152-226 | a step with a pause whose gate cannot open is passed by no run, under any environment |
| StepReachability.PassingPoll | internal/controller/metrics_analyzer.go:61-171 | for any metrics, alpha and beta some single poll promotes all metrics at once |
| PromotionCertificate.HeldSince | internal/controller/reconciler.go:256-261 | the stored transition time is that of the reconcile that last changed phase, step, weight or time |
| PromotionCertificate.AdvanceWasHeld | internal/controller/reconciler.go:118-193 | under any write faults, a step that is left stood unpaused for at least its pause, in the route too unless astray |
| PromotionCertificate.HeldInRoute | internal/controller/reconciler.go:118-193 | without write faults a held step had exactly its weight in the route all the time and nobody asked for a pause |
| PromotionCertificate.StatesExplained | internal/controller/reconciler.go:160-235 | whatever writes fail, the stored states are those of tests begun afresh in the current step |
| PromotionCertificate.AdvanceWasCleared | internal/controller/reconciler.go:208-235 | a step with a pause under analysis is left only when every metric's test over exactly the readings stored in that step and the last one ended at or below the lower bound |
| PromotionCertificate.StepsServed | internal/controller/reconciler.go:118-245 | at any point of a run, whatever writes failed, every earlier step was held and cleared, in order |
| PromotionCertificate.CertificateOfPromotion | internal/controller/reconciler.go:118-245 | a promoted run, whatever writes failed, visited every step in order, held each for its pause and cleared each one under analysis |
| StoredStates.StoredStateIsAlone | internal/controller/reconciler.go:160-170 | under any faults a stored state is its metric's own test over the readings stored since the step began |
| StoredStates.StoredStateIsBanded | internal/controller/metrics_analyzer.go:141-156 | for alpha + beta < 1 every stored state of a run lies in the band of its verdict |
| StoredStates.StoredCountsConserved | internal/controller/reconciler.go:160-196 | stored counts are the movement of the counters since the test's base, across paused, failed and lost reconciles |
| StoredStates.DecidedStateStays | internal/controller/metrics_analyzer.go:64-68 | a decided stored state stays until the step is left or the rollout aborts |
| StoredStates.EvidenceSinceEntry | internal/controller/reconciler.go:228-245 | the readings behind the stored states were all gathered after the step was entered |
| StoredStates.StoredObservations | internal/controller/metrics.go:34 | in every world of a step, the stored observations against the requests since the counter's value when the step was entered, with the exact condition under which they agree |
| StoredStates.EarlierTrafficReported | internal/controller/metrics.go:34 | a run whose second step reports an observation although nothing was served in it |
| StepDuration.BrokenMetricAborts | internal/controller/reconciler.go:160-184 | under any write faults, a metric that shows only failures aborts the rollout before the polls stored in its step have shown (upper - 1) p0/(p1 - p0) of its requests, idle polls and polls without data allowed |
| StepDuration.BrokenStepAborts | internal/controller/reconciler.go:141-226 | from the moment the weight of a step with a pause is set, a metric that shows only failures aborts the rollout within (upper - 1) p0/(p1 - p0) on-time reconciles, each of which finds a new failure; early ones, any number of them, need not |
| StepDuration.HealthyStepIsLeft | internal/controller/reconciler.go:186-245 | a step whose metrics show only successes is left by the first undisturbed reconcile after its pause once the stored polls have shown the requests each test needs, idle polls and polls without data allowed |
| RolloutProgress.ReconcileMakesProgress | internal/controller/reconciler.go:85-245 | every undisturbed reconcile finishes the rollout or leaves no more to do, however early the next one comes; the budget falls by a next one on time, in front of a closed gate by a fruitful poll, and on leaving a step by all it had left |
| RolloutProgress.RolloutFinishes | internal/controller/reconciler.go:85-245 | from any point of a rollout, Failed included, as many on-time reconciles as its budget promote it, with any number of early ones between; under analysis, if it cooperates and on-time polls are fruitful |
| RolloutProgress.FreshRolloutFinishes | internal/controller/reconciler.go:85-245 | a fresh rollout is promoted within 1 + sum of (2 + ceil(pause/interval) + n) on-time reconciles, n fruitful polls settling a step |
| RolloutProgress.UnanalysedRolloutFinishes | internal/controller/reconciler.go:85-245 | without analysis within 1 + sum of (2 + ceil(pause/interval)) |
| AnalysedProgress.HealthyRolloutFinishes | internal/controller/reconciler.go:85-245 | the same from the readings alone: metrics show only successes, on-time reconciles find a new request for each, early ones may find none or no data, and n requests pass the slowest metric |
| Arguments.SplitArgsLoop | cmd/statctl/main.go:113-135 | the lookahead loop computes the recursive split, and puts every token where its own characters and those of its predecessor say |
| Arguments.PlaceOfEachToken | cmd/statctl/main.go:117-130 | a token goes to the flags iff it starts with '-' and is more than "-", or follows a token that does and that contains no '=' |
| Arguments.SplitInterleaves | cmd/statctl/main.go:105-111 | flags and positionals are the marked and unmarked tokens, in order |
| Arguments.SplitConserves | cmd/statctl/main.go:113-135 | every token is used exactly once |
| Arguments.SplitNormalForm | cmd/statctl/main.go:105-111 | splitting the positionals followed by the flags returns the same pair |

## Left out

- Floating point: ratios are exact reals and counters integers; rounding, NaN, infinities and the truncation of fractional counters to int64 are not modelled, nor is a stable version that fails every request (p0 = 1).
- int32 and int64 ranges: steps, weights and counts are unbounded.
- Clock: a reconcile reads one instant; timestamps keep their full precision, where the source stores whole seconds.
- Stale reads: a reconcile sees the stored status and route as they are, not an informer cache behind them, and no two reconciles overlap.
- Kubernetes client, manager set-up, leader election and pod listing (internal/controller/reconciler.go:265-295): readiness and the fate of reads and writes are inputs.
- Prometheus client and queries (internal/controller/metrics_analyzer.go:187-205): the four answers are inputs.
- Exported gauges, log lines and status messages: they do not influence decisions.
- Spec edits of steps, metrics, alpha or beta during a run, except in the theorems that allow any edit.
- RolloutSafety.ExposureUnderFaults: requires positive step weights; a weight equal to the initial 0 is passed over without a patch, so an earlier step's share can stay; OnlyReachedSteps covers all weights.
- RolloutProgress.RolloutFinishes: a paused rollout is not under way until it is resumed.
- AnalysedProgress.HealthyRolloutFinishes: covers metrics that show only successes; on mixed traffic the number of polls depends on the course of the test.
- StepErrors.StepErrorBound: a counter that restarts and overtakes its old value between two polls goes unnoticed by the analyzer and is not covered; neither are several steps with restarts or with changing stable rates, where a later step's first poll counts earlier traffic again (EarlierTrafficReported).
- RolloutErrors.RolloutErrorBound: is about stable rates that stay what they are through the rollout and counters that do not restart.
- WaldBounds.MissedDegradationCanExceedBeta: leaves this half of the claim open for alpha at or below the floor on p0 (1e-10), where a single failure under H0 is likelier than alpha and tests of many cycles would have to be built; the claim as a whole fails there as well (NeverWithinAlphaBeta).
- Malformed VirtualServices whose weight field cannot be set, and creation of missing fields by the unstructured helpers.
- Dashboard, watch loop, CLI commands, Helm chart, manifests, demo application and generated deep-copy code.
