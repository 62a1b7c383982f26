# agentrax: rollout, quota and registry protocols in Dafny

agentrax is a Kubernetes operator for AI agents. This project models its three
stateful protocols and proves what they keep over every run:

- **Canary rollouts** (`internal/rollout`, and the canary dispatch of the
  AgentDeployment reconciler). One reconcile reads the stored objects, decides, and
  issues API writes one after the other. It is modelled twice: as a *plan*, the list
  of writes fixed by what the reconcile read and observed, and as a class whose
  methods perform the writes call by call and may be stopped by a failing call. The
  methods are proved to carry out a prefix of the plan, so that a crash or an API error
  is a prefix. Runs are sequences of reconciles, each cut anywhere, spec edits,
  and out-of-band deletions of canary objects. Clock, Prometheus answers and Deployment
  progress are inputs of each reconcile.
- **Quota admission** (`internal/quota`, with the webhook, the API server, the
  TenantQuota reconciler and the HPA headroom). Deltas, GPU products and sums have Go's
  int32 and int64 widths; an agent enters the protocol with the GPU count that
  `gpusForAD` derives from its spec (`QuotaMath.Charged`). A request reads the status in
  one step and is decided on that snapshot in a later one; the reconciler lists,
  releases key by key and writes the status in separate steps, and may fail before the
  write. Storage, deletion, expiry, sweeps and restarts come in between.
- **MCP discovery** (`internal/registry`, and the registration part of the AgentDeployment
  reconciler and of a promotion). Entries with heartbeats and TTLs, asynchronous
  persistence to a ConfigMap, the three-strikes heartbeat counter, and the status that
  speaks about them.

`dafny verify dfyconfig.toml` checks everything. The files are one module each:

| file | content |
|---|---|
| `Options.dfy`, `Durations.dfy`, `Usages.dfy` | option type; nanoseconds; resource vectors, fixed-width integers, sums over maps |
| `PromQL.dfy` | duration printer and grammar; the verdict of an evaluation |
| `CanaryModel.dfy`, `CanaryController.dfy` | plans of API writes; the controller as code |
| `CanarySafety.dfy`, `CanaryMoves.dfy` | invariants over all runs; what one cut reconcile can do |
| `CanaryEvidence.dfy`, `CanaryFailSafe.dfy`, `CanaryTiming.dfy`, `CanaryOutcome.dfy`, `CanaryResults.dfy`, `CanaryHpa.dfy` | promotion evidence, fail-safe, deadlines, starts and endings, wake-ups, the paused autoscaler |
| `Webhook.dfy` | admission of canary specs and what it guarantees |
| `QuotaMath.dfy`, `QuotaEnforcer.dfy`, `QuotaBarrier.dfy`, `QuotaRace.dfy` | arithmetic, reservation map, barrier, racing creates |
| `QuotaStored.dfy`, `QuotaStoredBarrier.dfy`, `QuotaStoredWitness.dfy`, `QuotaPerAgent.dfy`, `TenantQuotaReconciler.dfy` | stored objects, hypotheses, counterexamples, the ceiling of one agent, recounting |
| `HpaBudget.dfy` | headroom of all HPAs of a tenant |
| `DiscoveryRegistry.dfy`, `RegistryViews.dfy`, `RegistryPersistence.dfy`, `Registrar.dfy`, `McpReconcile.dfy` | registry, readers, persistence, probes, the status flag |

## Where the code does less than its comments say

Each of these is a lemma, with the exact condition under which the promise holds where
there is one.

- After a rollback the next reconcile gives the stable Deployment `spec.image`, the
  image that was just rejected (`CanaryOutcome.StableKeptAfterRollbackIff`,
  `CanaryOutcome.RejectedImageDeployed`). If that Deployment is not complete at once, the
  phase becomes Pending or Degraded and the guard against retrying the image is gone
  (`CanaryOutcome.RetryGuardIff`).
- A breach ends the rollout exactly when all the calls of its reconcile succeed
  (`CanaryOutcome.BreachKeptIff`); otherwise it is forgotten when the next evaluation is
  healthy (`CanaryOutcome.BreachForgotten`).
- The stable Deployment keeps the stable version up to the last step exactly when every
  rollout begins with that version deployed (`CanarySafety.StableGuardedIff`), which the
  two points above can prevent.
- If the write that clears a recorded Prometheus outage is lost, a later outage inherits
  its start (`CanaryFailSafe.LostRecovery`; exactly when:
  `CanaryFailSafe.RecoveryRecordedIff`).
- A sample that stays too small is never held against the thresholds: exhausted
  extensions advance the step (`CanaryTiming.SmallSampleAdvances`). A NaN reading exceeds
  no threshold, and a window PromQL cannot express counts as an outage
  (`PromQL.VerdictIff`).
- The enforcer's lock does not cover the status read: a request that read the status
  before another one was admitted and counted is admitted as well
  (`QuotaBarrier.StaleReadBreaks`).
- Stored usage stays within quota under eight hypotheses about the order of steps, and
  none can be dropped (`QuotaStoredWitness.EveryHypothesisNeeded`): no stale status read,
  no admission while only a listing still to be written counts an agent, no expiry of an
  uncounted charge, no re-admission over one, no release of one (an update not yet stored, a move), no
  negative delta, no status write lost after the release, no restart with uncounted
  charges.
- The int32 sum of other agents' replicas can wrap and grant the whole budget to
  everybody (`HpaBudget.OverflowBreaksBudget`; exactly when a headroom is off:
  `HpaBudget.HeadroomExactIff`). Up to 2^32 over the budget the total is safe exactly for
  demands at most 2^31 + 1 over it, and for larger ones there is an exact test too
  (`HpaBudget.BudgetKeptIff`).
- A deregistration not yet persisted is undone by a restart
  (`RegistryPersistence.ResurrectedIff`); a sweep is visible to a heartbeat or a
  registration of an expired entry (`RegistryViews.SweepSeenByHeartbeatIff`,
  `RegistryViews.SweepSeenByRegistrationIff`).
- With the default 60s probe interval and 90s TTL one missed probe already hides an
  agent, so the third strike always comes too late (`Registrar.ConfiguredTolerance`).
- A first registration, by a reconcile or at the end of a promotion, whose persist or
  status write fails leaves an agent in the registry that its status calls unregistered;
  nothing else does (`McpReconcile.HonestRunIff`).

## Model

| member | source | states |
|---|---|---|
| CanaryController.Controller.Rollback | internal/rollout/canary.go:137-208 | the rollback writes, as far as the API accepts calls: stable image back, canary objects removed, HPA back, status last; nothing after the first failing call |
| CanaryController.Controller.Promote | internal/rollout/canary.go:369-429 | the promotion writes in order up to the first failing call; fails without any write when there is no canary version or no stable Deployment |
| CanaryController.Controller.ExecuteSetWeight | internal/rollout/canary.go:215-251 | canary Deployment and Service before the route, the weight recorded last |
| CanaryController.Controller.ExecutePause | internal/rollout/canary.go:261-362 | start of the pause, outage bookkeeping, fail-safe, breach, small sample and elapsed branches, each as the prefix of its plan with its requeue time |
| CanaryController.Controller.OnUnreachable | internal/rollout/canary.go:289-307 | first failure is stamped, the fail-safe rolls back at the timeout, otherwise a retry in ten seconds |
| CanaryController.Controller.OnSmallSample | internal/rollout/canary.go:324-343 | the flag is written first; extension until min(3d, 15m), then the step may advance |
| CanaryController.Controller.EnsureHTTPRoute | internal/rollout/canary.go:630-664 | whatever the route was, it shows the requested weights afterwards |
| CanaryController.Controller.TearDown | internal/rollout/canary.go:156-176 | canary Deployment, Service and route deleted and the HPA restored, in this order and up to the first failing call; absent objects are tolerated |
| CanaryController.Controller.Step | internal/rollout/canary.go:89-132 | self-healing, then the step the index points at, promotion past the last one, rollback on a malformed one |
| CanaryController.Controller.StartCanary | internal/controller/agentdeployment_controller.go:934-962 | the HPA is deleted before the rollout is recorded |
| CanaryController.Controller.ReconcileChildren | internal/controller/agentdeployment_controller.go:564-604 | outside a rollout: stable Deployment set to spec.image, HPA only when the quota exists, phase derived from the Deployment |
| CanaryController.Controller.Reconcile | internal/controller/agentdeployment_controller.go:204-228 | abort before step before start before children; the stored objects afterwards are those of the cut plan |
| CanaryOutcome.RolloutStartsIff | internal/controller/agentdeployment_controller.go:904-962 | outside a rollout, a successful reconcile starts one if and only if the strategy is canary, a stable version is known, another image is asked for and it is not the one just rolled back; then that image is recorded, the stable Deployment is left alone and the HPA removed; otherwise the stable Deployment gets the image asked for |
| CanaryOutcome.StableVersionLearnt | internal/controller/agentdeployment_controller.go:558-626 | such a reconcile records the image as stable version exactly when the Deployment is complete and its pods can pull it; exactly when the phase is Degraded, Pending, Running or still failed; requeue times |
| CanaryOutcome.NextEditStarts | internal/controller/agentdeployment_controller.go:904-962 | once an agent runs, the next image edit under a canary strategy starts a rollout of it with the old image still on the stable Deployment |
| CanaryResults.EndingExact | internal/rollout/canary.go:137-208 | every way a rollout ends, at any cut: promoted exactly when every step was executed and no abort asked for, otherwise rolled back for the one of the four reasons that holds of the stored state and the answers; nothing of the rollout is left in cluster and status but the rejected image |
| CanaryResults.RollbackKeepsUnknown | internal/rollout/canary.go:141-154 | without a stable version a rollback leaves the stable Deployment alone |
| CanaryResults.WeightExact | internal/rollout/canary.go:215-251 | a weight step, in any state, leaves the split and its record and changes nothing else |
| CanaryResults.WakeAfterEvaluation | internal/rollout/canary.go:282-362 | the next wake-up of a started pause by the answers alone: ten seconds without an answer, none after a breach or the fail-safe, the next multiple of d for too small a sample before 3d and 15m, else the end of the pause, and a second once it is over |
| CanaryResults.WakeAfterStart | internal/rollout/canary.go:272-280 | a pause that begins is looked at again after its length |
| CanaryResults.WakeAfterStep | internal/rollout/canary.go:89-132 | a second after a weight, no wake-up after an ending, an error when promotion has no canary version or no stable Deployment |
| CanarySafety.AlwaysConsistent | internal/rollout/canary.go:89-132 | in every run, cut, retried and edited anywhere: canary objects exist only during a rollout and carry the canary image; the recorded weight is that of the last executed setWeight, a pause start is recorded only on a pause step, an outage only within a pause; any route sums to 100 and shows the recorded weight or that of the step being applied |
| CanarySafety.StableGuardedIff | internal/rollout/canary.go:369-429 | in every run, cut, retried and edited anywhere, the stable Deployment runs the stable version until every step has been executed if and only if every rollout of the run begins with the stable version deployed (or, with no steps at all, the new one) |
| CanarySafety.NextKeeps | internal/controller/agentdeployment_controller.go:904-962 | every single action, any reconcile cut after any call included, keeps both invariants |
| CanaryMoves.ReconcileMoves | internal/rollout/canary.go:261-362 | a reconcile of an active rollout cut anywhere makes one of a fixed list of status moves, none before the self-healing writes, and leaves no canary object behind when it ends the rollout |
| CanaryEvidence.PromotionEvidence | internal/rollout/canary.go:282-362 | a run that ends promoted contains, in order, each weight applied and for each pause its start and a later evaluation that was answered, found no breach, was at least d after the recorded start, and had enough samples or had waited min(3d, 15m) |
| CanaryEvidence.WeightWasRecorded | internal/rollout/canary.go:215-251 | a weight in the evidence was the recorded canary weight in some state of the run |
| CanaryFailSafe.FailSafeOnlyAfterOutage | internal/rollout/canary.go:289-315 | when no clearing write is lost, a PrometheusUnavailable rollback closes an unbroken series of failed evaluations at least as long as the timeout, across pauses and restarts |
| CanaryFailSafe.FailSafeFires | internal/rollout/canary.go:299-304 | a failed evaluation at or past the timeout does roll back when its calls succeed |
| CanaryFailSafe.RecoveryRecordedIff | internal/rollout/canary.go:309-315 | an answered evaluation forgets the outage if and only if at least one call after the healing writes succeeds |
| CanaryFailSafe.LostRecovery | internal/rollout/canary.go:289-315 | for every recorded outage: an answer whose clearing write fails, then one failure past the timeout, rolls back although Prometheus had answered |
| CanaryTiming.RolloutDeadline | internal/rollout/canary.go:272-362 | with positive pauses and punctual wake-ups, a pause is in progress only before its start plus max(d, min(3d, 15m)) + max(d, 10s) + timeout + 10s, the rollout only before its start plus the sum over its steps, and the next wake-up is strictly ahead and within the same bounds |
| CanaryTiming.RolloutEnds | internal/rollout/canary.go:89-132 | every rollout whose wake-ups never come late and go on until its start plus that bound has been promoted or rolled back by then |
| CanaryTiming.SmallSampleAdvances | internal/rollout/canary.go:324-359 | a persistently small sample with exact wake-ups advances at the first, second or third evaluation, the later ones exactly at two or three pauses |
| CanaryTiming.SmallSampleEndsIff | internal/rollout/canary.go:324-359 | at any evaluation, too small a sample ends the pause if and only if the measured time is at least 3d, or at least 15 minutes and the whole pause; as long as it goes on it is flagged |
| CanaryOutcome.RetriesConverge | internal/rollout/canary.go:369-446 | a promotion or abort cut at any calls and retried any number of times can end in one world only, that of the uncut reconcile |
| CanaryOutcome.UncutEnds | internal/rollout/canary.go:137-208 | the uncut promotion or abort does end there |
| CanaryOutcome.SelfHealing | internal/rollout/canary.go:89-108 | whatever canary objects were deleted, a successful reconcile that stays in the rollout leaves all of them in place with the recorded weight |
| CanaryOutcome.StableKeptAfterRollbackIff | internal/controller/agentdeployment_controller.go:737-750 | the reconcile after a rollback keeps the stable Deployment at the stable version if and only if the spec asks for that version or starts a new canary |
| CanaryOutcome.RejectedImageDeployed | internal/controller/agentdeployment_controller.go:737-750 | every rolled back image that differs from the stable one is deployed by the next reconcile if the spec is left alone |
| CanaryOutcome.RetryGuardIff | internal/controller/agentdeployment_controller.go:904-923 | the guard against retrying survives that reconcile if and only if the Deployment is already complete on the rejected image |
| CanaryOutcome.BreachKeptIff | internal/rollout/canary.go:309-321 | a breach ends the rollout, with that reason, if and only if all calls of the reconcile succeed: the healing ones, the clearing of a recorded outage and the six of the rollback |
| CanaryOutcome.ExceededRollsBack | internal/rollout/promql.go:202-242 | over answers alone: enough requests and an exceeded threshold, in a window PromQL can express, end a started pause in a rollback for the breach |
| CanaryOutcome.BreachForgotten | internal/rollout/canary.go:317-321 | with any of those calls failing, a healthy next evaluation at or after the end of the pause advances the step as if there had been no breach |
| CanaryHpa.HpaPaused | internal/rollout/canary.go:755-798 | the HPA is away for the whole rollout: if it exists while the rollout is in progress, an earlier reconcile made every call that ends the rollout except the final status write |
| CanaryHpa.HpaPausedFromStart | internal/controller/agentdeployment_controller.go:934-962 | that holds for every rollout from the reconcile that records it, whatever was there before and wherever that reconcile was cut |
| Webhook.ValidateCanarySpec | internal/webhook/agentdeployment_webhook.go:303-362 | no error exactly for specs with steps, exactly one action per step, a full weight and all thresholds; every malformed step is named |
| Webhook.AcceptedThresholds | internal/webhook/agentdeployment_webhook.go:343-362 | an accepted spec is judged by its own three thresholds, never by a default |
| Webhook.NoInvalidStep | internal/webhook/agentdeployment_webhook.go:303-341 | in every run whose edits pass the schema and the image guard and leave the steps alone, a rollout of an accepted spec never rolls back for a malformed step |
| Webhook.AcceptedPromotion | internal/webhook/agentdeployment_webhook.go:183-190 | in every such run, every promotion of an accepted spec went through a recorded weight of 100 and promoted the image the rollout started with, in status and Deployment |
| Webhook.AcceptedPausesWaited | internal/webhook/agentdeployment_webhook.go:313-331 | and, since no accepted step carries both, every pause the spec asks for began and was later evaluated with an answer that justifies its end |
| PromQL.PromDuration | internal/rollout/promql.go:87-115 | the printed text is the specified one; an error exactly for positive durations that are not whole milliseconds |
| PromQL.DurationRoundTrip | internal/rollout/promql.go:87-115 | printed unless positive and not whole milliseconds; parsing the text gives the duration back, zero for a negative one; no zero component, minutes and seconds below sixty |
| PromQL.DurationInjective | internal/rollout/promql.go:87-115 | different whole-millisecond durations print differently |
| PromQL.VerdictIff | internal/rollout/promql.go:146-242 | all four verdicts as if-and-only-ifs over policy, window and answers, with the defaults of 100 requests, one percent and 500ms and the treatment of NaN and infinities: sample gate first, then error rate, then latency |
| QuotaMath.GpusSaturate | internal/quota/enforcer.go:134-153 | the GPU count is the product saturated at the largest int32; no int64 overflow; negative input fails closed; the count is never negative |
| QuotaMath.ComputeUsage | internal/quota/enforcer.go:158-166 | the loop, with the GPU count of every spec, returns the exact sum wrapped to int32, the exact sum when it fits |
| QuotaMath.DeltaExact | internal/quota/enforcer.go:206-233 | no delta of valid specs wraps |
| QuotaMath.DeltaRefinesRecomputation | internal/quota/enforcer.go:206-233 | the delta is the difference of recomputed usages for create, update in place and both sides of a move |
| QuotaMath.CreateSound | internal/quota/enforcer.go:248-305 | with fresh status an admitted create or move leaves the tenant within quota |
| QuotaMath.UpdateSound | internal/quota/enforcer.go:248-305 | with fresh status an admitted update worsens no dimension over quota, and an update raising nothing is always admitted |
| QuotaMath.CreateAdmittedIff | internal/quota/enforcer.go:248-305 | a create or move is admitted if and only if its GPU count does not overflow and agents, GPUs, replicas and its own maximum fit their ceilings |
| QuotaMath.UpdateAdmittedIff | internal/quota/enforcer.go:248-305 | an update is admitted if and only if what it raises fits: GPUs and replicas beside what is committed and in flight, and its own maximum the per-agent ceiling |
| QuotaMath.RefusalNames | internal/quota/enforcer.go:257-303 | a refusal names a limit the request would break, for creates and moves the first |
| QuotaPerAgent.PerAgentAlways | internal/quota/enforcer.go:297-303 | in every run of the stored-object protocol, with no hypothesis at all, agents within the per-agent ceiling stay within it |
| QuotaEnforcer.Enforcer.SumInflightLocked | internal/quota/enforcer.go:354-365 | for any iteration order: the exact sum of the other live charges wrapped to int32 |
| QuotaEnforcer.Enforcer.CanAdmit | internal/quota/enforcer.go:179-190 | the same decision as the reserving call, without a reservation |
| QuotaEnforcer.Enforcer.AdmitAndReserve | internal/quota/enforcer.go:317-350 | decision and reservation in one step; the map changes exactly when the request is admitted |
| QuotaEnforcer.Enforcer.Release | internal/quota/enforcer.go:394-398 | exactly one key is forgotten |
| QuotaEnforcer.Enforcer.SweepExpired | internal/quota/enforcer.go:104-113 | deleting while iterating leaves exactly the live reservations |
| QuotaEnforcer.PartialSumsFit | internal/quota/enforcer.go:354-365 | with non-negative charges whose total is an int32, no partial sum wraps in any order |
| QuotaEnforcer.AdmissionFits | internal/quota/enforcer.go:257-268 | an admission keeps the total of all tenants' charges an int32 |
| QuotaEnforcer.SweepsInvisible | internal/quota/enforcer.go:104-113 | removing all sweeps from any run changes no admission decision |
| QuotaBarrier.BarrierHolds | internal/webhook/agentdeployment_webhook.go:233-292 | over every interleaving of status reads, admissions on the status read earlier, ticks, sweeps, releases and commits, each tenant's status usage plus its own live reservations stays within all three ceilings, though the sum an admission reads mixes all tenants, as long as no admission uses a status that has grown since it was read or has a negative delta |
| QuotaBarrier.StaleReadBreaks | internal/webhook/agentdeployment_webhook.go:233-292 | for any two specs that fit alone and not together: a status read before the other is admitted and committed lets both in |
| QuotaRace.RaceOutcome | internal/quota/enforcer.go:248-365 | of n racing creates of one spec exactly the first k in lock order are admitted, k being the largest count that fits all three ceilings, or none if the spec breaks the per-agent or overflow rule |
| QuotaRace.CapacityMeans | internal/quota/enforcer.go:257-305 | that count by division is the same as fitting one by one |
| QuotaStoredBarrier.StoredWithinQuota | internal/controller/tenantquota_controller.go:69-136 | in every run of status reads, admissions, stores, drops, deletions, listings, single releases, status writes, failing reconciles, ticks, sweeps and restarts that respects the eight hypotheses, usage recomputed from the stored agents is within quota in every state |
| QuotaStoredBarrier.NextKeeps | internal/quota/enforcer.go:317-398 | each such step keeps the invariant behind it: even if every admitted request that can still be stored were stored now, no tenant would be over quota, and every uncounted agent or pending request is backed by a live reservation |
| QuotaStoredBarrier.ListingShutsNothing | internal/controller/tenantquota_controller.go:69-84 | a listing by itself excludes no admission: a request that respects the hypotheses before it does so right after it |
| QuotaStoredBarrier.ReservationLasts | internal/quota/enforcer.go:341-349 | an admitted request holds its delta for exactly five seconds |
| QuotaStoredWitness.EveryHypothesisNeeded | internal/quota/enforcer.go:317-398 | the eight hypotheses together are what the barrier assumes of each step, and for each of them a run respects the other seven and ends over quota |
| QuotaStoredWitness.StaleRun | internal/webhook/agentdeployment_webhook.go:233-292 | a status read before another agent is admitted and counted, for all replica counts that fit alone and not together |
| QuotaStoredWitness.ListedRun | internal/controller/tenantquota_controller.go:74-136 | admission between release and status write, for the same counts |
| QuotaStoredWitness.ExpiredRun | internal/quota/enforcer.go:354-365 | expiry of a charge no status counts yet |
| QuotaStoredWitness.ReadmittedRun | internal/quota/enforcer.go:341-349 | a second admission under the same key replaces the uncounted charge |
| QuotaStoredWitness.ReleasedRun | internal/controller/tenantquota_controller.go:74-84 | a listing of the old object releases the charge of an update not yet stored |
| QuotaStoredWitness.CreditRun | internal/quota/enforcer.go:224-232 | a scale-down that is never stored lends its negative delta to another agent |
| QuotaStoredWitness.LostWriteRun | internal/controller/tenantquota_controller.go:132-136 | a status write that fails after the reservation was released |
| QuotaStoredWitness.RestartedRun | internal/quota/enforcer.go:67-80 | a restart loses the charge of a stored agent no status counts yet |
| TenantQuotaReconciler.Reconciler.ListAndRelease | internal/controller/tenantquota_controller.go:74-84 | the tenant's specs in list order, and exactly their reservations released |
| TenantQuotaReconciler.Reconciler.Reconcile | internal/controller/tenantquota_controller.go:69-136 | the counters and the OverQuota condition belong to that listing and the re-fetched quota exactly when listing, re-fetch and a needed status write succeed; otherwise the status stays, though the listed reservations are released |
| TenantQuotaReconciler.ListingRefines | internal/controller/tenantquota_controller.go:74-87 | for a list that shows every stored agent once, in any order, the recount and the keys released are those of the protocol's listing |
| TenantQuotaReconciler.ReportsOverQuotaIff | internal/controller/tenantquota_controller.go:115-130 | for totals that fit the counters, OverQuota is set if and only if the stored agents exceed a limit |
| TenantQuotaReconciler.NeverReportsOverQuota | internal/controller/tenantquota_controller.go:115-136 | in every run respecting the hypotheses the counters are exact and OverQuota is not set |
| HpaBudget.ReplicasUsedByOtherAgents | internal/controller/agentdeployment_controller.go:477-500 | the sum over the other live agents of the tenant, wrapped to int32 |
| HpaBudget.HeadroomExactIff | internal/scaling/autoscaler.go:167-185 | the int32 headroom is the exact remaining budget if and only if the excess over the budget does not wrap to a positive number |
| HpaBudget.HeadroomAlways | internal/controller/agentdeployment_controller.go:477-500 | for every list, wrapped or not: the headroom is what the tenant's excess leaves of the agent's max in int32, within the per-agent ceiling |
| HpaBudget.BudgetKeptIff | internal/scaling/autoscaler.go:61-72 | for every demand: however it is spread over agents, the sum of min(max, headroom) is within maxTotalReplicas if and only if the demand is not `Breakable`, a test on demand and quota alone; with a per-agent ceiling of at least 1 and up to 2^32 over the budget, if and only if it exceeds the budget by at most 2^31 + 1; the sum of HPA maxReplicas exceeds that sum by exactly min less share over the agents whose share is below min |
| HpaBudget.ClampedBetween | internal/scaling/autoscaler.go:61-72 | HPA maxReplicas is at least min, above max or headroom only where that is below min and then exactly min, and otherwise as large as both allow |
| HpaBudget.GrantedAlways | internal/scaling/autoscaler.go:167-185 | for every list, wrapped or not: the closed form of that sum, agent by agent from the residue of max less excess |
| HpaBudget.UncappedIff | internal/scaling/autoscaler.go:151-153 | for every list: an agent is uncapped exactly when its max respects the per-agent ceiling and the excess, counted in turns of 2^32, leaves room for it; up to an excess of 2^31 + 1, exactly when the whole tenant fits its total |
| HpaBudget.SmallDemandNoWrap | internal/controller/agentdeployment_controller.go:477-500 | with a demand at most 2^31 + 1 over the budget no headroom wraps |
| HpaBudget.OverflowBreaksBudget | internal/controller/agentdeployment_controller.go:477-500 | five agents whose summed replicas wrap are granted the whole budget each |
| DiscoveryRegistry.Registry.SweepExpired | internal/registry/registry.go:159-176 | exactly the expired entries go, and their number is returned |
| DiscoveryRegistry.Registry.Register | internal/registry/registry.go:184-210 | rejected exactly for an empty field; otherwise one entry replaced, first registration time kept, heartbeat now, TTL defaulted |
| DiscoveryRegistry.Registry.Deregister | internal/registry/registry.go:213-229 | one key removed, reported only if it was there |
| DiscoveryRegistry.Registry.Heartbeat | internal/registry/registry.go:232-247 | only the heartbeat of a known key changes |
| DiscoveryRegistry.Registry.Get | internal/registry/registry.go:250-271 | the entry if it has not expired |
| DiscoveryRegistry.Registry.List | internal/registry/registry.go:274-291 | as many entries as are visible, each the one Get shows for its key, no key twice |
| DiscoveryRegistry.Registry.Load | internal/registry/registry.go:330-356 | the loaded entries override those in memory; nothing changes without a stored state |
| DiscoveryRegistry.KeyInjective | internal/registry/registry.go:178-181 | a key stands for one agent |
| RegistryViews.RegistrationShown | internal/registry/registry.go:184-210 | at every later time readers see a registered agent, with the namespace, name, endpoint and tools it gave and its first registration time, exactly until its TTL, and every other key as before |
| RegistryViews.DeregistrationShown | internal/registry/registry.go:213-229 | a deregistered agent is seen by nobody at any time, every other key as before |
| RegistryViews.SweepRemoves | internal/registry/registry.go:159-176 | a sweep removes exactly what no reader sees any more |
| RegistryViews.SweepsInvisible | internal/registry/registry.go:159-176 | removing all sweeps from any run changes no answer about a key, as long as no refresh of the key finds it expired |
| RegistryViews.SweepSeenByHeartbeatIff | internal/registry/registry.go:232-247 | a heartbeat cannot tell that a sweep came before it if and only if the key was not expired |
| RegistryViews.SweepSeenByRegistrationIff | internal/registry/registry.go:184-210 | a registration leaves the same entry as without the sweep before it if and only if the key was not expired or was first registered at that very moment |
| RegistryViews.VisibleUntilTtl | internal/registry/registry.go:250-271 | an entry nobody writes is visible exactly until its TTL, whatever else happens and whenever sweeps come |
| RegistryPersistence.PersistedWhenIdle | internal/registry/registry.go:296-327 | under every interleaving, with restarts, whenever no persist is pending the ConfigMap holds memory's entries but for older or equal heartbeats |
| RegistryPersistence.RetryStoresMemory | internal/registry/registry.go:296-327 | a write refused for a conflict and retried stores memory as it is by then |
| RegistryPersistence.HeartbeatWritesNothing | internal/registry/registry.go:232-247 | a heartbeat asks for no persist |
| RegistryPersistence.RestartShowsNothingNew | internal/registry/registry.go:330-356 | a restart from such a state shows nothing, now or later, that was not live |
| RegistryPersistence.NextKeeps | internal/registry/registry.go:184-247 | every step keeps: a snapshot that is the only pending persist lags behind memory by heartbeats only |
| RegistryPersistence.ResurrectedIff | internal/registry/registry.go:213-229 | a deregistered agent is visible after a restart if and only if its removal was not persisted and its stored heartbeat has not expired |
| Registrar.MergeTools | internal/registry/mcp_registrar.go:84-96 | discovered tools first, then the declared ones not yet there |
| Registrar.MergeIsUnion | internal/registry/mcp_registrar.go:84-96 | the merge loses nothing and invents nothing, begins with the discovered tools and adds no tool twice |
| Registrar.MergeOneMore | internal/registry/mcp_registrar.go:84-96 | declared tools are added in the order they are declared |
| Registrar.Registrar.Register | internal/registry/mcp_registrar.go:71-111 | registry and counters after a handshake, with every error path; the counter is cleared only on success |
| Registrar.Registrar.Deregister | internal/registry/mcp_registrar.go:114-121 | counter and entry gone, even if the persist fails |
| Registrar.Registrar.Heartbeat | internal/registry/mcp_registrar.go:125-153 | miss, removal at the third miss, refresh, and re-registration of an unknown agent |
| Registrar.HandshakeShown | internal/registry/mcp_registrar.go:71-111 | success is reported exactly if the handshake was answered, the agent complete and the entry persisted; readers then see the agent's own endpoint, and a tool if and only if it was discovered or declared, exactly until the TTL; otherwise what was there |
| Registrar.HeartbeatShown | internal/registry/mcp_registrar.go:125-153 | an answered heartbeat keeps the entry as it was for another TTL; for an agent the registry has lost it is a registration with a handshake of its own |
| Registrar.DeregistrationShown | internal/registry/mcp_registrar.go:114-121 | the agent is gone in any case; failure is reported exactly if there was something to persist and it was not |
| Registrar.SweepShown | internal/registry/registry.go:159-176 | a sweep leaves the failure counters alone |
| Registrar.OthersUnchanged | internal/registry/mcp_registrar.go:71-153 | no call about one agent changes what readers see of another |
| Registrar.ThreeStrikes | internal/registry/mcp_registrar.go:125-174 | after every history, deregistration is reported exactly when the trailing failed probes since the last success, registration or deregistration reach three and removal succeeded; every miss reports their number |
| Registrar.MissedProbes | internal/registry/mcp_registrar.go:125-153 | k < 3 misses, any sweeps and any other agents: visible up to the next probe if (k+1)·interval ≤ TTL, hidden by then if not, hidden past the TTL |
| Registrar.ConfiguredTolerance | cmd/main.go:251-288 | the effective interval is below the TTL; an adjusted one tolerates exactly one miss, the defaults of 60s and 90s none |
| McpReconcile.Reconciler.ReconcileMCPRegistration | internal/controller/agentdeployment_controller.go:663-716 | flag, MCPHandshakeFailed condition, registry, counters and requeue after each combination of exposure, phase and answers |
| McpReconcile.Reconciler.RegisterPromoted | internal/rollout/canary.go:431-442 | flag, registry and counters after the registration that follows a promotion, with a failing handshake, persist or status write only logged |
| McpReconcile.ReconcileReports | internal/controller/agentdeployment_controller.go:663-716 | in every case, by the answers: when the flag is kept, set or dropped, when the MCPHandshakeFailed condition is set, and when the reconcile comes back |
| McpReconcile.PromotionReports | internal/rollout/canary.go:431-442 | after a promotion the flag is set exactly by a registration that was persisted and recorded; the condition stays |
| McpReconcile.HonestIff | internal/controller/agentdeployment_controller.go:606-618 | a reconcile or promotion keeps "in the registry only if the status says so" exactly unless it registers the agent in memory and fails to persist it or to write the status |
| McpReconcile.HonestRunIff | internal/controller/agentdeployment_controller.go:663-716 | in every run, whatever other agents and sweeps do, that holds at every moment if and only if no registration of the run goes unrecorded |
| McpReconcile.SwitchedOffIsOut | internal/controller/agentdeployment_controller.go:668-679 | in such a run, exposure switched off and reconciled means out of the registry, even when the persist or the status write fails |
| McpReconcile.HealthyReconcileHeals | internal/controller/agentdeployment_controller.go:692-716 | from any state, one healthy reconcile makes the agent visible, sets the flag, clears the condition and forgets its misses |

## Left out

- RolloutDeadline: durations are unbounded integers; the int64 overflow of three times a pause of more than 97 years is not modelled.
- AlwaysConsistent: assumes that the step list stays as it is during a rollout, which the webhook does not enforce, that reads see the latest writes, and that no edit falls between a reconcile's read and its status write.
- PersistedWhenIdle: every persist succeeds in the end and there is a single writer; several replicas and leader election are not modelled.
- Promote: ends with its status write; the MCP registration after it is `McpReconcile.Reconciler.RegisterPromoted`, whose failures the source only logs.
- ReconcileChildren: does not write the stable Service and the ServiceMonitor and does not return the periodic MCP requeue, which `McpReconcile.Reconciler.ReconcileMCPRegistration` returns.
- StoredWithinQuota: the limits in a TenantQuota stay as they are during a run, each tenant has at most one reconcile under way, and there is one operator process, since the reservation map is kept per process.
- BarrierHolds: one operator process, for the same reason; freshness of the status read and non-negative deltas are sufficient; an admission on a stale status that happens to fit anyway is not characterised.
- HonestRunIff: deletion of the agent, whose finalizer deregisters it, is not part of the runs.
- Kubernetes client, caches, owner references, labels and full object specs: only presence, image and weight of each child object are kept.
- The stable Service and the ServiceMonitor, pod inspection for image pull failures, defaulting and deletion cleanup: easy members beside the ones modelled.
- validateMCPTools, the other field checks of the webhook, its choice between dry run and reservation, and its letting updates of objects under deletion pass: easy members.
- PromQL query text other than durations, Prometheus response decoding and the parsing of threshold strings: their results are inputs.
- MCP wire format, HTTP handlers and endpoint formatting: a handshake is an input of each call.
- A nil registry or MCP client, and a ConfigMap whose content cannot be parsed beyond "nothing is loaded".
- Metrics, logging, tracing, packaging and access control.
