# Rollout operator: a verified model

The rollout operator coordinates multi-zone StatefulSets: it rolls pods out one zone at a time, admits or
denies pod evictions under zone-aware disruption budgets (ZPDBs), follows replica leaders, mirrors the size of
a reference resource with a delayed downscale, and makes pods prepare before they are scaled away. This
project models those decisions in Dafny and proves what they keep over every run.

`dafny verify dfyconfig.toml` checks everything. There is one module per file.

| area | modules |
|---|---|
| shared Kubernetes objects | `Kube` |
| eviction admission | `EvictionCache`, `Budgets`, `Eviction` (the decision as a function), `EvictionMeaning` (when it allows), `EvictionController` (the loops and objects that compute it), `BudgetLocks` |
| eviction protocol over runs | `EvictionRuns` (the step system), `ZoneRuns`, `PartitionRuns`, `CrossZoneDelay` |
| the same without atomic requests | `InterleavedRequests`, `InterleavedZoneRuns`, `InterleavedPartitionRuns`, `InterleavedDelay`, and the runs that break it: `SlippedRuns`, `HastyRuns` |
| rollout | `Rollout` (one reconcile as a function), `RolloutController` (its loops), `RollingOrder` (exactly what it rolls), `ReconcileMeaning` (how it ends), `RolloutRuns`, `StaleStatus`, `RolloutProgress` |
| status view | `StatusGating`, `StatusMeaning` (what it shows), `StatusRefinement` (that it shows what the reconcile does) |
| replicas | `Replicas`, `LeaderFollowing`, `DelayedDownscale`, `MirrorMeaning` (which size is set) |
| prepare-downscale webhook | `DownscaleGate`, `PrepareDownscale` (the abstract webhook), `PrepareWebhook` (its two storage variants), `WebhookMeaning` (when a downscale passes), `TrackedRuns` (the ConfigMap variant over runs) |
| wake-up protocols | `WakeUps` |

Code that updates state or loops is a method or class proved against a function; the theorems are about those
functions and about runs of step systems built from them. The `Meaning` modules say what each decision comes to in
terms of the objects alone, without the functions that compute it. Times are integers in nanoseconds. The API, the
pods, the clock and the disruption budget's answers are parameters, so every theorem holds for all of their
answers, failures included, unless it says otherwise.

Assumptions of the run theorems, all written in the step relations:

- Evictions: a ready pod goes down only after an allowed eviction, and before the two-minute record expires
  (an expired record makes the pod available again, and `ChangePod` leaves available pods alone). An observer
  event reports a phase other than Running only if the pod is not running now. For the cross-zone delay, a pod
  that becomes ready carries a Ready transition time of that moment, truncated to seconds.
  The status of a StatefulSet reports any number of replicas up to its size, but at least the live pod it owns.
- Rollout: the StatefulSet status reports the existing pods exactly, ready pods fail only when deleted, and a
  stuck pod is not ready. `StaleStatus` drops the first of these. For progress, the StatefulSet controller creates
  pods at the update revision only.
- Delayed downscale: pods that are removed take their timestamps with them and new pods start unprepared.
- Prepare-downscale: requests do not overlap.

Four promises of the repository hold only under a condition; each is stated with it, with what breaks it and with
what is proved under it:

- The status view is meant to show the zone the reconcile loop is working on (pkg/controller/status.go:210-211).
  It does if and only if the zone that is due is reachable (`StatusAgreesIff`): its revisions are known, and no set
  before it has an unknown revision or a current revision whose update fails. `UnknownRevisionDisagrees` and
  `FailedMoveDisagrees` give groups on which it does not.
- The eviction cache is meant to cover the time until an eviction changes the pod's state
  (pkg/zpdb/pod_eviction_k8s_clients.go:112-116). A pod that was listed as ready, then changed and lost its record
  before the cache was asked about it, is counted as ready (`MissedIffSlipped`). `SlipBreaksZoneRun` and
  `SlipBreaksPartitionRun` are runs in which that breaks the budget, `SlipBreaksDelay` one in which it breaks the
  cross-zone delay. Everything else may interleave, and zones without pending pods need no condition.
- The zone tracker is meant to keep the last downscale of every zone. A downscale of a set outside any rollout
  group saves a tracker that never loaded the zones, so it replaces the ConfigMap by its own entry
  (`OthersKeptIff`), and the separation of zone downscales is lost (`ForgottenZoneBreaksSeparation`).
- The controller's own time gate is meant to anticipate the webhook's. It does, whatever the downscale times are, if
  and only if the gates are aligned (`WebhookNeverDeniesIff`). A forced size bypasses the controller's gate
  (`ForcedDownscaleBlocked`), and the webhook waits for the other set's minimum time where the controller waits for
  the follower's (`StricterSetBlocksWebhook`).

Where the comment at pkg/status/model.go:63-64 and the code disagree about the expected number of pods, the
model follows the code: the larger of the specified and the reported replicas.

## Model

| member | source | states |
|---|---|---|
| `ZoneRuns.ZoneRunSafe` | pkg/zpdb/eviction_controller.go:260-377 | Zone mode, every run from all pods available: in every reachable state at most one zone has unavailable pods (missing, not ready or pending eviction), and no more than its limit, for any mix of webhook and rollout-controller requests, pod changes, observer events and ticks |
| `ZoneRuns.StepKeepsZoneSafe` | pkg/zpdb/eviction_controller.go:280-377 | Every step of the protocol keeps that invariant |
| `ZoneRuns.MetBounds` | pkg/zpdb/validator_zone_aware.go:36-53 | What a met budget says about the real state: every other zone has no unavailable pod, the owner zone (evicted pod aside) has fewer than the limit |
| `ZoneRuns.TallyCountsUnavailable` | pkg/zpdb/pod_eviction_k8s_clients.go:75-128 | The tally of a zone equals the number of its unavailable pods, the evicted pod aside, for every listing order, however many pods the listing lacks, and whatever its status reports |
| `ZoneRuns.ShownLimit` | pkg/zpdb/config.go:66-88 | A set whose status reports fewer replicas than its size never has a larger limit, and none only if it has none at full size |
| `ZoneRuns.RecordingAdds` | pkg/zpdb/pod_eviction_cache.go:45-54 | Recording an eviction makes at most the evicted pod unavailable, and changes no zone it does not belong to |
| `EvictionRuns.AllowedVerdict` | pkg/zpdb/eviction_controller.go:198-252 | In scope, a request is allowed only for a pod that is down already or because the budget is met |
| `EvictionRuns.OwnerIsTheZone` | pkg/zpdb/pod_eviction_k8s_clients.go:47-64 | Whatever the listing order and whether or not the list call fails, the resolved owner is the StatefulSet of the pod's own zone, with whatever status the API shows |
| `EvictionRuns.MetRequest` | pkg/zpdb/eviction_controller.go:260-377 | A met budget was judged on a full listing of the fleet, with the owner in it, under the effective limit, and its pod is recorded |
| `EvictionRuns.AllowedMeansUnavailable` | pkg/zpdb/eviction_controller.go:230-234 | Whatever is allowed leaves its pod unavailable in the next state |
| `PartitionRuns.PartitionAvailability` | pkg/zpdb/validator_partition_aware.go:51-76 | Every eviction allowed in partition mode with Z zones leaves at least Z - maxUnavailable other zones with a ready, non-pending pod of the partition, even when pods are absent from the listing |
| `PartitionRuns.UnreadyZonesBoundTheSum` | pkg/zpdb/validator_partition_aware.go:55-69 | Each zone without a ready pod of the partition adds at least 1 to the tally |
| `PartitionRuns.JudgedLeavesRoom` | pkg/zpdb/eviction_controller.go:338-377 | Before an allowed eviction, fewer than the limit of the other zones are without an available pod of the partition in the real state |
| `PartitionRuns.ServiceKept` | pkg/zpdb/eviction_controller.go:338-377 | A zone stops serving a partition only through an allowed eviction of one of its own pods of that partition |
| `PartitionRuns.PartitionRunSafe` | pkg/zpdb/eviction_controller.go:338-377 | Every run from a healthy start: a partition that all zones host is unserved in at most maxUnavailable zones (1 under the rollout controller's override) |
| `CrossZoneDelay.OthersPastDelay` | pkg/zpdb/validator_partition_aware.go:86-114 | With limit 1, an allowed eviction finds every pod of its partition in every other zone up, not pending eviction, and Ready for longer than the delay |
| `CrossZoneDelay.NoEvictionUntilDelayAfterReady` | pkg/zpdb/validator_partition_aware.go:86-124 | Every run: once a pod of the partition was down, no eviction of the partition in another zone is allowed until more than the delay after the replacement's Ready transition |
| `CrossZoneDelay.EvictionsSeparated` | pkg/zpdb/pod_eviction_cache.go:45-72 | Every run: two allowed evictions of one partition in different zones are more than the delay apart, up to the truncation to seconds, unless the first record expired unused; a pending record overrides an old transition time |
| `CrossZoneDelay.RecordOrDown` | pkg/zpdb/pod_eviction_cache.go:45-79 | From a recorded eviction on, the record stands or the pod's Ready transition is not older than it |
| `InterleavedZoneRuns.InterleavedZoneRunSafe` | pkg/zpdb/eviction_controller.go:260-377 | The zone-mode run invariant without atomic requests: zones are listed one after the other and pods judged one by one while other pods, observer and clock move on, and the evicted pod was fetched at any earlier time; only the mutex orders requests. Holds when no pod slips: changes and then loses its record between its listing and its lookup, and is still down |
| `InterleavedZoneRuns.NothingPendingZoneRunSafe` | pkg/zpdb/eviction_controller.go:260-377 | The same with no condition on what happens in between, when no other pod of the listed zones is pending at the listing |
| `InterleavedZoneRuns.TallyCoversUnavailable` | pkg/zpdb/pod_eviction_k8s_clients.go:75-128 | A tally never counts less than what is unavailable when the request decides, even if the evicted pod was recreated or vanished since it was fetched |
| `InterleavedPartitionRuns.InterleavedPartitionRunSafe` | pkg/zpdb/eviction_controller.go:338-377 | The partition-mode run invariant without atomic requests, when no pod slips |
| `InterleavedPartitionRuns.NothingPendingPartitionRunSafe` | pkg/zpdb/eviction_controller.go:338-377 | The same with no condition on what happens in between, when no pod of the other zones is pending at the listing |
| `InterleavedPartitionRuns.UnreadyVisitsBound` | pkg/zpdb/validator_partition_aware.go:55-69 | Each zone whose visit showed no ready pod of the partition adds at least 1 to the tally, whenever it was visited |
| `InterleavedPartitionRuns.FinishLeavesRoom` | pkg/zpdb/eviction_controller.go:338-377 | When an interleaved partition-mode request is allowed, fewer than the limit of the other zones are unserved at that moment |
| `InterleavedRequests.MissedIffSlipped` | pkg/zpdb/pod_eviction_k8s_clients.go:112-116 | In both modes, over every run: an unavailable listed pod is not counted if and only if it was ready as listed, changed and then lost its record (an event with a stopped phase, or the expiry) before it was judged, and has not come back |
| `InterleavedRequests.SinceListed` | pkg/zpdb/pod_observer.go:81-107 | What can have become of a pod since it was listed as ready: slipped and not pending, still pending, or unchanged |
| `InterleavedRequests.OnlyPendingSlips` | pkg/zpdb/pod_eviction_cache.go:57-72 | A pod that is not pending when its zone is listed cannot slip |
| `InterleavedRequests.JudgedReadyIsAvailable` | pkg/zpdb/pod_eviction_k8s_clients.go:112-116 | When no pod slips, whatever a request took for ready is available when the request decides |
| `InterleavedRequests.OneMomentIsAtomic` | pkg/zpdb/eviction_controller.go:348-374 | A request whose lookups all happen in one state has the atomic verdict |
| `SlippedRuns.SlipBreaksZoneRun` | pkg/zpdb/pod_eviction_k8s_clients.go:112-116 | The condition is needed in zone mode: for any two one-pod zones, a run with limit 1 in which a pod slips and after which both zones are disrupted |
| `SlippedRuns.SlipBreaksPartitionRun` | pkg/zpdb/pod_eviction_k8s_clients.go:112-116 | The condition is needed in partition mode: the same run leaves the partition unserved in both zones |
| `InterleavedDelay.InterleavedNoEvictionUntilDelayAfterReady` | pkg/zpdb/validator_partition_aware.go:86-124 | The delay after the replacement's Ready transition without atomic requests, when no pod that slipped is judged by the pod it replaced |
| `InterleavedDelay.InterleavedEvictionsSeparated` | pkg/zpdb/validator_partition_aware.go:86-124 | The separation of evictions in different zones without atomic requests, under the same condition |
| `InterleavedDelay.OthersArePastDelay` | pkg/zpdb/validator_partition_aware.go:86-114 | With limit 1, an interleaved request that is allowed finds every pod of its partition in every other zone past the delay at that moment |
| `InterleavedDelay.HastyIffSlipped` | pkg/zpdb/validator_partition_aware.go:86-114 | A listed pod is judged ready though it is not past the delay if and only if it was ready as listed, slipped, and its replacement is not past the delay |
| `HastyRuns.SlipBreaksDelay` | pkg/zpdb/validator_partition_aware.go:86-114 | The condition is needed: for any two one-pod zones and any delay, a run in which the second eviction is allowed at the very time at which the replacement became ready |
| `Eviction.ZoneModeVerdict` | pkg/zpdb/eviction_controller.go:348-374 | For every listing order, the fail-fast loop followed by validate allows if and only if every zone could be listed, no other zone has not-ready or unknown pods, and the owner zone is below the limit |
| `Eviction.PartitionModeVerdict` | pkg/zpdb/validator_partition_aware.go:51-76 | The partition-mode verdict is met if and only if all other zones could be listed and the sum of what they add is below the limit |
| `Eviction.ScanHasResult` | pkg/zpdb/eviction_controller.go:309-320 | The owner-in-group check is what guarantees that validate never reads an unset result |
| `Eviction.AllowedInScope` | pkg/zpdb/eviction_controller.go:177-252 | Case split of an allowed request by scope, readiness and budget |
| `Eviction.CachedScopeCheckIsSafe` | pkg/zpdb/eviction_controller.go:198-214 | The cached-label fast path gives the same answer and the same eviction cache as the live path whenever the live pod exists with the same labels |
| `EvictionController.EvictionController.HandlePodEvictionRequest` | pkg/zpdb/eviction_controller.go:177-382 | The whole handler returns the verdict of the specification, records exactly the evictions whose budget is met, and never replaces a mutex |
| `EvictionController.EvictionController.HandleInScope` | pkg/zpdb/eviction_controller.go:260-382 | The part under the budget mutex: owner, zero override, minimum of two sets, owner-in-group, partition, zone loop and recording |
| `EvictionController.EvictionController.AssessZones` | pkg/zpdb/eviction_controller.go:348-374 | The zone loop over a stateful validator computes the judged verdict |
| `EvictionController.EvictionController.FindLock` | pkg/zpdb/eviction_controller.go:104-121 | Returns the stored mutex of the name, creates one on first use, and keeps all others |
| `EvictionController.EvictionController.Owner` | pkg/zpdb/pod_eviction_k8s_clients.go:47-64 | The first related set with the owner's name, else what the API returns |
| `EvictionController.EvictionController.IsOwnerInGroup` | pkg/zpdb/eviction_controller.go:309-315 | True exactly when some related set has the owner's UID |
| `EvictionController.Validator.PodsNotRunningAndReady` | pkg/zpdb/pod_eviction_k8s_clients.go:75-128 | The tally loop: tested, not-ready and unknown counts of one StatefulSet |
| `EvictionController.Validator.AccumulateResult` | pkg/zpdb/validator_zone_aware.go:36-46 | Both accumulation rules: fail fast on another disrupted zone, or add up with one unknown for an empty result |
| `EvictionController.Validator.Validate` | pkg/zpdb/validator_partition_aware.go:71-76 | Succeeds exactly when not-ready plus unknown is below the limit |
| `EvictionController.Validator.IsReady` | pkg/zpdb/validator_partition_aware.go:86-114 | Ready means no pending eviction, running and ready, and past the cross-zone delay where one applies |
| `EvictionController.PodReadyTransitionTime` | pkg/zpdb/validator_partition_aware.go:117-124 | The transition time of the first Ready condition if that is True |
| `EvictionCache.PodEvictionCache.RecordEviction` | pkg/zpdb/pod_eviction_cache.go:45-54 | The pod is pending for exactly the two minutes of the expiry, and no other pod's entry changes |
| `EvictionCache.PodEvictionCache.HasPendingEvictionWithGeneration` | pkg/zpdb/pod_eviction_cache.go:64-72 | Pending exactly when an unexpired entry exists; the generation is the recorded one or 0 |
| `EvictionCache.PodEvictionCache.Delete` | pkg/zpdb/pod_eviction_cache.go:75-79 | Removes the entry of the pod and nothing else |
| `EvictionCache.InvalidatePodEvictionCache` | pkg/zpdb/pod_observer.go:69-108 | An event showing a running pod changes nothing; any other clears the pod's pending entry and no other |
| `Budgets.DeliveryOrderIrrelevant` | pkg/zpdb/config_cache.go:43-53 | Any order and duplication of add/update deliveries leaves the same cache |
| `Budgets.DeliveriesLeaveHighestGeneration` | pkg/zpdb/config_cache.go:43-53 | The cache holds, for exactly the delivered names, a delivered budget of the highest generation |
| `Budgets.LookupDependsOnMatchesOnly` | pkg/zpdb/config_cache.go:75-88 | A lookup depends only on the set of matching budgets |
| `Budgets.ConfigCache.AddOrUpdate` | pkg/zpdb/config_cache.go:43-53 | Ignores generations that are not newer; reports whether it stored and the generation now held |
| `Budgets.ConfigCache.Delete` | pkg/zpdb/config_cache.go:58-70 | Ignores deletes older than the cached entry; reports the cached generation or -1 |
| `Budgets.ConfigCache.FindForPod` | pkg/zpdb/config_cache.go:75-88 | For every iteration order: nothing if no budget selects the pod label by label, the one that does, or an error if two distinct ones do |
| `Budgets.LimitMeaning` | pkg/zpdb/config.go:66-88 | An absolute limit wins; a percentage is rounded down over the smaller replica count but is at least 1 for a set with replicas; the limit is 0 exactly when there is neither |
| `Budgets.ParseAndValidate` | pkg/zpdb/config.go:160-244 | Accepts exactly the consistent resources and yields exactly the budget they describe, with the default limit 1 |
| `Budgets.ValueAsRegex` | pkg/zpdb/config.go:106-156 | Accepts exactly an absent or empty regex, or one that compiles, has a group, and names a group not beyond them if there are several; yields what that group captures |
| `BudgetLocks.OneMutexPerBudget` | pkg/zpdb/eviction_controller.go:104-121 | All interleavings: two requests hold the same mutex if and only if they are for the same budget, at any two moments of a run |
| `BudgetLocks.RequestsSerialised` | pkg/zpdb/eviction_controller.go:261-263 | All interleavings: at most one request per budget is past its lock |
| `RolloutRuns.RolloutRunSafe` | pkg/controller/controller.go:391-484 | Every run of reconciles, pod changes, mid-rollout revision changes and pauses, with exact status, no involuntary failures and fixed replicas: at most one StatefulSet of the group has not-ready or missing pods, never more than its maxUnavailable |
| `RolloutRuns.ReconcileKeepsSafe` | pkg/controller/controller.go:423-481 | One reconcile keeps that invariant, whatever the budget and the API answer |
| `RolloutRuns.DeletingKeepsLimit` | pkg/controller/controller.go:676-712 | Deleting pods of the window, and any number of stuck ones, costs at most the window's size in ready pods |
| `RolloutRuns.NotReadyIffDown` | pkg/controller/controller.go:575-626 | With an exact status, the operator's not-ready test finds exactly the sets with pods down |
| `RollingOrder.RollsIff` | README.md:25-33 | The documented guarantees 2 and 3 in both directions: a reconcile rolls a set if and only if every set uses OnDelete, all other sets are ready, the set is unpaused with known revisions and outdated pods, and it is the one with not-ready pods or every set before it passes |
| `RollingOrder.RolledPodsIff` | pkg/controller/controller.go:675-777 | Of the set that is rolled, a reconcile whose calls work deletes exactly the outdated, non-terminating pods that are in the availability window or stuck and that the budget permits |
| `Rollout.ReconcileLicensed` | README.md:25-33 | The documented guarantees as a licence for every deletion, whatever calls fail: all deletions are in one unpaused set, all other sets are ready, all sets use OnDelete, and each deleted pod is outdated, not terminating, and in the availability window or stuck |
| `Rollout.RollingSet` | pkg/controller/controller.go:423-481 | The set at which the loop stops with outdated pods is in the group, unpaused, and every other set is ready |
| `Rollout.MaxUnavailable` | pkg/controller/labels.go:18-62 | The limit is always at least 1 |
| `Rollout.RolloutLimitMeaning` | pkg/controller/labels.go:18-62 | A valid percentage is rounded down to whole pods but not below 1, a valid count is taken as is, anything else is 1 |
| `StaleStatus.StaleStatusSafe` | pkg/controller/controller.go:676-712 | With the status frozen and pods only becoming terminating, any number of reconciles together delete from one StatefulSet only, and at most max(0, maxUnavailable - notReady) distinct non-stuck pods of it |
| `StaleStatus.OneSetOnly` | pkg/controller/controller.go:444-481 | Two deleting reconciles of such a run delete from the same set |
| `StaleStatus.WindowFrozen` | pkg/controller/controller.go:676-704 | Terminating pods keep their window slots: the window and its pods do not move |
| `RolloutProgress.RolloutFinishes` | pkg/controller/controller.go:460-483 | Every run from an all-ready, unpaused OnDelete group, with reconciles and pod replacements interleaved in any way, overlapping deletions and failing calls: once more permitted reconciles have found the group settled than there were outdated pods, every set is at its update revision with currentRevision = updateRevision, and stays so |
| `RolloutProgress.ChancesShrinkRemaining` | pkg/controller/controller.go:460-483 | At every point of such a run the rollout is finished, or the settled permitted reconciles so far and the ready outdated pods left number at most the outdated pods at the start |
| `RolloutProgress.SettledReconcileDeletes` | pkg/controller/controller.go:675-777 | A permitted reconcile that finds a settled group with an outdated pod deletes at least one and strictly shrinks the measure |
| `RolloutProgress.SettledReconcileFinishes` | pkg/controller/controller.go:780-806 | One that finds a settled group without outdated pods deletes nothing and moves every current revision |
| `RolloutProgress.RemainingIsOutdated` | pkg/controller/controller.go:838-869 | In a ready set the measure is the number of its outdated pods |
| `RolloutProgress.UnblockedReconcile` | pkg/controller/controller.go:460-483 | An unblocked reconcile deletes a pod if any set is outdated, and otherwise deletes none and moves every stale current revision |
| `RolloutController.ReconcileStatefulSetsGroup` | pkg/controller/controller.go:423-484 | The reconcile loop deletes exactly the pods and moves exactly the revisions of the specification, and fails when it does |
| `RolloutController.UpdateSets` | pkg/controller/controller.go:460-481 | The loop over the sets, with its pause, failure and ongoing stops |
| `RolloutController.UpdateStatefulSetPods` | pkg/controller/controller.go:667-807 | One set: roll outdated pods, wait for not-ready ones, or move the current revision |
| `RolloutController.RollPods` | pkg/controller/controller.go:675-777 | The delete window, the selection, the budget lookup and the deletions |
| `RolloutController.SelectPodsToDelete` | pkg/controller/controller.go:694-712 | Selects the non-terminating pods inside the window and the stuck ones beyond it |
| `RolloutController.DeletePods` | pkg/controller/controller.go:746-775 | Deletes the permitted pods in order up to the first failing call |
| `RolloutController.FindNotReadySets` | pkg/controller/controller.go:431-442 | Collects exactly the not-ready sets in order |
| `RolloutController.MoveStatefulSetToFront` | pkg/util/util.go:65-76 | The set first, then all others in their order |
| `RolloutController.HasStatefulSetNotReadyPods` | pkg/controller/controller.go:582-626 | True exactly if a pod that spec or status asks for is missing, a listed pod is not up, or the reported ready count is not the larger of the two |
| `RolloutController.PodsNotMatchingUpdateRevision` | pkg/controller/controller.go:838-869 | The outdated pods in order, or an error for an unknown revision |
| `RolloutController.IsPodStuck` | pkg/controller/controller.go:823-836 | Some init or main container waits for one of the six stuck reasons |
| `Kube.IsPodRunningAndReady` | pkg/util/util.go:40-61 | Running, not terminating, and every container ready and started |
| `StatusRefinement.StatusRefinesReconcile` | pkg/controller/status.go:127-313 | For every group and every API answer at most one member is Progressing after gating; when the set that is due is reachable, it is exactly the set at which the reconcile loop stops with outdated pods, and the group phase is Progressing if and only if there is one |
| `StatusRefinement.StatusAgreesIff` | pkg/controller/status.go:212-282 | Exactly when the two implementations agree, for every group and every API answer: if and only if the set that is due has known revisions and, unless it is not ready, no unpaused set before it has an unknown revision or a current revision that cannot be moved |
| `StatusRefinement.RollsIffDue` | pkg/controller/controller.go:423-481 | The reconcile rolls a set if and only if the status is due to show it and it is reachable |
| `StatusRefinement.KnownRevisionsAgree` | pkg/controller/status.go:127-313 | Known revisions and working status updates are enough |
| `StatusRefinement.UnknownRevisionDisagrees` | pkg/controller/status.go:168-178 | Groups on which they disagree: an outdated pod and a current revision not reported yet |
| `StatusRefinement.FailedMoveDisagrees` | pkg/controller/controller.go:795-804 | Groups with all revisions known on which they disagree: an outdated set behind an updated one whose status update fails |
| `StatusRefinement.GateShows` | pkg/controller/status.go:212-282 | Which member the gating shows as active, read off the group itself |
| `RollingOrder.WalkReaches` | pkg/controller/controller.go:460-481 | The loop reaches the first set with outdated pods when every set before it passes |
| `StatusGating.ApplyZoneGating` | pkg/controller/status.go:212-282 | The in-place rewriting of phases and reasons computes the specified gating |
| `StatusGating.GateMembersInOrder` | pkg/controller/status.go:261-281 | With no member not ready, all but the first progressing member wait for it |
| `StatusGating.MemberStatus` | pkg/controller/status.go:127-195 | All fields of one member: what is copied, the counts, the phase and the reason |
| `StatusGating.StatefulSetHasNotReadyPods` | pkg/controller/status.go:198-206 | The same test as the reconcile loop's: true exactly if the set is not whole |
| `StatusGating.AggregateGroupPhase` | pkg/controller/status.go:284-313 | The phase priority over all members, and the reason of the first member with that phase |
| `StatusGating.GroupPhaseMeaning` | pkg/controller/status.go:284-313 | When a group is Complete, Degraded, Progressing and Paused, each if and only if |
| `LeaderFollowing.FollowersConverge` | pkg/controller/controller.go:500-546 | With an acyclic leader relation, no forced sizes, open gates and working patches, every run longer than the initial measure reaches a state in which every follower has the size its root had at the start |
| `LeaderFollowing.FinitelyManyPatches` | pkg/controller/controller.go:500-546 | Every run, any name order, however the gates behave: patches made plus the remaining measure never exceed the initial measure |
| `LeaderFollowing.StepShrinks` | pkg/controller/controller.go:500-546 | A reconcile that patches shrinks the measure; any other keeps it |
| `LeaderFollowing.PatchOnChain` | pkg/controller/controller.go:500-546 | Resizing a set to its leader's size never adds a mismatched link to any chain and removes one from its own |
| `LeaderFollowing.RootSizesKept` | pkg/controller/replicas.go:36-41 | Roots are never resized over a whole run |
| `LeaderFollowing.MismatchesBoundedByRank` | pkg/controller/controller.go:500-546 | The measure is bounded by the depths of the chains |
| `LeaderFollowing.AdjustStatefulSetsGroupReplicasToFollowLeader` | pkg/controller/controller.go:500-546 | The loop patches the first set whose desired size differs, and only that |
| `Replicas.GetLeaderForStatefulSet` | pkg/controller/replicas.go:96-110 | The first set with the configured leader name, none, or an error |
| `Replicas.LeaderOf` | pkg/controller/replicas.go:96-110 | A leader that is found carries the configured name; a missing one is in no position of the group |
| `Replicas.GetMostRecentDownscale` | pkg/controller/replicas.go:152-183 | The most recent downscale of the other sets, or an error for an unparsable one |
| `DelayedDownscale.DelayedDownscaleUnwanted` | pkg/controller/custom_resource_replicas.go:43-102 | Every run with the delay configured and working cancels: when the mirror path removes replica i, every examination of the set since its preparation asked for at most i replicas, and more than the delay less a second has passed |
| `DelayedDownscale.DelayedDownscaleSafe` | pkg/controller/delay.go:45-103 | Every run, whatever calls fail: a removed replica's stored timestamp is at least the delay old and no cancel reached it since |
| `DelayedDownscale.StampHistory` | pkg/controller/delay.go:162-237 | Every timestamp of a run goes back to an examination that did not want the replica and since which nothing cancelled it |
| `DelayedDownscale.AllowedSizeIsLeast` | pkg/controller/delay.go:80-95 | The allowed size is the least n in [desired, current] such that every replica in [n, current) has waited the delay |
| `DelayedDownscale.FindAllowedReplicas` | pkg/controller/delay.go:80-95 | The countdown loop computes that size |
| `DelayedDownscale.StatusDuringDownscale` | pkg/controller/custom_resource_replicas.go:56-102 | With exclusion on, the written status lies in [desired, current], and for a delayed downscale equals desired if and only if every excess replica is prepared |
| `DelayedDownscale.StatusIsTheSize` | pkg/controller/custom_resource_replicas.go:56-102 | Without exclusion, the status written back is the size the set ends up with |
| `DelayedDownscale.CheckScalingDelay` | pkg/controller/delay.go:45-103 | Size, prepared count, error and the calls made |
| `DelayedDownscale.CreatePrepareDownscaleEndpoints` | pkg/controller/delay.go:139-160 | Exactly the replicas of [from, to), in order |
| `DelayedDownscale.ExamineSet` | pkg/controller/custom_resource_replicas.go:26-103 | One pass of the loop: resulting size, timestamps, status and whether the loop goes on |
| `DelayedDownscale.AdjustStatefulSetsGroupReplicasToMirrorResource` | pkg/controller/custom_resource_replicas.go:23-106 | The loop over the sets with its early return |
| `DelayedDownscale.OneResizePerReconcile` | pkg/controller/custom_resource_replicas.go:24-25 | At most one set of the group is resized per reconcile |
| `DelayedDownscale.ExaminedAtMostOnce` | pkg/controller/custom_resource_replicas.go:23-106 | Every set is left alone or examined once |
| `PrepareDownscale.ZoneDownscalesSeparated` | pkg/admission/prep_downscale.go:123-149 | Every sequence of non-overlapping requests: an allowed downscale of Y comes at least X's minimum time after any earlier allowed downscale of X, less under one second of truncation (RFC 3339 timestamps are stored without time-secfrac, section 5.6) |
| `PrepareDownscale.AllOrNothing` | pkg/admission/prep_downscale.go:166-205 | An allowed labelled downscale prepared exactly the ordinals [new, old) and stored its time; a denied one contacted no pod or asked every ordinal in [new, old) to undo |
| `PrepareDownscale.OnlyDownscalesAct` | pkg/admission/prep_downscale.go:49-122 | Anything else is allowed, contacts no pod and stores nothing |
| `PrepareDownscale.OrdinalsExact` | pkg/admission/prep_downscale.go:462-477 | Each ordinal of [new, old) exactly once and no other |
| `PrepareDownscale.CreateEndpoints` | pkg/admission/prep_downscale.go:462-477 | Fills the slice with those ordinals, highest first |
| `PrepareDownscale.NotUpdatedSetVerdicts` | pkg/admission/prep_downscale.go:339-363 | The check passes if and only if every other set has all its pods ready and updated |
| `PrepareWebhook.PrepareDownscaleWithAnnotations` | pkg/admission/prep_downscale.go:49-206 | The annotation variant: verdict, pod calls and stored times are those of the abstract webhook |
| `PrepareWebhook.PrepareDownscaleWithZoneTracker` | pkg/admission/zone_tracker.go:40-214 | The ConfigMap variant: verdict, pod calls and the new ConfigMap |
| `PrepareWebhook.CheckRequest` | pkg/admission/prep_downscale.go:49-122 | The checks before the group is looked at |
| `PrepareWebhook.PrepareThenStore` | pkg/admission/prep_downscale.go:166-205 | Prepare, store, and undo everything if either fails |
| `PrepareWebhook.Pods.SendPrepareShutdownRequests` | pkg/admission/prep_downscale.go:525-548 | All endpoints are tried; succeeds exactly if every one prepared |
| `PrepareWebhook.Pods.UndoPrepareShutdownRequests` | pkg/admission/prep_downscale.go:551-576 | Every endpoint is asked to undo |
| `PrepareWebhook.FindStatefulSetWithNonUpdatedReplicas` | pkg/admission/prep_downscale.go:339-363 | The first other set that is not fully ready and updated, or an error |
| `PrepareWebhook.LoadGroupZones` | pkg/admission/zone_tracker.go:250-301 | Loads the zones, creating a missing ConfigMap with the current time for every set; a failing read or creation fails the load |
| `TrackedRuns.TrackedDownscalesSeparated` | pkg/admission/zone_tracker.go:361-404 | The separation of zone downscales for the ConfigMap variant, from any ConfigMap, missing or corrupt, and however reading and creating it go, unless a downscale outside a group gets as far as saving in between |
| `TrackedRuns.TrackedRefines` | pkg/admission/zone_tracker.go:134-206 | With the zones loaded, one tracked group request is one abstract request on the times in the ConfigMap |
| `TrackedRuns.TrackedRunRefines` | pkg/admission/zone_tracker.go:40-214 | From an intact ConfigMap on, every run of group requests is a run of the abstract webhook, failing reads included |
| `TrackedRuns.OthersKeptIff` | pkg/admission/zone_tracker.go:304-358 | Exactly when the other zones survive a request, read off the request: if and only if it is not a downscale outside any group whose checks pass, whose pods all prepare and whose save takes effect, or there are no other zones |
| `TrackedRuns.SavesUnloadedIff` | pkg/admission/zone_tracker.go:304-358 | Those are exactly the requests that save zones they never loaded, given a ConfigMap |
| `TrackedRuns.ForgottenZoneBreaksSeparation` | pkg/admission/zone_tracker.go:304-358 | Without that, for any minimum time: X is downscaled, a set outside any group is, and then Y at the same time |
| `DownscaleGate.AnnotatedRefines` | pkg/admission/prep_downscale.go:295-333 | From equivalent stored state, the annotation gate and the ConfigMap gate give the same verdict |
| `DownscaleGate.ClearIff` | pkg/admission/prep_downscale.go:295-333 | The gate is clear if and only if every set of the group, in whatever order, is |
| `DownscaleGate.FindAnnotatedDownscale` | pkg/admission/prep_downscale.go:295-333 | The annotation gate's loop |
| `DownscaleGate.ZoneTracker.FindTrackedDownscale` | pkg/admission/zone_tracker.go:361-404 | The ConfigMap gate's loop |
| `DownscaleGate.ZoneTracker.LoadZones` | pkg/admission/zone_tracker.go:281-301 | Adds exactly the stored zones to those in memory, or fails if one is corrupt |
| `DownscaleGate.ZoneTracker.SaveZones` | pkg/admission/zone_tracker.go:304-328 | What is saved is intact and loads back as exactly the zones in memory |
| `DownscaleGate.SaveLoadRoundTrip` | pkg/admission/zone_tracker.go:281-328 | Saving and loading undo each other, in both orders |
| `DownscaleGate.ZoneTracker.SetDownscaled` | pkg/admission/zone_tracker.go:341-358 | Sets one zone's time, keeps the others and saves all of them |
| `DownscaleGate.MostRecentSuffices` | pkg/controller/replicas.go:115-183 | The controller's gate on the most recent downscale is open if and only if every other annotated set passes it |
| `DownscaleGate.ControllerGateImpliesWebhookGate` | pkg/controller/replicas.go:36-92 | With aligned gates, a downscale the controller decides on passes the webhook's time check then and at any later instant, in both storage variants |
| `DownscaleGate.WebhookNeverDeniesIff` | pkg/controller/replicas.go:36-92 | For every follower and every group: whatever downscale times after the zero time are recorded, the webhook's time check passes whatever the controller decides, if and only if the gates are aligned: the follower has no leader in the group; or it is forced to a size, and not below its own or no other set is listed; or it is not forced, and its leader is not smaller, its own minimum time is not readable, or no other set waits more than one tick longer or has a time that does not parse |
| `DownscaleGate.ForcedDownscaleBlocked` | pkg/controller/replicas.go:43-47 | A follower forced below its size bypasses the controller's gate: as soon as there is another set, there are downscale times for which the webhook denies, one just now if that set waits at all |
| `DownscaleGate.StricterSetBlocksWebhook` | pkg/controller/replicas.go:76-147 | For any group and any set in it that waits more than one tick longer or whose time does not parse, there are downscale times and an instant at which the controller scales an unforced follower down and the webhook denies |
| `WakeUps.NoEnqueueLost` | pkg/controller/controller.go:328-359 | All interleavings: if the reconcile flag is clear and the loop idle, the last successful reconcile began after the last enqueue |
| `WakeUps.ReadinessCurrent` | pkg/zpdb/config_observer.go:133-168 | All interleavings: if the readiness loop waits with no token and no setter in flight, the published readiness is based on the latest watch health |
| `ReconcileMeaning.NotReadyIffNotWhole` | pkg/controller/controller.go:575-626 | Whatever the status reports, the not-ready test finds exactly the sets that lack a pod their spec or status asks for, list a pod that is not up, or report a ready count other than the larger of the two |
| `ReconcileMeaning.DeletesNextToWholeSetsOnly` | README.md:25-33 | For every group and every API answer: all deleted pods are of one set, and every other set lists all pods its spec and its status ask for, has them all up, and reports them ready |
| `ReconcileMeaning.OutdatedMeaning` | pkg/controller/controller.go:838-869 | The outdated pods are exactly the listed pods with another revision label, all of them and in order |
| `ReconcileMeaning.StuckMeaning` | pkg/controller/controller.go:809-836 | A pod is stuck exactly if an init or main container waits for one of the six reasons |
| `ReconcileMeaning.WindowMeaning` | pkg/controller/controller.go:676-685 | The window is what maxUnavailable leaves after the not-ready pods, or all outdated pods if they are fewer |
| `ReconcileMeaning.RollsInParallel` | pkg/controller/controller.go:675-777 | A whole set with working calls loses exactly its first outdated pods, as many as maxUnavailable allows: never fewer |
| `ReconcileMeaning.FailingDeleteCuts` | pkg/controller/controller.go:746-775 | The first failing delete ends the deletions with an error; exactly the permitted pods before it are deleted |
| `ReconcileMeaning.FailingLookupBlocks` | pkg/controller/controller.go:733-737 | A failing budget lookup stops the set before any deletion |
| `ReconcileMeaning.UpdateMeaning` | pkg/controller/controller.go:667-807 | When one set is rolled, waited for, failed on and moved to its update revision, each if and only if, read off the set |
| `ReconcileMeaning.ReconcileStops` | pkg/controller/controller.go:423-483 | How every reconcile ends: at a wrong strategy, at two broken sets, at the one broken set or its pause, at the first set that does not pass, or after the last |
| `ReconcileMeaning.RevisedIff` | pkg/controller/controller.go:780-806 | A current revision is moved if and only if all sets use OnDelete and are whole, the loop gets to the set, and the set is unpaused, fully updated and behind |
| `Budgets.LookupMeaning` | pkg/zpdb/config_cache.go:75-88 | Label by label: no budget selects the pod, exactly one does and is found, or two distinct ones do and the lookup fails, each if and only if |
| `Budgets.PartitionMeaning` | pkg/zpdb/config.go:92-102 | Without a regex every pod is in the empty partition; with one, the partition is exactly what a matching name captures, unless that is empty |
| `EvictionMeaning.PodMeaning` | pkg/zpdb/validator_partition_aware.go:86-124 | A pod counts as ready exactly if it has no unexpired record, runs with all containers up, and, where a delay applies, its first Ready condition is older than the delay |
| `EvictionMeaning.TallyMeaning` | pkg/zpdb/pod_eviction_k8s_clients.go:75-128 | The tally of a zone as sizes of sets of pods, and the missing pods by the larger of the specified and the reported replicas |
| `EvictionMeaning.OwnerMeaning` | pkg/zpdb/pod_eviction_k8s_clients.go:47-64 | The owner is the first related set of that name, or else the API's answer, and nothing else |
| `EvictionMeaning.BudgetMetIff` | pkg/zpdb/eviction_controller.go:254-377 | A budget is met if and only if the StatefulSet is found, its limit (or the override of a zero one) is positive, it is one of at least two related sets, the partition is known, and the zones stay within the limit |
| `EvictionMeaning.AllowedIff` | pkg/zpdb/eviction_controller.go:177-382 | A request is allowed if and only if it is well formed and its pod is out of scope by the cached labels, or exists and is down already, is out of scope, or has exactly one budget and that is met |
| `EvictionMeaning.AmbiguousNeverAllowed` | pkg/zpdb/eviction_controller.go:240-247 | A request for a pod that may not be ignored and that two budgets select is never allowed |
| `EvictionMeaning.RecordedIff` | pkg/zpdb/eviction_controller.go:376-382 | Exactly a met budget is recorded, for two minutes and with the pod's generation |
| `EvictionController.EvictionController.IsOutOfScope` | pkg/zpdb/eviction_controller.go:198-214 | The fast path looks at the cached labels only and is taken exactly when they select no budget |
| `EvictionController.EvictionController.HandleLivePod` | pkg/zpdb/eviction_controller.go:216-258 | From the live pod on: gone, down already, ambiguous, out of scope or in scope |
| `StatusMeaning.MemberMeaning` | pkg/controller/status.go:127-195 | When a member is Degraded, Paused, Progressing, Waiting and Complete, each if and only if, from the set's own fields and pods |
| `StatusMeaning.MemberReason` | pkg/controller/status.go:127-195 | The reason shown with each phase |
| `StatusMeaning.MemberFields` | pkg/controller/status.go:127-195 | What a member copies from its set |
| `StatusMeaning.WaitsForFirst` | pkg/controller/status.go:261-281 | In a ready group every later set with outdated pods is shown waiting for the first one, by name |
| `StatusMeaning.WaitsForBroken` | pkg/controller/status.go:247-259 | With one broken set every other set with outdated pods is shown waiting for it, by name |
| `StatusMeaning.WaitsForAll` | pkg/controller/status.go:212-246 | With two broken sets, or a wrong strategy somewhere, every set with outdated pods is shown waiting |
| `StatusMeaning.GroupCompleteIff` | pkg/controller/status.go:284-313 | A group is shown Complete if and only if it is not empty and every set uses OnDelete, has no outdated pod, lists all expected pods up, and reports its desired number ready |
| `StatusMeaning.GroupDegradedIff` | pkg/controller/status.go:284-313 | A group is shown Degraded if and only if some set uses another strategy |
| `StatusMeaning.GroupReasonMeaning` | pkg/controller/status.go:284-313 | Which reason explains the group: degraded members first, then two broken sets, then its phase |
| `StatusMeaning.FirstReasonMeaning` | pkg/controller/status.go:284-313 | The reason is that of the first member with the phase |
| `Replicas.DesiredMeaning` | pkg/controller/replicas.go:36-92 | The size a set should have, in every case: no leader, a missing leader, a forced size, equal sizes, an upscale (held while the leader is not ready if so configured), and a downscale by the time gate |
| `DownscaleGate.ControllerGateMeaning` | pkg/controller/replicas.go:115-183 | The controller's time gate over all other sets: an unreadable time, no downscale yet, no minimum time, every downscale longer ago than the minimum, or one that is not |
| `LeaderFollowing.AdjustsFirst` | pkg/controller/controller.go:500-546 | The first set out of step decides: its error, its failing patch, or a patch to its desired size |
| `MirrorMeaning.SizeMeaning` | pkg/controller/custom_resource_replicas.go:23-102 | The size an examination leaves: the old one if the patch fails, else the forced size or the reference without a delay or without shrinking, the old one for a malformed delay or a missing answer, and otherwise the least size whose excess has all waited |
| `MirrorMeaning.DecidedOnce` | pkg/controller/custom_resource_replicas.go:23-102 | Those conditions leave exactly one size |
| `MirrorMeaning.DownscaleHappens` | pkg/controller/delay.go:45-103 | Once every excess replica answers with a timestamp as old as the delay, the set is shrunk to what is asked for |
| `MirrorMeaning.StampsMeaning` | pkg/controller/delay.go:45-103 | Whose timestamps an examination keeps, sets and cancels |
| `MirrorMeaning.StatusMeaning` | pkg/controller/custom_resource_replicas.go:56-102 | The status written back, in every case, with the number of replicas pending downscale |
| `MirrorMeaning.ResultMeaning` | pkg/controller/custom_resource_replicas.go:66-102 | A patch is made if and only if the decided size differs |
| `MirrorMeaning.GroupMeaning` | pkg/controller/custom_resource_replicas.go:23-106 | Every set up to the first patch or error is examined and none after it, and the result says which it was |
| `WebhookMeaning.CheckSetMeaning` | pkg/admission/prep_downscale.go:295-333 | One set lets the downscale pass exactly if it is the one downscaled, was never downscaled, asks for no minimum time, or was downscaled that long ago |
| `WebhookMeaning.PreparedIff` | pkg/admission/prep_downscale.go:49-206 | A downscale is let through prepared if and only if it asks for it, every other set of its group was downscaled long enough ago and has all pods ready and updated, every leaving pod was prepared, and the time was stored |
| `WebhookMeaning.TrackedPreparedIff` | pkg/admission/zone_tracker.go:40-214 | The same for the ConfigMap variant, by the times it loads or creates; outside a group, only on an existing ConfigMap |
| `WebhookMeaning.FreshMapHoldsBack` | pkg/admission/zone_tracker.go:217-247 | A group whose ConfigMap is only just created waits as if every set had just been downscaled |
| `PrepareDownscale.SentToMeaning` | pkg/admission/prep_downscale.go:525-548 | The pods a prepare request reached are exactly the leaving ones whose request went out |

## Left out

- Requests allowed because their pod was not ready when it was fetched: they record nothing, and the step relations let such a pod change only while it is unavailable.
- Informer events older than an eviction: the step relations let an event report a stopped phase only if the pod is not running now; a delayed one would clear a fresh record (pkg/zpdb/pod_observer.go:81-107).
- Config-cache order across deletes: after a delete an older add is accepted (pkg/zpdb/config_cache.go:46-50), so order independence is stated for adds and updates.
- Overlapping prepare-downscale requests and the in-progress map of the zone tracker: every request has a tracker of its own (pkg/admission/prep_downscale.go:41-44), so that map never refuses anything.
- EvictionsSeparated: allows the second eviction once the first record has expired, because the code forgets an eviction that is not acted on within two minutes.
- RolloutRunSafe: fixes replicas and maxUnavailable during a run, and takes it that pods stuck in an init container are not ready, which `IsPodRunningAndReady` alone does not imply.
- PodPartition: a negative regex group index, which `ParseAndValidate` accepts as the source does, extracts no partition, where the source panics.
- Informer list errors inside the rollout controller and the status snapshot: they end the reconcile or the snapshot before any decision.
- Sorting of StatefulSets and pods: the theorems hold for every order.
- Label selectors beyond equality, regular expressions, durations, JSON and URLs: they appear parsed, with their parse errors.
- Floating-point percentages: rounded with integer division, which agrees for values of this size.
- StatefulSets are assumed to have non-empty distinct names, as Kubernetes demands.
- HTTP serving, TLS certificates, leader election, metrics, tracing, the frontend, the replica-template discovery and the per-group rate limiter: input and output, not decisions.
