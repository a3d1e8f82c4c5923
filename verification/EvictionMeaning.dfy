/** What the eviction decision means, read off the request, the pods and the budgets. */
module EvictionMeaning {
  import opened Kube
  import opened EvictionCache
  import opened Budgets
  import opened Eviction

  // ----- one pod -----

  /** The first Ready condition is True since `t`. */
  predicate BecameReadyAt(pod: Pod, t: int) {
    exists i | 0 <= i < |pod.conditions| ::
      && pod.conditions[i] == Condition(READY_CONDITION, True, Some(t))
      && forall j | 0 <= j < i :: pod.conditions[j].kind != READY_CONDITION
  }

  lemma {:induction false} ReadySinceMeaning(pod: Pod, conditions: seq<Condition>, k: nat)
    requires k <= |pod.conditions| && conditions == pod.conditions[k..]
    requires forall j | 0 <= j < k :: pod.conditions[j].kind != READY_CONDITION
    ensures forall t :: ReadySince(conditions) == Some(t) <==> BecameReadyAt(pod, t)
    decreases |pod.conditions| - k
  {
    if conditions != [] && conditions[0].kind != READY_CONDITION {
      ReadySinceMeaning(pod, conditions[1..], k + 1);
    } else if conditions != [] {
      forall t ensures ReadySince(conditions) == Some(t) <==> BecameReadyAt(pod, t) {
        if BecameReadyAt(pod, t) {
          var i :| 0 <= i < |pod.conditions| && pod.conditions[i] == Condition(READY_CONDITION, True, Some(t))
                   && forall j | 0 <= j < i :: pod.conditions[j].kind != READY_CONDITION;
          assert i == k;
        } else {
          assert pod.conditions[k] == conditions[0];
        }
      }
    }
  }

  /** Not recently evicted, running with all containers up, and ready for longer than a delay that applies. */
  predicate PodCountsReady(v: View, pod: Pod) {
    && !(pod.name in v.entries && v.now < v.entries[pod.name].expires)
    && pod.phase == Running && !pod.deleting && (forall c | c in pod.containers :: c == ContainerStatus(true, Started))
    && (v.mode.ZoneAware? || v.budget.crossZoneEvictionDelay == 0 || ReadyLongerThan(v, pod))
  }

  predicate ReadyLongerThan(v: View, pod: Pod) {
    match ReadySince(pod.conditions)
    case None => false
    case Some(t) => v.now > t + v.budget.crossZoneEvictionDelay
  }

  /** In partition mode only pods of the partition are looked at. */
  predicate PodIsConsidered(v: View, pod: Pod) {
    match v.mode
    case ZoneAware => true
    case PartitionAware(partition) => PodPartition(v.budget, pod.name) == Some(partition)
  }

  lemma PodMeaning(v: View, pod: Pod)
    requires v.mode.PartitionAware? ==> v.mode.partition != ""
    ensures CountsReady(v, pod) <==> PodCountsReady(v, pod)
    ensures ConsidersPod(v, pod) <==> PodIsConsidered(v, pod)
    ensures forall t :: BecameReadyAt(pod, t) <==> ReadySince(pod.conditions) == Some(t)
  {
    ReadySinceMeaning(pod, pod.conditions, 0);
  }

  // ----- one zone -----

  /** The positions of the pods with a property. */
  ghost function Where(pods: seq<Pod>, property: Pod -> bool): set<nat> {
    set i: nat | i < |pods| && property(pods[i])
  }

  lemma WhereLast(pods: seq<Pod>, property: Pod -> bool)
    requires pods != []
    ensures var k := |pods| - 1;
            |Where(pods, property)| == |Where(pods[..k], property)| + if property(pods[k]) then 1 else 0
  {
    var k := |pods| - 1;
    if property(pods[k]) {
      assert Where(pods, property) == Where(pods[..k], property) + {k};
    } else {
      assert Where(pods, property) == Where(pods[..k], property);
    }
  }

  ghost function Considered(v: View, pods: seq<Pod>): set<nat> {
    Where(pods, pod => PodIsConsidered(v, pod))
  }

  /** The evicted pod itself is never counted. */
  predicate PodIsUnready(v: View, pod: Pod) {
    PodIsConsidered(v, pod) && pod.uid != v.evicted.uid && !PodCountsReady(v, pod)
  }

  ghost function Unready(v: View, pods: seq<Pod>): set<nat> {
    Where(pods, pod => PodIsUnready(v, pod))
  }

  lemma {:induction false} CountsAreSizes(v: View, pods: seq<Pod>)
    requires v.mode.PartitionAware? ==> v.mode.partition != ""
    ensures TestedCount(v, pods) == |Considered(v, pods)| && NotReadyCount(v, pods) == |Unready(v, pods)|
  {
    if pods == [] {
      assert Considered(v, pods) == {} && Unready(v, pods) == {};
    } else {
      var k := |pods| - 1;
      CountsAreSizes(v, pods[..k]);
      PodMeaning(v, pods[k]);
      WhereLast(pods, pod => PodIsConsidered(v, pod));
      WhereLast(pods, pod => PodIsUnready(v, pod));
    }
  }

  /** The tally counts the considered pods, those of them that do not count as ready, the evicted one aside, and
      the pods missing from the listing by the larger of the specified and the reported replicas. */
  lemma TallyMeaning(v: View, sts: StatefulSet, pods: seq<Pod>)
    requires v.mode.PartitionAware? ==> v.mode.partition != ""
    ensures var r := Tally(v, sts, pods);
            && r.tested == |Considered(v, pods)| && r.notReady == |Unready(v, pods)|
            && r.unknown >= sts.statusReplicas - |pods|
            && (sts.specReplicas.Some? ==> r.unknown >= sts.specReplicas.value - |pods|)
            && (r.unknown > 0 ==>
                  r.unknown == sts.statusReplicas - |pods| || Some(r.unknown + |pods|) == sts.specReplicas)
  {
    CountsAreSizes(v, pods);
  }

  // ----- one request -----

  /** The limit a request is judged by: the budget's, or else the override that came with the request. */
  ghost predicate IsLimit(budget: Budget, sts: StatefulSet, zeroOverride: Option<nat>, limit: nat) {
    var own := MaxUnavailablePods(budget, sts);
    (own > 0 && limit == own) || (own == 0 && zeroOverride == Some(limit)) || (own == limit == 0 && zeroOverride.None?)
  }

  predicate NoneNamed(related: seq<Listing>, name: string) {
    forall j | 0 <= j < |related| :: related[j].sts.name != name
  }

  predicate FirstNamed(related: seq<Listing>, name: string, i: nat) {
    i < |related| && related[i].sts.name == name && forall j | 0 <= j < i :: related[j].sts.name != name
  }

  /** The pod's StatefulSet as the API shows it: the first related set of that name, or else the answer to a get. */
  ghost predicate IsOwner(related: seq<Listing>, get: Option<StatefulSet>, name: string, sts: StatefulSet) {
    || (exists i: nat :: FirstNamed(related, name, i) && related[i].sts == sts)
    || (NoneNamed(related, name) && get == Some(sts))
  }

  lemma {:induction false} ResolveMeaning(related: seq<Listing>, name: string, get: Option<StatefulSet>)
    ensures NoneNamed(related, name) ==> ResolveOwner(related, name, get) == get
    ensures !NoneNamed(related, name) ==>
              exists i: nat :: FirstNamed(related, name, i) && ResolveOwner(related, name, get) == Some(related[i].sts)
  {
    if related != [] {
      if related[0].sts.name == name {
        assert FirstNamed(related, name, 0);
      } else {
        var tail := related[1..];
        ResolveMeaning(tail, name, get);
        forall j | 0 < j < |related| ensures related[j] == tail[j - 1] {}
        if !NoneNamed(tail, name) {
          var i: nat :| FirstNamed(tail, name, i) && ResolveOwner(tail, name, get) == Some(tail[i].sts);
          assert FirstNamed(related, name, i + 1);
        }
      }
    }
  }

  lemma OwnerMeaning(related: seq<Listing>, get: Option<StatefulSet>, name: string, sts: StatefulSet)
    ensures IsOwner(related, get, name, sts) <==> ResolveOwner(related, name, get) == Some(sts)
  {
    ResolveMeaning(related, name, get);
    if IsOwner(related, get, name, sts) && !NoneNamed(related, name) {
      var i: nat :| FirstNamed(related, name, i) && related[i].sts == sts;
      var j: nat :| FirstNamed(related, name, j) && ResolveOwner(related, name, get) == Some(related[j].sts);
      assert i == j;
    }
  }

  function RelatedIn(api: Api): seq<Listing> {
    if api.related.Some? then api.related.value else []
  }

  /** The budget is met: the pod's StatefulSet is found, has a limit, is one of at least two related sets, the pod's
      partition is known, and the zones stay within the limit. */
  ghost predicate MeetsBudget(
    budget: Budget, entries: Entries, now: int, pod: Pod, zeroOverride: Option<nat>, api: Api,
    sts: StatefulSet, limit: nat)
  {
    && pod.owner.Controller? && pod.owner.kind == "StatefulSet"
    && IsOwner(RelatedIn(api), api.ownerGet, pod.owner.name, sts)
    && IsLimit(budget, sts, zeroOverride, limit) && limit > 0
    && api.related.Some? && |api.related.value| >= 2 && OwnerListed(api.related.value, sts.uid)
    && PodPartition(budget, pod.name).Some?
    && var mode := ModeFor(PodPartition(budget, pod.name).value);
       Judge(View(mode, budget, sts, pod, entries, now), api.related.value, limit).BudgetMet?
  }

  lemma MetMeansMet(
    budget: Budget, entries: Entries, now: int, pod: Pod, zeroOverride: Option<nat>, api: Api,
    sts: StatefulSet, limit: nat)
    requires pod.owner.Controller? && ResolveOwner(RelatedIn(api), pod.owner.name, api.ownerGet) == Some(sts)
    requires limit == EffectiveLimit(budget, sts, zeroOverride)
    ensures DecideInScope(budget, entries, now, pod, zeroOverride, api).BudgetMet? <==>
            MeetsBudget(budget, entries, now, pod, zeroOverride, api, sts, limit)
  {
    OwnerMeaning(RelatedIn(api), api.ownerGet, pod.owner.name, sts);
  }

  lemma OneOwnerOneLimit(
    budget: Budget, zeroOverride: Option<nat>, api: Api, name: string, sts: StatefulSet, limit: nat)
    requires IsOwner(RelatedIn(api), api.ownerGet, name, sts) && IsLimit(budget, sts, zeroOverride, limit)
    ensures ResolveOwner(RelatedIn(api), name, api.ownerGet) == Some(sts)
    ensures limit == EffectiveLimit(budget, sts, zeroOverride)
  {
    OwnerMeaning(RelatedIn(api), api.ownerGet, name, sts);
  }

  lemma BudgetMetIff(budget: Budget, entries: Entries, now: int, pod: Pod, zeroOverride: Option<nat>, api: Api)
    ensures DecideInScope(budget, entries, now, pod, zeroOverride, api).BudgetMet? <==>
            exists sts, limit :: MeetsBudget(budget, entries, now, pod, zeroOverride, api, sts, limit)
  {
    if DecideInScope(budget, entries, now, pod, zeroOverride, api).BudgetMet? {
      var sts := ResolveOwner(RelatedIn(api), pod.owner.name, api.ownerGet).value;
      MetMeansMet(budget, entries, now, pod, zeroOverride, api, sts, EffectiveLimit(budget, sts, zeroOverride));
    }
    if sts, limit :| MeetsBudget(budget, entries, now, pod, zeroOverride, api, sts, limit) {
      OneOwnerOneLimit(budget, zeroOverride, api, pod.owner.name, sts, limit);
      MetMeansMet(budget, entries, now, pod, zeroOverride, api, sts, limit);
    }
  }

  /** A pod that is gone or going anyway. */
  predicate AlreadyDown(pod: Pod) {
    pod.phase == Succeeded || pod.phase == Failed || pod.phase == Pending || pod.deleting
  }

  /** A request is allowed if and only if it is well formed and the pod is out of scope by its cached labels, or it
      exists and is down already, out of scope, or the one budget that selects it is met. */
  lemma AllowedIff(configs: Configs, entries: Entries, now: int, req: Request, zeroOverride: Option<nat>, api: Api)
    ensures IsAllowed(Decide(configs, entries, now, req, zeroOverride, api)) <==>
            && req.operation == "CREATE" && req.subResource == "eviction" && req.namespace != "" && req.name != ""
            && (|| (api.cached.Some? && NoneSelects(configs, api.cached.value.labels))
                || (api.live.Some?
                    && var pod := api.live.value;
                       || AlreadyDown(pod)
                       || NoneSelects(configs, pod.labels)
                       || exists n, sts, limit ::
                            && OnlySelects(configs, pod.labels, n)
                            && MeetsBudget(configs[n], entries, now, pod, zeroOverride, api, sts, limit)))
  {
    if api.cached.Some? {
      LookupMeaning(configs, api.cached.value.labels);
    }
    if api.live.Some? {
      var pod := api.live.value;
      LiveAllowedIff(configs, entries, now, pod, zeroOverride, api);
    }
  }

  lemma LiveAllowedIff(configs: Configs, entries: Entries, now: int, pod: Pod, zeroOverride: Option<nat>, api: Api)
    requires api.live == Some(pod)
    ensures IsAllowed(DecideLive(configs, entries, now, zeroOverride, api)) <==>
            || AlreadyDown(pod)
            || NoneSelects(configs, pod.labels)
            || exists n, sts, limit ::
                 && OnlySelects(configs, pod.labels, n)
                 && MeetsBudget(configs[n], entries, now, pod, zeroOverride, api, sts, limit)
  {
    LookupMeaning(configs, pod.labels);
    match Find(configs, pod.labels)
    case NoBudget =>
    case Ambiguous =>
    case Found(budget) =>
      var n :| OnlySelects(configs, pod.labels, n);
      assert budget == configs[n];
      InScopeVerdicts(budget, entries, now, pod, zeroOverride, api);
      BudgetMetIff(budget, entries, now, pod, zeroOverride, api);
  }

  lemma AmbiguousLookupFails(configs: Configs, entries: Entries, now: int, zeroOverride: Option<nat>, api: Api)
    requires api.live.Some? && !AlreadyDown(api.live.value) && TwoSelect(configs, api.live.value.labels)
    ensures DecideLive(configs, entries, now, zeroOverride, api).BudgetLookupFailed?
  {
    LookupMeaning(configs, api.live.value.labels);
  }

  lemma InScopeByCache(configs: Configs, api: Api)
    requires api.cached.Some? ==> !NoneSelects(configs, api.cached.value.labels)
    ensures !(api.cached.Some? && Find(configs, api.cached.value.labels).NoBudget?)
  {
    if api.cached.Some? {
      LookupMeaning(configs, api.cached.value.labels);
    }
  }

  /** Two budgets for one pod are never an excuse to evict it. */
  lemma AmbiguousNeverAllowed(
    configs: Configs, entries: Entries, now: int, req: Request, zeroOverride: Option<nat>, api: Api)
    requires api.live.Some? && !AlreadyDown(api.live.value) && TwoSelect(configs, api.live.value.labels)
    requires api.cached.Some? ==> !NoneSelects(configs, api.cached.value.labels)
    ensures !IsAllowed(Decide(configs, entries, now, req, zeroOverride, api))
  {
    AmbiguousLookupFails(configs, entries, now, zeroOverride, api);
    InScopeByCache(configs, api);
  }

  /** Only a met budget is recorded, and it is. */
  lemma RecordedIff(configs: Configs, entries: Entries, now: int, req: Request, zeroOverride: Option<nat>, api: Api)
    ensures var verdict := Decide(configs, entries, now, req, zeroOverride, api);
            var after := EntriesAfter(entries, verdict, now, api);
            if verdict.BudgetMet?
            then api.live.Some?
                 && after == entries[api.live.value.name := Entry(now + 120 * SECOND, api.live.value.generation)]
            else after == entries
  {
  }
}
