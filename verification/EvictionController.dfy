/** The imperative side of the eviction decision: the tally loop, the stateful validator and the
    request handler with its lazily created per-budget mutexes. */
module EvictionController {
  import opened Kube
  import opened EvictionCache
  import opened Budgets
  import opened Eviction
  import opened EvictionMeaning

  /** The first Ready condition decides. */
  method PodReadyTransitionTime(pod: Pod) returns (since: Option<int>)
    ensures since == ReadySince(pod.conditions)
    ensures forall t :: since == Some(t) <==> BecameReadyAt(pod, t)
  {
    ReadySinceMeaning(pod, pod.conditions, 0);
    var i := 0;
    while i < |pod.conditions|
      invariant 0 <= i <= |pod.conditions|
      invariant forall j | 0 <= j < i :: pod.conditions[j].kind != READY_CONDITION
      invariant ReadySince(pod.conditions) == ReadySince(pod.conditions[i..])
    {
      var condition := pod.conditions[i];
      if condition.kind == READY_CONDITION {
        if condition.status == True {
          return condition.lastTransition;
        }
        return None;
      }
      assert pod.conditions[i..][1..] == pod.conditions[i + 1..];
      i := i + 1;
    }
    return None;
  }

  class Validator {
    const mode: Mode
    const budget: Budget
    const owner: StatefulSet
    const cache: PodEvictionCache
    var result: Option<ZoneStatus>

    constructor (mode: Mode, budget: Budget, owner: StatefulSet, cache: PodEvictionCache)
      ensures this.mode == mode && this.budget == budget && this.owner == owner && this.cache == cache
      ensures result == InitialResult(mode)
    {
      this.mode := mode;
      this.budget := budget;
      this.owner := owner;
      this.cache := cache;
      result := if mode.ZoneAware? then None else Some(ZoneStatus(0, 0, 0));
    }

    ghost function ViewOf(evicted: Pod, now: int): View
      reads this, cache
    {
      View(mode, budget, owner, evicted, cache.entries, now)
    }

    method IsReady(pod: Pod, evicted: Pod, now: int) returns (r: bool)
      ensures r <==> CountsReady(ViewOf(evicted, now), pod)
      ensures r <==> PodCountsReady(ViewOf(evicted, now), pod)
    {
      var pending, _ := cache.HasPendingEvictionWithGeneration(pod, now);
      if pending {
        return false;
      }
      var up := IsPodRunningAndReady(pod);
      if !up {
        return false;
      }
      if mode.ZoneAware? || budget.crossZoneEvictionDelay == 0 {
        return true;
      }
      var since := PodReadyTransitionTime(pod);
      return since.Some? && now > since.value + budget.crossZoneEvictionDelay;
    }

    /** Tallies one StatefulSet. The evicted pod itself is tested but never counted as not ready. */
    method PodsNotRunningAndReady(sts: StatefulSet, evicted: Pod, pods: seq<Pod>, now: int) returns (r: ZoneStatus)
      ensures r == Tally(ViewOf(evicted, now), sts, pods)
    {
      var tested, notReady, unknown := 0, 0, 0;
      ghost var v := ViewOf(evicted, now);
      for i := 0 to |pods|
        invariant tested == TestedCount(v, pods[..i]) && notReady == NotReadyCount(v, pods[..i])
      {
        assert pods[..i + 1][..i] == pods[..i];
        if ConsidersPod(View(mode, budget, owner, evicted, cache.entries, now), pods[i]) {
          if evicted.uid != pods[i].uid {
            var ready := IsReady(pods[i], evicted, now);
            if !ready {
              notReady := notReady + 1;
            }
          }
          tested := tested + 1;
        }
      }
      assert pods[..|pods|] == pods;
      var replicas := ExpectedReplicas(sts);
      if |pods| < replicas {
        unknown := replicas - |pods|;
      }
      return ZoneStatus(tested, notReady, unknown);
    }

    method AccumulateResult(sts: StatefulSet, r: ZoneStatus, ghost evicted: Pod, ghost now: int) returns (ok: bool)
      requires mode.PartitionAware? ==> result.Some?
      modifies this
      ensures var a := Accumulate(old(ViewOf(evicted, now)), old(result), sts, r);
              ok == a.Accepted? && result == if a.Accepted? then a.result else old(result)
    {
      if mode.ZoneAware? {
        if sts.uid == owner.uid {
          result := Some(r);
        } else if r.notReady + r.unknown > 0 {
          return false;
        }
        return true;
      }
      var sum := result.value;
      sum := ZoneStatus(sum.tested + r.tested, sum.notReady + r.notReady, sum.unknown + r.unknown);
      if r.tested == 0 && r.notReady == 0 && r.unknown == 0 {
        sum := sum.(unknown := sum.unknown + 1);
      }
      result := Some(sum);
      return true;
    }

    method Validate(maxUnavailable: nat) returns (ok: bool)
      requires result.Some?
      ensures ok <==> Disruption(result.value) < maxUnavailable
    {
      return result.value.notReady + result.value.unknown < maxUnavailable;
    }
  }

  class Mutex {
    constructor () {}
  }

  class EvictionController {
    var locks: map<string, Mutex>
    const cache: PodEvictionCache
    const configs: ConfigCache

    constructor ()
      ensures locks == map[] && fresh(cache) && fresh(configs) && cache.entries == map[] && configs.entries == map[]
    {
      locks := map[];
      cache := new PodEvictionCache();
      configs := new ConfigCache();
    }

    /** Creates the mutex of a name on first use and never replaces one. */
    method FindLock(name: string) returns (m: Mutex)
      modifies this
      ensures name in locks && locks[name] == m
      ensures forall n | n in old(locks) :: n in locks && locks[n] == old(locks)[n]
      ensures forall n | n in locks :: n in old(locks) || n == name
      ensures name !in old(locks) ==> fresh(m)
    {
      if name in locks {
        return locks[name];
      }
      m := new Mutex();
      locks := locks[name := m];
    }

    /** Resolves the owner against the related StatefulSets, then the API. */
    static method Owner(related: seq<Listing>, name: string, get: Option<StatefulSet>) returns (r: Option<StatefulSet>)
      ensures r == ResolveOwner(related, name, get)
      ensures (forall j | 0 <= j < |related| :: related[j].sts.name != name) ==> r == get
      ensures forall i | 0 <= i < |related| && related[i].sts.name == name
                         && (forall j | 0 <= j < i :: related[j].sts.name != name) :: r == Some(related[i].sts)
    {
      var i := 0;
      while i < |related|
        invariant 0 <= i <= |related|
        invariant ResolveOwner(related, name, get) == ResolveOwner(related[i..], name, get)
        invariant forall j | 0 <= j < i :: related[j].sts.name != name
      {
        if related[i].sts.name == name {
          return Some(related[i].sts);
        }
        assert related[i..][1..] == related[i + 1..];
        i := i + 1;
      }
      return get;
    }

    static method IsOwnerInGroup(related: seq<Listing>, uid: string) returns (found: bool)
      ensures found <==> OwnerListed(related, uid)
    {
      found := false;
      for i := 0 to |related|
        invariant found <==> exists j | 0 <= j < i :: related[j].sts.uid == uid
      {
        if related[i].sts.uid == uid {
          return true;
        }
      }
    }

    method AssessZones(pdb: Validator, pod: Pod, related: seq<Listing>, limit: nat, now: int) returns (verdict: Verdict)
      requires OwnerListed(related, pdb.owner.uid)
      requires pdb.result == InitialResult(pdb.mode)
      modifies pdb
      ensures verdict == Judge(old(pdb.ViewOf(pod, now)), related, limit)
    {
      ghost var v := pdb.ViewOf(pod, now);
      ghost var whole := ScanZones(v, InitialResult(v.mode), related);
      ScanHasResult(v, InitialResult(v.mode), related);
      var i := 0;
      while i < |related|
        invariant 0 <= i <= |related|
        invariant pdb.ViewOf(pod, now) == v
        invariant whole == ScanZones(v, pdb.result, related[i..])
        invariant pdb.mode.PartitionAware? ==> pdb.result.Some?
      {
        var other := related[i];
        assert related[i..][1..] == related[i + 1..];
        if pdb.mode.ZoneAware? || other.sts.uid != pdb.owner.uid {
          if other.pods.None? {
            return PodStatusNotDetermined;
          }
          var r := pdb.PodsNotRunningAndReady(other.sts, pod, other.pods.value, now);
          var ok := pdb.AccumulateResult(other.sts, r, pod, now);
          if !ok {
            return BudgetExceeded;
          }
        }
        i := i + 1;
      }
      var ok := pdb.Validate(limit);
      return if ok then BudgetMet else BudgetExceeded;
    }

    method HandlePodEvictionRequest(
      req: Request, zeroOverride: Option<nat>, api: Api, now: int)
      returns (verdict: Verdict)
      modifies this, cache
      ensures verdict == Decide(old(configs.entries), old(cache.entries), now, req, zeroOverride, api)
      ensures cache.entries == EntriesAfter(old(cache.entries), verdict, now, api)
      ensures forall n | n in old(locks) :: n in locks && locks[n] == old(locks)[n]
    {
      if !ValidRequest(req) {
        return InvalidRequest;
      }
      var outOfScope := IsOutOfScope(api.cached);
      if outOfScope {
        return PodNotInScope;
      }
      if api.live.None? {
        return PodNotFound;
      }
      verdict := HandleLivePod(api.live.value, zeroOverride, api, now);
    }

    /** The scope according to the pod informer's copy, if it has one. */
    method IsOutOfScope(cached: Option<Pod>) returns (r: bool)
      ensures r <==> cached.Some? && Find(configs.entries, cached.value.labels).NoBudget?
      ensures r <==> cached.Some? && NoneSelects(configs.entries, cached.value.labels)
    {
      if cached.None? {
        return false;
      }
      var scope := configs.FindForPod(cached.value.labels);
      return scope.NoBudget?;
    }

    /** The request once the pod has been read from the API. */
    method HandleLivePod(pod: Pod, zeroOverride: Option<nat>, api: Api, now: int) returns (verdict: Verdict)
      requires api.live == Some(pod)
      modifies this, cache
      ensures verdict == DecideLive(old(configs.entries), old(cache.entries), now, zeroOverride, api)
      ensures cache.entries == EntriesAfter(old(cache.entries), verdict, now, api)
      ensures forall n | n in old(locks) :: n in locks && locks[n] == old(locks)[n]
    {
      if CanIgnoreBudget(pod) {
        return PodNotReady;
      }
      var lookup := configs.FindForPod(pod.labels);
      if lookup.Ambiguous? {
        return BudgetLookupFailed;
      }
      if lookup.NoBudget? {
        return PodNotInScope;
      }
      var budget := lookup.budget;
      if pod.owner.NoController? || pod.owner.kind != "StatefulSet" {
        return OwnerNotFound;
      }
      var _ := FindLock(budget.name);
      verdict := HandleInScope(budget, pod, zeroOverride, api, now);
    }

    /** The part of a request that runs under the budget's mutex. */
    method HandleInScope(
      budget: Budget, pod: Pod, zeroOverride: Option<nat>, api: Api, now: int)
      returns (verdict: Verdict)
      requires api.live == Some(pod) && pod.owner.Controller? && pod.owner.kind == "StatefulSet"
      modifies cache
      ensures verdict == DecideInScope(budget, old(cache.entries), now, pod, zeroOverride, api)
      ensures cache.entries == EntriesAfter(old(cache.entries), verdict, now, api)
    {
      var related := if api.related.Some? then api.related.value else [];
      var owner := Owner(related, pod.owner.name, api.ownerGet);
      if owner.None? {
        return OwnerNotFound;
      }
      var sts := owner.value;
      var maxUnavailable := MaxUnavailablePods(budget, sts);
      if maxUnavailable == 0 && zeroOverride.Some? {
        maxUnavailable := zeroOverride.value;
      }
      if maxUnavailable == 0 {
        return MaxUnavailableZero;
      }
      if api.related.None? || |related| <= 1 {
        return TooFewStatefulSets;
      }
      var inGroup := IsOwnerInGroup(related, sts.uid);
      if !inGroup {
        return OwnerNotInGroup;
      }
      var partition := PodPartition(budget, pod.name);
      if partition.None? {
        return PartitionNotIdentified;
      }
      var pdb := new Validator(ModeFor(partition.value), budget, sts, cache);
      verdict := AssessZones(pdb, pod, related, maxUnavailable, now);
      if verdict.BudgetMet? {
        cache.RecordEviction(pod, now);
      }
    }
  }
}
