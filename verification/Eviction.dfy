/** The pod eviction admission decision: pod tallies, the two validators and the request handler. */
module Eviction {
  import opened Kube
  import opened EvictionCache
  import opened Budgets

  datatype ZoneStatus = ZoneStatus(tested: nat, notReady: nat, unknown: nat)

  function Disruption(z: ZoneStatus): nat {
    z.notReady + z.unknown
  }

  datatype Mode = ZoneAware | PartitionAware(partition: string)

  /** What a validator sees while it assesses one request. */
  datatype View = View(mode: Mode, budget: Budget, owner: StatefulSet, evicted: Pod, entries: Entries, now: int)

  const READY_CONDITION := "Ready"

  /** When the pod last became Ready, read from its first Ready condition. */
  function ReadySince(conditions: seq<Condition>): Option<int> {
    if conditions == [] then None
    else if conditions[0].kind == READY_CONDITION then
      if conditions[0].status == True then conditions[0].lastTransition else None
    else ReadySince(conditions[1..])
  }

  predicate CountsReady(v: View, pod: Pod) {
    && !HasPending(v.entries, pod.name, v.now)
    && RunningAndReady(pod)
    && (v.mode.ZoneAware? || v.budget.crossZoneEvictionDelay == 0 ||
        (ReadySince(pod.conditions).Some?
         && v.now > ReadySince(pod.conditions).value + v.budget.crossZoneEvictionDelay))
  }

  predicate ConsidersPod(v: View, pod: Pod) {
    match v.mode
    case ZoneAware => true
    case PartitionAware(partition) =>
      match PodPartition(v.budget, pod.name)
      case None => partition == ""
      case Some(p) => p == partition
  }

  predicate ConsidersSts(v: View, sts: StatefulSet) {
    v.mode.PartitionAware? ==> sts.uid != v.owner.uid
  }

  predicate CountsNotReady(v: View, pod: Pod) {
    ConsidersPod(v, pod) && v.evicted.uid != pod.uid && !CountsReady(v, pod)
  }

  function TestedCount(v: View, pods: seq<Pod>): nat {
    if pods == [] then 0
    else TestedCount(v, pods[..|pods| - 1]) + if ConsidersPod(v, pods[|pods| - 1]) then 1 else 0
  }

  function NotReadyCount(v: View, pods: seq<Pod>): nat {
    if pods == [] then 0
    else NotReadyCount(v, pods[..|pods| - 1]) + if CountsNotReady(v, pods[|pods| - 1]) then 1 else 0
  }

  function UnknownCount(sts: StatefulSet, listed: nat): nat {
    if listed < ExpectedReplicas(sts) then ExpectedReplicas(sts) - listed else 0
  }

  function Tally(v: View, sts: StatefulSet, pods: seq<Pod>): ZoneStatus {
    ZoneStatus(TestedCount(v, pods), NotReadyCount(v, pods), UnknownCount(sts, |pods|))
  }

  datatype Accumulated = Rejected | Accepted(result: Option<ZoneStatus>)

  /** Zone mode rejects at the first disruption in another zone; partition mode adds everything up, and a
      zone that shows nothing at all counts as one unknown pod. */
  function Accumulate(v: View, acc: Option<ZoneStatus>, sts: StatefulSet, r: ZoneStatus): Accumulated {
    match v.mode
    case ZoneAware =>
      if sts.uid == v.owner.uid then Accepted(Some(r))
      else if Disruption(r) > 0 then Rejected
      else Accepted(acc)
    case PartitionAware(_) =>
      var a := if acc.Some? then acc.value else ZoneStatus(0, 0, 0);
      var unseen := if r == ZoneStatus(0, 0, 0) then 1 else 0;
      Accepted(Some(ZoneStatus(a.tested + r.tested, a.notReady + r.notReady, a.unknown + r.unknown + unseen)))
  }

  /** One StatefulSet of the budget and its pod listing; `None` is a failed list call. */
  datatype Listing = Listing(sts: StatefulSet, pods: Option<seq<Pod>>)

  datatype Scan = ListFailed | Disrupted | Done(result: Option<ZoneStatus>)

  function ScanZones(v: View, acc: Option<ZoneStatus>, listing: seq<Listing>): Scan
    decreases |listing|
  {
    if listing == [] then Done(acc)
    else if !ConsidersSts(v, listing[0].sts) then ScanZones(v, acc, listing[1..])
    else if listing[0].pods.None? then ListFailed
    else
      match Accumulate(v, acc, listing[0].sts, Tally(v, listing[0].sts, listing[0].pods.value))
      case Rejected => Disrupted
      case Accepted(acc') => ScanZones(v, acc', listing[1..])
  }

  function InitialResult(mode: Mode): Option<ZoneStatus> {
    if mode.ZoneAware? then None else Some(ZoneStatus(0, 0, 0))
  }

  predicate DistinctUids(listing: seq<Listing>) {
    forall i, j | 0 <= i < j < |listing| :: listing[i].sts.uid != listing[j].sts.uid
  }

  predicate OwnerListed(listing: seq<Listing>, uid: string) {
    exists i | 0 <= i < |listing| :: listing[i].sts.uid == uid
  }

  // ----- request handling -----

  datatype Request = Request(operation: string, subResource: string, namespace: string, name: string)

  predicate ValidRequest(req: Request) {
    req.operation == "CREATE" && req.subResource == "eviction" && req.namespace != "" && req.name != ""
  }

  /** What the API answers while a request is handled; `None` is an error or not found. */
  datatype Api = Api(
    cached: Option<Pod>,
    live: Option<Pod>,
    related: Option<seq<Listing>>,
    ownerGet: Option<StatefulSet>)

  datatype Verdict =
    | InvalidRequest | PodNotInScope | PodNotFound | PodNotReady | BudgetLookupFailed | OwnerNotFound
    | MaxUnavailableZero | TooFewStatefulSets | OwnerNotInGroup | PartitionNotIdentified
    | PodStatusNotDetermined | BudgetExceeded | BudgetMet

  predicate IsAllowed(verdict: Verdict) {
    verdict.PodNotInScope? || verdict.PodNotReady? || verdict.BudgetMet?
  }

  predicate CanIgnoreBudget(pod: Pod) {
    pod.phase in {Succeeded, Failed, Pending} || pod.deleting
  }

  /** The first related StatefulSet with the owner's name, or else the one the API returns. */
  function ResolveOwner(related: seq<Listing>, name: string, get: Option<StatefulSet>): Option<StatefulSet> {
    if related == [] then get
    else if related[0].sts.name == name then Some(related[0].sts)
    else ResolveOwner(related[1..], name, get)
  }

  /** The override applies only where the budget disabled voluntary evictions. */
  function EffectiveLimit(budget: Budget, sts: StatefulSet, zeroOverride: Option<nat>): nat {
    var limit := MaxUnavailablePods(budget, sts);
    if limit == 0 && zeroOverride.Some? then zeroOverride.value else limit
  }

  function ModeFor(partition: string): Mode {
    if |partition| > 0 then PartitionAware(partition) else ZoneAware
  }

  function Judge(v: View, listing: seq<Listing>, limit: nat): Verdict
    requires OwnerListed(listing, v.owner.uid)
  {
    match ScanZones(v, InitialResult(v.mode), listing)
    case ListFailed => PodStatusNotDetermined
    case Disrupted => BudgetExceeded
    case Done(result) =>
      ScanHasResult(v, InitialResult(v.mode), listing);
      if Disruption(result.value) >= limit then BudgetExceeded else BudgetMet
  }

  /** The owner-in-group check is what keeps `validate` from reading a result that was never set. */
  lemma {:induction false} ScanHasResult(v: View, acc: Option<ZoneStatus>, listing: seq<Listing>)
    requires OwnerListed(listing, v.owner.uid) || acc.Some?
    requires v.mode.PartitionAware? ==> acc.Some?
    ensures var s := ScanZones(v, acc, listing); s.Done? ==> s.result.Some?
    decreases |listing|
  {
    if listing != [] {
      if !ConsidersSts(v, listing[0].sts) {
        ScanHasResult(v, acc, listing[1..]);
      } else if listing[0].pods.Some? {
        var a := Accumulate(v, acc, listing[0].sts, Tally(v, listing[0].sts, listing[0].pods.value));
        if a.Accepted? {
          if acc.None? && a.result.None? {
            var i :| 0 <= i < |listing| && listing[i].sts.uid == v.owner.uid;
            assert listing[1..][i - 1].sts.uid == v.owner.uid;
          }
          ScanHasResult(v, a.result, listing[1..]);
        }
      }
    }
  }

  function DecideInScope(
    budget: Budget, entries: Entries, now: int, pod: Pod, zeroOverride: Option<nat>, api: Api): Verdict {
    if pod.owner.NoController? || pod.owner.kind != "StatefulSet" then OwnerNotFound
    else
      var related := if api.related.Some? then api.related.value else [];
      match ResolveOwner(related, pod.owner.name, api.ownerGet)
      case None => OwnerNotFound
      case Some(sts) =>
        var limit := EffectiveLimit(budget, sts, zeroOverride);
        if limit == 0 then MaxUnavailableZero
        else if api.related.None? || |related| <= 1 then TooFewStatefulSets
        else if !OwnerListed(related, sts.uid) then OwnerNotInGroup
        else
          match PodPartition(budget, pod.name)
          case None => PartitionNotIdentified
          case Some(p) => Judge(View(ModeFor(p), budget, sts, pod, entries, now), related, limit)
  }

  ghost function DecideLive(
    configs: Configs, entries: Entries, now: int, zeroOverride: Option<nat>, api: Api): Verdict {
    match api.live
    case None => PodNotFound
    case Some(pod) =>
      if CanIgnoreBudget(pod) then PodNotReady
      else
        match Find(configs, pod.labels)
        case Ambiguous => BudgetLookupFailed
        case NoBudget => PodNotInScope
        case Found(budget) => DecideInScope(budget, entries, now, pod, zeroOverride, api)
  }

  ghost function Decide(
    configs: Configs, entries: Entries, now: int, req: Request, zeroOverride: Option<nat>, api: Api): Verdict {
    if !ValidRequest(req) then InvalidRequest
    else if api.cached.Some? && Find(configs, api.cached.value.labels).NoBudget? then PodNotInScope
    else DecideLive(configs, entries, now, zeroOverride, api)
  }

  lemma InScopeVerdicts(budget: Budget, entries: Entries, now: int, pod: Pod, zeroOverride: Option<nat>, api: Api)
    ensures var v := DecideInScope(budget, entries, now, pod, zeroOverride, api); !v.PodNotInScope? && !v.PodNotReady?
  {
  }

  /** For a pod in the scope of `budget`, a request is allowed only if the pod is down already or the budget is met. */
  lemma AllowedInScope(
    configs: Configs, entries: Entries, now: int, req: Request, zeroOverride: Option<nat>, api: Api, budget: Budget)
    requires api.cached.Some? ==> Find(configs, api.cached.value.labels).Found?
    requires api.live.Some? ==> Find(configs, api.live.value.labels) == Found(budget)
    requires IsAllowed(Decide(configs, entries, now, req, zeroOverride, api))
    ensures api.live.Some?
    ensures if Decide(configs, entries, now, req, zeroOverride, api).BudgetMet?
            then DecideInScope(budget, entries, now, api.live.value, zeroOverride, api).BudgetMet?
            else CanIgnoreBudget(api.live.value)
  {
    if api.live.Some? {
      InScopeVerdicts(budget, entries, now, api.live.value, zeroOverride, api);
    }
  }

  /** The eviction cache after a request. */
  function EntriesAfter(entries: Entries, verdict: Verdict, now: int, api: Api): Entries {
    if verdict.BudgetMet? && api.live.Some? then Recorded(entries, api.live.value, now) else entries
  }

  /** Deciding scope from the cached labels changes neither the answer nor the eviction cache, as long as
      the live pod exists with the same labels. */
  lemma CachedScopeCheckIsSafe(
    configs: Configs, entries: Entries, now: int, req: Request, zeroOverride: Option<nat>, api: Api)
    requires api.cached.Some? && api.live.Some? && api.cached.value.labels == api.live.value.labels
    ensures var fast := Decide(configs, entries, now, req, zeroOverride, api);
            var slow := Decide(configs, entries, now, req, zeroOverride, api.(cached := None));
            && (IsAllowed(fast) <==> IsAllowed(slow))
            && EntriesAfter(entries, fast, now, api) == EntriesAfter(entries, slow, now, api)
  {
    var live := api.(cached := None);
    assert DecideLive(configs, entries, now, zeroOverride, live)
        == DecideLive(configs, entries, now, zeroOverride, api);
  }

  // ----- the zone-mode verdict -----

  predicate AllListed(listing: seq<Listing>) {
    forall l | l in listing :: l.pods.Some?
  }

  /** No other zone is disrupted, and the owner zone stays below the limit. */
  predicate ZoneModePermits(v: View, listing: seq<Listing>, limit: nat)
    requires AllListed(listing)
  {
    forall l | l in listing ::
      var d := Disruption(Tally(v, l.sts, l.pods.value));
      if l.sts.uid == v.owner.uid then d < limit else d == 0
  }

  /** For every listing order the fail-fast loop followed by `validate` allows exactly when the
      order-free condition holds. */
  lemma ZoneModeVerdict(v: View, listing: seq<Listing>, limit: nat)
    requires v.mode.ZoneAware?
    requires DistinctUids(listing) && OwnerListed(listing, v.owner.uid)
    ensures Judge(v, listing, limit).BudgetMet? <==> AllListed(listing) && ZoneModePermits(v, listing, limit)
  {
    ScanHasResult(v, None, listing);
    ZoneScan(v, None, listing, limit);
  }

  lemma {:induction false} ZoneScan(v: View, acc: Option<ZoneStatus>, listing: seq<Listing>, limit: nat)
    requires v.mode.ZoneAware?
    requires DistinctUids(listing)
    requires acc.Some? ==> !OwnerListed(listing, v.owner.uid)
    ensures var s := ScanZones(v, acc, listing);
            (s.Done? && (s.result.Some? ==> Disruption(s.result.value) < limit))
            <==> && AllListed(listing) && ZoneModePermits(v, listing, limit)
                 && (acc.Some? ==> Disruption(acc.value) < limit)
    decreases |listing|
  {
    if listing != [] {
      var head, tail := listing[0], listing[1..];
      assert listing == [head] + tail;
      assert forall l :: l in listing <==> l == head || l in tail;
      assert DistinctUids(tail) by {
        forall i, j | 0 <= i < j < |tail| ensures tail[i].sts.uid != tail[j].sts.uid {
          assert listing[i + 1].sts.uid != listing[j + 1].sts.uid;
        }
      }
      if head.pods.Some? {
        var r := Tally(v, head.sts, head.pods.value);
        if head.sts.uid == v.owner.uid {
          forall i | 0 <= i < |tail| ensures tail[i].sts.uid != v.owner.uid {
            assert tail[i] == listing[i + 1];
          }
          ZoneScan(v, Some(r), tail, limit);
        } else if Disruption(r) == 0 {
          forall i | 0 <= i < |tail| ensures tail[i] == listing[i + 1] {}
          ZoneScan(v, acc, tail, limit);
        }
      }
    }
  }

  // ----- the partition-mode verdict -----

  /** What one zone adds to the partition-mode tally. */
  function Contribution(v: View, l: Listing): nat
    requires l.pods.Some?
  {
    var r := Tally(v, l.sts, l.pods.value);
    Disruption(r) + if r == ZoneStatus(0, 0, 0) then 1 else 0
  }

  function ContributionSum(v: View, listing: seq<Listing>): nat
    requires forall l | l in listing && ConsidersSts(v, l.sts) :: l.pods.Some?
  {
    if listing == [] then 0
    else (if ConsidersSts(v, listing[0].sts) then Contribution(v, listing[0]) else 0) + ContributionSum(v, listing[1..])
  }

  predicate OthersListed(v: View, listing: seq<Listing>) {
    forall l | l in listing && ConsidersSts(v, l.sts) :: l.pods.Some?
  }

  lemma PartitionModeVerdict(v: View, listing: seq<Listing>, limit: nat)
    requires v.mode.PartitionAware?
    requires OwnerListed(listing, v.owner.uid)
    ensures Judge(v, listing, limit).BudgetMet? <==> OthersListed(v, listing) && ContributionSum(v, listing) < limit
  {
    PartitionScan(v, ZoneStatus(0, 0, 0), listing);
  }

  lemma {:induction false} PartitionScan(v: View, acc: ZoneStatus, listing: seq<Listing>)
    requires v.mode.PartitionAware?
    ensures var s := ScanZones(v, Some(acc), listing);
            && (s.Done? <==> OthersListed(v, listing))
            && (s.Done? ==>
                  s.result.Some? && Disruption(s.result.value) == Disruption(acc) + ContributionSum(v, listing))
            && !s.Disrupted?
    decreases |listing|
  {
    if listing != [] {
      var head, tail := listing[0], listing[1..];
      assert forall l :: l in listing <==> l == head || l in tail;
      if !ConsidersSts(v, head.sts) {
        PartitionScan(v, acc, tail);
      } else if head.pods.Some? {
        var next := Accumulate(v, Some(acc), head.sts, Tally(v, head.sts, head.pods.value)).result.value;
        PartitionScan(v, next, tail);
      }
    }
  }
}
