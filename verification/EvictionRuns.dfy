/** The eviction protocol as a step system over live pods, the eviction cache and the clock. */
module EvictionRuns {
  import opened Kube
  import opened EvictionCache
  import opened Budgets
  import opened Eviction

  /** A StatefulSet covers one zone; `names` are the pods it is meant to have, and `sts` shows it at full size. */
  datatype Zone = Zone(sts: StatefulSet, names: set<string>)

  /** `overrides` holds the limit the rollout controller asks for when the budget's own is zero. */
  datatype Fleet = Fleet(zones: map<string, Zone>, budget: Budget, overrides: map<string, nat>)

  datatype State = State(pods: map<string, Pod>, entries: Entries, now: int)

  ghost predicate ValidFleet(f: Fleet) {
    && f.zones != map[]
    && f.overrides.Keys == f.zones.Keys
    && ValidBudget(f.budget)
    && (forall u | u in f.zones ::
          && f.zones[u].sts.uid == u
          && f.zones[u].sts.specReplicas == Some(|f.zones[u].names|)
          && f.zones[u].sts.statusReplicas == |f.zones[u].names|)
    && (forall u, w | u in f.zones && w in f.zones && u != w ::
          f.zones[u].names !! f.zones[w].names && f.zones[u].sts.name != f.zones[w].sts.name)
  }

  ghost predicate BelongsTo(f: Fleet, u: string, pod: Pod)
    requires u in f.zones
  {
    && pod.name in f.zones[u].names
    && pod.owner == Controller("StatefulSet", f.zones[u].sts.name)
    && MatchesPod(f.budget, pod.labels)
  }

  /** Every live pod belongs to a zone and is in the budget's scope; UIDs identify pods. */
  ghost predicate ValidState(f: Fleet, s: State) {
    && (forall n | n in s.pods :: s.pods[n].name == n && exists u | u in f.zones :: BelongsTo(f, u, s.pods[n]))
    && (forall m, n | m in s.pods && n in s.pods && m != n :: s.pods[m].uid != s.pods[n].uid)
  }

  predicate Up(s: State, n: string) {
    n in s.pods && RunningAndReady(s.pods[n])
  }

  /** A pod is unavailable when it is missing, not running and ready, or pending eviction. */
  predicate Available(s: State, n: string) {
    n in s.pods && RunningAndReady(s.pods[n]) && !HasPending(s.entries, n, s.now)
  }

  ghost function Unavailable(f: Fleet, s: State, u: string): set<string>
    requires u in f.zones
  {
    set n | n in f.zones[u].names && !Available(s, n)
  }

  /** `pods` lists, in any order, the live pods of a zone. */
  ghost predicate ListsZone(s: State, z: Zone, pods: seq<Pod>) {
    && DistinctNames(pods)
    && (forall p | p in pods :: p.name in s.pods && s.pods[p.name] == p)
    && Names(pods) == z.names * s.pods.Keys
  }

  /** What the API may show of a zone's StatefulSet: its status reports any number of replicas up to its size. */
  ghost predicate ShowsSet(f: Fleet, u: string, sts: StatefulSet)
    requires u in f.zones
  {
    && sts.uid == u && sts.name == f.zones[u].sts.name
    && sts.specReplicas == f.zones[u].sts.specReplicas && sts.statusReplicas <= |f.zones[u].names|
  }

  /** The owner of a live pod reports at least that pod. */
  ghost predicate ShowsOwner(f: Fleet, u: string, sts: StatefulSet)
    requires u in f.zones
  {
    ShowsSet(f, u, sts) && sts.statusReplicas >= 1
  }

  /** `listing` lists, in any order, all zones of the fleet. */
  ghost predicate ListsFleet(f: Fleet, s: State, listing: seq<Listing>) {
    && DistinctUids(listing)
    && (forall l | l in listing ::
          && l.sts.uid in f.zones && ShowsSet(f, l.sts.uid, l.sts)
          && (l.pods.Some? ==> ListsZone(s, f.zones[l.sts.uid], l.pods.value)))
    && (forall u | u in f.zones :: OwnerListed(listing, u))
  }

  /** The API shows the current state; any list call may fail. */
  ghost predicate Shows(f: Fleet, s: State, zone: string, name: string, api: Api)
    requires zone in f.zones
  {
    && api.live == (if name in s.pods then Some(s.pods[name]) else None)
    && (api.cached.Some? ==> MatchesPod(f.budget, api.cached.value.labels))
    && (api.related.Some? ==> ListsFleet(f, s, api.related.value))
    && (name in s.pods ==> forall sts | OffersOwner(api, f.zones[zone].sts.name, sts) :: ShowsOwner(f, zone, sts))
  }

  /** The API offers `sts` as the owner called `name`, in the listing or by name. */
  predicate OffersOwner(api: Api, name: string, sts: StatefulSet) {
    || api.ownerGet == Some(sts)
    || (api.related.Some? && sts.name == name && exists l | l in api.related.value :: l.sts == sts)
  }

  datatype Step =
    | Evict(zone: string, req: Request, fromRollout: bool, api: Api)
    | ChangePod(name: string, pod: Option<Pod>)
    | Observe(event: Pod)
    | Tick(time: int)

  function Configured(f: Fleet): Configs {
    map[f.budget.name := f.budget]
  }

  function OverrideOf(f: Fleet, step: Step): Option<nat>
    requires step.Evict? && step.zone in f.overrides
  {
    if step.fromRollout then Some(f.overrides[step.zone]) else None
  }

  ghost function VerdictOf(f: Fleet, s: State, step: Step): Verdict
    requires step.Evict? && step.zone in f.overrides
  {
    Decide(Configured(f), s.entries, s.now, step.req, OverrideOf(f, step), step.api)
  }

  /** - `Evict`: a webhook or rollout-controller request, serialised by the budget's mutex.
      - `ChangePod`: an unavailable pod changes in any way: it stops, vanishes, is recreated, becomes ready.
        An available pod does not change, so ready pods go down only after an allowed eviction.
      - `Observe`: an informer event; it reports a non-running phase only if the pod is not running now.
      - `Tick`: time passes. */
  ghost predicate Next(f: Fleet, s: State, step: Step, s': State) {
    match step
    case Evict(zone, req, _, api) =>
      && zone in f.zones && zone in f.overrides
      && req.name in f.zones[zone].names
      && Shows(f, s, zone, req.name, api)
      && s' == s.(entries := EntriesAfter(s.entries, VerdictOf(f, s, step), s.now, api))
    case ChangePod(name, pod) =>
      && !Available(s, name)
      && s' == s.(pods := if pod.Some? then s.pods[name := pod.value] else s.pods - {name})
      && ValidState(f, s')
    case Observe(event) =>
      && (event.phase != Running ==> event.name !in s.pods || s.pods[event.name].phase != Running)
      && s' == s.(entries := Invalidated(s.entries, event, s.now))
    case Tick(time) =>
      s.now <= time && s' == s.(now := time)
  }

  ghost predicate Initial(f: Fleet, s: State) {
    ValidState(f, s) && forall u, n | u in f.zones && n in f.zones[u].names :: Available(s, n)
  }

  ghost predicate IsRun(f: Fleet, states: seq<State>, steps: seq<Step>) {
    && |states| == |steps| + 1
    && Initial(f, states[0])
    && forall i | 0 <= i < |steps| :: Next(f, states[i], steps[i], states[i + 1])
  }

  // ----- facts shared by both modes -----

  lemma {:induction false} ResolvesToOffered(related: seq<Listing>, name: string, get: Option<StatefulSet>)
    ensures var r := ResolveOwner(related, name, get);
            r.Some? ==> r == get || (r.value.name == name && exists l | l in related :: l.sts == r.value)
  {
    if related != [] {
      if related[0].sts.name == name {
        assert related[0] in related;
      } else {
        ResolvesToOffered(related[1..], name, get);
      }
    }
  }

  lemma FindsTheBudget(f: Fleet, labels: map<string, string>)
    requires MatchesPod(f.budget, labels)
    ensures Find(Configured(f), labels) == Found(f.budget)
  {
    assert MatchingNames(Configured(f), labels) == {f.budget.name};
  }

  lemma BelongsToItsZone(f: Fleet, s: State, u: string, n: string)
    requires ValidFleet(f) && ValidState(f, s)
    requires u in f.zones && n in f.zones[u].names && n in s.pods
    ensures BelongsTo(f, u, s.pods[n])
  {
    var w :| w in f.zones && BelongsTo(f, w, s.pods[n]);
    assert n in f.zones[w].names;
  }

  /** An allowed request is either for a pod that is down already or met the budget. */
  lemma AllowedVerdict(f: Fleet, s: State, step: Step)
    requires ValidFleet(f) && ValidState(f, s)
    requires step.Evict? && step.zone in f.zones && step.req.name in f.zones[step.zone].names
    requires Shows(f, s, step.zone, step.req.name, step.api)
    requires IsAllowed(VerdictOf(f, s, step))
    ensures step.req.name in s.pods
    ensures var pod := s.pods[step.req.name];
            if VerdictOf(f, s, step).BudgetMet?
            then DecideInScope(f.budget, s.entries, s.now, pod, OverrideOf(f, step), step.api).BudgetMet?
            else CanIgnoreBudget(pod)
  {
    if step.api.cached.Some? {
      FindsTheBudget(f, step.api.cached.value.labels);
    }
    var name := step.req.name;
    if name in s.pods {
      BelongsToItsZone(f, s, step.zone, name);
      FindsTheBudget(f, s.pods[name].labels);
    }
    AllowedInScope(Configured(f), s.entries, s.now, step.req, OverrideOf(f, step), step.api, f.budget);
  }

  function RelatedOf(api: Api): seq<Listing> {
    if api.related.Some? then api.related.value else []
  }

  /** Whatever the listing order and whether or not calls fail, the resolved owner is the zone's own set. */
  lemma OwnerIsTheZone(f: Fleet, s: State, step: Step)
    requires step.Evict? && step.zone in f.zones && step.req.name in s.pods
    requires Shows(f, s, step.zone, step.req.name, step.api)
    ensures var r := ResolveOwner(RelatedOf(step.api), f.zones[step.zone].sts.name, step.api.ownerGet);
            r.Some? ==> ShowsOwner(f, step.zone, r.value)
  {
    var name := f.zones[step.zone].sts.name;
    ResolvesToOffered(RelatedOf(step.api), name, step.api.ownerGet);
    var r := ResolveOwner(RelatedOf(step.api), name, step.api.ownerGet);
    if r.Some? {
      assert OffersOwner(step.api, name, r.value);
    }
  }

  function LimitFor(f: Fleet, step: Step, owner: StatefulSet): nat
    requires step.Evict? && step.zone in f.overrides
  {
    EffectiveLimit(f.budget, owner, OverrideOf(f, step))
  }

  /** The validator saw the evicted pod, the cache and the clock of the state, and its pod's own zone as owner. */
  ghost predicate Views(f: Fleet, s: State, v: View) {
    && v.budget == f.budget && v.entries == s.entries && v.now == s.now
    && v.owner.uid in f.zones && ShowsOwner(f, v.owner.uid, v.owner)
    && v.evicted.name in f.zones[v.owner.uid].names
    && v.evicted.name in s.pods && s.pods[v.evicted.name] == v.evicted
    && PodPartition(f.budget, v.evicted.name).Some?
    && v.mode == ModeFor(PodPartition(f.budget, v.evicted.name).value)
  }

  /** It judged a full listing of the fleet and stayed within `limit`. */
  ghost predicate Judged(f: Fleet, s: State, v: View, listing: seq<Listing>, limit: nat) {
    && Views(f, s, v) && ListsFleet(f, s, listing)
    && OwnerListed(listing, v.owner.uid) && Judge(v, listing, limit).BudgetMet?
  }

  /** What a met budget means for the request that met it. */
  lemma MetRequest(f: Fleet, s: State, step: Step, s': State) returns (v: View)
    requires ValidFleet(f) && ValidState(f, s) && Next(f, s, step, s')
    requires step.Evict? && VerdictOf(f, s, step).BudgetMet?
    ensures v.owner.uid == step.zone && v.evicted.name == step.req.name && step.api.related.Some?
    ensures Judged(f, s, v, step.api.related.value, LimitFor(f, step, v.owner))
    ensures s' == s.(entries := Recorded(s.entries, v.evicted, s.now))
  {
    AllowedVerdict(f, s, step);
    OwnerIsTheZone(f, s, step);
    BelongsToItsZone(f, s, step.zone, step.req.name);
    var owner := ResolveOwner(RelatedOf(step.api), f.zones[step.zone].sts.name, step.api.ownerGet).value;
    var mode := ModeFor(PodPartition(f.budget, step.req.name).value);
    v := View(mode, f.budget, owner, s.pods[step.req.name], s.entries, s.now);
  }

  lemma RecordingMarksOnly(s: State, pod: Pod, n: string)
    ensures var s' := s.(entries := Recorded(s.entries, pod, s.now));
            Available(s', n) <==> Available(s, n) && n != pod.name
  {
  }

  /** Whatever is allowed leaves its pod unavailable, so the assumption on `ChangePod` is what
      an allowed eviction licenses. */
  lemma AllowedMeansUnavailable(f: Fleet, s: State, step: Step, s': State)
    requires ValidFleet(f) && ValidState(f, s) && Next(f, s, step, s')
    requires step.Evict? && IsAllowed(VerdictOf(f, s, step))
    ensures !Available(s', step.req.name)
  {
    if VerdictOf(f, s, step).BudgetMet? {
      var v := MetRequest(f, s, step, s');
      RecordingMarksOnly(s, v.evicted, step.req.name);
    } else {
      AllowedVerdict(f, s, step);
      assert !RunningAndReady(s.pods[step.req.name]);
    }
  }

  lemma OtherStepsKeepAvailability(f: Fleet, s: State, step: Step, s': State, n: string)
    requires Next(f, s, step, s') && !step.Evict? && Available(s, n)
    ensures Available(s', n) && s'.pods[n] == s.pods[n]
  {
  }

  /** No step other than an allowed eviction makes an available pod unavailable. */
  lemma AvailabilityKept(f: Fleet, s: State, step: Step, s': State, n: string)
    requires ValidFleet(f) && ValidState(f, s) && Next(f, s, step, s')
    requires Available(s, n)
    ensures Available(s', n) || (step.Evict? && step.req.name == n && VerdictOf(f, s, step).BudgetMet?)
  {
    if !step.Evict? {
      OtherStepsKeepAvailability(f, s, step, s', n);
    } else if VerdictOf(f, s, step).BudgetMet? {
      var v := MetRequest(f, s, step, s');
      RecordingMarksOnly(s, v.evicted, n);
    } else {
      assert s' == s;
    }
  }

  lemma ValidityKept(f: Fleet, s: State, step: Step, s': State)
    requires ValidState(f, s) && Next(f, s, step, s')
    ensures ValidState(f, s')
  {
  }
}
