/** The cross-zone eviction delay over runs of a partition-aware budget with limit 1. */
module CrossZoneDelay {
  import opened Kube
  import opened EvictionCache
  import opened Budgets
  import opened Eviction
  import opened EvictionRuns
  import opened PartitionRuns

  /** A pod that becomes ready, or a ready pod that replaces another, carries a Ready transition time of
      that moment; metadata times are kept in whole seconds. A pod that stays ready keeps its time. */
  predicate HonestTransition(s: State, step: Step) {
    step.ChangePod? && step.pod.Some? && RunningAndReady(step.pod.value) ==>
      var since := ReadySince(step.pod.value.conditions);
      if Up(s, step.name) && s.pods[step.name].uid == step.pod.value.uid
      then since == ReadySince(s.pods[step.name].conditions)
      else since.Some? ==> s.now - SECOND < since.value <= s.now
  }

  ghost predicate IsHonestRun(f: Fleet, states: seq<State>, steps: seq<Step>) {
    IsRun(f, states, steps) && forall i | 0 <= i < |steps| :: HonestTransition(states[i], steps[i])
  }

  ghost predicate DelayFleet(f: Fleet) {
    PartitionFleet(f) && PartitionLimit(f) == 1 && f.budget.crossZoneEvictionDelay > 0
  }

  /** Step `i` allowed an eviction in `zone` of a pod of partition `p`. */
  ghost predicate AllowsAt(f: Fleet, states: seq<State>, steps: seq<Step>, i: int, zone: string, p: string)
    requires |states| == |steps| + 1
  {
    && 0 <= i < |steps|
    && steps[i].Evict? && steps[i].zone == zone && zone in f.overrides
    && VerdictOf(f, states[i], steps[i]).BudgetMet?
    && InPartition(f, steps[i].req.name, p)
  }

  // ----- what limit 1 demands of the other zones -----

  lemma {:induction false} SumZero(v: View, listing: seq<Listing>, l: Listing)
    requires OthersListed(v, listing) && ContributionSum(v, listing) == 0
    requires l in listing && ConsidersSts(v, l.sts)
    ensures Contribution(v, l) == 0
  {
    if l != listing[0] {
      SumZero(v, listing[1..], l);
    }
  }

  lemma {:induction false} NotReadyZero(v: View, pods: seq<Pod>, p: Pod)
    requires NotReadyCount(v, pods) == 0 && p in pods
    ensures !CountsNotReady(v, p)
  {
    if p != pods[|pods| - 1] {
      NotReadyZero(v, pods[..|pods| - 1], p);
    }
  }

  lemma {:induction false} SameSize(a: set<string>, b: set<string>)
    requires a <= b && |a| >= |b|
    ensures a == b
  {
    assert b == a + (b - a);
    assert |b| == |a| + |b - a|;
  }

  /** With nothing unknown, every pod the zone is meant to have is listed. */
  lemma AllExpectedListed(s: State, z: Zone, pods: seq<Pod>)
    requires ListsZone(s, z, pods) && |z.names| <= |pods|
    ensures Names(pods) == z.names
  {
    NamesCardinality(pods);
    SameSize(Names(pods), z.names);
  }

  lemma ExpectedPodListed(s: State, z: Zone, pods: seq<Pod>, x: string)
    requires ListsZone(s, z, pods) && x in z.names && |z.names| <= |pods|
    ensures x in s.pods && s.pods[x] in pods && s.pods[x].name == x
  {
    AllExpectedListed(s, z, pods);
    assert x in Names(pods);
    var k :| 0 <= k < |pods| && pods[k].name == x;
    assert pods[k] in pods;
  }

  lemma UndisruptedZoneReady(f: Fleet, s: State, v: View, l: Listing, x: string)
    requires ValidFleet(f) && l.sts.uid in f.zones && ShowsSet(f, l.sts.uid, l.sts) && x in f.zones[l.sts.uid].names
    requires l.pods.Some? && ListsZone(s, f.zones[l.sts.uid], l.pods.value)
    requires v.mode.PartitionAware? && v.budget == f.budget && InPartition(f, x, v.mode.partition)
    requires Contribution(v, l) == 0
    requires forall p | p in l.pods.value :: p.uid != v.evicted.uid
    ensures x in s.pods && CountsReady(v, s.pods[x])
    ensures s.pods[x].name == x
  {
    ExpectedPodListed(s, f.zones[l.sts.uid], l.pods.value, x);
    NotReadyZero(v, l.pods.value, s.pods[x]);
  }

  /** The pod is up, not pending eviction, and ready for longer than the delay. */
  predicate PastDelay(f: Fleet, s: State, x: string) {
    && Up(s, x) && !HasPending(s.entries, x, s.now)
    && ReadySince(s.pods[x].conditions).Some?
    && s.now > ReadySince(s.pods[x].conditions).value + f.budget.crossZoneEvictionDelay
  }

  /** With limit 1, every other zone adds nothing to the tally. */
  lemma JudgedAddsNothing(v: View, listing: seq<Listing>, limit: nat, l: Listing)
    requires v.mode.PartitionAware? && OwnerListed(listing, v.owner.uid) && limit <= 1
    requires Judge(v, listing, limit).BudgetMet? && l in listing && l.sts.uid != v.owner.uid
    ensures l.pods.Some? && Contribution(v, l) == 0
  {
    PartitionModeVerdict(v, listing, limit);
    SumZero(v, listing, l);
  }

  lemma UndisruptedZonePastDelay(f: Fleet, s: State, v: View, l: Listing, x: string)
    requires DelayFleet(f) && l.sts.uid in f.zones && ShowsSet(f, l.sts.uid, l.sts) && x in f.zones[l.sts.uid].names
    requires l.pods.Some? && ListsZone(s, f.zones[l.sts.uid], l.pods.value) && Contribution(v, l) == 0
    requires v.mode.PartitionAware? && InPartition(f, x, v.mode.partition)
    requires v.budget == f.budget && v.entries == s.entries && v.now == s.now
    requires forall p | p in l.pods.value :: p.uid != v.evicted.uid
    ensures PastDelay(f, s, x)
  {
    UndisruptedZoneReady(f, s, v, l, x);
  }

  lemma JudgedPastDelay(f: Fleet, s: State, v: View, listing: seq<Listing>, limit: nat, u: string, x: string)
    requires DelayFleet(f) && ValidState(f, s) && Judged(f, s, v, listing, limit) && limit <= 1
    requires PodPartition(f.budget, x) == PodPartition(f.budget, v.evicted.name)
    requires u in f.zones && u != v.owner.uid && x in f.zones[u].names
    ensures PastDelay(f, s, x)
  {
    ModeIsPartition(f, s, v);
    EvictedInItsZone(f, s, v, listing);
    assert OwnerListed(listing, u);
    var i :| 0 <= i < |listing| && listing[i].sts.uid == u;
    assert listing[i] in listing && ConsidersSts(v, listing[i].sts);
    JudgedAddsNothing(v, listing, limit, listing[i]);
    UndisruptedZonePastDelay(f, s, v, listing[i], x);
  }

  /** With limit 1, an allowed eviction finds every pod of the partition in every other zone past the delay. */
  lemma OthersPastDelay(f: Fleet, s: State, step: Step, s': State, u: string, x: string)
    requires DelayFleet(f) && ValidState(f, s) && Next(f, s, step, s')
    requires step.Evict? && VerdictOf(f, s, step).BudgetMet?
    requires u in f.zones && u != step.zone && x in f.zones[u].names
    requires PodPartition(f.budget, x) == PodPartition(f.budget, step.req.name)
    ensures PastDelay(f, s, x)
  {
    var v := MetRequest(f, s, step, s');
    PartitionLimitApplies(f, step, v.owner);
    JudgedPastDelay(f, s, v, step.api.related.value, LimitFor(f, step, v.owner), u, x);
  }

  // ----- what a step keeps -----

  /** If the pod is up, it became ready after `t`, up to the truncation to seconds. */
  predicate ReadyAfter(s: State, x: string, t: int) {
    Up(s, x) && ReadySince(s.pods[x].conditions).Some? ==> ReadySince(s.pods[x].conditions).value > t - SECOND
  }

  lemma ReadyAfterKept(f: Fleet, s: State, step: Step, s': State, x: string, t: int)
    requires Next(f, s, step, s') && HonestTransition(s, step)
    requires t <= s.now && ReadyAfter(s, x, t)
    ensures t <= s'.now && ReadyAfter(s', x, t)
  {
  }

  /** The cache still holds an eviction recorded at `t` or later. */
  predicate RecordedAt(s: State, x: string, t: int) {
    x in s.entries && s.entries[x].expires >= t + CACHE_EXPIRY
  }

  lemma EntryKept(entries: Entries, verdict: Verdict, now: int, api: Api, x: string, t: int)
    requires x in entries && entries[x].expires >= t + CACHE_EXPIRY && t <= now
    ensures var entries' := EntriesAfter(entries, verdict, now, api);
            x in entries' && entries'[x].expires >= t + CACHE_EXPIRY
  {
  }

  lemma RecordKept(f: Fleet, s: State, step: Step, s': State, x: string, t: int)
    requires Next(f, s, step, s') && HonestTransition(s, step)
    requires t <= s.now && (RecordedAt(s, x, t) || ReadyAfter(s, x, t))
    ensures t <= s'.now && (RecordedAt(s', x, t) || ReadyAfter(s', x, t))
  {
    if ReadyAfter(s, x, t) {
      ReadyAfterKept(f, s, step, s', x, t);
    } else {
      match step
      case Evict(_, _, _, api) =>
        EntryKept(s.entries, VerdictOf(f, s, step), s.now, api, x, t);
      case ChangePod(_, _) =>
      case Observe(event) =>
        assert event.name == x && event.phase != Running ==> !Up(s', x);
      case Tick(_) =>
    }
  }

  /** From the moment an eviction is recorded, the record stands or the pod has been down since. */
  lemma {:induction false} RecordOrDown(
    f: Fleet, states: seq<State>, steps: seq<Step>, i: nat, j: nat, x: string, t: int)
    requires IsHonestRun(f, states, steps) && i <= j <= |steps|
    requires t <= states[i].now && RecordedAt(states[i], x, t)
    ensures RecordedAt(states[j], x, t) || ReadyAfter(states[j], x, t)
  {
    var k := i;
    while k < j
      invariant i <= k <= j && t <= states[k].now
      invariant RecordedAt(states[k], x, t) || ReadyAfter(states[k], x, t)
    {
      assert Next(f, states[k], steps[k], states[k + 1]) && HonestTransition(states[k], steps[k]);
      RecordKept(f, states[k], steps[k], states[k + 1], x, t);
      k := k + 1;
    }
  }

  lemma {:induction false} ReadyAfterThroughout(
    f: Fleet, states: seq<State>, steps: seq<Step>, i: nat, j: nat, x: string)
    requires IsHonestRun(f, states, steps) && i <= j <= |steps| && !Up(states[i], x)
    ensures ReadyAfter(states[j], x, states[i].now)
  {
    var t, k := states[i].now, i;
    while k < j
      invariant i <= k <= j && t <= states[k].now && ReadyAfter(states[k], x, t)
    {
      assert Next(f, states[k], steps[k], states[k + 1]) && HonestTransition(states[k], steps[k]);
      ReadyAfterKept(f, states[k], steps[k], states[k + 1], x, t);
      k := k + 1;
    }
  }

  lemma {:induction false} StatesValid(f: Fleet, states: seq<State>, steps: seq<Step>, k: nat)
    requires IsRun(f, states, steps) && k <= |steps|
    ensures ValidState(f, states[k])
  {
    if k > 0 {
      StatesValid(f, states, steps, k - 1);
      assert Next(f, states[k - 1], steps[k - 1], states[k]);
      ValidityKept(f, states[k - 1], steps[k - 1], states[k]);
    }
  }

  // ----- the run theorems -----

  /** Once a pod of the partition has been down in one zone, no eviction of that partition in another
      zone is allowed until more than the delay after the replacement's Ready transition. */
  lemma {:induction false} NoEvictionUntilDelayAfterReady(
    f: Fleet, states: seq<State>, steps: seq<Step>, i: nat, j: nat, u: string, x: string, zone: string, p: string)
    requires DelayFleet(f) && IsHonestRun(f, states, steps)
    requires i <= j && AllowsAt(f, states, steps, j, zone, p)
    requires u in f.zones && u != zone && x in f.zones[u].names && InPartition(f, x, p)
    requires !Up(states[i], x)
    ensures Up(states[j], x) && ReadySince(states[j].pods[x].conditions).Some?
    ensures var since := ReadySince(states[j].pods[x].conditions).value;
            since > states[i].now - SECOND && states[j].now > since + f.budget.crossZoneEvictionDelay
  {
    ReadyAfterThroughout(f, states, steps, i, j, x);
    StatesValid(f, states, steps, j);
    assert Next(f, states[j], steps[j], states[j + 1]);
    OthersPastDelay(f, states[j], steps[j], states[j + 1], u, x);
  }

  /** Two allowed evictions of one partition in different zones are more than the delay apart (less the
      truncation to seconds), unless the first was not acted on before its record expired. */
  lemma {:induction false} EvictionsSeparated(
    f: Fleet, states: seq<State>, steps: seq<Step>, i: nat, j: nat, u: string, zone: string, p: string)
    requires DelayFleet(f) && IsHonestRun(f, states, steps)
    requires i < j && u != zone && u in f.zones
    requires AllowsAt(f, states, steps, i, u, p) && AllowsAt(f, states, steps, j, zone, p)
    ensures states[j].now > states[i].now + f.budget.crossZoneEvictionDelay - SECOND
            || states[j].now >= states[i].now + CACHE_EXPIRY
  {
    var t, x := states[i].now, steps[i].req.name;
    StatesValid(f, states, steps, i);
    assert Next(f, states[i], steps[i], states[i + 1]);
    var v := MetRequest(f, states[i], steps[i], states[i + 1]);
    RecordOrDown(f, states, steps, i + 1, j, x, t);
    StatesValid(f, states, steps, j);
    assert Next(f, states[j], steps[j], states[j + 1]);
    OthersPastDelay(f, states[j], steps[j], states[j + 1], u, x);
  }
}
