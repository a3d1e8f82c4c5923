/** Partition mode: an allowed eviction leaves the partition with enough zones, in one request and over every run. */
module PartitionRuns {
  import opened Kube
  import opened Budgets
  import opened Eviction
  import opened EvictionRuns
  import opened ZoneRuns

  // ----- one request -----

  /** The zone shows a pod of the partition that is ready, not pending eviction, and past the cross-zone delay. */
  predicate ShowsReadyPod(v: View, l: Listing)
    requires l.pods.Some?
  {
    exists p | p in l.pods.value :: ConsidersPod(v, p) && CountsReady(v, p)
  }

  ghost function ZonesWithReadyPod(v: View, listing: seq<Listing>): set<string>
    requires OthersListed(v, listing)
  {
    set l | l in listing && ConsidersSts(v, l.sts) && ShowsReadyPod(v, l) :: l.sts.uid
  }

  ghost function ZonesWithoutReadyPod(v: View, listing: seq<Listing>): set<string>
    requires OthersListed(v, listing)
  {
    set l | l in listing && ConsidersSts(v, l.sts) && !ShowsReadyPod(v, l) :: l.sts.uid
  }

  lemma {:induction false} NoneReadyAllCounted(v: View, pods: seq<Pod>)
    requires forall p | p in pods && ConsidersPod(v, p) :: !CountsReady(v, p) && v.evicted.uid != p.uid
    ensures NotReadyCount(v, pods) == TestedCount(v, pods)
  {
    if pods != [] {
      var front, last := pods[..|pods| - 1], pods[|pods| - 1];
      assert last in pods;
      NoneReadyAllCounted(v, front);
    }
  }

  /** The evicted pod lives in its owner's zone and in no other. */
  predicate EvictedOnlyInOwnerZone(v: View, listing: seq<Listing>) {
    forall l, p | l in listing && ConsidersSts(v, l.sts) && l.pods.Some? && p in l.pods.value :: p.uid != v.evicted.uid
  }

  /** Even a zone that lists nothing adds at least one to the tally. */
  lemma UnreadyZoneCounts(v: View, l: Listing)
    requires l.pods.Some? && !ShowsReadyPod(v, l)
    requires forall p | p in l.pods.value :: p.uid != v.evicted.uid
    ensures Contribution(v, l) >= 1
  {
    NoneReadyAllCounted(v, l.pods.value);
  }

  lemma {:induction false} UnreadyZonesBoundTheSum(v: View, listing: seq<Listing>)
    requires OthersListed(v, listing) && EvictedOnlyInOwnerZone(v, listing)
    ensures |ZonesWithoutReadyPod(v, listing)| <= ContributionSum(v, listing)
  {
    var bad := ZonesWithoutReadyPod(v, listing);
    if listing == [] {
      assert bad == {};
    } else {
      var head, tail := listing[0], listing[1..];
      assert head in listing;
      assert forall l :: l in listing <==> l == head || l in tail;
      UnreadyZonesBoundTheSum(v, tail);
      var rest := ZonesWithoutReadyPod(v, tail);
      if ConsidersSts(v, head.sts) && !ShowsReadyPod(v, head) {
        UnreadyZoneCounts(v, head);
        assert bad == rest + {head.sts.uid};
      } else {
        assert bad == rest;
      }
    }
  }

  ghost function OtherUids(v: View, listing: seq<Listing>): set<string> {
    set l | l in listing && ConsidersSts(v, l.sts) :: l.sts.uid
  }

  lemma {:induction false} OtherUidsCardinality(v: View, listing: seq<Listing>)
    requires v.mode.PartitionAware? && DistinctUids(listing)
    ensures |OtherUids(v, listing)| == |listing| - if OwnerListed(listing, v.owner.uid) then 1 else 0
  {
    var uids := OtherUids(v, listing);
    if listing == [] {
      assert uids == {};
    } else {
      var head, tail := listing[0], listing[1..];
      assert forall l :: l in listing <==> l == head || l in tail;
      forall i | 0 <= i < |tail| ensures tail[i] == listing[i + 1] {}
      OtherUidsCardinality(v, tail);
      if head.sts.uid == v.owner.uid {
        assert uids == OtherUids(v, tail);
      } else {
        assert head.sts.uid !in OtherUids(v, tail);
        assert uids == OtherUids(v, tail) + {head.sts.uid};
        if OwnerListed(listing, v.owner.uid) {
          var i :| 0 <= i < |listing| && listing[i].sts.uid == v.owner.uid;
          assert tail[i - 1].sts.uid == v.owner.uid;
        }
      }
    }
  }

  /** Every eviction allowed in partition mode with Z zones leaves at least Z - maxUnavailable other zones
      with a ready pod of the partition. */
  lemma PartitionAvailability(v: View, listing: seq<Listing>, limit: nat)
    requires v.mode.PartitionAware?
    requires DistinctUids(listing) && OwnerListed(listing, v.owner.uid) && EvictedOnlyInOwnerZone(v, listing)
    requires Judge(v, listing, limit).BudgetMet?
    ensures OthersListed(v, listing)
    ensures |ZonesWithReadyPod(v, listing)| >= |listing| - limit
  {
    PartitionModeVerdict(v, listing, limit);
    UnreadyZonesBoundTheSum(v, listing);
    OtherUidsCardinality(v, listing);
    var good, bad := ZonesWithReadyPod(v, listing), ZonesWithoutReadyPod(v, listing);
    assert OtherUids(v, listing) == good + bad;
    assert |good + bad| == |good| + |bad| - |good * bad|;
  }

  // ----- over runs -----

  predicate InPartition(f: Fleet, n: string, p: string) {
    PodPartition(f.budget, n) == Some(p)
  }

  predicate Serves(f: Fleet, s: State, u: string, p: string)
    requires u in f.zones
  {
    exists n | n in f.zones[u].names :: InPartition(f, n, p) && Available(s, n)
  }

  ghost function UnservedZones(f: Fleet, s: State, p: string): set<string> {
    set u | u in f.zones && !Serves(f, s, u, p)
  }

  /** The rollout controller overrides a partition-aware budget with 1. */
  ghost predicate PartitionFleet(f: Fleet) {
    && ValidFleet(f) && f.budget.captures.Some?
    && forall u | u in f.overrides :: f.overrides[u] == 1
  }

  function PartitionLimit(f: Fleet): nat {
    if f.budget.maxUnavailable > 0 then f.budget.maxUnavailable else 1
  }

  /** Every zone is meant to host the partition. */
  ghost predicate HostedEverywhere(f: Fleet, p: string) {
    forall u | u in f.zones :: exists n | n in f.zones[u].names :: InPartition(f, n, p)
  }

  ghost predicate PartitionSafe(f: Fleet, s: State, p: string) {
    |UnservedZones(f, s, p)| <= PartitionLimit(f)
  }

  /** A zone that the listing shows as ready does serve the partition. */
  lemma ReadyMeansServed(f: Fleet, s: State, v: View, l: Listing)
    requires ValidFleet(f) && l.sts.uid in f.zones && l.pods.Some?
    requires v.budget == f.budget && v.entries == s.entries && v.now == s.now
    requires v.mode.PartitionAware? && v.mode.partition != ""
    requires ListsZone(s, f.zones[l.sts.uid], l.pods.value) && ShowsReadyPod(v, l)
    ensures Serves(f, s, l.sts.uid, v.mode.partition)
  {
    var p :| p in l.pods.value && ConsidersPod(v, p) && CountsReady(v, p);
    var i :| 0 <= i < |l.pods.value| && l.pods.value[i] == p;
    assert p.name in Names(l.pods.value);
    assert InPartition(f, p.name, v.mode.partition) && Available(s, p.name);
  }

  /** A partition-aware budget judges by partition. */
  lemma ModeIsPartition(f: Fleet, s: State, v: View)
    requires f.budget.captures.Some? && Views(f, s, v)
    ensures v.mode.PartitionAware? && v.mode.partition != ""
    ensures PodPartition(f.budget, v.evicted.name) == Some(v.mode.partition)
  {
  }

  lemma EvictedInItsZone(f: Fleet, s: State, v: View, listing: seq<Listing>)
    requires ValidFleet(f) && ValidState(f, s) && ListsFleet(f, s, listing) && v.mode.PartitionAware? && Views(f, s, v)
    ensures EvictedOnlyInOwnerZone(v, listing)
  {
    forall l, p | l in listing && ConsidersSts(v, l.sts) && l.pods.Some? && p in l.pods.value
      ensures p.uid != v.evicted.uid
    {
      var pods := l.pods.value;
      var i :| 0 <= i < |pods| && pods[i] == p;
      assert p.name in Names(pods);
      assert p.name in f.zones[l.sts.uid].names;
      assert p.name != v.evicted.name;
    }
  }

  lemma UnservedIsUnready(f: Fleet, s: State, v: View, listing: seq<Listing>, u: string)
    requires ValidFleet(f) && ListsFleet(f, s, listing) && OthersListed(v, listing)
    requires v.budget == f.budget && v.entries == s.entries && v.now == s.now
    requires v.mode.PartitionAware? && v.mode.partition != ""
    requires u in UnservedZones(f, s, v.mode.partition) && u != v.owner.uid
    ensures u in ZonesWithoutReadyPod(v, listing)
  {
    assert OwnerListed(listing, u);
    var i :| 0 <= i < |listing| && listing[i].sts.uid == u;
    assert listing[i] in listing;
    if ShowsReadyPod(v, listing[i]) {
      ReadyMeansServed(f, s, v, listing[i]);
    }
  }

  /** What partition mode checked, as a statement about the state. */
  lemma JudgedLeavesRoom(f: Fleet, s: State, v: View, listing: seq<Listing>, limit: nat)
    requires ValidFleet(f) && f.budget.captures.Some? && ValidState(f, s) && Judged(f, s, v, listing, limit)
    ensures |UnservedZones(f, s, PodPartition(f.budget, v.evicted.name).value) - {v.owner.uid}| < limit
  {
    ModeIsPartition(f, s, v);
    EvictedInItsZone(f, s, v, listing);
    PartitionModeVerdict(v, listing, limit);
    UnreadyZonesBoundTheSum(v, listing);
    var bad, unserved := ZonesWithoutReadyPod(v, listing), UnservedZones(f, s, v.mode.partition) - {v.owner.uid};
    forall u | u in unserved ensures u in bad {
      UnservedIsUnready(f, s, v, listing, u);
    }
    SubsetCardinality(unserved, bad);
  }

  lemma PartitionLimitApplies(f: Fleet, step: Step, owner: StatefulSet)
    requires PartitionFleet(f) && step.Evict? && step.zone in f.zones
    ensures LimitFor(f, step, owner) <= PartitionLimit(f)
  {
  }

  /** A zone stops serving a partition only when an eviction of one of its pods of that partition is allowed. */
  lemma ServiceKept(f: Fleet, s: State, step: Step, s': State, u: string, p: string)
    requires ValidFleet(f) && ValidState(f, s) && Next(f, s, step, s')
    requires u in f.zones && Serves(f, s, u, p)
    ensures Serves(f, s', u, p)
            || (step.Evict? && VerdictOf(f, s, step).BudgetMet? && step.zone == u && InPartition(f, step.req.name, p))
  {
    var n :| n in f.zones[u].names && InPartition(f, n, p) && Available(s, n);
    AvailabilityKept(f, s, step, s', n);
    if step.Evict? && step.req.name == n && step.zone != u {
      assert n in f.zones[step.zone].names;
    }
  }

  lemma ServiceLostInZone(f: Fleet, s: State, step: Step, s': State, p: string)
    requires ValidFleet(f) && ValidState(f, s) && Next(f, s, step, s')
    ensures var before, after := UnservedZones(f, s, p), UnservedZones(f, s', p);
            if step.Evict? && VerdictOf(f, s, step).BudgetMet? && InPartition(f, step.req.name, p)
            then after <= before + {step.zone}
            else after <= before
  {
    forall u | u in UnservedZones(f, s', p) && u !in UnservedZones(f, s, p)
      ensures step.Evict? && VerdictOf(f, s, step).BudgetMet? && step.zone == u && InPartition(f, step.req.name, p)
    {
      ServiceKept(f, s, step, s', u, p);
    }
  }

  lemma MetLeavesRoom(f: Fleet, s: State, step: Step, s': State)
    requires PartitionFleet(f) && ValidState(f, s) && Next(f, s, step, s')
    requires step.Evict? && VerdictOf(f, s, step).BudgetMet?
    ensures PodPartition(f.budget, step.req.name).Some?
    ensures |UnservedZones(f, s, PodPartition(f.budget, step.req.name).value) - {step.zone}| < PartitionLimit(f)
  {
    var v := MetRequest(f, s, step, s');
    PartitionLimitApplies(f, step, v.owner);
    JudgedLeavesRoom(f, s, v, step.api.related.value, LimitFor(f, step, v.owner));
  }

  lemma RoomForOne(before: set<string>, after: set<string>, zone: string, limit: nat)
    requires after <= before + {zone} && |before - {zone}| < limit
    ensures |after| <= limit
  {
    SubsetCardinality(after, before - {zone} + {zone});
  }

  lemma StepKeepsPartitionSafe(f: Fleet, s: State, step: Step, s': State, p: string)
    requires PartitionFleet(f) && ValidState(f, s) && Next(f, s, step, s')
    requires PartitionSafe(f, s, p)
    ensures PartitionSafe(f, s', p)
  {
    var before, after := UnservedZones(f, s, p), UnservedZones(f, s', p);
    ServiceLostInZone(f, s, step, s', p);
    if step.Evict? && VerdictOf(f, s, step).BudgetMet? && InPartition(f, step.req.name, p) {
      MetLeavesRoom(f, s, step, s');
      RoomForOne(before, after, step.zone, PartitionLimit(f));
    } else {
      SubsetCardinality(after, before);
    }
  }

  /** Over every run from a healthy start, each partition that all zones host is unserved in at most
      maxUnavailable zones. */
  lemma {:induction false} PartitionRunSafe(f: Fleet, states: seq<State>, steps: seq<Step>, p: string)
    requires PartitionFleet(f) && HostedEverywhere(f, p) && IsRun(f, states, steps)
    ensures forall s | s in states :: ValidState(f, s) && PartitionSafe(f, s, p)
  {
    assert UnservedZones(f, states[0], p) == {} by {
      forall u | u in f.zones ensures Serves(f, states[0], u, p) {
        var n :| n in f.zones[u].names && InPartition(f, n, p);
        assert Available(states[0], n);
      }
    }
    var k := 0;
    while k < |steps|
      invariant 0 <= k <= |steps|
      invariant forall j | 0 <= j <= k :: ValidState(f, states[j]) && PartitionSafe(f, states[j], p)
    {
      assert Next(f, states[k], steps[k], states[k + 1]);
      ValidityKept(f, states[k], steps[k], states[k + 1]);
      StepKeepsPartitionSafe(f, states[k], steps[k], states[k + 1], p);
      k := k + 1;
    }
  }
}
