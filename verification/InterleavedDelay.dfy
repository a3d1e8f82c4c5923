/** The cross-zone eviction delay without atomic requests. */
module InterleavedDelay {
  import opened Kube
  import opened EvictionCache
  import opened Budgets
  import opened Eviction
  import opened EvictionRuns
  import opened PartitionRuns
  import opened CrossZoneDelay
  import opened InterleavedRequests
  import opened InterleavedPartitionRuns

  ghost predicate IsHonest(f: Fleet, states: seq<State>, events: seq<Event>) {
    && IsInterleavedRun(f, states, events)
    && forall k | 0 <= k < |events| && events[k].Quiet? :: HonestTransition(states[k], events[k].step)
  }

  /** Event `k` allowed an eviction in `zone` of a pod of partition `p`. */
  ghost predicate Allows(f: Fleet, states: seq<State>, events: seq<Event>, k: nat, zone: string, p: string)
    requires |states| == |events| + 1
  {
    && k < |events| && events[k].Finish? && events[k].zone == zone && MetAt(f, states, events, k)
    && InPartition(f, events[k].evicted.name, p)
  }

  /** A listed pod is judged ready though it is not past the delay if and only if it was ready as listed,
      slipped before it was judged, and its replacement is not past the delay. */
  lemma HastyIffSlipped(f: Fleet, states: seq<State>, events: seq<Event>, v: View, p: Pod, a: nat, b: nat)
    requires DelayFleet(f) && v.mode.PartitionAware? && v.budget == f.budget
    requires IsInterleavedRun(f, states, events) && a <= b && QuietBetween(events, a, b)
    requires p.name in states[a].pods && states[a].pods[p.name] == p
    ensures CountsReady(Seen(v, states[b]), p) && !PastDelay(f, states[b], p.name) <==>
            ReadyAsListed(v, states[b], p) && Slips(states, events, p.name, a, b) && !PastDelay(f, states[b], p.name)
  {
    if RunningAndReady(p) {
      SinceListed(f, states, events, p.name, a, b);
    }
  }

  /** No pod of the partition in another zone slipped before it was judged, unless its replacement is past the
      delay as well. */
  ghost predicate NoneReplaced(f: Fleet, states: seq<State>, events: seq<Event>, k: nat)
    requires k < |events| && |states| == |events| + 1 && MetAt(f, states, events, k)
  {
    var e := events[k];
    var v := ViewOf(f, states[k], e);
    forall r, j: nat | r in e.visits && r.l.sts.uid != e.zone && SlippedAt(states, events, r, j) ::
      var p, s := r.l.pods.value[j], states[r.lookups[j]];
      ConsidersPod(v, p) && ReadyAsListed(v, s, p) ==> PastDelay(f, s, p.name)
  }

  // ----- what limit 1 demands of the other zones -----

  lemma {:induction false} NoneCounted(
    v: View, states: seq<State>, pods: seq<Pod>, lookups: seq<nat>, j: nat)
    requires LooksUp(states, pods, lookups) && NotReadyAt(v, states, pods, lookups) == 0 && j < |pods|
    ensures !CountsNotReady(Seen(v, states[lookups[j]]), pods[j])
  {
    var k := |pods| - 1;
    if j < k {
      NoneCounted(v, states, pods[..k], lookups[..k], j);
    }
  }

  lemma {:induction false} NothingAdded(v: View, states: seq<State>, acc: ZoneStatus, visits: seq<Visit>)
    requires v.mode.PartitionAware? && Within(states, visits)
    requires var s := ScanVisits(v, states, Some(acc), visits);
             s.Done? && s.result.Some? && Disruption(s.result.value) == 0
    ensures Disruption(acc) == 0
    ensures forall r | r in visits && ConsidersSts(v, r.l.sts) ::
              r.l.pods.Some? && Disruption(TallyAt(v, states, r)) == 0
    decreases |visits|
  {
    if visits != [] {
      var head, tail := visits[0], visits[1..];
      assert head in visits && forall r :: r in visits <==> r == head || r in tail;
      if ConsidersSts(v, head.l.sts) {
        var next := Accumulate(v, Some(acc), head.l.sts, TallyAt(v, states, head)).result.value;
        NothingAdded(v, states, next, tail);
      } else {
        NothingAdded(v, states, acc, tail);
      }
    }
  }

  lemma JudgedUpAt(f: Fleet, states: seq<State>, events: seq<Event>, k: nat, r: Visit, x: string) returns (j: nat)
    requires DelayFleet(f) && IsInterleavedRun(f, states, events)
    requires k < |events| && events[k].Finish? && MetAt(f, states, events, k)
    requires r in events[k].visits && r.l.sts.uid != events[k].zone && r.l.sts.uid in f.zones
    requires x in f.zones[r.l.sts.uid].names
    requires PodPartition(f.budget, x) == PodPartition(f.budget, events[k].evicted.name)
    requires r.l.pods.Some? && Complete(states, r)
    requires Disruption(TallyAt(ViewOf(f, states[k], events[k]), states, r)) == 0
    ensures j < |r.lookups| && r.l.pods.value[j].name == x
    ensures JudgedReady(ViewOf(f, states[k], events[k]), states, r, j)
  {
    var v, pods := ViewOf(f, states[k], events[k]), r.l.pods.value;
    assert VisitsZone(f, states, events[k].start, k, r);
    EvictedStaysInItsZone(f, states, events, k, v);
    ExpectedPodListed(states[r.listed], f.zones[r.l.sts.uid], pods, x);
    j :| 0 <= j < |pods| && pods[j] == states[r.listed].pods[x];
    NoneCounted(v, states, pods, r.lookups, j);
    assert pods[j] in pods;
  }

  /** A pod that was judged ready is past the delay when the request decides. */
  lemma JudgedStays(f: Fleet, states: seq<State>, events: seq<Event>, k: nat, r: Visit, j: nat, v: View)
    requires DelayFleet(f) && IsInterleavedRun(f, states, events)
    requires k < |events| && events[k].Finish? && MetAt(f, states, events, k)
    requires r in events[k].visits && r.l.pods.Some? && j < |r.l.pods.value| && j < |r.lookups| && r.lookups[j] <= k
    requires v.mode.PartitionAware? && v.budget == f.budget
    requires SlippedAt(states, events, r, j) ==> PastDelay(f, states[r.lookups[j]], r.l.pods.value[j].name)
    requires CountsReady(Seen(v, states[r.lookups[j]]), r.l.pods.value[j])
    ensures PastDelay(f, states[k], r.l.pods.value[j].name)
  {
    var p, b := r.l.pods.value[j], r.lookups[j];
    assert VisitsZone(f, states, events[k].start, k, r);
    assert p in r.l.pods.value;
    SinceListed(f, states, events, p.name, r.listed, b);
    AvailableUntil(f, states, events, b, k, p.name);
    TimePasses(f, states, events, b, k);
  }

  lemma {:induction false} TimePasses(f: Fleet, states: seq<State>, events: seq<Event>, m: nat, k: nat)
    requires IsInterleavedRun(f, states, events) && m <= k <= |events|
    ensures states[m].now <= states[k].now
  {
    if m < k {
      TimePasses(f, states, events, m, k - 1);
      assert NextAt(f, states, events, k - 1);
    }
  }

  lemma LimitIsOne(f: Fleet, states: seq<State>, events: seq<Event>, k: nat)
    requires DelayFleet(f) && k < |events| && |states| == |events| + 1
    requires events[k].Finish? && MetAt(f, states, events, k)
    ensures var v := ViewOf(f, states[k], events[k]);
            && v.mode.PartitionAware? && v.budget == f.budget
            && forall r | r in events[k].visits && r.l.sts.uid != events[k].zone ::
                 r.l.pods.Some? && Complete(states, r) && Disruption(TallyAt(v, states, r)) == 0
  {
    PartitionLimitHolds(f, events[k]);
    var v := ViewOf(f, states[k], events[k]);
    NothingAdded(v, states, ZoneStatus(0, 0, 0), events[k].visits);
  }

  lemma SlippedButPast(f: Fleet, states: seq<State>, events: seq<Event>, k: nat, r: Visit, j: nat)
    requires |states| == |events| + 1 && k < |events| && events[k].Finish? && MetAt(f, states, events, k)
    requires NoneReplaced(f, states, events, k)
    requires r in events[k].visits && r.l.sts.uid != events[k].zone
    requires r.l.pods.Some? && Complete(states, r) && j < |r.lookups|
    requires var v := ViewOf(f, states[k], events[k]); JudgedReady(v, states, r, j)
    ensures r.lookups[j] <= k
    ensures SlippedAt(states, events, r, j) ==> PastDelay(f, states[r.lookups[j]], r.l.pods.value[j].name)
  {
    assert VisitsZone(f, states, events[k].start, k, r);
  }

  /** With limit 1, an allowed eviction finds every pod of the partition in every other zone past the delay at the
      moment it is allowed. */
  lemma OthersArePastDelay(f: Fleet, states: seq<State>, events: seq<Event>, k: nat, u: string, x: string)
    requires DelayFleet(f) && IsInterleavedRun(f, states, events)
    requires k < |events| && events[k].Finish? && MetAt(f, states, events, k) && NoneReplaced(f, states, events, k)
    requires u in f.zones && u != events[k].zone && x in f.zones[u].names
    requires PodPartition(f.budget, x) == PodPartition(f.budget, events[k].evicted.name)
    ensures PastDelay(f, states[k], x)
  {
    var e := events[k];
    LimitIsOne(f, states, events, k);
    assert Visited(e.visits, u);
    var i :| 0 <= i < |e.visits| && e.visits[i].l.sts.uid == u;
    var r := e.visits[i];
    assert r in e.visits;
    var j := JudgedUpAt(f, states, events, k, r, x);
    SlippedButPast(f, states, events, k, r, j);
    JudgedStays(f, states, events, k, r, j, ViewOf(f, states[k], e));
  }

  // ----- what every event keeps -----

  lemma EventKeeps(f: Fleet, states: seq<State>, events: seq<Event>, k: nat, x: string, t: int)
    requires IsHonest(f, states, events) && k < |events| && t <= states[k].now
    ensures t <= states[k + 1].now
    ensures ReadyAfter(states[k], x, t) ==> ReadyAfter(states[k + 1], x, t)
    ensures RecordedAt(states[k], x, t) || ReadyAfter(states[k], x, t) ==>
              RecordedAt(states[k + 1], x, t) || ReadyAfter(states[k + 1], x, t)
  {
    assert NextAt(f, states, events, k);
    if events[k].Quiet? {
      var s, step, s' := states[k], events[k].step, states[k + 1];
      if ReadyAfter(s, x, t) {
        ReadyAfterKept(f, s, step, s', x, t);
      } else if RecordedAt(s, x, t) {
        RecordKept(f, s, step, s', x, t);
      } else {
        TimePasses(f, states, events, k, k + 1);
      }
    }
  }

  lemma {:induction false} RecordOrReadySince(
    f: Fleet, states: seq<State>, events: seq<Event>, i: nat, j: nat, x: string, t: int)
    requires IsHonest(f, states, events) && i <= j <= |events| && t <= states[i].now
    ensures t <= states[j].now
    ensures ReadyAfter(states[i], x, t) ==> ReadyAfter(states[j], x, t)
    ensures RecordedAt(states[i], x, t) ==> RecordedAt(states[j], x, t) || ReadyAfter(states[j], x, t)
  {
    if i < j {
      RecordOrReadySince(f, states, events, i, j - 1, x, t);
      EventKeeps(f, states, events, j - 1, x, t);
    }
  }

  // ----- the run theorems -----

  /** Once a pod of the partition has been down in one zone, no eviction of that partition in another zone is
      allowed until more than the delay after the replacement's Ready transition. */
  lemma {:induction false} InterleavedNoEvictionUntilDelayAfterReady(
    f: Fleet, states: seq<State>, events: seq<Event>, i: nat, j: nat, u: string, x: string, zone: string, p: string)
    requires DelayFleet(f) && IsHonest(f, states, events)
    requires i <= j && Allows(f, states, events, j, zone, p) && NoneReplaced(f, states, events, j)
    requires u in f.zones && u != zone && x in f.zones[u].names && InPartition(f, x, p)
    requires !Up(states[i], x)
    ensures Up(states[j], x) && ReadySince(states[j].pods[x].conditions).Some?
    ensures var since := ReadySince(states[j].pods[x].conditions).value;
            since > states[i].now - SECOND && states[j].now > since + f.budget.crossZoneEvictionDelay
  {
    RecordOrReadySince(f, states, events, i, j, x, states[i].now);
    OthersArePastDelay(f, states, events, j, u, x);
  }

  lemma MetIsRecorded(f: Fleet, states: seq<State>, events: seq<Event>, k: nat)
    requires IsInterleavedRun(f, states, events) && k < |events| && events[k].Finish? && MetAt(f, states, events, k)
    ensures states[k + 1].now == states[k].now && RecordedAt(states[k + 1], events[k].evicted.name, states[k].now)
    ensures events[k].zone in f.zones && events[k].evicted.name in f.zones[events[k].zone].names
  {
    assert NextAt(f, states, events, k);
  }

  /** Two allowed evictions of one partition in different zones are more than the delay apart (less the
      truncation to seconds), unless the first was not acted on before its record expired. */
  lemma {:induction false} InterleavedEvictionsSeparated(
    f: Fleet, states: seq<State>, events: seq<Event>, i: nat, j: nat, u: string, zone: string, p: string)
    requires DelayFleet(f) && IsHonest(f, states, events)
    requires i < j && u != zone && u in f.zones
    requires Allows(f, states, events, i, u, p) && Allows(f, states, events, j, zone, p)
    requires NoneReplaced(f, states, events, j)
    ensures states[j].now > states[i].now + f.budget.crossZoneEvictionDelay - SECOND
            || states[j].now >= states[i].now + CACHE_EXPIRY
  {
    var t, x := states[i].now, events[i].evicted.name;
    MetIsRecorded(f, states, events, i);
    RecordOrReadySince(f, states, events, i + 1, j, x, t);
    OthersArePastDelay(f, states, events, j, u, x);
  }
}
