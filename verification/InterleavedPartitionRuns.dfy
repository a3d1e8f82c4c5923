/** Partition mode without atomic requests. */
module InterleavedPartitionRuns {
  import opened Kube
  import opened EvictionCache
  import opened Budgets
  import opened Eviction
  import opened EvictionRuns
  import opened PartitionRuns
  import opened InterleavedRequests

  /** The pod at `j` counted as a ready pod of the partition when it was judged. */
  predicate JudgedReady(v: View, states: seq<State>, r: Visit, j: nat)
    requires r.l.pods.Some? && Complete(states, r) && j < |r.lookups|
  {
    ConsidersPod(v, r.l.pods.value[j]) && CountsReady(Seen(v, states[r.lookups[j]]), r.l.pods.value[j])
  }

  predicate ShowedReady(v: View, states: seq<State>, r: Visit)
    requires r.l.pods.Some? && Complete(states, r)
  {
    exists j: nat | j < |r.lookups| :: JudgedReady(v, states, r, j)
  }

  /** Zones, the owner's aside, whose visit showed no ready pod of the partition. */
  ghost function UnreadyVisits(v: View, states: seq<State>, visits: seq<Visit>): set<string>
    requires Within(states, visits)
  {
    set r | r in visits && ConsidersSts(v, r.l.sts) && (r.l.pods.None? || !ShowedReady(v, states, r)) :: r.l.sts.uid
  }

  /** No other zone ever shows the evicted pod. */
  predicate EvictedElsewhere(v: View, visits: seq<Visit>) {
    forall r, p | r in visits && ConsidersSts(v, r.l.sts) && r.l.pods.Some? && p in r.l.pods.value ::
      p.uid != v.evicted.uid
  }

  lemma {:induction false} UnreadyPodsAllCounted(v: View, states: seq<State>, pods: seq<Pod>, lookups: seq<nat>)
    requires LooksUp(states, pods, lookups)
    requires forall j | 0 <= j < |pods| && ConsidersPod(v, pods[j]) ::
               !CountsReady(Seen(v, states[lookups[j]]), pods[j]) && pods[j].uid != v.evicted.uid
    ensures NotReadyAt(v, states, pods, lookups) == TestedCount(v, pods)
  {
    if pods != [] {
      var k := |pods| - 1;
      UnreadyPodsAllCounted(v, states, pods[..k], lookups[..k]);
    }
  }

  /** Even a zone that lists nothing adds at least one. */
  lemma UnreadyVisitCounts(v: View, states: seq<State>, r: Visit)
    requires r.l.pods.Some? && Complete(states, r) && !ShowedReady(v, states, r)
    requires forall p | p in r.l.pods.value :: p.uid != v.evicted.uid
    ensures Disruption(TallyAt(v, states, r)) >= 1 || TallyAt(v, states, r) == ZoneStatus(0, 0, 0)
  {
    var pods := r.l.pods.value;
    forall j | 0 <= j < |pods| && ConsidersPod(v, pods[j])
      ensures !CountsReady(Seen(v, states[r.lookups[j]]), pods[j]) && pods[j].uid != v.evicted.uid
    {
      assert !JudgedReady(v, states, r, j);
      assert pods[j] in pods;
    }
    UnreadyPodsAllCounted(v, states, pods, r.lookups);
  }

  /** Each such zone adds at least one to the tally, whenever it was visited. */
  lemma {:induction false} UnreadyVisitsBound(v: View, states: seq<State>, acc: ZoneStatus, visits: seq<Visit>)
    requires v.mode.PartitionAware? && Within(states, visits) && EvictedElsewhere(v, visits)
    requires ScanVisits(v, states, Some(acc), visits).Done?
    ensures var s := ScanVisits(v, states, Some(acc), visits);
            s.result.Some? && Disruption(acc) + |UnreadyVisits(v, states, visits)| <= Disruption(s.result.value)
    decreases |visits|
  {
    var bad := UnreadyVisits(v, states, visits);
    if visits == [] {
      assert bad == {};
    } else {
      var head, tail := visits[0], visits[1..];
      assert head in visits && forall r :: r in visits <==> r == head || r in tail;
      var rest := UnreadyVisits(v, states, tail);
      if !ConsidersSts(v, head.l.sts) {
        UnreadyVisitsBound(v, states, acc, tail);
        assert bad == rest;
      } else {
        var next := Accumulate(v, Some(acc), head.l.sts, TallyAt(v, states, head)).result.value;
        UnreadyVisitsBound(v, states, next, tail);
        if ShowedReady(v, states, head) {
          assert bad == rest;
        } else {
          UnreadyVisitCounts(v, states, head);
          assert bad == rest + {head.l.sts.uid};
        }
      }
    }
  }

  lemma EvictedStaysInItsZone(f: Fleet, states: seq<State>, events: seq<Event>, k: nat, v: View)
    requires ValidFleet(f) && k < |events| && |states| == |events| + 1 && Requests(f, states, events, k)
    requires v.mode.PartitionAware? && v.owner == events[k].owner && v.evicted == events[k].evicted
    ensures EvictedElsewhere(v, events[k].visits)
    ensures forall r, p | r in events[k].visits && ConsidersSts(v, r.l.sts) && r.l.pods.Some? && p in r.l.pods.value ::
              p.name in f.zones[r.l.sts.uid].names && p.name != v.evicted.name
  {
    forall r, p | r in events[k].visits && ConsidersSts(v, r.l.sts) && r.l.pods.Some? && p in r.l.pods.value
      ensures p.uid != v.evicted.uid && p.name in f.zones[r.l.sts.uid].names && p.name != v.evicted.name
    {
      var pods := r.l.pods.value;
      assert VisitsZone(f, states, events[k].start, k, r);
      assert states[r.listed] in states;
      var i :| 0 <= i < |pods| && pods[i] == p;
      assert p.name in Names(pods);
    }
  }

  /** A zone that showed a ready pod when it was visited still serves the partition when the request decides. */
  lemma VisitedStillServed(f: Fleet, states: seq<State>, events: seq<Event>, k: nat, r: Visit)
    requires PartitionFleet(f) && IsInterleavedRun(f, states, events)
    requires k < |events| && events[k].Finish? && MetAt(f, states, events, k) && NoneSlipped(f, states, events, k)
    requires r in events[k].visits && r.l.pods.Some? && Complete(states, r)
    requires var v := ViewOf(f, states[k], events[k]); ConsidersSts(v, r.l.sts) && ShowedReady(v, states, r)
    ensures r.l.sts.uid in f.zones
    ensures Serves(f, states[k], r.l.sts.uid, PodPartition(f.budget, events[k].evicted.name).value)
  {
    var e := events[k];
    var v := ViewOf(f, states[k], e);
    assert VisitsZone(f, states, e.start, k, r);
    EvictedStaysInItsZone(f, states, events, k, v);
    var j: nat :| j < |r.lookups| && JudgedReady(v, states, r, j);
    var p := r.l.pods.value[j];
    assert p in r.l.pods.value;
    JudgedReadyIsAvailable(f, states, events, k, r, j);
    assert InPartition(f, p.name, v.mode.partition) && Available(states[k], p.name);
  }

  /** When a request of partition mode is allowed, fewer than the limit of the other zones are unserved. */
  lemma FinishLeavesRoom(f: Fleet, states: seq<State>, events: seq<Event>, k: nat)
    requires PartitionFleet(f) && IsInterleavedRun(f, states, events)
    requires k < |events| && events[k].Finish? && MetAt(f, states, events, k) && NoneSlipped(f, states, events, k)
    ensures var p := PodPartition(f.budget, events[k].evicted.name).value;
            |UnservedZones(f, states[k], p) - {events[k].zone}| < Limit(f, events[k])
  {
    var e := events[k];
    var v := ViewOf(f, states[k], e);
    EvictedStaysInItsZone(f, states, events, k, v);
    UnreadyVisitsBound(v, states, ZoneStatus(0, 0, 0), e.visits);
    var bad := UnreadyVisits(v, states, e.visits);
    var unserved := UnservedZones(f, states[k], v.mode.partition) - {e.zone};
    forall u | u in unserved ensures u in bad {
      assert Visited(e.visits, u);
      var i :| 0 <= i < |e.visits| && e.visits[i].l.sts.uid == u;
      var r := e.visits[i];
      assert r in e.visits;
      if r.l.pods.Some? && ShowedReady(v, states, r) {
        VisitedStillServed(f, states, events, k, r);
      }
    }
    SubsetCardinality(unserved, bad);
  }

  lemma PartitionLimitHolds(f: Fleet, e: Event)
    requires PartitionFleet(f) && e.Finish? && e.zone in f.zones
    ensures Limit(f, e) <= PartitionLimit(f)
  {
  }

  /** Only recording one of its own pods of the partition ends a zone's service. */
  lemma RecordingEndsOwnService(f: Fleet, s: State, zone: string, pod: Pod, u: string, p: string)
    requires ValidFleet(f) && zone in f.zones && pod.name in f.zones[zone].names && u in f.zones
    requires Serves(f, s, u, p)
    ensures Serves(f, s.(entries := Recorded(s.entries, pod, s.now)), u, p)
            || (u == zone && InPartition(f, pod.name, p))
  {
    var n :| n in f.zones[u].names && InPartition(f, n, p) && Available(s, n);
    RecordingMarksOnly(s, pod, n);
    if n != pod.name {
      assert Available(s.(entries := Recorded(s.entries, pod, s.now)), n);
    }
  }

  lemma FinishKeepsPartitionSafe(f: Fleet, states: seq<State>, events: seq<Event>, k: nat, p: string)
    requires PartitionFleet(f) && IsInterleavedRun(f, states, events)
    requires k < |events| && events[k].Finish? && MetAt(f, states, events, k) && NoneSlipped(f, states, events, k)
    requires PartitionSafe(f, states[k], p)
    ensures PartitionSafe(f, states[k + 1], p)
  {
    var e, s, s' := events[k], states[k], states[k + 1];
    assert NextAt(f, states, events, k);
    var before, after := UnservedZones(f, s, p), UnservedZones(f, s', p);
    if InPartition(f, e.evicted.name, p) {
      FinishLeavesRoom(f, states, events, k);
      PartitionLimitHolds(f, e);
    }
    forall u | u in after && u !in before ensures u == e.zone && InPartition(f, e.evicted.name, p) {
      RecordingEndsOwnService(f, s, e.zone, e.evicted, u, p);
    }
    if InPartition(f, e.evicted.name, p) {
      SubsetCardinality(after, before - {e.zone} + {e.zone});
    } else {
      SubsetCardinality(after, before);
    }
  }

  lemma QuietKeepsPartitionSafe(f: Fleet, s: State, step: Step, s': State, p: string)
    requires Next(f, s, step, s') && !step.Evict? && PartitionSafe(f, s, p)
    ensures PartitionSafe(f, s', p)
  {
    var before, after := UnservedZones(f, s, p), UnservedZones(f, s', p);
    forall u | u in after ensures u in before {
      if Serves(f, s, u, p) {
        var n :| n in f.zones[u].names && InPartition(f, n, p) && Available(s, n);
        OtherStepsKeepAvailability(f, s, step, s', n);
      }
    }
    SubsetCardinality(after, before);
  }

  lemma InitiallyPartitionSafe(f: Fleet, s: State, p: string)
    requires HostedEverywhere(f, p) && Initial(f, s)
    ensures PartitionSafe(f, s, p)
  {
    forall u | u in f.zones ensures Serves(f, s, u, p) {
      var n :| n in f.zones[u].names && InPartition(f, n, p);
      assert Available(s, n);
    }
    assert UnservedZones(f, s, p) == {};
  }

  lemma EventKeepsPartitionSafe(f: Fleet, states: seq<State>, events: seq<Event>, k: nat, p: string)
    requires PartitionFleet(f) && IsInterleavedRun(f, states, events) && k < |events|
    requires MetAt(f, states, events, k) ==> NoneSlipped(f, states, events, k)
    requires PartitionSafe(f, states[k], p)
    ensures PartitionSafe(f, states[k + 1], p)
  {
    assert NextAt(f, states, events, k);
    if events[k].Quiet? {
      QuietKeepsPartitionSafe(f, states[k], events[k].step, states[k + 1], p);
    } else if MetAt(f, states, events, k) {
      FinishKeepsPartitionSafe(f, states, events, k, p);
    }
  }

  /** `PartitionRunSafe` without atomic requests. */
  lemma {:induction false} InterleavedPartitionRunSafe(
    f: Fleet, states: seq<State>, events: seq<Event>, k: nat, p: string)
    requires PartitionFleet(f) && HostedEverywhere(f, p) && IsInterleavedRun(f, states, events) && k <= |events|
    requires NoSlips(f, states, events)
    ensures PartitionSafe(f, states[k], p)
  {
    if k == 0 {
      InitiallyPartitionSafe(f, states[0], p);
    } else {
      InterleavedPartitionRunSafe(f, states, events, k - 1, p);
      EventKeepsPartitionSafe(f, states, events, k - 1, p);
    }
  }

  /** No condition on what happens in between is needed when no pod of the other zones is pending. */
  lemma NothingPendingPartitionRunSafe(f: Fleet, states: seq<State>, events: seq<Event>, k: nat, p: string)
    requires PartitionFleet(f) && HostedEverywhere(f, p) && IsInterleavedRun(f, states, events) && k <= |events|
    requires forall m | 0 <= m < |events| && events[m].Finish? && MetAt(f, states, events, m) ::
               ListedNothingPending(f, states, events, m)
    ensures PartitionSafe(f, states[k], p)
  {
    forall m | 0 <= m < |events| && events[m].Finish? && MetAt(f, states, events, m)
      ensures NoneSlipped(f, states, events, m)
    {
      NothingPendingNothingSlips(f, states, events, m);
    }
    InterleavedPartitionRunSafe(f, states, events, k, p);
  }
}
