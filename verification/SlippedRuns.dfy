/** Why the interleaved theorems ask that no pod slips: a run of any two zones with one pod each in which one
    does, and after which both zones are disrupted although the limit is 1. */
module SlippedRuns {
  import opened Kube
  import opened EvictionCache
  import opened Budgets
  import opened Eviction
  import opened EvictionRuns
  import opened ZoneRuns
  import opened PartitionRuns
  import opened InterleavedRequests

  /** Zone `a` with its pod `n`, zone `b` with its pod `m`, the partition both pods are in, and the cross-zone
      delay; the empty partition stands for zone mode. */
  datatype Pair = Pair(a: string, b: string, n: string, m: string, partition: string, delay: nat)

  predicate Distinct(x: Pair) {
    x.a != x.b && x.n != x.m && (x.partition == "" ==> x.delay == 0)
  }

  /** A pod that became ready at `since`. */
  function ReadyPod(name: string, uid: string, sts: string, since: int): Pod {
    var conditions := [Condition(READY_CONDITION, True, Some(since))];
    Pod(name, uid, 1, map[], Controller("StatefulSet", sts), Running, false, [], [], conditions)
  }

  function First(x: Pair): Pod {
    ReadyPod(x.n, x.n, x.a, -1 - x.delay)
  }

  function Second(x: Pair): Pod {
    ReadyPod(x.m, x.m, x.b, -1 - x.delay)
  }

  function Stopped(x: Pair): Pod {
    First(x).(phase := Failed)
  }

  function OnePodSet(name: string): StatefulSet {
    StatefulSet(name, name, Some(1), 1, 1, 1, "", "", true, false, Unset, None, false, None, None, None)
  }

  function TwoZones(x: Pair): Fleet {
    var captures := if x.partition == "" then None else Some(map[x.n := x.partition, x.m := x.partition]);
    Fleet(map[x.a := Zone(OnePodSet(x.a), {x.n}), x.b := Zone(OnePodSet(x.b), {x.m})],
          Budget("budget", 1, 1, 0, map[], captures, x.delay),
          map[x.a := 1, x.b := 1])
  }

  function BothUp(x: Pair): map<string, Pod> {
    map[x.n := First(x), x.m := Second(x)]
  }

  function FirstDown(x: Pair): map<string, Pod> {
    map[x.n := Stopped(x), x.m := Second(x)]
  }

  const RECORD := Entry(CACHE_EXPIRY, 1)

  /** All ready; `n` recorded; `n` stopped; its record dropped; `m` recorded. */
  function StatesOf(x: Pair): seq<State> {
    [State(BothUp(x), map[], 0),
     State(BothUp(x), map[x.n := RECORD], 0),
     State(FirstDown(x), map[x.n := RECORD], 0),
     State(FirstDown(x), map[], 0),
     State(FirstDown(x), map[x.m := RECORD], 0)]
  }

  function VisitOf(sts: string, pod: Pod, listed: nat, lookup: nat): Visit {
    Visit(Listing(OnePodSet(sts), Some([pod])), listed, [lookup])
  }

  /** The second request lists zone `a` right after the first one was allowed, and asks the cache about `n` when
      its record is gone. */
  function EventsOf(x: Pair): seq<Event> {
    [Finish(x.a, OnePodSet(x.a), First(x), false, 0, [VisitOf(x.a, First(x), 0, 0), VisitOf(x.b, Second(x), 0, 0)]),
     Quiet(ChangePod(x.n, Some(Stopped(x)))),
     Quiet(Observe(Stopped(x))),
     Finish(x.b, OnePodSet(x.b), Second(x), false, 1, [VisitOf(x.a, First(x), 1, 3), VisitOf(x.b, Second(x), 3, 3)])]
  }

  lemma TwoZonesValid(x: Pair)
    requires Distinct(x)
    ensures ValidFleet(TwoZones(x)) && (x.partition != "" ==> PartitionFleet(TwoZones(x)))
  {
    assert x.a in TwoZones(x).zones;
  }

  lemma PodsAreValid(x: Pair, s: State)
    requires Distinct(x) && (s.pods == BothUp(x) || s.pods == FirstDown(x))
    ensures ValidState(TwoZones(x), s)
  {
    var f := TwoZones(x);
    assert BelongsTo(f, x.a, First(x)) && BelongsTo(f, x.a, Stopped(x)) && BelongsTo(f, x.b, Second(x));
  }

  lemma StartsHealthy(x: Pair)
    requires Distinct(x)
    ensures Initial(TwoZones(x), StatesOf(x)[0])
  {
    PodsAreValid(x, StatesOf(x)[0]);
  }

  lemma ListsOnePod(s: State, sts: string, pod: Pod)
    requires pod.name in s.pods && s.pods[pod.name] == pod
    ensures ListsZone(s, Zone(OnePodSet(sts), {pod.name}), [pod])
  {
    assert [pod][0].name == pod.name;
    assert Names([pod]) == {pod.name};
    assert {pod.name} * s.pods.Keys == {pod.name};
  }

  lemma UidsOwned(x: Pair, pod: Pod)
    requires Distinct(x) && (pod == First(x) || pod == Second(x))
    ensures OwnsUid(StatesOf(x), pod)
  {
  }

  /** A visit that found its one pod ready adds nothing. */
  lemma VisitFindsReady(v: View, states: seq<State>, sts: string, pod: Pod, listed: nat, lookup: nat)
    requires lookup < |states| && ConsidersPod(v, pod) && CountsReady(Seen(v, states[lookup]), pod)
    ensures TallyAt(v, states, VisitOf(sts, pod, listed, lookup)) == ZoneStatus(1, 0, 0)
  {
    var pods, lookups := [pod], [lookup];
    assert pods[..0] == [] && lookups[..0] == [];
    assert TestedCount(v, pods[..0]) == 0 && NotReadyAt(v, states, pods[..0], lookups[..0]) == 0;
  }

  predicate FoundReady(v: View, states: seq<State>, r: Visit) {
    Complete(states, r) && r.l.pods.Some? && TallyAt(v, states, r) == ZoneStatus(1, 0, 0)
  }

  lemma {:induction false} ReadyVisitsPass(v: View, states: seq<State>, acc: Option<ZoneStatus>, visits: seq<Visit>)
    requires Within(states, visits) && forall r | r in visits :: FoundReady(v, states, r)
    requires (v.mode.PartitionAware? ==> acc.Some?) && (acc.Some? ==> Disruption(acc.value) == 0)
    ensures var s := ScanVisits(v, states, acc, visits);
            && s.Done? && (s.result.Some? ==> Disruption(s.result.value) == 0)
            && (acc.Some? || Visited(visits, v.owner.uid) ==> s.result.Some?)
    decreases |visits|
  {
    if visits != [] {
      var r, rest := visits[0], visits[1..];
      assert r in visits && FoundReady(v, states, r);
      if !ConsidersSts(v, r.l.sts) {
        ReadyVisitsPass(v, states, acc, rest);
      } else {
        var a := Accumulate(v, acc, r.l.sts, TallyAt(v, states, r));
        ReadyVisitsPass(v, states, a.result, rest);
        if acc.None? && a.result.None? && Visited(visits, v.owner.uid) {
          var i :| 0 <= i < |visits| && visits[i].l.sts.uid == v.owner.uid;
          assert rest[i - 1].l.sts.uid == v.owner.uid;
        }
      }
    }
  }

  lemma EveryZoneVisited(x: Pair, y: Visit, z: Visit)
    requires Distinct(x) && y.l.sts.uid == x.a && z.l.sts.uid == x.b
    ensures DistinctVisits([y, z]) && forall u | u in TwoZones(x).zones :: Visited([y, z], u)
  {
    assert [y, z][0].l.sts.uid == x.a && [y, z][1].l.sts.uid == x.b;
  }

  /** The two visits of a request: zone `a` while `n` is shown as ready, zone `b` at any time. */
  function VisitsOf(x: Pair, la: nat, ka: nat, lb: nat, kb: nat): seq<Visit> {
    [VisitOf(x.a, First(x), la, ka), VisitOf(x.b, Second(x), lb, kb)]
  }

  lemma VisitsTheFleet(x: Pair, states: seq<State>, start: nat, end: nat, la: nat, ka: nat, lb: nat, kb: nat)
    requires Distinct(x) && start <= la <= ka <= end && start <= lb <= kb <= end < |states|
    requires HasPod(states[la], First(x)) && HasPod(states[lb], Second(x))
    ensures VisitsFleet(TwoZones(x), states, start, end, VisitsOf(x, la, ka, lb, kb))
  {
    var visits := VisitsOf(x, la, ka, lb, kb);
    EveryZoneVisited(x, visits[0], visits[1]);
    ListsOnePod(states[la], x.a, First(x));
    ListsOnePod(states[lb], x.b, Second(x));
  }

  predicate HasPod(s: State, pod: Pod) {
    pod.name in s.pods && s.pods[pod.name] == pod
  }

  /** At time 0 the cache knows nothing about the pod. */
  predicate Unrecorded(s: State, name: string) {
    s.now == 0 && name !in s.entries
  }

  predicate ConsidersBoth(v: View, x: Pair) {
    && ConsidersPod(v, First(x)) && ConsidersPod(v, Second(x))
    && (v.mode.PartitionAware? ==> v.budget.crossZoneEvictionDelay == x.delay)
  }

  lemma VisitsFoundReady(v: View, x: Pair, states: seq<State>, la: nat, ka: nat, lb: nat, kb: nat)
    requires Distinct(x) && ConsidersBoth(v, x) && ka < |states| && kb < |states|
    requires Unrecorded(states[ka], x.n) && Unrecorded(states[kb], x.m)
    ensures forall r | r in VisitsOf(x, la, ka, lb, kb) :: FoundReady(v, states, r)
  {
    assert ReadySince(First(x).conditions) == ReadySince(Second(x).conditions) == Some(-1 - x.delay);
    VisitFindsReady(v, states, x.a, First(x), la, ka);
    VisitFindsReady(v, states, x.b, Second(x), lb, kb);
  }

  lemma ReadyVisitsMet(v: View, states: seq<State>, visits: seq<Visit>)
    requires Within(states, visits) && (forall r | r in visits :: FoundReady(v, states, r))
    requires Visited(visits, v.owner.uid)
    ensures VisitsMet(v, states, visits, 1)
  {
    ReadyVisitsPass(v, states, InitialResult(v.mode), visits);
  }

  /** A request for either pod whose lookups find both pods unrecorded. */
  predicate AsksForOne(x: Pair, e: Event) {
    && e.Finish? && !e.fromRollout && e.owner == OnePodSet(e.zone)
    && ((e.zone == x.a && e.evicted == First(x)) || (e.zone == x.b && e.evicted == Second(x)))
  }

  lemma VisitsAreMet(x: Pair, states: seq<State>, e: Event, s: State, la: nat, ka: nat, lb: nat, kb: nat)
    requires Distinct(x) && AsksForOne(x, e) && ka < |states| && kb < |states|
    requires Unrecorded(states[ka], x.n) && Unrecorded(states[kb], x.m)
    ensures PodPartition(TwoZones(x).budget, e.evicted.name).Some? && Within(states, VisitsOf(x, la, ka, lb, kb))
    ensures VisitsMet(ViewOf(TwoZones(x), s, e), states, VisitsOf(x, la, ka, lb, kb), 1)
  {
    var visits := VisitsOf(x, la, ka, lb, kb);
    var v := ViewOf(TwoZones(x), s, e);
    VisitsFoundReady(v, x, states, la, ka, lb, kb);
    EveryZoneVisited(x, visits[0], visits[1]);
    ReadyVisitsMet(v, states, visits);
  }

  lemma RequestIsMet(
    x: Pair, states: seq<State>, events: seq<Event>, k: nat, la: nat, ka: nat, lb: nat, kb: nat)
    requires Distinct(x) && k < |events| && |states| == |events| + 1
    requires AsksForOne(x, events[k]) && events[k].visits == VisitsOf(x, la, ka, lb, kb)
    requires OwnsUid(states, events[k].evicted)
    requires events[k].start <= la <= ka <= k && events[k].start <= lb <= kb <= k
    requires QuietBetween(events, events[k].start, k)
    requires HasPod(states[la], First(x)) && HasPod(states[lb], Second(x))
    requires Unrecorded(states[ka], x.n) && Unrecorded(states[kb], x.m)
    ensures MetAt(TwoZones(x), states, events, k)
  {
    VisitsTheFleet(x, states, events[k].start, k, la, ka, lb, kb);
    VisitsAreMet(x, states, events[k], states[k], la, ka, lb, kb);
  }

  lemma FirstIsMet(x: Pair)
    requires Distinct(x)
    ensures MetAt(TwoZones(x), StatesOf(x), EventsOf(x), 0)
  {
    UidsOwned(x, First(x));
    RequestIsMet(x, StatesOf(x), EventsOf(x), 0, 0, 0, 0, 0);
  }

  lemma SecondIsMet(x: Pair)
    requires Distinct(x)
    ensures MetAt(TwoZones(x), StatesOf(x), EventsOf(x), 3)
  {
    UidsOwned(x, Second(x));
    RequestIsMet(x, StatesOf(x), EventsOf(x), 3, 1, 3, 3, 3);
  }

  lemma StopsOnlyFirst(x: Pair)
    requires Distinct(x)
    ensures BothUp(x)[x.n := Stopped(x)] == FirstDown(x)
    ensures !Available(StatesOf(x)[1], x.n)
  {
  }

  lemma StopsThePod(x: Pair)
    requires Distinct(x)
    ensures Next(TwoZones(x), StatesOf(x)[1], ChangePod(x.n, Some(Stopped(x))), StatesOf(x)[2])
  {
    PodsAreValid(x, StatesOf(x)[2]);
    StopsOnlyFirst(x);
  }

  lemma DropsTheRecord(x: Pair)
    requires Distinct(x)
    ensures Next(TwoZones(x), StatesOf(x)[2], Observe(Stopped(x)), StatesOf(x)[3])
  {
    assert map[x.n := RECORD] - {x.n} == map[];
  }

  lemma StepAt(x: Pair, k: nat)
    requires Distinct(x) && k < 4
    ensures NextAt(TwoZones(x), StatesOf(x), EventsOf(x), k)
  {
    if k == 0 {
      FirstIsMet(x);
    } else if k == 1 {
      StopsThePod(x);
    } else if k == 2 {
      DropsTheRecord(x);
    } else {
      SecondIsMet(x);
    }
  }

  lemma IsARun(x: Pair)
    requires Distinct(x)
    ensures IsInterleavedRun(TwoZones(x), StatesOf(x), EventsOf(x))
  {
    StartsHealthy(x);
    forall k | 0 <= k < |EventsOf(x)| ensures NextAt(TwoZones(x), StatesOf(x), EventsOf(x), k) {
      StepAt(x, k);
    }
  }

  /** In zone mode both zones end up disrupted. */
  lemma SlipBreaksZoneRun(x: Pair)
    requires Distinct(x) && x.partition == ""
    ensures ValidFleet(TwoZones(x)) && IsInterleavedRun(TwoZones(x), StatesOf(x), EventsOf(x))
    ensures Slips(StatesOf(x), EventsOf(x), x.n, 1, 3) && !Up(StatesOf(x)[3], x.n)
    ensures !ZoneSafe(TwoZones(x), StatesOf(x)[4])
  {
    TwoZonesValid(x);
    IsARun(x);
    TheSlip(x);
    var f, s := TwoZones(x), StatesOf(x)[4];
    assert x.n in Unavailable(f, s, x.a) && x.m in Unavailable(f, s, x.b);
  }

  lemma Unserved(x: Pair)
    requires Distinct(x) && x.partition != ""
    ensures HostedEverywhere(TwoZones(x), x.partition)
    ensures UnservedZones(TwoZones(x), StatesOf(x)[4], x.partition) == {x.a, x.b}
  {
    var f := TwoZones(x);
    assert InPartition(f, x.n, x.partition) && InPartition(f, x.m, x.partition);
    assert x.n in f.zones[x.a].names && x.m in f.zones[x.b].names;
  }

  /** In partition mode the partition ends up unserved in both zones. */
  lemma SlipBreaksPartitionRun(x: Pair)
    requires Distinct(x) && x.partition != ""
    ensures PartitionFleet(TwoZones(x)) && HostedEverywhere(TwoZones(x), x.partition)
    ensures IsInterleavedRun(TwoZones(x), StatesOf(x), EventsOf(x))
    ensures Slips(StatesOf(x), EventsOf(x), x.n, 1, 3) && !Up(StatesOf(x)[3], x.n)
    ensures !PartitionSafe(TwoZones(x), StatesOf(x)[4], x.partition)
  {
    TwoZonesValid(x);
    IsARun(x);
    TheSlip(x);
    Unserved(x);
  }

  /** What went wrong: `n` slipped between its listing and its lookup. */
  lemma TheSlip(x: Pair)
    requires Distinct(x)
    ensures Slips(StatesOf(x), EventsOf(x), x.n, 1, 3) && !Up(StatesOf(x)[3], x.n)
  {
    assert ChangesAt(EventsOf(x), 1, x.n) && DropsAt(StatesOf(x), EventsOf(x), 2, x.n);
  }
}
