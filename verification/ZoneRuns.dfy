/** Zone mode: over every run at most one zone has unavailable pods, and no more than its limit. */
module ZoneRuns {
  import opened Kube
  import opened EvictionCache
  import opened Budgets
  import opened Eviction
  import opened EvictionRuns

  /** The budget's own limit at full size, or the rollout controller's where that is zero. */
  function ZoneLimit(f: Fleet, u: string): nat
    requires u in f.zones && u in f.overrides
  {
    if MaxUnavailablePods(f.budget, f.zones[u].sts) > 0 then MaxUnavailablePods(f.budget, f.zones[u].sts)
    else f.overrides[u]
  }

  ghost predicate OnlyDisruptedZone(f: Fleet, s: State, u: string) {
    && u in f.zones && u in f.overrides
    && (forall w | w in f.zones && w != u :: Unavailable(f, s, w) == {})
    && |Unavailable(f, s, u)| <= ZoneLimit(f, u)
  }

  ghost predicate ZoneSafe(f: Fleet, s: State) {
    exists u :: OnlyDisruptedZone(f, s, u)
  }

  // ----- the tally counts the unavailable pods -----

  ghost function ListedDown(s: State, pods: seq<Pod>, except: string): set<string> {
    set n | n in Names(pods) && n != except && !Available(s, n)
  }

  lemma ListedDownLast(s: State, pods: seq<Pod>, except: string)
    requires pods != [] && DistinctNames(pods)
    ensures var front, last := ListedDown(s, pods[..|pods| - 1], except), pods[|pods| - 1].name;
            |ListedDown(s, pods, except)| == |front| + if last != except && !Available(s, last) then 1 else 0
  {
    var k := |pods| - 1;
    var front, last := pods[..k], pods[k].name;
    NamesOfPrefix(pods);
    assert last !in Names(front);
    if last != except && !Available(s, last) {
      assert ListedDown(s, pods, except) == ListedDown(s, front, except) + {last};
    } else {
      assert ListedDown(s, pods, except) == ListedDown(s, front, except);
    }
  }

  lemma {:induction false} NotReadyCountIsListedDown(v: View, s: State, pods: seq<Pod>)
    requires v.mode.ZoneAware? && v.entries == s.entries && v.now == s.now
    requires DistinctNames(pods)
    requires forall p | p in pods :: p.name in s.pods && s.pods[p.name] == p
    requires forall p | p in pods :: v.evicted.uid == p.uid <==> v.evicted.name == p.name
    ensures NotReadyCount(v, pods) == |ListedDown(s, pods, v.evicted.name)|
  {
    if pods == [] {
      assert ListedDown(s, pods, v.evicted.name) == {};
    } else {
      var last := pods[|pods| - 1];
      assert last in pods;
      assert CountsNotReady(v, last) <==> last.name != v.evicted.name && !Available(s, last.name);
      NotReadyCountIsListedDown(v, s, pods[..|pods| - 1]);
      ListedDownLast(s, pods, v.evicted.name);
    }
  }

  ghost function DownAmong(s: State, names: set<string>, except: string): set<string> {
    set n | n in names && n != except && !Available(s, n)
  }

  /** A zone's unavailable pods are those listed as down and those missing from the listing. */
  lemma DownIsListedOrMissing(s: State, z: Zone, pods: seq<Pod>, except: string)
    requires ListsZone(s, z, pods) && except in s.pods
    ensures |DownAmong(s, z.names, except)| == |ListedDown(s, pods, except)| + |z.names| - |pods|
  {
    NamesCardinality(pods);
    var missing := z.names - Names(pods);
    assert z.names == Names(pods) + missing;
    var down := ListedDown(s, pods, except);
    assert down !! missing;
    assert DownAmong(s, z.names, except) == down + missing;
  }

  lemma UnknownIsMissing(f: Fleet, s: State, u: string, sts: StatefulSet, pods: seq<Pod>)
    requires ValidFleet(f) && u in f.zones && ShowsSet(f, u, sts) && ListsZone(s, f.zones[u], pods)
    ensures UnknownCount(sts, |pods|) == |f.zones[u].names| - |pods|
  {
    NamesCardinality(pods);
    SubsetCardinality(Names(pods), f.zones[u].names);
  }

  /** The tally of a zone is the number of its unavailable pods, the evicted pod aside, whatever its status reports. */
  lemma TallyCountsUnavailable(f: Fleet, s: State, v: View, u: string, sts: StatefulSet, pods: seq<Pod>)
    requires ValidFleet(f) && ValidState(f, s) && u in f.zones && ShowsSet(f, u, sts)
    requires v.mode.ZoneAware? && v.entries == s.entries && v.now == s.now
    requires v.evicted.name in s.pods && s.pods[v.evicted.name] == v.evicted
    requires ListsZone(s, f.zones[u], pods)
    ensures Disruption(Tally(v, sts, pods)) == |DownAmong(s, f.zones[u].names, v.evicted.name)|
  {
    UnknownIsMissing(f, s, u, sts, pods);
    DownIsListedOrMissing(s, f.zones[u], pods, v.evicted.name);
    NotReadyCountIsListedDown(v, s, pods);
  }

  // ----- every step keeps the invariant -----

  /** What zone mode checked, as a statement about the state. */
  lemma MetBounds(f: Fleet, s: State, v: View, listing: seq<Listing>, limit: nat, w: string)
    requires ValidFleet(f) && ValidState(f, s) && w in f.zones
    requires v.mode.ZoneAware? && Judged(f, s, v, listing, limit)
    ensures var down := DownAmong(s, f.zones[w].names, v.evicted.name);
            if w == v.owner.uid then |down| < limit else down == {}
  {
    ZoneModeVerdict(v, listing, limit);
    assert OwnerListed(listing, w);
    var i :| 0 <= i < |listing| && listing[i].sts.uid == w;
    assert listing[i] in listing;
    TallyCountsUnavailable(f, s, v, w, listing[i].sts, listing[i].pods.value);
  }

  /** Recording an eviction adds at most the evicted pod to the unavailable ones. */
  lemma RecordingAdds(f: Fleet, s: State, pod: Pod, w: string)
    requires w in f.zones
    ensures var s' := s.(entries := Recorded(s.entries, pod, s.now));
            var down := DownAmong(s, f.zones[w].names, pod.name);
            && |Unavailable(f, s', w)| <= |down| + 1
            && (pod.name !in f.zones[w].names ==> Unavailable(f, s', w) == down)
  {
    var s' := s.(entries := Recorded(s.entries, pod, s.now));
    var down := DownAmong(s, f.zones[w].names, pod.name);
    assert Unavailable(f, s', w) <= down + {pod.name};
    SubsetCardinality(Unavailable(f, s', w), down + {pod.name});
  }

  /** Recording what zone mode allowed: no other zone is disrupted, and the pod itself still fits. */
  lemma JudgedKeepsBounds(f: Fleet, s: State, v: View, listing: seq<Listing>, limit: nat, w: string)
    requires ValidFleet(f) && ValidState(f, s) && w in f.zones
    requires v.mode.ZoneAware? && Judged(f, s, v, listing, limit)
    ensures var down := Unavailable(f, s.(entries := Recorded(s.entries, v.evicted, s.now)), w);
            if w == v.owner.uid then |down| <= limit else down == {}
  {
    MetBounds(f, s, v, listing, limit, w);
    RecordingAdds(f, s, v.evicted, w);
  }

  /** A set that is not at full size never has a larger limit, and none only if it has none at full size. */
  lemma ShownLimit(f: Fleet, u: string, sts: StatefulSet)
    requires ValidFleet(f) && u in f.zones && ShowsOwner(f, u, sts)
    ensures var shown, full := MaxUnavailablePods(f.budget, sts), MaxUnavailablePods(f.budget, f.zones[u].sts);
            shown <= full && (shown == 0 <==> full == 0)
  {
    PercentGrows(f.budget.maxUnavailablePercentage, sts.statusReplicas, |f.zones[u].names|);
  }

  lemma ZoneLimitApplies(f: Fleet, step: Step, owner: StatefulSet)
    requires ValidFleet(f) && step.Evict? && step.zone in f.zones && ShowsOwner(f, step.zone, owner)
    ensures LimitFor(f, step, owner) <= ZoneLimit(f, step.zone)
  {
    ShownLimit(f, step.zone, owner);
  }

  lemma JudgedKeepsZoneSafe(f: Fleet, s: State, v: View, listing: seq<Listing>, limit: nat)
    requires ValidFleet(f) && f.budget.captures.None? && ValidState(f, s) && Judged(f, s, v, listing, limit)
    requires limit <= ZoneLimit(f, v.owner.uid)
    ensures OnlyDisruptedZone(f, s.(entries := Recorded(s.entries, v.evicted, s.now)), v.owner.uid)
  {
    var s' := s.(entries := Recorded(s.entries, v.evicted, s.now));
    forall w | w in f.zones
      ensures if w == v.owner.uid then |Unavailable(f, s', w)| <= limit else Unavailable(f, s', w) == {}
    {
      JudgedKeepsBounds(f, s, v, listing, limit, w);
    }
  }

  lemma StepKeepsZoneSafe(f: Fleet, s: State, step: Step, s': State)
    requires ValidFleet(f) && f.budget.captures.None? && ValidState(f, s) && Next(f, s, step, s')
    requires ZoneSafe(f, s)
    ensures ZoneSafe(f, s')
  {
    if step.Evict? && VerdictOf(f, s, step).BudgetMet? {
      var v := MetRequest(f, s, step, s');
      ZoneLimitApplies(f, step, v.owner);
      JudgedKeepsZoneSafe(f, s, v, step.api.related.value, LimitFor(f, step, v.owner));
    } else {
      var u :| OnlyDisruptedZone(f, s, u);
      forall w | w in f.zones ensures Unavailable(f, s', w) <= Unavailable(f, s, w) {
        forall n | n in Unavailable(f, s', w) ensures n in Unavailable(f, s, w) {
          if Available(s, n) {
            AvailabilityKept(f, s, step, s', n);
          }
        }
      }
      SubsetCardinality(Unavailable(f, s', u), Unavailable(f, s, u));
      assert OnlyDisruptedZone(f, s', u);
    }
  }

  /** Start with every pod available and let any mix of webhook and rollout requests, pod changes,
      observer events and clock ticks happen: in every reachable state at most one zone has
      unavailable pods, and it has at most its limit. */
  lemma {:induction false} ZoneRunSafe(f: Fleet, states: seq<State>, steps: seq<Step>)
    requires ValidFleet(f) && f.budget.captures.None? && IsRun(f, states, steps)
    ensures forall s | s in states :: ValidState(f, s) && ZoneSafe(f, s)
  {
    var k := 0;
    var u :| u in f.zones;
    forall w | w in f.zones ensures Unavailable(f, states[0], w) == {} {}
    assert OnlyDisruptedZone(f, states[0], u);
    while k < |steps|
      invariant 0 <= k <= |steps|
      invariant forall j | 0 <= j <= k :: ValidState(f, states[j]) && ZoneSafe(f, states[j])
    {
      assert Next(f, states[k], steps[k], states[k + 1]);
      ValidityKept(f, states[k], steps[k], states[k + 1]);
      StepKeepsZoneSafe(f, states[k], steps[k], states[k + 1]);
      k := k + 1;
    }
  }
}
