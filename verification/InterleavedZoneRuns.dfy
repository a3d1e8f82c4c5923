/** Zone mode without atomic requests. */
module InterleavedZoneRuns {
  import opened Kube
  import opened EvictionCache
  import opened Budgets
  import opened Eviction
  import opened EvictionRuns
  import opened ZoneRuns
  import opened InterleavedRequests

  ghost function NamesDown(s: State, pods: seq<Pod>, except: string): set<string> {
    set p | p in pods && p.name != except && !Available(s, p.name) :: p.name
  }

  /** Every other listed pod that is down in `s` was counted when it was judged. */
  predicate CountsAllDown(v: View, states: seq<State>, s: State, pods: seq<Pod>, lookups: seq<nat>)
    requires LooksUp(states, pods, lookups)
  {
    forall j | 0 <= j < |pods| && pods[j].name != v.evicted.name && !Available(s, pods[j].name) ::
      CountsNotReady(Seen(v, states[lookups[j]]), pods[j])
  }

  lemma {:induction false} CountCoversDown(
    v: View, states: seq<State>, s: State, pods: seq<Pod>, lookups: seq<nat>)
    requires LooksUp(states, pods, lookups) && CountsAllDown(v, states, s, pods, lookups)
    ensures |NamesDown(s, pods, v.evicted.name)| <= NotReadyAt(v, states, pods, lookups)
  {
    var down := NamesDown(s, pods, v.evicted.name);
    if pods == [] {
      assert down == {};
    } else {
      var k := |pods| - 1;
      var front, last := pods[..k], pods[k];
      assert pods == front + [last];
      CountCoversDown(v, states, s, front, lookups[..k]);
      var downFront := NamesDown(s, front, v.evicted.name);
      if last.name != v.evicted.name && !Available(s, last.name) {
        SubsetCardinality(down, downFront + {last.name});
      } else {
        SubsetCardinality(down, downFront);
      }
    }
  }

  /** The pods of a zone that are down in `s` were listed in `was`, or missing from the listing. */
  lemma DownCovered(was: State, s: State, z: Zone, pods: seq<Pod>, except: string)
    requires ListsZone(was, z, pods)
    ensures |DownAmong(s, z.names, except)| <= |NamesDown(s, pods, except)| + |z.names| - |pods|
    ensures |pods| <= |z.names|
  {
    NamesCardinality(pods);
    SubsetCardinality(Names(pods), z.names);
    var missing, down := z.names - Names(pods), NamesDown(s, pods, except);
    assert z.names == Names(pods) + missing;
    assert |z.names| == |Names(pods)| + |missing|;
    forall n | n in DownAmong(s, z.names, except) ensures n in down + missing {
      if n in Names(pods) {
        var i :| 0 <= i < |pods| && pods[i].name == n;
        assert pods[i] in pods;
      }
    }
    SubsetCardinality(DownAmong(s, z.names, except), down + missing);
  }

  lemma VisitCountsAllDown(f: Fleet, states: seq<State>, events: seq<Event>, k: nat, r: Visit)
    requires f.budget.captures.None? && IsInterleavedRun(f, states, events)
    requires k < |events| && events[k].Finish? && MetAt(f, states, events, k) && NoneSlipped(f, states, events, k)
    requires r in events[k].visits && r.l.pods.Some? && Complete(states, r)
    ensures CountsAllDown(ViewOf(f, states[k], events[k]), states, states[k], r.l.pods.value, r.lookups)
  {
    var e, pods := events[k], r.l.pods.value;
    var v := ViewOf(f, states[k], e);
    assert VisitsZone(f, states, e.start, k, r);
    forall j | 0 <= j < |pods| && pods[j].name != v.evicted.name && !Available(states[k], pods[j].name)
      ensures CountsNotReady(Seen(v, states[r.lookups[j]]), pods[j])
    {
      assert pods[j] in pods && states[r.listed] in states;
      if CountsReady(Seen(v, states[r.lookups[j]]), pods[j]) {
        JudgedReadyIsAvailable(f, states, events, k, r, j);
      }
    }
  }

  /** A tally never counts less than what is down when the request decides, whatever became of the evicted pod
      since it was fetched. */
  lemma TallyCoversUnavailable(f: Fleet, states: seq<State>, events: seq<Event>, k: nat, r: Visit)
    requires ValidFleet(f) && f.budget.captures.None? && IsInterleavedRun(f, states, events)
    requires k < |events| && events[k].Finish? && MetAt(f, states, events, k) && NoneSlipped(f, states, events, k)
    requires r in events[k].visits && r.l.pods.Some? && Complete(states, r) && r.l.sts.uid in f.zones
    ensures |DownAmong(states[k], f.zones[r.l.sts.uid].names, events[k].evicted.name)|
            <= Disruption(TallyAt(ViewOf(f, states[k], events[k]), states, r))
  {
    var e, s, pods := events[k], states[k], r.l.pods.value;
    var v := ViewOf(f, s, e);
    assert VisitsZone(f, states, e.start, k, r);
    VisitCountsAllDown(f, states, events, k, r);
    CountCoversDown(v, states, s, pods, r.lookups);
    DownCovered(states[r.listed], s, f.zones[r.l.sts.uid], pods, e.evicted.name);
  }

  predicate Permits(v: View, states: seq<State>, r: Visit, limit: nat)
    requires Complete(states, r)
  {
    && r.l.pods.Some?
    && var d := Disruption(TallyAt(v, states, r)); if r.l.sts.uid == v.owner.uid then d < limit else d == 0
  }

  lemma {:induction false} MetVisitsPermit(
    v: View, states: seq<State>, acc: Option<ZoneStatus>, visits: seq<Visit>, limit: nat)
    requires v.mode.ZoneAware? && Within(states, visits) && DistinctVisits(visits)
    requires acc.Some? ==> !Visited(visits, v.owner.uid)
    requires var s := ScanVisits(v, states, acc, visits);
             s.Done? && s.result.Some? && Disruption(s.result.value) < limit
    ensures forall r | r in visits :: Permits(v, states, r, limit)
    ensures acc.Some? ==> Disruption(acc.value) < limit
    decreases |visits|
  {
    if visits != [] {
      var head, tail := visits[0], visits[1..];
      assert head in visits && forall r :: r in visits <==> r == head || r in tail;
      forall i | 0 <= i < |tail| ensures tail[i] == visits[i + 1] {}
      var owner := head.l.sts.uid == v.owner.uid;
      MetVisitsPermit(v, states, if owner then Some(TallyAt(v, states, head)) else acc, tail, limit);
    }
  }

  lemma FinishBounds(f: Fleet, states: seq<State>, events: seq<Event>, k: nat, w: string)
    requires ValidFleet(f) && f.budget.captures.None? && IsInterleavedRun(f, states, events)
    requires k < |events| && events[k].Finish? && MetAt(f, states, events, k) && NoneSlipped(f, states, events, k)
    requires w in f.zones
    ensures var down := DownAmong(states[k], f.zones[w].names, events[k].evicted.name);
            if w == events[k].zone then |down| < Limit(f, events[k]) else down == {}
  {
    var e := events[k];
    var v := ViewOf(f, states[k], e);
    MetVisitsPermit(v, states, None, e.visits, Limit(f, e));
    assert Visited(e.visits, w);
    var i :| 0 <= i < |e.visits| && e.visits[i].l.sts.uid == w;
    var r := e.visits[i];
    assert r in e.visits && Permits(v, states, r, Limit(f, e));
    TallyCoversUnavailable(f, states, events, k, r);
  }

  lemma LimitApplies(f: Fleet, e: Event)
    requires ValidFleet(f) && e.Finish? && e.zone in f.zones && ShowsOwner(f, e.zone, e.owner)
    ensures Limit(f, e) <= ZoneLimit(f, e.zone)
  {
    ShownLimit(f, e.zone, e.owner);
  }

  lemma FinishKeepsZoneSafe(f: Fleet, states: seq<State>, events: seq<Event>, k: nat)
    requires ValidFleet(f) && f.budget.captures.None? && IsInterleavedRun(f, states, events)
    requires k < |events| && events[k].Finish? && MetAt(f, states, events, k) && NoneSlipped(f, states, events, k)
    ensures OnlyDisruptedZone(f, states[k + 1], events[k].zone)
  {
    var e, s, s' := events[k], states[k], states[k + 1];
    assert NextAt(f, states, events, k);
    LimitApplies(f, e);
    forall w | w in f.zones
      ensures if w == e.zone then |Unavailable(f, s', w)| <= Limit(f, e) else Unavailable(f, s', w) == {}
    {
      FinishBounds(f, states, events, k, w);
      RecordingAdds(f, s, e.evicted, w);
    }
  }

  lemma QuietKeepsZoneSafe(f: Fleet, s: State, step: Step, s': State)
    requires Next(f, s, step, s') && !step.Evict? && ZoneSafe(f, s)
    ensures ZoneSafe(f, s')
  {
    var u :| OnlyDisruptedZone(f, s, u);
    forall w | w in f.zones ensures Unavailable(f, s', w) <= Unavailable(f, s, w) {
      forall n | n in Unavailable(f, s', w) ensures n in Unavailable(f, s, w) {
        if Available(s, n) {
          OtherStepsKeepAvailability(f, s, step, s', n);
        }
      }
    }
    SubsetCardinality(Unavailable(f, s', u), Unavailable(f, s, u));
    assert OnlyDisruptedZone(f, s', u);
  }

  lemma EventKeepsZoneSafe(f: Fleet, states: seq<State>, events: seq<Event>, k: nat)
    requires ValidFleet(f) && f.budget.captures.None? && IsInterleavedRun(f, states, events) && k < |events|
    requires MetAt(f, states, events, k) ==> NoneSlipped(f, states, events, k)
    requires ZoneSafe(f, states[k])
    ensures ZoneSafe(f, states[k + 1])
  {
    assert NextAt(f, states, events, k);
    if events[k].Quiet? {
      QuietKeepsZoneSafe(f, states[k], events[k].step, states[k + 1]);
    } else if MetAt(f, states, events, k) {
      FinishKeepsZoneSafe(f, states, events, k);
    }
  }

  lemma InitiallyZoneSafe(f: Fleet, s: State)
    requires ValidFleet(f) && Initial(f, s)
    ensures ZoneSafe(f, s)
  {
    var u :| u in f.zones;
    forall w | w in f.zones ensures Unavailable(f, s, w) == {} {}
    assert OnlyDisruptedZone(f, s, u);
  }

  /** `ZoneRunSafe` without atomic requests: pods, observer and clock may move between any two calls of a
      request, and its pod may have been fetched long before. */
  lemma {:induction false} InterleavedZoneRunSafe(f: Fleet, states: seq<State>, events: seq<Event>, k: nat)
    requires ValidFleet(f) && f.budget.captures.None? && IsInterleavedRun(f, states, events) && k <= |events|
    requires NoSlips(f, states, events)
    ensures ZoneSafe(f, states[k])
  {
    if k == 0 {
      InitiallyZoneSafe(f, states[0]);
    } else {
      InterleavedZoneRunSafe(f, states, events, k - 1);
      EventKeepsZoneSafe(f, states, events, k - 1);
    }
  }

  /** No condition on what happens in between is needed when no other pod of the listed zones is pending. */
  lemma NothingPendingZoneRunSafe(f: Fleet, states: seq<State>, events: seq<Event>, k: nat)
    requires ValidFleet(f) && f.budget.captures.None? && IsInterleavedRun(f, states, events) && k <= |events|
    requires forall m | 0 <= m < |events| && events[m].Finish? && MetAt(f, states, events, m) ::
               ListedNothingPending(f, states, events, m)
    ensures ZoneSafe(f, states[k])
  {
    forall m | 0 <= m < |events| && events[m].Finish? && MetAt(f, states, events, m)
      ensures NoneSlipped(f, states, events, m)
    {
      NothingPendingNothingSlips(f, states, events, m);
    }
    InterleavedZoneRunSafe(f, states, events, k);
  }
}
