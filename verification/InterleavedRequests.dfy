/** Requests that are not atomic: pods are listed zone by zone and judged one by one, while other pods, the
    observer and the clock move on. */
module InterleavedRequests {
  import opened Kube
  import opened EvictionCache
  import opened Budgets
  import opened Eviction
  import opened EvictionRuns

  /** The listing of one zone, the state of the run in which it was taken, and for each listed pod the state
      in which the eviction cache and the clock were consulted about it. */
  datatype Visit = Visit(l: Listing, listed: nat, lookups: seq<nat>)

  /** - `Quiet`: any step but an eviction request.
      - `Finish`: a request that holds the budget's mutex since `start` decides. Its pod was fetched at any
        time before; `owner` is the StatefulSet it takes for the pod's. */
  datatype Event =
    | Quiet(step: Step)
    | Finish(zone: string, owner: StatefulSet, evicted: Pod, fromRollout: bool, start: nat, visits: seq<Visit>)

  function Seen(v: View, s: State): View {
    v.(entries := s.entries, now := s.now)
  }

  // ----- the zone loop -----

  predicate LooksUp(states: seq<State>, pods: seq<Pod>, lookups: seq<nat>) {
    |lookups| == |pods| && forall j | 0 <= j < |lookups| :: lookups[j] < |states|
  }

  predicate Complete(states: seq<State>, r: Visit) {
    r.l.pods.Some? ==> LooksUp(states, r.l.pods.value, r.lookups)
  }

  function NotReadyAt(v: View, states: seq<State>, pods: seq<Pod>, lookups: seq<nat>): nat
    requires LooksUp(states, pods, lookups)
  {
    if pods == [] then 0
    else
      var j := |pods| - 1;
      NotReadyAt(v, states, pods[..j], lookups[..j])
      + if CountsNotReady(Seen(v, states[lookups[j]]), pods[j]) then 1 else 0
  }

  function TallyAt(v: View, states: seq<State>, r: Visit): ZoneStatus
    requires r.l.pods.Some? && Complete(states, r)
  {
    var pods := r.l.pods.value;
    ZoneStatus(TestedCount(v, pods), NotReadyAt(v, states, pods, r.lookups), UnknownCount(r.l.sts, |pods|))
  }

  predicate Within(states: seq<State>, visits: seq<Visit>) {
    forall r | r in visits :: Complete(states, r)
  }

  function ScanVisits(v: View, states: seq<State>, acc: Option<ZoneStatus>, visits: seq<Visit>): Scan
    requires Within(states, visits)
    decreases |visits|
  {
    if visits == [] then Done(acc)
    else
      var r, rest := visits[0], visits[1..];
      if !ConsidersSts(v, r.l.sts) then ScanVisits(v, states, acc, rest)
      else if r.l.pods.None? then ListFailed
      else
        match Accumulate(v, acc, r.l.sts, TallyAt(v, states, r))
        case Rejected => Disrupted
        case Accepted(acc') => ScanVisits(v, states, acc', rest)
  }

  predicate VisitsMet(v: View, states: seq<State>, visits: seq<Visit>, limit: nat)
    requires Within(states, visits)
  {
    var s := ScanVisits(v, states, InitialResult(v.mode), visits);
    s.Done? && s.result.Some? && Disruption(s.result.value) < limit
  }

  // ----- all lookups in one state: the atomic request -----

  function Listings(visits: seq<Visit>): seq<Listing> {
    if visits == [] then [] else [visits[0].l] + Listings(visits[1..])
  }

  predicate AllAt(visits: seq<Visit>, m: nat) {
    forall r, j | r in visits && 0 <= j < |r.lookups| :: r.lookups[j] == m
  }

  lemma {:induction false} OneMomentTally(v: View, states: seq<State>, pods: seq<Pod>, lookups: seq<nat>, m: nat)
    requires LooksUp(states, pods, lookups) && m < |states| && forall j | 0 <= j < |lookups| :: lookups[j] == m
    ensures NotReadyAt(v, states, pods, lookups) == NotReadyCount(Seen(v, states[m]), pods)
    ensures TestedCount(v, pods) == TestedCount(Seen(v, states[m]), pods)
  {
    if pods != [] {
      var j := |pods| - 1;
      OneMomentTally(v, states, pods[..j], lookups[..j], m);
    }
  }

  lemma OneMomentVisit(v: View, states: seq<State>, r: Visit, m: nat)
    requires r.l.pods.Some? && Complete(states, r) && m < |states|
    requires forall j | 0 <= j < |r.lookups| :: r.lookups[j] == m
    ensures TallyAt(v, states, r) == Tally(Seen(v, states[m]), r.l.sts, r.l.pods.value)
  {
    OneMomentTally(v, states, r.l.pods.value, r.lookups, m);
  }

  lemma {:induction false} OneMomentScan(
    v: View, states: seq<State>, acc: Option<ZoneStatus>, visits: seq<Visit>, m: nat)
    requires Within(states, visits) && m < |states| && AllAt(visits, m)
    ensures ScanVisits(v, states, acc, visits) == ScanZones(Seen(v, states[m]), acc, Listings(visits))
    decreases |visits|
  {
    if visits != [] {
      var r, rest := visits[0], visits[1..];
      assert r in visits && AllAt(rest, m);
      assert Listings(visits)[1..] == Listings(rest);
      if !ConsidersSts(v, r.l.sts) {
        OneMomentScan(v, states, acc, rest, m);
      } else if r.l.pods.Some? {
        OneMomentVisit(v, states, r, m);
        var a := Accumulate(v, acc, r.l.sts, TallyAt(v, states, r));
        if a.Accepted? {
          OneMomentScan(v, states, a.result, rest, m);
        }
      }
    }
  }

  lemma OneMomentIsAtomic(v: View, states: seq<State>, visits: seq<Visit>, limit: nat, m: nat)
    requires Within(states, visits) && m < |states| && AllAt(visits, m)
    requires OwnerListed(Listings(visits), v.owner.uid)
    ensures VisitsMet(v, states, visits, limit) <==> Judge(Seen(v, states[m]), Listings(visits), limit).BudgetMet?
  {
    OneMomentScan(v, states, InitialResult(v.mode), visits, m);
    ScanHasResult(Seen(v, states[m]), InitialResult(v.mode), Listings(visits));
  }

  // ----- runs -----

  predicate DistinctVisits(visits: seq<Visit>) {
    forall i, j | 0 <= i < j < |visits| :: visits[i].l.sts.uid != visits[j].l.sts.uid
  }

  predicate Visited(visits: seq<Visit>, uid: string) {
    exists i | 0 <= i < |visits| :: visits[i].l.sts.uid == uid
  }

  /** The zone is listed after `start`, and each lookup happens between the listing and `end`. */
  ghost predicate VisitsZone(f: Fleet, states: seq<State>, start: nat, end: nat, r: Visit)
    requires end < |states|
  {
    && start <= r.listed <= end
    && r.l.sts.uid in f.zones && ShowsSet(f, r.l.sts.uid, r.l.sts)
    && (r.l.pods.Some? ==>
          && ListsZone(states[r.listed], f.zones[r.l.sts.uid], r.l.pods.value)
          && |r.lookups| == |r.l.pods.value|
          && forall j | 0 <= j < |r.lookups| :: r.listed <= r.lookups[j] <= end)
  }

  /** Every zone is visited once, in any order. */
  ghost predicate VisitsFleet(f: Fleet, states: seq<State>, start: nat, end: nat, visits: seq<Visit>)
    requires end < |states|
  {
    && DistinctVisits(visits) && (forall u | u in f.zones :: Visited(visits, u))
    && forall r | r in visits :: VisitsZone(f, states, start, end, r)
  }

  /** UIDs are never reused: no pod of another name ever has the UID of `pod`. */
  ghost predicate OwnsUid(states: seq<State>, pod: Pod) {
    forall s, n | s in states && n in s.pods && s.pods[n].uid == pod.uid :: n == pod.name
  }

  ghost function ViewOf(f: Fleet, s: State, e: Event): View
    requires e.Finish? && e.zone in f.zones && PodPartition(f.budget, e.evicted.name).Some?
  {
    var mode := ModeFor(PodPartition(f.budget, e.evicted.name).value);
    View(mode, f.budget, e.owner, e.evicted, s.entries, s.now)
  }

  function Limit(f: Fleet, e: Event): nat
    requires e.Finish? && e.zone in f.zones && e.zone in f.overrides
  {
    EffectiveLimit(f.budget, e.owner, if e.fromRollout then Some(f.overrides[e.zone]) else None)
  }

  /** Event `k` ends a request that ran under the mutex since `start`. */
  ghost predicate Requests(f: Fleet, states: seq<State>, events: seq<Event>, k: nat)
    requires k < |events| && |states| == |events| + 1
  {
    var e := events[k];
    && e.Finish? && e.zone in f.zones && e.zone in f.overrides && ShowsOwner(f, e.zone, e.owner)
    && e.evicted.name in f.zones[e.zone].names && OwnsUid(states, e.evicted)
    && e.start <= k && QuietBetween(events, e.start, k)
    && VisitsFleet(f, states, e.start, k, e.visits)
  }

  predicate QuietBetween(events: seq<Event>, a: nat, b: nat) {
    b <= |events| && forall m | a <= m < b :: events[m].Quiet?
  }

  ghost predicate MetAt(f: Fleet, states: seq<State>, events: seq<Event>, k: nat)
    requires k < |events| && |states| == |events| + 1
  {
    && Requests(f, states, events, k)
    && PodPartition(f.budget, events[k].evicted.name).Some?
    && VisitsMet(ViewOf(f, states[k], events[k]), states, events[k].visits, Limit(f, events[k]))
  }

  ghost predicate NextAt(f: Fleet, states: seq<State>, events: seq<Event>, k: nat)
    requires k < |events| && |states| == |events| + 1
  {
    var s, s' := states[k], states[k + 1];
    match events[k]
    case Quiet(step) => !step.Evict? && Next(f, s, step, s')
    case Finish(_, _, evicted, _, _, _) =>
      && Requests(f, states, events, k)
      && s' == if MetAt(f, states, events, k) then s.(entries := Recorded(s.entries, evicted, s.now)) else s
  }

  ghost predicate IsInterleavedRun(f: Fleet, states: seq<State>, events: seq<Event>) {
    && |states| == |events| + 1 && Initial(f, states[0])
    && forall k | 0 <= k < |events| :: NextAt(f, states, events, k)
  }

  /** An available pod stays as it is while a request is in flight. */
  lemma {:induction false} AvailableUntil(
    f: Fleet, states: seq<State>, events: seq<Event>, m: nat, k: nat, n: string)
    requires IsInterleavedRun(f, states, events) && m <= k && QuietBetween(events, m, k) && Available(states[m], n)
    ensures Available(states[k], n) && states[k].pods[n] == states[m].pods[n]
  {
    if m < k {
      AvailableUntil(f, states, events, m, k - 1, n);
      assert NextAt(f, states, events, k - 1);
      OtherStepsKeepAvailability(f, states[k - 1], events[k - 1].step, states[k], n);
    }
  }

  // ----- pods that slip between a listing and a lookup -----

  predicate IsPending(s: State, n: string) {
    HasPending(s.entries, n, s.now)
  }

  predicate Changes(step: Step, n: string) {
    step.ChangePod? && step.name == n
  }

  /** The step ends the pod's eviction record: an event with a stopped phase, or time beyond the expiry. */
  predicate Drops(s: State, step: Step, n: string) {
    && IsPending(s, n)
    && ((step.Observe? && step.event.name == n && step.event.phase != Running)
        || (step.Tick? && step.time >= s.entries[n].expires))
  }

  predicate ChangesAt(events: seq<Event>, i: nat, n: string) {
    i < |events| && events[i].Quiet? && Changes(events[i].step, n)
  }

  predicate DropsAt(states: seq<State>, events: seq<Event>, i: nat, n: string) {
    i < |events| && i < |states| && events[i].Quiet? && Drops(states[i], events[i].step, n)
  }

  /** Between `a` and `b` the pod changed, and after that its record was dropped. */
  ghost predicate Slips(states: seq<State>, events: seq<Event>, n: string, a: nat, b: nat) {
    exists i, j | a <= i < j < b :: ChangesAt(events, i, n) && DropsAt(states, events, j, n)
  }

  lemma PendingStep(f: Fleet, s: State, step: Step, s': State, n: string)
    requires Next(f, s, step, s') && !step.Evict?
    ensures IsPending(s', n) <==> IsPending(s, n) && !Drops(s, step, n)
    ensures !Changes(step, n) && n in s.pods ==> n in s'.pods && s'.pods[n] == s.pods[n]
  {
  }

  predicate Same(s: State, s': State, n: string) {
    n in s.pods && n in s'.pods && s'.pods[n] == s.pods[n]
  }

  /** What can have become of a pod that was up when it was listed. */
  lemma {:induction false} SinceListed(f: Fleet, states: seq<State>, events: seq<Event>, n: string, a: nat, b: nat)
    requires IsInterleavedRun(f, states, events) && a <= b && QuietBetween(events, a, b) && Up(states[a], n)
    ensures Slips(states, events, n, a, b) ==> !IsPending(states[b], n)
    ensures !Slips(states, events, n, a, b) ==> IsPending(states[b], n) || Same(states[a], states[b], n)
    ensures (forall i | a <= i < b :: !ChangesAt(events, i, n)) ==> Same(states[a], states[b], n)
  {
    if a < b {
      var c := b - 1;
      SinceListed(f, states, events, n, a, c);
      assert NextAt(f, states, events, c);
      var step := events[c].step;
      PendingStep(f, states[c], step, states[b], n);
      assert ChangesAt(events, c, n) <==> Changes(step, n);
      if Slips(states, events, n, a, c) {
        var i, j :| a <= i < j < c && ChangesAt(events, i, n) && DropsAt(states, events, j, n);
        assert Slips(states, events, n, a, b);
      } else if !IsPending(states[c], n) {
        OtherStepsKeepAvailability(f, states[c], step, states[b], n);
      } else if Drops(states[c], step, n) {
        assert DropsAt(states, events, c, n);
        if i :| a <= i < c && ChangesAt(events, i, n) {
          assert Slips(states, events, n, a, b);
        }
      }
    }
  }

  /** The pod counts as ready by its listing: running and ready, and past the delay where one applies. */
  predicate ReadyAsListed(v: View, s: State, p: Pod) {
    CountsReady(Seen(v, s.(entries := map[])), p)
  }

  /** A listed pod that should be counted as not ready and is not: it is unavailable when it is judged. */
  predicate Missed(v: View, s: State, p: Pod) {
    ConsidersPod(v, p) && p.uid != v.evicted.uid && !Available(s, p.name) && !CountsNotReady(Seen(v, s), p)
  }

  /** In both modes a listed pod is missed if and only if it was ready as listed, slipped before it was judged,
      and has not come back. */
  lemma MissedIffSlipped(f: Fleet, states: seq<State>, events: seq<Event>, v: View, p: Pod, a: nat, b: nat)
    requires IsInterleavedRun(f, states, events) && a <= b && QuietBetween(events, a, b)
    requires p.name in states[a].pods && states[a].pods[p.name] == p
    ensures Missed(v, states[b], p) <==>
            && ConsidersPod(v, p) && p.uid != v.evicted.uid && ReadyAsListed(v, states[b], p)
            && Slips(states, events, p.name, a, b) && !Up(states[b], p.name)
  {
    if RunningAndReady(p) {
      SinceListed(f, states, events, p.name, a, b);
    }
  }

  /** The pod at `j` of a visit slipped. */
  ghost predicate SlippedAt(states: seq<State>, events: seq<Event>, r: Visit, j: nat) {
    && r.l.pods.Some? && j < |r.l.pods.value| && j < |r.lookups|
    && r.lookups[j] < |states| && Slips(states, events, r.l.pods.value[j].name, r.listed, r.lookups[j])
  }

  /** No pod that the request took into account and that was ready as listed slipped and was still down when it
      was judged. */
  ghost predicate NoneSlipped(f: Fleet, states: seq<State>, events: seq<Event>, k: nat)
    requires k < |events| && |states| == |events| + 1 && MetAt(f, states, events, k)
  {
    var e := events[k];
    var v := ViewOf(f, states[k], e);
    forall r, j: nat | r in e.visits && ConsidersSts(v, r.l.sts) && SlippedAt(states, events, r, j) ::
      var p, s := r.l.pods.value[j], states[r.lookups[j]];
      p.name != e.evicted.name && ConsidersPod(v, p) && ReadyAsListed(v, s, p) ==> Up(s, p.name)
  }

  /** No met request of the run overlooked a pod that slipped. */
  ghost predicate NoSlips(f: Fleet, states: seq<State>, events: seq<Event>)
    requires |states| == |events| + 1
  {
    forall k | 0 <= k < |events| && events[k].Finish? && MetAt(f, states, events, k) ::
      NoneSlipped(f, states, events, k)
  }

  /** Under that condition, what a request took for ready is available when the request decides. */
  lemma JudgedReadyIsAvailable(f: Fleet, states: seq<State>, events: seq<Event>, k: nat, r: Visit, j: nat)
    requires IsInterleavedRun(f, states, events) && k < |events| && events[k].Finish? && MetAt(f, states, events, k)
    requires NoneSlipped(f, states, events, k)
    requires r in events[k].visits && r.l.pods.Some? && j < |r.l.pods.value| && |r.lookups| == |r.l.pods.value|
    requires var v, p := ViewOf(f, states[k], events[k]), r.l.pods.value[j];
             && ConsidersSts(v, r.l.sts) && ConsidersPod(v, p) && p.name != events[k].evicted.name
             && r.lookups[j] <= k && CountsReady(Seen(v, states[r.lookups[j]]), p)
    ensures Available(states[k], r.l.pods.value[j].name)
  {
    var e, p, b := events[k], r.l.pods.value[j], r.lookups[j];
    assert VisitsZone(f, states, e.start, k, r);
    assert p in r.l.pods.value;
    SinceListed(f, states, events, p.name, r.listed, b);
    if Slips(states, events, p.name, r.listed, b) {
      assert SlippedAt(states, events, r, j);
    }
    AvailableUntil(f, states, events, b, k, p.name);
  }

  // ----- when nothing can slip -----

  lemma {:induction false} PendingBefore(f: Fleet, states: seq<State>, events: seq<Event>, n: string, a: nat, b: nat)
    requires IsInterleavedRun(f, states, events) && a <= b && QuietBetween(events, a, b) && IsPending(states[b], n)
    ensures IsPending(states[a], n)
  {
    if a < b {
      assert NextAt(f, states, events, b - 1);
      PendingStep(f, states[b - 1], events[b - 1].step, states[b], n);
      PendingBefore(f, states, events, n, a, b - 1);
    }
  }

  /** A pod that is not pending when its zone is listed cannot slip. */
  lemma OnlyPendingSlips(f: Fleet, states: seq<State>, events: seq<Event>, n: string, a: nat, b: nat)
    requires IsInterleavedRun(f, states, events) && a <= b && QuietBetween(events, a, b)
    requires Slips(states, events, n, a, b)
    ensures IsPending(states[a], n)
  {
    var i, j :| a <= i < j < b && ChangesAt(events, i, n) && DropsAt(states, events, j, n);
    PendingBefore(f, states, events, n, a, j);
  }

  /** No zone that the request took into account had a pending pod, the evicted one aside, when it was listed. */
  ghost predicate ListedNothingPending(f: Fleet, states: seq<State>, events: seq<Event>, k: nat)
    requires k < |events| && |states| == |events| + 1 && MetAt(f, states, events, k)
  {
    var e := events[k];
    forall r, p | r in e.visits && ConsidersSts(ViewOf(f, states[k], e), r.l.sts) && r.l.pods.Some?
                  && p in r.l.pods.value && p.name != e.evicted.name :: !IsPending(states[r.listed], p.name)
  }

  lemma NothingPendingNothingSlips(f: Fleet, states: seq<State>, events: seq<Event>, k: nat)
    requires IsInterleavedRun(f, states, events) && k < |events| && MetAt(f, states, events, k)
    requires ListedNothingPending(f, states, events, k)
    ensures NoneSlipped(f, states, events, k)
  {
    var e := events[k];
    var v := ViewOf(f, states[k], e);
    forall r, j: nat | r in e.visits && ConsidersSts(v, r.l.sts) && SlippedAt(states, events, r, j)
      ensures r.l.pods.value[j].name == e.evicted.name
    {
      var p := r.l.pods.value[j];
      assert VisitsZone(f, states, e.start, k, r);
      assert p in r.l.pods.value;
      OnlyPendingSlips(f, states, events, p.name, r.listed, r.lookups[j]);
    }
  }
}
