/** One reconcile of a rollout group: which StatefulSet may lose pods, and which pods. */
module Rollout {
  import opened Kube

  /** A StatefulSet and its pods as the informer caches show them, pods in sorted order. */
  datatype SetView = SetView(sts: StatefulSet, pods: seq<Pod>)

  /** The number of pods a rollout may keep unavailable; an invalid annotation counts as 1. */
  function MaxUnavailable(sts: StatefulSet): (r: nat)
    ensures r >= 1
  {
    match sts.maxUnavailable
    case Unset => 1
    case Percentage(p) =>
      if p.None? || p.value <= 0 || p.value > 100 || sts.specReplicas.None? then 1
      else Max(1, p.value * sts.specReplicas.value / 100)
    case Absolute(n) => if n.None? || n.value <= 0 then 1 else n.value
  }

  /** A valid percentage is rounded down to whole pods, but never below one; a valid count is taken as it is;
      anything else is 1. */
  lemma RolloutLimitMeaning(sts: StatefulSet)
    ensures var r := MaxUnavailable(sts);
            match sts.maxUnavailable
            case Unset => r == 1
            case Absolute(n) => r == if n.Some? && n.value > 0 then n.value else 1
            case Percentage(p) =>
              var n := if sts.specReplicas.Some? then sts.specReplicas.value else 0;
              if p.None? || p.value <= 0 || p.value > 100 then r == 1
              else r <= Max(1, n) && p.value * n < 100 * (r + 1) && (r == 1 || 100 * r <= p.value * n)
  {
    if sts.maxUnavailable.Percentage? && sts.maxUnavailable.percent.Some? && sts.specReplicas.Some? {
      var p, n := sts.maxUnavailable.percent.value, sts.specReplicas.value;
      if 0 < p <= 100 {
        assert p * n <= 100 * n;
      }
    }
  }

  const STUCK_REASONS: set<string> := {
    "CrashLoopBackOff", "ImagePullBackOff", "ErrImagePull", "InvalidImageName",
    "CreateContainerConfigError", "CreateContainerError"
  }

  predicate StuckContainer(c: ContainerStatus) {
    c.state.Waiting? && c.state.reason in STUCK_REASONS
  }

  predicate Stuck(pod: Pod) {
    exists c | c in pod.initContainers + pod.containers :: StuckContainer(c)
  }

  predicate AllUp(pods: seq<Pod>) {
    forall p | p in pods :: RunningAndReady(p)
  }

  /** The reported status, the number of listed pods and the pods themselves must all agree. */
  predicate HasNotReady(v: SetView) {
    || ExpectedReplicas(v.sts) != v.sts.readyReplicas
    || |v.pods| < ExpectedReplicas(v.sts)
    || !AllUp(v.pods)
  }

  function OutdatedPods(pods: seq<Pod>, revision: string): seq<Pod> {
    if pods == [] then []
    else
      var last := pods[|pods| - 1];
      OutdatedPods(pods[..|pods| - 1], revision) + if Revision(last) != revision then [last] else []
  }

  function Outdated(v: SetView): seq<Pod> {
    OutdatedPods(v.pods, v.sts.updateRevision)
  }

  function NotReadyByStatus(sts: StatefulSet): int {
    ExpectedReplicas(sts) - sts.readyReplicas
  }

  function Window(v: SetView): nat {
    Max(0, Min(MaxUnavailable(v.sts) - NotReadyByStatus(v.sts), |Outdated(v)|))
  }

  /** The pods to delete among the first `k` outdated ones. */
  function Selected(outdated: seq<Pod>, window: nat, k: nat): seq<Pod>
    requires k <= |outdated|
  {
    if k == 0 then []
    else
      var p := outdated[k - 1];
      Selected(outdated, window, k - 1) + if !p.deleting && (k - 1 < window || Stuck(p)) then [p] else []
  }

  function Selection(v: SetView): seq<Pod> {
    Selected(Outdated(v), Window(v), |Outdated(v)|)
  }

  /** The answers of the disruption budget and of the API during one reconcile. */
  datatype Answers = Answers(
    permitted: set<string>,     // pods whose deletion the budget permits
    deleteFails: set<string>,   // pods whose delete call fails
    lookupFails: set<string>,   // pods whose budget lookup fails
    statusFails: set<string>)   // StatefulSets whose status update fails

  datatype Deletion = Deletion(deleted: seq<Pod>, failed: bool)

  function Deletions(selected: seq<Pod>, a: Answers): Deletion {
    if selected == [] then Deletion([], false)
    else if selected[0].name !in a.permitted then Deletions(selected[1..], a)
    else if selected[0].name in a.deleteFails then Deletion([], true)
    else
      var rest := Deletions(selected[1..], a);
      Deletion([selected[0]] + rest.deleted, rest.failed)
  }

  datatype Update =
    | RollingPods(deletion: Deletion)  // there are outdated pods
    | WaitingForPods                   // all updated, some not ready
    | Settled(revised: bool)           // done; `revised` when the current revision was moved
    | UpdateFailed

  function UpdateSet(v: SetView, a: Answers): Update {
    if v.sts.currentRevision == "" || v.sts.updateRevision == "" then UpdateFailed
    else if Outdated(v) != [] then
      var selected := Selection(v);
      if selected == [] then RollingPods(Deletion([], false))
      else if selected[0].name in a.lookupFails then RollingPods(Deletion([], true))
      else RollingPods(Deletions(selected, a))
    else if HasNotReady(v) then WaitingForPods
    else if v.sts.currentRevision == v.sts.updateRevision then Settled(false)
    else if v.sts.name in a.statusFails then UpdateFailed
    else Settled(true)
  }

  datatype Stop =
    | BadStrategy
    | TooManyNotReady
    | HeldByPause
    | Rolling(name: string, failed: bool) // stopped at a StatefulSet with outdated pods
    | WaitingFor(name: string)
    | FailedAt(name: string)
    | Completed

  datatype Outcome = Outcome(stop: Stop, deleted: seq<Pod>, revised: seq<string>)

  /** The loop over the sets; `held` names the one set with not-ready pods, if any. */
  function Walk(order: seq<SetView>, held: Option<string>, a: Answers): Outcome {
    if order == [] then Outcome(Completed, [], [])
    else
      var v := order[0];
      if v.sts.paused then
        if held == Some(v.sts.name) then Outcome(HeldByPause, [], []) else Walk(order[1..], held, a)
      else
        match UpdateSet(v, a)
        case RollingPods(d) => Outcome(Rolling(v.sts.name, d.failed), d.deleted, [])
        case WaitingForPods => Outcome(WaitingFor(v.sts.name), [], [])
        case UpdateFailed => Outcome(FailedAt(v.sts.name), [], [])
        case Settled(revised) =>
          var rest := Walk(order[1..], held, a);
          rest.(revised := (if revised then [v.sts.name] else []) + rest.revised)
  }

  function NotReadySets(sets: seq<SetView>): seq<SetView> {
    if sets == [] then []
    else NotReadySets(sets[..|sets| - 1]) + if HasNotReady(sets[|sets| - 1]) then [sets[|sets| - 1]] else []
  }

  function Without(sets: seq<SetView>, name: string): seq<SetView> {
    if sets == [] then []
    else Without(sets[..|sets| - 1], name) + if sets[|sets| - 1].sts.name != name then [sets[|sets| - 1]] else []
  }

  predicate AllOnDelete(sets: seq<SetView>) {
    forall v | v in sets :: v.sts.onDelete
  }

  function Reconcile(sets: seq<SetView>, a: Answers): Outcome {
    if !AllOnDelete(sets) then Outcome(BadStrategy, [], [])
    else
      var notReady := NotReadySets(sets);
      if |notReady| > 1 then Outcome(TooManyNotReady, [], [])
      else if |notReady| == 1 then
        Walk([notReady[0]] + Without(sets, notReady[0].sts.name), Some(notReady[0].sts.name), a)
      else Walk(sets, None, a)
  }

  predicate DistinctSets(sets: seq<SetView>) {
    forall i, j | 0 <= i < j < |sets| :: sets[i].sts.name != sets[j].sts.name
  }

  // ----- what one reconcile guarantees, for every snapshot -----

  /** The first `Window(v)` outdated pods. */
  predicate InWindow(v: SetView, p: Pod) {
    p in Outdated(v)[..Window(v)]
  }

  /** The README's guarantees, as a licence for deleting `deleted` from `v`. */
  ghost predicate Licensed(sets: seq<SetView>, v: SetView, deleted: seq<Pod>) {
    && v in sets && !v.sts.paused
    && AllOnDelete(sets)
    && (forall w | w in sets && w != v :: !HasNotReady(w))
    && forall p | p in deleted ::
         p in v.pods && Revision(p) != v.sts.updateRevision && !p.deleting && (InWindow(v, p) || Stuck(p))
  }

  lemma {:induction false} OutdatedMembers(pods: seq<Pod>, revision: string, p: Pod)
    ensures p in OutdatedPods(pods, revision) <==> p in pods && Revision(p) != revision
  {
    if pods != [] {
      var front, last := pods[..|pods| - 1], pods[|pods| - 1];
      OutdatedMembers(front, revision, p);
      assert pods == front + [last];
    }
  }

  lemma {:induction false} SelectedMembers(outdated: seq<Pod>, window: nat, k: nat, p: Pod)
    requires k <= |outdated| && window <= |outdated|
    requires p in Selected(outdated, window, k)
    ensures p in outdated && !p.deleting && (p in outdated[..window] || Stuck(p))
  {
    if p in Selected(outdated, window, k - 1) {
      SelectedMembers(outdated, window, k - 1, p);
    } else {
      assert p == outdated[k - 1];
      if k - 1 < window {
        assert outdated[..window][k - 1] == p;
      }
    }
  }

  lemma {:induction false} DeletionsAreSelected(selected: seq<Pod>, a: Answers, p: Pod)
    requires p in Deletions(selected, a).deleted
    ensures p in selected && p.name in a.permitted && p.name !in a.deleteFails
  {
    if selected[0].name !in a.permitted || p != selected[0] {
      DeletionsAreSelected(selected[1..], a, p);
    }
  }

  lemma SetDeletesLicensed(v: SetView, a: Answers, p: Pod)
    requires var u := UpdateSet(v, a); u.RollingPods? && p in u.deletion.deleted
    ensures p in v.pods && Revision(p) != v.sts.updateRevision && !p.deleting && (InWindow(v, p) || Stuck(p))
  {
    DeletionsAreSelected(Selection(v), a, p);
    SelectedMembers(Outdated(v), Window(v), |Outdated(v)|, p);
    OutdatedMembers(v.pods, v.sts.updateRevision, p);
  }

  /** The loop stops with outdated pods at `order[i]`. */
  predicate StopsRollingAt(order: seq<SetView>, a: Answers, o: Outcome, i: nat) {
    && i < |order| && o.stop.Rolling?
    && order[i].sts.name == o.stop.name && !order[i].sts.paused
    && UpdateSet(order[i], a) == RollingPods(Deletion(o.deleted, o.stop.failed))
  }

  /** Where the loop stops, and that it passed only paused and settled sets on the way. */
  lemma {:induction false} WalkStops(order: seq<SetView>, held: Option<string>, a: Answers) returns (i: nat)
    requires Walk(order, held, a).stop.Rolling?
    ensures StopsRollingAt(order, a, Walk(order, held, a), i)
    ensures forall j | 0 <= j < i :: order[j].sts.paused || UpdateSet(order[j], a).Settled?
    ensures forall j | 0 <= j < i :: order[j].sts.paused ==> held != Some(order[j].sts.name)
  {
    var v := order[0];
    if v.sts.paused || UpdateSet(v, a).Settled? {
      var tail := order[1..];
      var k := WalkStops(tail, held, a);
      i := k + 1;
      forall j | 0 < j <= i ensures order[j] == tail[j - 1] {}
    } else {
      i := 0;
    }
  }

  lemma {:induction false} WalkOnlyRollingDeletes(order: seq<SetView>, held: Option<string>, a: Answers)
    ensures var o := Walk(order, held, a); o.deleted != [] ==> o.stop.Rolling?
  {
    if order != [] {
      WalkOnlyRollingDeletes(order[1..], held, a);
    }
  }

  lemma {:induction false} NotReadySetsMembers(sets: seq<SetView>, v: SetView)
    ensures v in NotReadySets(sets) <==> v in sets && HasNotReady(v)
  {
    if sets != [] {
      var front, last := sets[..|sets| - 1], sets[|sets| - 1];
      NotReadySetsMembers(front, v);
      assert sets == front + [last];
    }
  }

  lemma SameNameSameSet(sets: seq<SetView>, v: SetView, w: SetView)
    requires DistinctSets(sets) && v in sets && w in sets && v.sts.name == w.sts.name
    ensures v == w
  {
  }

  /** A set with not-ready pods is never passed. */
  lemma NotReadySetStops(order: seq<SetView>, a: Answers)
    requires order != [] && HasNotReady(order[0]) && Walk(order, Some(order[0].sts.name), a).stop.Rolling?
    ensures StopsRollingAt(order, a, Walk(order, Some(order[0].sts.name), a), 0)
  {
    var i := WalkStops(order, Some(order[0].sts.name), a);
  }

  ghost predicate IsRollingSet(sets: seq<SetView>, a: Answers, v: SetView) {
    var o := Reconcile(sets, a);
    && o.stop.Rolling?
    && v in sets && v.sts.name == o.stop.name && !v.sts.paused
    && UpdateSet(v, a) == RollingPods(Deletion(o.deleted, o.stop.failed))
    && AllOnDelete(sets)
    && forall w | w in sets && w != v :: !HasNotReady(w)
  }

  lemma RollingNotReadySet(sets: seq<SetView>, a: Answers)
    requires AllOnDelete(sets) && |NotReadySets(sets)| == 1 && Reconcile(sets, a).stop.Rolling?
    ensures IsRollingSet(sets, a, NotReadySets(sets)[0])
  {
    var v := NotReadySets(sets)[0];
    NotReadySetsMembers(sets, v);
    NotReadySetStops([v] + Without(sets, v.sts.name), a);
    forall w | w in sets && w != v ensures !HasNotReady(w) {
      NotReadySetsMembers(sets, w);
    }
  }

  lemma RollingReadyGroup(sets: seq<SetView>, a: Answers) returns (v: SetView)
    requires AllOnDelete(sets) && NotReadySets(sets) == [] && Reconcile(sets, a).stop.Rolling?
    ensures IsRollingSet(sets, a, v)
  {
    var i := WalkStops(sets, None, a);
    v := sets[i];
    forall w | w in sets ensures !HasNotReady(w) {
      NotReadySetsMembers(sets, w);
    }
  }

  /** The set a reconcile is rolling: it is not paused, and every other set of the group is ready. */
  lemma RollingSet(sets: seq<SetView>, a: Answers) returns (v: SetView)
    requires Reconcile(sets, a).stop.Rolling?
    ensures IsRollingSet(sets, a, v)
  {
    if |NotReadySets(sets)| == 1 {
      RollingNotReadySet(sets, a);
      v := NotReadySets(sets)[0];
    } else {
      v := RollingReadyGroup(sets, a);
    }
  }

  /** README guarantees 1 to 4 for one reconcile and every snapshot: all deletions are in one unpaused
      set, all other sets are ready, all sets use OnDelete, and each deleted pod is outdated, not
      terminating, and inside the availability window or stuck already. */
  lemma ReconcileLicensed(sets: seq<SetView>, a: Answers) returns (v: SetView)
    requires Reconcile(sets, a).deleted != []
    ensures Licensed(sets, v, Reconcile(sets, a).deleted) && Reconcile(sets, a).stop.Rolling?
    ensures v.sts.name == Reconcile(sets, a).stop.name
  {
    var notReady := NotReadySets(sets);
    if |notReady| == 1 {
      WalkOnlyRollingDeletes([notReady[0]] + Without(sets, notReady[0].sts.name), Some(notReady[0].sts.name), a);
    } else {
      WalkOnlyRollingDeletes(sets, None, a);
    }
    v := RollingSet(sets, a);
    forall p | p in Reconcile(sets, a).deleted
      ensures p in v.pods && Revision(p) != v.sts.updateRevision && !p.deleting && (InWindow(v, p) || Stuck(p))
    {
      SetDeletesLicensed(v, a, p);
    }
  }
}
