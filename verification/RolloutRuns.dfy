/** Rollout guarantees over runs in which the StatefulSet status is exact. */
module RolloutRuns {
  import opened Kube
  import opened Rollout

  function ReadyNames(pods: seq<Pod>): set<string> {
    set p | p in pods && RunningAndReady(p) :: p.name
  }

  /** The StatefulSet status reports the pods that exist, and a stuck pod is not ready. */
  ghost predicate Exact(v: SetView) {
    && v.sts.specReplicas.Some? && |v.pods| <= v.sts.specReplicas.value
    && v.sts.statusReplicas == |v.pods|
    && v.sts.readyReplicas == |ReadyNames(v.pods)|
    && DistinctNames(v.pods)
    && forall p | p in v.pods && Stuck(p) :: !RunningAndReady(p)
  }

  /** The number of not-ready or missing pods, counted against the size the set is meant to have. */
  function Down(v: SetView): int {
    (if v.sts.specReplicas.Some? then v.sts.specReplicas.value else 0) - |ReadyNames(v.pods)|
  }

  type Group = seq<SetView>

  ghost predicate ExactGroup(g: Group) {
    DistinctSets(g) && forall i | 0 <= i < |g| :: Exact(g[i])
  }

  /** At most one set has pods down, and never more than its maxUnavailable. */
  ghost predicate GroupSafe(g: Group) {
    && (forall i | 0 <= i < |g| :: Down(g[i]) <= MaxUnavailable(g[i].sts))
    && (forall i, j | 0 <= i < j < |g| :: Down(g[i]) == 0 || Down(g[j]) == 0)
  }

  // ----- deleting pods -----

  function MarkDeleting(pods: seq<Pod>, deleted: seq<Pod>): seq<Pod> {
    seq(|pods|, i requires 0 <= i < |pods| => if pods[i] in deleted then pods[i].(deleting := true) else pods[i])
  }

  /** The status follows the pods; nothing else changes. */
  function WithPods(v: SetView, pods: seq<Pod>): SetView {
    SetView(v.sts.(statusReplicas := |pods|, readyReplicas := |ReadyNames(pods)|), pods)
  }

  /** The set after a reconcile with outcome `o`. */
  function After(v: SetView, o: Outcome): SetView {
    var pods := if o.stop.Rolling? && o.stop.name == v.sts.name then MarkDeleting(v.pods, o.deleted) else v.pods;
    var w := WithPods(v, pods);
    if v.sts.name in o.revised then w.(sts := w.sts.(currentRevision := v.sts.updateRevision)) else w
  }

  function AfterAll(g: Group, o: Outcome): Group {
    seq(|g|, i requires 0 <= i < |g| => After(g[i], o))
  }

  // ----- runs -----

  datatype Step =
    | ReconcileStep(answers: Answers)
    | PodsChange(index: nat, pods: seq<Pod>)
    | Revise(index: nat, revision: string)
    | Pause(index: nat, paused: bool)

  /** - `ReconcileStep`: deleted pods become terminating.
      - `PodsChange`: the pods that are not ready stop, vanish, are recreated, get stuck or become ready,
        in any combination; ready pods stay as they are (no involuntary failures).
      - `Revise`: the StatefulSet gets a new update revision in the middle of a rollout.
      - `Pause`: the pause annotation changes. */
  ghost predicate Next(g: Group, step: Step, g': Group) {
    match step
    case ReconcileStep(answers) => g' == AfterAll(g, Reconcile(g, answers))
    case PodsChange(i, pods) =>
      && i < |g|
      && (forall p | p in g[i].pods && RunningAndReady(p) :: p in pods)
      && g' == g[i := WithPods(g[i], pods)]
      && Exact(g'[i])
    case Revise(i, revision) =>
      i < |g| && g' == g[i := g[i].(sts := g[i].sts.(updateRevision := revision))]
    case Pause(i, paused) =>
      i < |g| && g' == g[i := g[i].(sts := g[i].sts.(paused := paused))]
  }

  ghost predicate IsRun(groups: seq<Group>, steps: seq<Step>) {
    && |groups| == |steps| + 1
    && forall k | 0 <= k < |steps| :: Next(groups[k], steps[k], groups[k + 1])
  }

  // ----- ready pods and names -----

  lemma ReadyNamesListed(pods: seq<Pod>)
    requires DistinctNames(pods)
    ensures ReadyNames(pods) <= Names(pods) && |ReadyNames(pods)| <= |pods|
    ensures |ReadyNames(pods)| == |pods| ==> AllUp(pods)
  {
    forall n | n in ReadyNames(pods) ensures n in Names(pods) {
      var p :| p in pods && RunningAndReady(p) && p.name == n;
    }
    NamesCardinality(pods);
    SubsetCardinality(ReadyNames(pods), Names(pods));
    if |ReadyNames(pods)| == |pods| {
      assert Names(pods) == ReadyNames(pods) + (Names(pods) - ReadyNames(pods));
      forall p | p in pods ensures RunningAndReady(p) {
        assert p.name in Names(pods);
        assert p.name in ReadyNames(pods);
        var q :| q in pods && RunningAndReady(q) && q.name == p.name;
      }
    }
  }

  /** With an exact status, the operator's test finds exactly the sets with pods down. */
  lemma NotReadyIffDown(v: SetView)
    requires Exact(v)
    ensures 0 <= Down(v) && (HasNotReady(v) <==> Down(v) > 0)
  {
    ReadyNamesListed(v.pods);
  }

  lemma {:induction false} PrefixNames(pods: seq<Pod>, k: nat)
    requires k <= |pods|
    ensures |Names(pods[..k])| <= k
  {
    if k > 0 {
      var front := pods[..k];
      NamesOfPrefix(front);
      assert front[..|front| - 1] == pods[..k - 1];
      PrefixNames(pods, k - 1);
    } else {
      assert Names(pods[..k]) == {};
    }
  }

  lemma MarkedDistinct(pods: seq<Pod>, deleted: seq<Pod>)
    requires DistinctNames(pods)
    ensures DistinctNames(MarkDeleting(pods, deleted))
  {
  }

  /** A pod that stays unmarked and ready is still ready. */
  lemma ReadyAfterMarking(pods: seq<Pod>, deleted: seq<Pod>, gone: set<string>)
    requires forall p | p in pods && p in deleted && RunningAndReady(p) :: p.name in gone
    ensures ReadyNames(pods) - gone <= ReadyNames(MarkDeleting(pods, deleted))
  {
    var marked := MarkDeleting(pods, deleted);
    forall n | n in ReadyNames(pods) - gone ensures n in ReadyNames(marked) {
      var p :| p in pods && RunningAndReady(p) && p.name == n;
      var i :| 0 <= i < |pods| && pods[i] == p;
      assert marked[i] == p;
    }
  }

  /** Deleting what the window allows, and pods that are stuck already, keeps the set within its limit. */
  lemma DeletingKeepsLimit(v: SetView, deleted: seq<Pod>)
    requires Exact(v)
    requires forall p | p in deleted :: p in v.pods && (InWindow(v, p) || Stuck(p))
    ensures var pods := MarkDeleting(v.pods, deleted);
            |ReadyNames(pods)| >= |ReadyNames(v.pods)| - Window(v)
  {
    var gone := Names(Outdated(v)[..Window(v)]);
    PrefixNames(Outdated(v), Window(v));
    forall p | p in v.pods && p in deleted && RunningAndReady(p) ensures p.name in gone {
      assert InWindow(v, p);
    }
    ReadyAfterMarking(v.pods, deleted, gone);
    var pods := MarkDeleting(v.pods, deleted);
    SubsetCardinality(ReadyNames(v.pods) - gone, ReadyNames(pods));
    assert ReadyNames(v.pods) == (ReadyNames(v.pods) - gone) + (ReadyNames(v.pods) * gone);
    SubsetCardinality(ReadyNames(v.pods) * gone, gone);
  }

  lemma MarkingKeepsExact(v: SetView, deleted: seq<Pod>)
    requires Exact(v)
    ensures Exact(WithPods(v, MarkDeleting(v.pods, deleted)))
  {
    var pods := MarkDeleting(v.pods, deleted);
    MarkedDistinct(v.pods, deleted);
    forall p | p in pods && Stuck(p) ensures !RunningAndReady(p) {
      var i :| 0 <= i < |pods| && pods[i] == p;
      assert v.pods[i] in v.pods;
      if p != v.pods[i] {
        assert p.deleting;
      }
    }
  }

  // ----- every step keeps the invariant -----

  predicate RollsSet(o: Outcome, v: SetView) {
    o.stop.Rolling? && o.stop.name == v.sts.name
  }

  lemma UnrolledUnchanged(v: SetView, o: Outcome)
    requires Exact(v) && (RollsSet(o, v) ==> o.deleted == [])
    ensures After(v, o).pods == v.pods && Exact(After(v, o)) && Down(After(v, o)) == Down(v)
  {
    assert MarkDeleting(v.pods, []) == v.pods;
  }

  lemma RolledWithinLimit(v: SetView, o: Outcome)
    requires Exact(v) && Down(v) <= MaxUnavailable(v.sts) && RollsSet(o, v)
    requires forall p | p in o.deleted :: p in v.pods && (InWindow(v, p) || Stuck(p))
    ensures Exact(After(v, o)) && Down(After(v, o)) <= MaxUnavailable(v.sts)
  {
    MarkingKeepsExact(v, o.deleted);
    DeletingKeepsLimit(v, o.deleted);
    NotReadyIffDown(v);
  }

  /** The set being rolled stays within its limit; every other set is untouched, and fully ready if
      anything was deleted. */
  lemma AfterKeepsSafe(g: Group, a: Answers, i: nat)
    requires ExactGroup(g) && GroupSafe(g) && i < |g|
    ensures var o := Reconcile(g, a); var w := After(g[i], o);
            && Exact(w) && Down(w) <= MaxUnavailable(g[i].sts)
            && (o.deleted == [] ==> Down(w) == Down(g[i]))
            && (o.deleted != [] && !RollsSet(o, g[i]) ==> Down(w) == 0)
  {
    var o, v := Reconcile(g, a), g[i];
    assert v in g;
    if o.deleted != [] {
      var t := ReconcileLicensed(g, a);
      if RollsSet(o, v) {
        SameNameSameSet(g, v, t);
        RolledWithinLimit(v, o);
      } else {
        NotReadyIffDown(v);
        UnrolledUnchanged(v, o);
      }
    } else {
      UnrolledUnchanged(v, o);
    }
  }

  lemma ReconcileKeepsSafe(g: Group, a: Answers)
    requires ExactGroup(g) && GroupSafe(g)
    ensures var g' := AfterAll(g, Reconcile(g, a)); ExactGroup(g') && GroupSafe(g')
  {
    var o := Reconcile(g, a);
    var g' := AfterAll(g, o);
    forall i | 0 <= i < |g|
      ensures Exact(g'[i]) && Down(g'[i]) <= MaxUnavailable(g'[i].sts) && g'[i].sts.name == g[i].sts.name
      ensures o.deleted == [] ==> Down(g'[i]) == Down(g[i])
      ensures o.deleted != [] && !RollsSet(o, g[i]) ==> Down(g'[i]) == 0
    {
      AfterKeepsSafe(g, a, i);
    }
  }

  lemma ReadyOnlyGrows(pods: seq<Pod>, pods': seq<Pod>)
    requires forall p | p in pods && RunningAndReady(p) :: p in pods'
    ensures |ReadyNames(pods)| <= |ReadyNames(pods')|
  {
    forall n | n in ReadyNames(pods) ensures n in ReadyNames(pods') {
      var p :| p in pods && RunningAndReady(p) && p.name == n;
    }
    SubsetCardinality(ReadyNames(pods), ReadyNames(pods'));
  }

  /** Replacing one set by one that is no worse keeps the invariant. */
  lemma ReplacementKeepsSafe(g: Group, i: nat, w: SetView)
    requires ExactGroup(g) && GroupSafe(g) && i < |g| && Exact(w)
    requires w.sts.name == g[i].sts.name && MaxUnavailable(w.sts) == MaxUnavailable(g[i].sts) && Down(w) <= Down(g[i])
    ensures ExactGroup(g[i := w]) && GroupSafe(g[i := w])
  {
    var g' := g[i := w];
    NotReadyIffDown(w);
    assert forall j | 0 <= j < |g| :: j != i ==> g'[j] == g[j];
  }

  lemma StepKeepsSafe(g: Group, step: Step, g': Group)
    requires ExactGroup(g) && GroupSafe(g) && Next(g, step, g')
    ensures ExactGroup(g') && GroupSafe(g')
  {
    match step
    case ReconcileStep(answers) =>
      ReconcileKeepsSafe(g, answers);
    case PodsChange(i, pods) =>
      ReadyOnlyGrows(g[i].pods, pods);
      ReplacementKeepsSafe(g, i, g'[i]);
    case Revise(i, _) =>
      ReplacementKeepsSafe(g, i, g'[i]);
    case Pause(i, _) =>
      ReplacementKeepsSafe(g, i, g'[i]);
  }

  /** Over any run of reconciles, pod changes, mid-rollout revision changes and pauses, at most one set of
      the group has not-ready or missing pods, and no more than its maxUnavailable. */
  lemma {:induction false} RolloutRunSafe(groups: seq<Group>, steps: seq<Step>)
    requires IsRun(groups, steps) && ExactGroup(groups[0]) && GroupSafe(groups[0])
    ensures forall g | g in groups :: ExactGroup(g) && GroupSafe(g)
  {
    var k := 0;
    while k < |steps|
      invariant 0 <= k <= |steps|
      invariant forall j | 0 <= j <= k :: ExactGroup(groups[j]) && GroupSafe(groups[j])
    {
      assert Next(groups[k], steps[k], groups[k + 1]);
      StepKeepsSafe(groups[k], steps[k], groups[k + 1]);
      k := k + 1;
    }
  }
}
