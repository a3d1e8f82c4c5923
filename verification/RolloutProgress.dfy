/** A rollout that nothing blocks finishes: a termination measure over runs of reconciles and pod changes. */
module RolloutProgress {
  import opened Kube
  import opened Rollout
  import opened RolloutRuns

  /** All pods exist and are ready, nothing is paused, the strategy is OnDelete, the revisions are known. */
  ghost predicate Unblocked(g: Group) {
    && ExactGroup(g)
    && forall i | 0 <= i < |g| ::
         && Down(g[i]) == 0 && g[i].sts.onDelete && !g[i].sts.paused
         && g[i].sts.currentRevision != "" && g[i].sts.updateRevision != ""
  }

  /** The API answers, and the disruption budget permits at least one pod of whatever set is asked about. */
  ghost predicate Permissive(g: Group, a: Answers) {
    && a.deleteFails == {} && a.lookupFails == {} && a.statusFails == {}
    && forall i | 0 <= i < |g| && Outdated(g[i]) != [] :: exists p | p in Selection(g[i]) :: p.name in a.permitted
  }

  /** The StatefulSet controller creates pods at the update revision only: a pod at another revision was there
      before at that revision, and is ready only if it did not change. */
  predicate Renews(v: SetView, pods: seq<Pod>) {
    forall p | p in pods && Revision(p) != v.sts.updateRevision ::
      exists q | q in v.pods :: q.name == p.name && Revision(q) == Revision(p) && (RunningAndReady(p) ==> p == q)
  }

  /** Reconciles, whatever their calls answer, and pods that stop, vanish, come back and become ready, in any order. */
  ghost predicate RollsOn(g: Group, step: Step, g': Group) {
    && Next(g, step, g')
    && match step
       case ReconcileStep(_) => true
       case PodsChange(i, pods) => Renews(g[i], pods)
       case Revise(_, _) => false
       case Pause(_, _) => false
  }

  /** The group is being rolled out: nothing is paused, the strategy is OnDelete, the revisions are known. */
  ghost predicate InRollout(g: Group) {
    && ExactGroup(g) && GroupSafe(g)
    && forall i | 0 <= i < |g| ::
         && g[i].sts.onDelete && !g[i].sts.paused
         && g[i].sts.currentRevision != "" && g[i].sts.updateRevision != ""
  }

  ghost predicate IsRolloutRun(groups: seq<Group>, steps: seq<Step>) {
    && |groups| == |steps| + 1 && Unblocked(groups[0])
    && forall k | 0 <= k < |steps| :: RollsOn(groups[k], steps[k], groups[k + 1])
  }

  /** The names of the outdated pods that are ready. */
  function ReadyOutdated(v: SetView): set<string> {
    set p | p in v.pods && RunningAndReady(p) && Revision(p) != v.sts.updateRevision :: p.name
  }

  /** The termination measure. */
  function Remaining(g: Group): nat {
    if g == [] then 0 else Remaining(g[..|g| - 1]) + |ReadyOutdated(g[|g| - 1])|
  }

  ghost predicate Finished(g: Group) {
    forall i | 0 <= i < |g| :: Outdated(g[i]) == [] && g[i].sts.currentRevision == g[i].sts.updateRevision
  }

  // ----- a ready set with outdated pods loses at least one -----

  lemma UpIffReady(v: SetView)
    requires Exact(v) && Down(v) == 0
    ensures !HasNotReady(v) && AllUp(v.pods) && NotReadyByStatus(v.sts) == 0
  {
    NotReadyIffDown(v);
  }

  lemma {:induction false} SelectsFirst(outdated: seq<Pod>, window: nat, k: nat)
    requires 1 <= k <= |outdated| && window >= 1 && !outdated[0].deleting
    ensures outdated[0] in Selected(outdated, window, k)
  {
    if k > 1 {
      SelectsFirst(outdated, window, k - 1);
    }
  }

  lemma {:induction false} DeletesPermitted(selected: seq<Pod>, a: Answers, p: Pod)
    requires p in selected && p.name in a.permitted && a.deleteFails == {}
    ensures Deletions(selected, a).deleted != []
  {
    if selected[0].name !in a.permitted {
      DeletesPermitted(selected[1..], a, p);
    }
  }

  lemma RollsAtLeastOne(g: Group, a: Answers, i: nat)
    requires Unblocked(g) && Permissive(g, a) && i < |g| && Outdated(g[i]) != []
    ensures UpdateSet(g[i], a).RollingPods? && UpdateSet(g[i], a).deletion.deleted != []
  {
    var v := g[i];
    UpIffReady(v);
    var first := Outdated(v)[0];
    assert first in Outdated(v);
    OutdatedMembers(v.pods, v.sts.updateRevision, first);
    SelectsFirst(Outdated(v), Window(v), |Outdated(v)|);
    var p :| p in Selection(v) && p.name in a.permitted;
    DeletesPermitted(Selection(v), a, p);
  }

  // ----- where an unblocked reconcile stops -----

  lemma {:induction false} NoneNotReady(g: Group)
    requires forall i | 0 <= i < |g| :: !HasNotReady(g[i])
    ensures NotReadySets(g) == []
  {
    if g != [] {
      NoneNotReady(g[..|g| - 1]);
    }
  }

  /** Pods are deleted if any set from `k` on is outdated; otherwise none is, and every stale current
      revision is moved. */
  ghost predicate Advances(g: Group, k: nat, o: Outcome) {
    && ((exists i | k <= i < |g| :: Outdated(g[i]) != []) ==> o.deleted != [])
    && ((forall i | k <= i < |g| :: Outdated(g[i]) == []) ==>
          && o.stop == Completed && o.deleted == []
          && forall i | k <= i < |g| ::
               g[i].sts.name in o.revised || g[i].sts.currentRevision == g[i].sts.updateRevision)
  }

  lemma {:induction false} UnblockedWalk(g: Group, a: Answers, k: nat)
    requires Unblocked(g) && Permissive(g, a) && k <= |g|
    ensures Advances(g, k, Walk(g[k..], None, a))
    decreases |g| - k
  {
    if k < |g| {
      assert g[k..][1..] == g[k + 1..];
      UpIffReady(g[k]);
      if Outdated(g[k]) != [] {
        RollsAtLeastOne(g, a, k);
      } else {
        UnblockedWalk(g, a, k + 1);
      }
    }
  }

  lemma UnblockedReconcile(g: Group, a: Answers)
    requires Unblocked(g) && Permissive(g, a)
    ensures Advances(g, 0, Reconcile(g, a))
  {
    forall i | 0 <= i < |g| ensures !HasNotReady(g[i]) {
      UpIffReady(g[i]);
    }
    NoneNotReady(g);
    UnblockedWalk(g, a, 0);
    assert g[0..] == g;
  }

  // ----- the measure never grows -----

  predicate NoneAdded(g: Group, g': Group) {
    |g| == |g'| && forall i | 0 <= i < |g| :: ReadyOutdated(g'[i]) <= ReadyOutdated(g[i])
  }

  lemma {:induction false} RemainingShrinks(g: Group, g': Group)
    requires NoneAdded(g, g')
    ensures Remaining(g') <= Remaining(g)
  {
    if g != [] {
      var k := |g| - 1;
      RemainingShrinks(g[..k], g'[..k]);
      SubsetCardinality(ReadyOutdated(g'[k]), ReadyOutdated(g[k]));
    }
  }

  lemma {:induction false} RemainingShrinksStrictly(g: Group, g': Group, i: nat, n: string)
    requires NoneAdded(g, g') && i < |g| && n in ReadyOutdated(g[i]) && n !in ReadyOutdated(g'[i])
    ensures Remaining(g') < Remaining(g)
  {
    var k := |g| - 1;
    if i == k {
      RemainingShrinks(g[..k], g'[..k]);
      SubsetCardinality(ReadyOutdated(g'[k]), ReadyOutdated(g[k]) - {n});
    } else {
      RemainingShrinksStrictly(g[..k], g'[..k], i, n);
      SubsetCardinality(ReadyOutdated(g'[k]), ReadyOutdated(g[k]));
    }
  }

  lemma MarkingAddsNone(v: SetView, o: Outcome)
    ensures ReadyOutdated(After(v, o)) <= ReadyOutdated(v)
  {
    var w := After(v, o);
    forall n | n in ReadyOutdated(w) ensures n in ReadyOutdated(v) {
      var p :| p in w.pods && RunningAndReady(p) && Revision(p) != w.sts.updateRevision && p.name == n;
      var j :| 0 <= j < |w.pods| && w.pods[j] == p;
      assert v.pods[j] in v.pods;
    }
  }

  lemma RenewingAddsNone(v: SetView, pods: seq<Pod>)
    requires Renews(v, pods)
    ensures ReadyOutdated(WithPods(v, pods)) <= ReadyOutdated(v)
  {
  }

  lemma StepAddsNone(g: Group, step: Step, g': Group)
    requires RollsOn(g, step, g')
    ensures NoneAdded(g, g')
  {
    forall i | 0 <= i < |g| ensures ReadyOutdated(g'[i]) <= ReadyOutdated(g[i]) {
      match step
      case ReconcileStep(a) => MarkingAddsNone(g[i], Reconcile(g, a));
      case PodsChange(_, pods) =>
        if i == step.index {
          RenewingAddsNone(g[i], pods);
        }
    }
  }

  lemma StaysInRollout(g: Group, step: Step, g': Group)
    requires InRollout(g) && RollsOn(g, step, g')
    ensures InRollout(g')
  {
    StepKeepsSafe(g, step, g');
  }

  // ----- a reconcile that finds the group settled -----

  /** A deleted pod is not ready afterwards, and names are not shared. */
  lemma DeletedIsGone(v: SetView, o: Outcome, p: Pod)
    requires DistinctNames(v.pods) && RollsSet(o, v) && p in v.pods && p in o.deleted
    ensures p.name !in ReadyOutdated(After(v, o))
  {
    var w := After(v, o);
    var i :| 0 <= i < |v.pods| && v.pods[i] == p;
    forall q | q in w.pods && q.name == p.name ensures !RunningAndReady(q) {
      var j :| 0 <= j < |w.pods| && w.pods[j] == q;
      assert v.pods[j].name == v.pods[i].name;
    }
  }

  /** Deleting a ready outdated pod shrinks the measure. */
  lemma DeletionShrinks(g: Group, a: Answers, i: nat, p: Pod)
    requires i < |g| && DistinctNames(g[i].pods) && RollsSet(Reconcile(g, a), g[i])
    requires p in g[i].pods && p in Reconcile(g, a).deleted
    requires RunningAndReady(p) && Revision(p) != g[i].sts.updateRevision
    ensures Remaining(AfterAll(g, Reconcile(g, a))) < Remaining(g)
  {
    var o := Reconcile(g, a);
    DeletedIsGone(g[i], o, p);
    StepAddsNone(g, ReconcileStep(a), AfterAll(g, o));
    RemainingShrinksStrictly(g, AfterAll(g, o), i, p.name);
  }

  /** If a settled group has outdated pods, a permitted reconcile deletes at least one of them. */
  lemma SettledReconcileDeletes(g: Group, a: Answers)
    requires Unblocked(g) && Permissive(g, a) && exists i | 0 <= i < |g| :: Outdated(g[i]) != []
    ensures Reconcile(g, a).deleted != [] && Remaining(AfterAll(g, Reconcile(g, a))) < Remaining(g)
  {
    UnblockedReconcile(g, a);
    var v := ReconcileLicensed(g, a);
    var i :| 0 <= i < |g| && g[i] == v;
    var p := Reconcile(g, a).deleted[0];
    assert p in Reconcile(g, a).deleted;
    UpIffReady(v);
    DeletionShrinks(g, a, i, p);
  }

  /** If it has none, the reconcile deletes nothing and finishes the rollout. */
  lemma SettledReconcileFinishes(g: Group, a: Answers)
    requires Unblocked(g) && Permissive(g, a) && forall i | 0 <= i < |g| :: Outdated(g[i]) == []
    ensures Reconcile(g, a).deleted == [] && Finished(AfterAll(g, Reconcile(g, a)))
  {
    var o := Reconcile(g, a);
    UnblockedReconcile(g, a);
    forall i | 0 <= i < |g| ensures After(g[i], o).pods == g[i].pods {
      assert MarkDeleting(g[i].pods, []) == g[i].pods;
    }
  }

  // ----- a finished rollout stays finished -----

  lemma {:induction false} NothingOutdated(pods: seq<Pod>, revision: string)
    ensures OutdatedPods(pods, revision) == [] <==> forall p | p in pods :: Revision(p) == revision
  {
    forall p ensures p in OutdatedPods(pods, revision) <==> p in pods && Revision(p) != revision {
      OutdatedMembers(pods, revision, p);
    }
    if OutdatedPods(pods, revision) != [] {
      assert OutdatedPods(pods, revision)[0] in OutdatedPods(pods, revision);
    }
  }

  lemma FinishedDeletesNothing(g: Group, a: Answers)
    requires Finished(g)
    ensures Reconcile(g, a).deleted == []
  {
    if Reconcile(g, a).deleted != [] {
      var v := ReconcileLicensed(g, a);
      var i :| 0 <= i < |g| && g[i] == v;
      var p := Reconcile(g, a).deleted[0];
      assert p in Reconcile(g, a).deleted;
      NothingOutdated(v.pods, v.sts.updateRevision);
    }
  }

  lemma StaysFinished(g: Group, step: Step, g': Group)
    requires Finished(g) && RollsOn(g, step, g')
    ensures Finished(g')
  {
    match step
    case ReconcileStep(a) =>
      FinishedDeletesNothing(g, a);
      forall i | 0 <= i < |g| ensures g'[i].pods == g[i].pods {
        assert MarkDeleting(g[i].pods, []) == g[i].pods;
      }
    case PodsChange(i, pods) =>
      NothingOutdated(g[i].pods, g[i].sts.updateRevision);
      NothingOutdated(pods, g[i].sts.updateRevision);
  }

  // ----- the run theorem -----

  /** Step `k` is a reconcile that finds every pod present and ready, and that the budget and the API permit. */
  ghost predicate IsChance(groups: seq<Group>, steps: seq<Step>, k: nat)
    requires k < |steps| && k < |groups|
  {
    steps[k].ReconcileStep? && Unblocked(groups[k]) && Permissive(groups[k], steps[k].answers)
  }

  /** The number of chances among the first `k` steps. */
  ghost function Chances(groups: seq<Group>, steps: seq<Step>, k: nat): nat
    requires k <= |steps| < |groups|
  {
    if k == 0 then 0 else Chances(groups, steps, k - 1) + if IsChance(groups, steps, k - 1) then 1 else 0
  }

  /** Every step keeps what is done, and every chance either removes an outdated pod or finishes the rollout. */
  lemma ChanceProgresses(g: Group, a: Answers, g': Group)
    requires RollsOn(g, ReconcileStep(a), g') && Unblocked(g) && Permissive(g, a)
    ensures Finished(g') || Remaining(g') < Remaining(g)
  {
    if exists i | 0 <= i < |g| :: Outdated(g[i]) != [] {
      SettledReconcileDeletes(g, a);
    } else {
      SettledReconcileFinishes(g, a);
    }
  }

  lemma {:induction false} ChancesShrinkRemaining(groups: seq<Group>, steps: seq<Step>, k: nat)
    requires IsRolloutRun(groups, steps) && k <= |steps|
    ensures InRollout(groups[k])
    ensures Finished(groups[k]) || Chances(groups, steps, k) + Remaining(groups[k]) <= Remaining(groups[0])
  {
    if k > 0 {
      var g, step, g' := groups[k - 1], steps[k - 1], groups[k];
      ChancesShrinkRemaining(groups, steps, k - 1);
      assert RollsOn(g, step, g');
      StaysInRollout(g, step, g');
      if Finished(g) {
        StaysFinished(g, step, g');
      } else if IsChance(groups, steps, k - 1) {
        ChanceProgresses(g, step.answers, g');
      } else {
        StepAddsNone(g, step, g');
        RemainingShrinks(g, g');
      }
    }
  }

  /** The rollout finishes: reconciles and replacements interleave in any way, deletions may overlap, calls may fail,
      and once the group has been found settled by more permitted reconciles than there were outdated pods, every
      set is at its update revision, for good. */
  lemma RolloutFinishes(groups: seq<Group>, steps: seq<Step>, k: nat)
    requires IsRolloutRun(groups, steps) && k <= |steps| && Chances(groups, steps, k) > Remaining(groups[0])
    ensures Finished(groups[k])
  {
    ChancesShrinkRemaining(groups, steps, k);
  }

  /** At the start the measure is the number of outdated pods. */
  lemma RemainingIsOutdated(v: SetView)
    requires Exact(v) && Down(v) == 0
    ensures |ReadyOutdated(v)| == |Outdated(v)|
  {
    UpIffReady(v);
    OutdatedNames(v.pods, v.sts.updateRevision);
    assert ReadyOutdated(v) == set p | p in v.pods && Revision(p) != v.sts.updateRevision :: p.name;
  }

  lemma {:induction false} OutdatedNames(pods: seq<Pod>, revision: string)
    requires DistinctNames(pods)
    ensures var names := set p | p in pods && Revision(p) != revision :: p.name;
            |names| == |OutdatedPods(pods, revision)|
  {
    var names := set p | p in pods && Revision(p) != revision :: p.name;
    if pods == [] {
      assert names == {};
    } else {
      var k := |pods| - 1;
      var front, last := pods[..k], pods[k];
      OutdatedNames(front, revision);
      var rest := set p | p in front && Revision(p) != revision :: p.name;
      assert pods == front + [last];
      if Revision(last) != revision {
        assert names == rest + {last.name};
        assert last.name !in rest;
      } else {
        assert names == rest;
      }
    }
  }
}
