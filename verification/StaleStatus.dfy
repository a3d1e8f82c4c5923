/** The delete window when the StatefulSet status lags: terminating pods keep their window slots. */
module StaleStatus {
  import opened Kube
  import opened Rollout
  import opened RolloutRuns

  /** The pod did not change, or only started terminating. */
  predicate FrozenPod(p: Pod, q: Pod) {
    q == p || q == p.(deleting := true)
  }

  predicate FrozenPods(pods: seq<Pod>, pods': seq<Pod>) {
    |pods| == |pods'| && forall j | 0 <= j < |pods| :: FrozenPod(pods[j], pods'[j])
  }

  /** The status is frozen; only the pause annotation and deletion timestamps may differ. */
  predicate FrozenSet(v: SetView, w: SetView) {
    w.sts == v.sts.(paused := w.sts.paused) && FrozenPods(v.pods, w.pods)
  }

  predicate FrozenGroup(g: Group, g': Group) {
    |g| == |g'| && forall i | 0 <= i < |g| :: FrozenSet(g[i], g'[i])
  }

  /** Any number of reconciles with a frozen status: what one deletes is terminating in the next, and
      other pods may start terminating on their own. */
  ghost predicate FrozenRun(groups: seq<Group>, answers: seq<Answers>) {
    && |groups| == |answers| + 1 && DistinctSets(groups[0])
    && forall k | 0 <= k < |answers| :: FrozenStep(groups, answers, k)
  }

  ghost predicate FrozenStep(groups: seq<Group>, answers: seq<Answers>, k: nat)
    requires |groups| == |answers| + 1 && k < |answers|
  {
    && FrozenGroup(groups[k], groups[k + 1])
    && forall i, j | 0 <= i < |groups[k]| && 0 <= j < |groups[k][i].pods| ::
         DeletesPod(groups[k], answers[k], i, j) ==> TerminatingAt(groups[k + 1], i, j)
  }

  predicate DeletesPod(g: Group, a: Answers, i: nat, j: nat)
    requires i < |g| && j < |g[i].pods|
  {
    RollsSet(Reconcile(g, a), g[i]) && g[i].pods[j] in Reconcile(g, a).deleted
  }

  predicate TerminatingAt(g: Group, i: nat, j: nat) {
    i < |g| && j < |g[i].pods| && g[i].pods[j].deleting
  }

  lemma {:induction false} StaysFrozen(groups: seq<Group>, answers: seq<Answers>, k: nat, m: nat)
    requires FrozenRun(groups, answers) && k <= m <= |answers|
    ensures FrozenGroup(groups[k], groups[m])
  {
    if k < m {
      StaysFrozen(groups, answers, k, m - 1);
      assert FrozenStep(groups, answers, m - 1);
      var a, b, c := groups[k], groups[m - 1], groups[m];
      forall i | 0 <= i < |a| ensures FrozenSet(a[i], c[i]) {
        assert FrozenSet(a[i], b[i]) && FrozenSet(b[i], c[i]);
        forall j | 0 <= j < |a[i].pods| ensures FrozenPod(a[i].pods[j], c[i].pods[j]) {
          assert FrozenPod(a[i].pods[j], b[i].pods[j]) && FrozenPod(b[i].pods[j], c[i].pods[j]);
        }
      }
    }
  }

  lemma {:induction false} OutdatedFrozen(pods: seq<Pod>, pods': seq<Pod>, revision: string)
    requires FrozenPods(pods, pods')
    ensures FrozenPods(OutdatedPods(pods, revision), OutdatedPods(pods', revision))
  {
    if pods != [] {
      var last := |pods| - 1;
      assert FrozenPods(pods[..last], pods'[..last]);
      OutdatedFrozen(pods[..last], pods'[..last], revision);
      assert FrozenPod(pods[last], pods'[last]);
    }
  }

  /** The names of the pods that may be deleted within the availability window. */
  function WindowNames(v: SetView): set<string> {
    Names(Outdated(v)[..Window(v)])
  }

  lemma WindowFrozen(v: SetView, w: SetView)
    requires FrozenSet(v, w)
    ensures Window(v) == Window(w) && WindowNames(v) == WindowNames(w)
  {
    OutdatedFrozen(v.pods, w.pods, v.sts.updateRevision);
    var a, b := Outdated(v)[..Window(v)], Outdated(w)[..Window(w)];
    forall j | 0 <= j < |a| ensures a[j].name == b[j].name {
      assert FrozenPod(Outdated(v)[j], Outdated(w)[j]);
    }
    forall n ensures n in Names(a) <==> n in Names(b) {
      if n in Names(a) {
        var j :| 0 <= j < |a| && a[j].name == n;
        assert b[j].name == n;
      }
      if n in Names(b) {
        var j :| 0 <= j < |b| && b[j].name == n;
        assert a[j].name == n;
      }
    }
  }

  lemma FrozenDistinct(g: Group, g': Group)
    requires DistinctSets(g) && FrozenGroup(g, g')
    ensures DistinctSets(g')
  {
    forall i, j | 0 <= i < j < |g'| ensures g'[i].sts.name != g'[j].sts.name {
      assert FrozenSet(g[i], g'[i]) && FrozenSet(g[j], g'[j]);
    }
  }

  /** The set that reconcile `k` deletes from, and that it leaves a terminating pod there for good. */
  lemma DeletingSet(groups: seq<Group>, answers: seq<Answers>, k: nat) returns (i: nat, j: nat)
    requires FrozenRun(groups, answers) && k < |answers| && Reconcile(groups[k], answers[k]).deleted != []
    ensures i < |groups[k]| && Licensed(groups[k], groups[k][i], Reconcile(groups[k], answers[k]).deleted)
    ensures RollsSet(Reconcile(groups[k], answers[k]), groups[k][i])
    ensures TerminatingAt(groups[k + 1], i, j)
  {
    var g, o := groups[k], Reconcile(groups[k], answers[k]);
    var v := ReconcileLicensed(g, answers[k]);
    i :| 0 <= i < |g| && g[i] == v;
    var p := o.deleted[0];
    assert p in o.deleted;
    j :| 0 <= j < |v.pods| && v.pods[j] == p;
    assert FrozenStep(groups, answers, k);
    assert DeletesPod(g, answers[k], i, j);
  }

  lemma TerminatingStays(groups: seq<Group>, answers: seq<Answers>, k: nat, m: nat, i: nat, j: nat)
    requires FrozenRun(groups, answers) && k <= m <= |answers| && TerminatingAt(groups[k], i, j)
    ensures i < |groups[m]| && HasNotReady(groups[m][i])
  {
    StaysFrozen(groups, answers, k, m);
    assert FrozenSet(groups[k][i], groups[m][i]);
    assert FrozenPod(groups[k][i].pods[j], groups[m][i].pods[j]);
    assert groups[m][i].pods[j] in groups[m][i].pods;
  }

  lemma DistinctAt(groups: seq<Group>, answers: seq<Answers>, k: nat)
    requires FrozenRun(groups, answers) && k <= |answers|
    ensures DistinctSets(groups[k])
  {
    StaysFrozen(groups, answers, 0, k);
    FrozenDistinct(groups[0], groups[k]);
  }

  lemma RolledIndex(groups: seq<Group>, answers: seq<Answers>, k: nat, i: nat, l: nat)
    requires FrozenRun(groups, answers) && k < |answers| && i < |groups[k]| && l < |groups[k]|
    requires RollsSet(Reconcile(groups[k], answers[k]), groups[k][i])
    requires RollsSet(Reconcile(groups[k], answers[k]), groups[k][l])
    ensures i == l
  {
    DistinctAt(groups, answers, k);
  }

  /** The set that a deleting reconcile rolls has a terminating pod from then on. */
  lemma RolledTerminates(groups: seq<Group>, answers: seq<Answers>, k: nat, i: nat) returns (j: nat)
    requires FrozenRun(groups, answers) && k < |answers| && Reconcile(groups[k], answers[k]).deleted != []
    requires i < |groups[k]| && RollsSet(Reconcile(groups[k], answers[k]), groups[k][i])
    ensures TerminatingAt(groups[k + 1], i, j)
    ensures Licensed(groups[k], groups[k][i], Reconcile(groups[k], answers[k]).deleted)
  {
    var x: nat;
    x, j := DeletingSet(groups, answers, k);
    RolledIndex(groups, answers, k, i, x);
  }

  /** A later deletion finds an earlier one's set not ready, so it is in that set. */
  lemma PinnedBy(groups: seq<Group>, answers: seq<Answers>, k: nat, m: nat, i: nat, j: nat, l: nat)
    requires FrozenRun(groups, answers) && k < m < |answers| && TerminatingAt(groups[k + 1], i, j)
    requires l < |groups[m]| && Licensed(groups[m], groups[m][l], Reconcile(groups[m], answers[m]).deleted)
    ensures i == l
  {
    TerminatingStays(groups, answers, k + 1, m, i, j);
    DistinctAt(groups, answers, m);
    assert groups[m][i] in groups[m];
  }

  /** All deletions of a frozen run are in one StatefulSet. */
  lemma OneSetOnly(groups: seq<Group>, answers: seq<Answers>, k: nat, m: nat, i: nat, l: nat)
    requires FrozenRun(groups, answers) && k <= m < |answers|
    requires Reconcile(groups[k], answers[k]).deleted != [] && Reconcile(groups[m], answers[m]).deleted != []
    requires i < |groups[k]| && RollsSet(Reconcile(groups[k], answers[k]), groups[k][i])
    requires l < |groups[m]| && RollsSet(Reconcile(groups[m], answers[m]), groups[m][l])
    ensures i == l
  {
    if k < m {
      var j := RolledTerminates(groups, answers, k, i);
      var _ := RolledTerminates(groups, answers, m, l);
      PinnedBy(groups, answers, k, m, i, j, l);
    } else {
      RolledIndex(groups, answers, k, i, l);
    }
  }

  ghost function NonStuckDeleted(groups: seq<Group>, answers: seq<Answers>): set<string>
    requires |groups| == |answers| + 1
  {
    set k, p | 0 <= k < |answers| && p in Reconcile(groups[k], answers[k]).deleted && !Stuck(p) :: p.name
  }

  lemma NonStuckInWindow(groups: seq<Group>, answers: seq<Answers>, k: nat, i: nat, p: Pod)
    requires FrozenRun(groups, answers) && k < |answers| && i < |groups[k]| && i < |groups[0]|
    requires Licensed(groups[k], groups[k][i], Reconcile(groups[k], answers[k]).deleted)
    requires p in Reconcile(groups[k], answers[k]).deleted && !Stuck(p)
    ensures p.name in WindowNames(groups[0][i])
  {
    var v := groups[k][i];
    assert InWindow(v, p);
    var window := Outdated(v)[..Window(v)];
    var j :| 0 <= j < |window| && window[j] == p;
    assert p.name in WindowNames(v);
    StaysFrozen(groups, answers, 0, k);
    assert FrozenSet(groups[0][i], v);
    WindowFrozen(groups[0][i], v);
  }

  /** What is known of set `i` if reconcile `m` of a frozen run deletes from it. */
  ghost predicate DeletesFrom(groups: seq<Group>, answers: seq<Answers>, m: nat, i: nat)
    requires |groups| == |answers| + 1 && m < |answers|
  {
    && i < |groups[m]| && i < |groups[0]| && groups[m][i].sts.name == groups[0][i].sts.name
    && RollsSet(Reconcile(groups[m], answers[m]), groups[m][i])
    && Licensed(groups[m], groups[m][i], Reconcile(groups[m], answers[m]).deleted)
  }

  lemma AllDeleteFrom(groups: seq<Group>, answers: seq<Answers>, k: nat, i: nat, m: nat)
    requires FrozenRun(groups, answers) && k < |answers| && m < |answers|
    requires Reconcile(groups[k], answers[k]).deleted != [] && Reconcile(groups[m], answers[m]).deleted != []
    requires i < |groups[k]| && RollsSet(Reconcile(groups[k], answers[k]), groups[k][i])
    ensures DeletesFrom(groups, answers, m, i)
  {
    var l, _ := DeletingSet(groups, answers, m);
    if k <= m {
      OneSetOnly(groups, answers, k, m, i, l);
    } else {
      OneSetOnly(groups, answers, m, k, l, i);
    }
    StaysFrozen(groups, answers, 0, m);
    assert FrozenSet(groups[0][i], groups[m][i]);
  }

  lemma DeletedFitWindow(groups: seq<Group>, answers: seq<Answers>, i: nat)
    requires FrozenRun(groups, answers) && i < |groups[0]|
    requires forall m | 0 <= m < |answers| && Reconcile(groups[m], answers[m]).deleted != [] ::
               DeletesFrom(groups, answers, m, i)
    ensures |NonStuckDeleted(groups, answers)| <= Window(groups[0][i])
  {
    forall n | n in NonStuckDeleted(groups, answers) ensures n in WindowNames(groups[0][i]) {
      var m, p :| 0 <= m < |answers| && p in Reconcile(groups[m], answers[m]).deleted && !Stuck(p) && p.name == n;
      assert DeletesFrom(groups, answers, m, i);
      NonStuckInWindow(groups, answers, m, i, p);
    }
    PrefixNames(Outdated(groups[0][i]), Window(groups[0][i]));
    SubsetCardinality(NonStuckDeleted(groups, answers), WindowNames(groups[0][i]));
  }

  /** While the status is frozen, any number of reconciles together delete from one StatefulSet only, and
      of its pods that are not stuck at most max(0, maxUnavailable - notReady) distinct ones. */
  lemma StaleStatusSafe(groups: seq<Group>, answers: seq<Answers>, k: nat) returns (i: nat)
    requires FrozenRun(groups, answers) && k < |answers| && Reconcile(groups[k], answers[k]).deleted != []
    ensures i < |groups[0]|
    ensures forall m | 0 <= m < |answers| && Reconcile(groups[m], answers[m]).deleted != [] ::
              && Reconcile(groups[m], answers[m]).stop.Rolling?
              && Reconcile(groups[m], answers[m]).stop.name == groups[0][i].sts.name
    ensures |NonStuckDeleted(groups, answers)|
            <= Max(0, MaxUnavailable(groups[0][i].sts) - NotReadyByStatus(groups[0][i].sts))
  {
    var j: nat;
    i, j := DeletingSet(groups, answers, k);
    forall m | 0 <= m < |answers| && Reconcile(groups[m], answers[m]).deleted != []
      ensures DeletesFrom(groups, answers, m, i)
    {
      AllDeleteFrom(groups, answers, k, i, m);
    }
    assert DeletesFrom(groups, answers, k, i);
    DeletedFitWindow(groups, answers, i);
  }
}
