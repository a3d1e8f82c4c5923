/** Exactly when a reconcile rolls a StatefulSet, and which of its pods it deletes. */
module RollingOrder {
  import opened Kube
  import opened Rollout

  /** The set has outdated pods that a reconcile reaching it would roll. */
  predicate Candidate(v: SetView) {
    !v.sts.paused && v.sts.updateRevision != "" && Outdated(v) != []
  }

  predicate RevisionsKnown(v: SetView) {
    v.sts.currentRevision != "" && v.sts.updateRevision != ""
  }

  /** The current revision has to be moved, and the status update that would do so fails. */
  predicate MoveFails(v: SetView, a: Answers) {
    v.sts.currentRevision != v.sts.updateRevision && v.sts.name in a.statusFails
  }

  /** A ready set after which the reconcile goes on to the next. */
  predicate Passes(v: SetView, a: Answers) {
    v.sts.paused || (RevisionsKnown(v) && Outdated(v) == [] && !MoveFails(v, a))
  }

  /** The reconcile stops at set `i` with outdated pods. */
  predicate RollsAt(sets: seq<SetView>, a: Answers, i: nat)
    requires i < |sets|
  {
    Reconcile(sets, a).stop.Rolling? && Reconcile(sets, a).stop.name == sets[i].sts.name
  }

  lemma UpdateResult(v: SetView, a: Answers)
    requires !v.sts.paused
    ensures UpdateSet(v, a).RollingPods? <==> Candidate(v) && RevisionsKnown(v)
    ensures !HasNotReady(v) ==> (UpdateSet(v, a).Settled? <==> Passes(v, a))
  {
  }

  lemma {:induction false} WalkReaches(sets: seq<SetView>, a: Answers, k: nat, i: nat)
    requires k <= i < |sets| && Candidate(sets[i]) && RevisionsKnown(sets[i])
    requires forall j | k <= j < i :: !HasNotReady(sets[j]) && Passes(sets[j], a)
    ensures var o := Walk(sets[k..], None, a); o.stop.Rolling? && o.stop.name == sets[i].sts.name
    decreases i - k
  {
    assert sets[k..][1..] == sets[k + 1..];
    if !sets[k].sts.paused {
      UpdateResult(sets[k], a);
    }
    if k < i {
      WalkReaches(sets, a, k + 1, i);
    }
  }

  lemma {:induction false} OnlyNotReadySet(sets: seq<SetView>, i: nat)
    requires forall j | 0 <= j < |sets| && j != i :: !HasNotReady(sets[j])
    ensures NotReadySets(sets) == if i < |sets| && HasNotReady(sets[i]) then [sets[i]] else []
  {
    if sets != [] {
      OnlyNotReadySet(sets[..|sets| - 1], i);
    }
  }

  predicate OthersReady(sets: seq<SetView>, i: nat) {
    forall j | 0 <= j < |sets| && j != i :: !HasNotReady(sets[j])
  }

  /** It is the set's turn: it is the one with not-ready pods, or every set before it passes. */
  predicate IsItsTurn(sets: seq<SetView>, a: Answers, i: nat)
    requires i < |sets|
  {
    HasNotReady(sets[i]) || forall j | 0 <= j < i :: Passes(sets[j], a)
  }

  lemma RollsIf(sets: seq<SetView>, a: Answers, i: nat)
    requires i < |sets| && AllOnDelete(sets) && OthersReady(sets, i)
    requires Candidate(sets[i]) && RevisionsKnown(sets[i]) && IsItsTurn(sets, a, i)
    ensures RollsAt(sets, a, i)
  {
    OnlyNotReadySet(sets, i);
    UpdateResult(sets[i], a);
    if !HasNotReady(sets[i]) {
      WalkReaches(sets, a, 0, i);
      assert sets[0..] == sets;
    }
  }

  lemma RollsOnlyIf(sets: seq<SetView>, a: Answers, i: nat)
    requires DistinctSets(sets) && i < |sets| && RollsAt(sets, a, i)
    ensures AllOnDelete(sets) && OthersReady(sets, i)
    ensures Candidate(sets[i]) && RevisionsKnown(sets[i]) && IsItsTurn(sets, a, i)
  {
    var v := RollingSet(sets, a);
    assert sets[i] in sets;
    SameNameSameSet(sets, v, sets[i]);
    UpdateResult(v, a);
    forall j | 0 <= j < |sets| && j != i ensures !HasNotReady(sets[j]) {
      assert sets[j] in sets && sets[j].sts.name != sets[i].sts.name;
    }
    if !HasNotReady(v) {
      OnlyNotReadySet(sets, i);
      var k := WalkStops(sets, None, a);
      assert k == i;
      forall j | 0 <= j < i ensures Passes(sets[j], a) {
        if !sets[j].sts.paused {
          UpdateResult(sets[j], a);
        }
      }
    }
  }

  /** Guarantees 2 and 3 of the README in both directions. A reconcile rolls a set if and only if every set uses
      OnDelete, all other sets are ready, the set is unpaused with known revisions and outdated pods, and it is
      its turn. */
  lemma RollsIff(sets: seq<SetView>, a: Answers, i: nat)
    requires DistinctSets(sets) && i < |sets|
    ensures RollsAt(sets, a, i) <==>
            && AllOnDelete(sets) && OthersReady(sets, i)
            && Candidate(sets[i]) && RevisionsKnown(sets[i]) && IsItsTurn(sets, a, i)
  {
    if RollsAt(sets, a, i) {
      RollsOnlyIf(sets, a, i);
    } else if AllOnDelete(sets) && OthersReady(sets, i) && Candidate(sets[i]) && RevisionsKnown(sets[i])
              && IsItsTurn(sets, a, i) {
      RollsIf(sets, a, i);
    }
  }

  lemma FailsFirst(sets: seq<SetView>, a: Answers)
    requires sets != [] && AllOnDelete(sets) && NotReadySets(sets) == []
    requires !sets[0].sts.paused && UpdateSet(sets[0], a).UpdateFailed?
    ensures Reconcile(sets, a).stop == FailedAt(sets[0].sts.name)
  {
    WalkFailsFirst(sets, a);
  }

  lemma WalkFailsFirst(order: seq<SetView>, a: Answers)
    requires order != [] && !order[0].sts.paused && UpdateSet(order[0], a).UpdateFailed?
    ensures Walk(order, None, a).stop == FailedAt(order[0].sts.name)
  {
  }

  // ----- the pods of the rolled set -----

  lemma {:induction false} SelectedIff(outdated: seq<Pod>, window: nat, k: nat, p: Pod)
    requires k <= |outdated|
    ensures p in Selected(outdated, window, k) <==>
            exists j | 0 <= j < k :: outdated[j] == p && !p.deleting && (j < window || Stuck(p))
  {
    if k > 0 {
      SelectedIff(outdated, window, k - 1, p);
    }
  }

  lemma {:induction false} DeletedIff(selected: seq<Pod>, a: Answers, p: Pod)
    requires a.deleteFails == {}
    ensures !Deletions(selected, a).failed
    ensures p in Deletions(selected, a).deleted <==> p in selected && p.name in a.permitted
  {
    if selected != [] {
      DeletedIff(selected[1..], a, p);
      assert p in selected <==> p == selected[0] || p in selected[1..];
    }
  }

  /** A pod may go: outdated, not terminating, inside the availability window or stuck. */
  predicate MayGo(v: SetView, p: Pod) {
    p in v.pods && Revision(p) != v.sts.updateRevision && !p.deleting && (InWindow(v, p) || Stuck(p))
  }

  lemma SelectionIff(v: SetView, p: Pod)
    ensures p in Selection(v) <==> MayGo(v, p)
  {
    var outdated, window := Outdated(v), Window(v);
    SelectedIff(outdated, window, |outdated|, p);
    OutdatedMembers(v.pods, v.sts.updateRevision, p);
    if InWindow(v, p) {
      var j :| 0 <= j < window && outdated[..window][j] == p;
      assert outdated[j] == p;
    }
    if j :| 0 <= j < |outdated| && outdated[j] == p && j < window {
      assert outdated[..window][j] == p;
    }
  }

  /** Of the set that is rolled, a reconcile whose calls work deletes exactly the pods that may go and that the
      disruption budget permits. */
  lemma RolledPodsIff(sets: seq<SetView>, a: Answers, i: nat, p: Pod)
    requires DistinctSets(sets) && i < |sets| && RollsAt(sets, a, i)
    requires a.deleteFails == {} && a.lookupFails == {}
    ensures p in Reconcile(sets, a).deleted <==> MayGo(sets[i], p) && p.name in a.permitted
  {
    var v := RollingSet(sets, a);
    assert sets[i] in sets;
    SameNameSameSet(sets, v, sets[i]);
    SelectionIff(v, p);
    DeletedIff(Selection(v), a, p);
  }
}
