/** The status view refines the reconcile loop: the active zone it shows is the one the loop is rolling. */
module StatusRefinement {
  import opened Kube
  import opened Rollout
  import opened RollingOrder
  import opened StatusGating

  /** The gated status shows set `i` as the active zone. */
  predicate ShownActive(sets: seq<SetView>, i: nat)
    requires i < |sets|
  {
    Gate(Members(sets))[i].phase == PhaseProgressing
  }

  predicate NamesGiven(sets: seq<SetView>) {
    DistinctSets(sets) && forall v | v in sets :: v.sts.name != ""
  }

  // ----- what the status shows -----

  lemma MemberProgressing(v: SetView)
    ensures MemberOf(v).phase == PhaseProgressing <==> v.sts.onDelete && Candidate(v)
    ensures MemberOf(v).phase == PhaseDegraded <==> !v.sts.onDelete
    ensures MemberOf(v).notReady <==> v.sts.onDelete && HasNotReady(v)
  {
    UpdatedOrOutdated(v.pods, v.sts.updateRevision);
  }

  lemma {:induction false} NoDegradedNames(ms: seq<Member>)
    ensures DegradedNames(ms) == [] <==> forall i | 0 <= i < |ms| :: ms[i].phase != PhaseDegraded
  {
    if ms != [] {
      NoDegradedNames(ms[..|ms| - 1]);
    }
  }

  lemma DegradedIffBadStrategy(sets: seq<SetView>)
    ensures DegradedNames(Members(sets)) == [] <==> AllOnDelete(sets)
  {
    NoDegradedNames(Members(sets));
    forall i | 0 <= i < |sets| ensures Members(sets)[i].phase == PhaseDegraded <==> !sets[i].sts.onDelete {
      MemberProgressing(sets[i]);
    }
  }

  function SetNames(sets: seq<SetView>): seq<string> {
    if sets == [] then [] else SetNames(sets[..|sets| - 1]) + [sets[|sets| - 1].sts.name]
  }

  lemma {:induction false} SetNamesAt(sets: seq<SetView>)
    ensures |SetNames(sets)| == |sets| && forall i | 0 <= i < |sets| :: SetNames(sets)[i] == sets[i].sts.name
  {
    if sets != [] {
      SetNamesAt(sets[..|sets| - 1]);
    }
  }

  lemma {:induction false} SameNotReady(sets: seq<SetView>)
    requires AllOnDelete(sets)
    ensures NotReadyNames(Members(sets)) == SetNames(NotReadySets(sets))
  {
    if sets != [] {
      var front, last := sets[..|sets| - 1], sets[|sets| - 1];
      assert Members(sets)[..|sets| - 1] == Members(front);
      SameNotReady(front);
      MemberProgressing(last);
      assert last in sets && (forall v | v in front :: v in sets);
      if HasNotReady(last) {
        assert NotReadySets(sets)[..|NotReadySets(sets)| - 1] == NotReadySets(front);
      } else {
        assert NotReadySets(sets) == NotReadySets(front);
      }
    }
  }

  lemma {:induction false} BlockerFirst(ms: seq<Member>, i: nat)
    requires i <= |ms| && forall m | m in ms :: m.name != ""
    ensures Blocker(ms, i) == "" <==> forall j | 0 <= j < i :: ms[j].phase != PhaseProgressing
  {
    if i > 0 {
      BlockerFirst(ms, i - 1);
      assert ms[i - 1] in ms;
    }
  }

  lemma NothingBlocks(sets: seq<SetView>, i: nat)
    requires NamesGiven(sets) && AllOnDelete(sets) && i <= |sets|
    ensures Blocker(Members(sets), i) == "" <==> forall j | 0 <= j < i :: !Candidate(sets[j])
  {
    var ms := Members(sets);
    forall j | 0 <= j < |sets| ensures ms[j].phase == PhaseProgressing <==> Candidate(sets[j]) {
      assert sets[j] in sets;
      MemberProgressing(sets[j]);
    }
    BlockerFirst(ms, i);
  }

  /** Set `i` is the first candidate. */
  predicate FirstCandidate(sets: seq<SetView>, i: int) {
    0 <= i < |sets| && Candidate(sets[i]) && forall j | 0 <= j < i :: !Candidate(sets[j])
  }

  /** Which set the status shows as active, read off the group itself. */
  predicate ShouldShow(sets: seq<SetView>, i: nat)
    requires i < |sets|
  {
    && AllOnDelete(sets)
    && if NotReadySets(sets) == [] then FirstCandidate(sets, i)
       else |NotReadySets(sets)| == 1 && Candidate(sets[i]) && sets[i].sts.name == NotReadySets(sets)[0].sts.name
  }

  lemma GateShowsWhenReady(sets: seq<SetView>, i: nat)
    requires NamesGiven(sets) && AllOnDelete(sets) && NotReadySets(sets) == [] && i < |sets|
    ensures ShownActive(sets, i) <==> FirstCandidate(sets, i)
  {
    DegradedIffBadStrategy(sets);
    SameNotReady(sets);
    assert Gate(Members(sets)) == GateInOrder(Members(sets));
    NothingBlocks(sets, i);
    assert sets[i] in sets;
    MemberProgressing(sets[i]);
  }

  lemma GateShowsWhenHeld(sets: seq<SetView>, i: nat)
    requires AllOnDelete(sets) && NotReadySets(sets) != [] && i < |sets|
    ensures ShownActive(sets, i) <==>
            |NotReadySets(sets)| == 1 && Candidate(sets[i]) && sets[i].sts.name == NotReadySets(sets)[0].sts.name
  {
    DegradedIffBadStrategy(sets);
    SameNotReady(sets);
    SetNamesAt(NotReadySets(sets));
    assert sets[i] in sets;
    MemberProgressing(sets[i]);
  }

  lemma GateShows(sets: seq<SetView>, i: nat)
    requires NamesGiven(sets) && i < |sets|
    ensures ShownActive(sets, i) <==> ShouldShow(sets, i)
  {
    if !AllOnDelete(sets) {
      DegradedIffBadStrategy(sets);
    } else if NotReadySets(sets) == [] {
      GateShowsWhenReady(sets, i);
    } else {
      GateShowsWhenHeld(sets, i);
    }
  }

  // ----- agreement -----

  /** The active zone shown is exactly the set at which the reconcile loop stops with outdated pods. */
  predicate Agrees(sets: seq<SetView>, a: Answers) {
    forall i | 0 <= i < |sets| :: ShownActive(sets, i) <==> RollsAt(sets, a, i)
  }

  /** Nothing keeps a reconcile from reaching set `i` and rolling it: its revisions are known, and so are those of
      every unpaused set before it, whose current revision can be moved if it has to be. A set with not-ready
      pods comes first. */
  predicate Reachable(sets: seq<SetView>, a: Answers, i: nat)
    requires i < |sets|
  {
    && RevisionsKnown(sets[i])
    && (NotReadySets(sets) == [] ==>
          forall j | 0 <= j < i && !sets[j].sts.paused :: RevisionsKnown(sets[j]) && !MoveFails(sets[j], a))
  }

  /** The set that is due to be active, if any, is reachable. */
  predicate ReachableWhenDue(sets: seq<SetView>, a: Answers) {
    forall i | 0 <= i < |sets| && ShouldShow(sets, i) :: Reachable(sets, a, i)
  }

  lemma NotReadyGroup(sets: seq<SetView>, i: nat)
    requires DistinctSets(sets) && i < |sets|
    ensures NotReadySets(sets) == [] <==> forall j | 0 <= j < |sets| :: !HasNotReady(sets[j])
    ensures |NotReadySets(sets)| == 1 && NotReadySets(sets)[0].sts.name == sets[i].sts.name <==>
            OthersReady(sets, i) && HasNotReady(sets[i])
  {
    forall j | 0 <= j < |sets| ensures sets[j] in NotReadySets(sets) <==> HasNotReady(sets[j]) {
      NotReadySetsMembers(sets, sets[j]);
      assert sets[j] in sets;
    }
    if OthersReady(sets, i) {
      OnlyNotReadySet(sets, i);
    }
    if NotReadySets(sets) != [] {
      var v := NotReadySets(sets)[0];
      NotReadySetsMembers(sets, v);
    }
  }

  /** The reconcile rolls a set if and only if it is due and reachable. */
  lemma RollsIffDue(sets: seq<SetView>, a: Answers, i: nat)
    requires DistinctSets(sets) && i < |sets|
    ensures RollsAt(sets, a, i) <==> ShouldShow(sets, i) && Reachable(sets, a, i)
  {
    RollsIff(sets, a, i);
    NotReadyGroup(sets, i);
  }

  /** The two implementations agree if and only if the zone that is due is reachable. */
  lemma StatusAgreesIff(sets: seq<SetView>, a: Answers)
    requires NamesGiven(sets)
    ensures Agrees(sets, a) <==> ReachableWhenDue(sets, a)
  {
    forall i | 0 <= i < |sets|
      ensures RollsAt(sets, a, i) <==> ShouldShow(sets, i) && Reachable(sets, a, i)
      ensures ShownActive(sets, i) <==> ShouldShow(sets, i)
    {
      RollsIffDue(sets, a, i);
      GateShows(sets, i);
    }
  }

  // ----- two ways to disagree -----

  lemma LoneSetReady(pod: Pod, sts: StatefulSet)
    requires RunningAndReady(pod)
    requires sts.specReplicas == Some(1) && sts.statusReplicas == 1 && sts.readyReplicas == 1
    ensures var v := SetView(sts, [pod]);
            !HasNotReady(v) && Outdated(v) == if Revision(pod) != sts.updateRevision then [pod] else []
  {
    var v := SetView(sts, [pod]);
    assert v.pods[..|v.pods| - 1] == [];
    assert OutdatedPods([], sts.updateRevision) + [pod] == [pod];
  }

  /** In a ready group, the first candidate is shown as active even if the reconcile fails at the first set. */
  lemma FailsAtFirstSet(sets: seq<SetView>, a: Answers, i: nat)
    requires NamesGiven(sets) && AllOnDelete(sets) && i < |sets| && FirstCandidate(sets, i)
    requires NotReadySets(sets) == [] && !sets[0].sts.paused && UpdateSet(sets[0], a).UpdateFailed?
    ensures ShownActive(sets, i) && Reconcile(sets, a).stop == FailedAt(sets[0].sts.name)
  {
    FailsFirst(sets, a);
    GateShowsWhenReady(sets, i);
  }

  /** A ready one-pod set. */
  predicate ReadySet(sts: StatefulSet, pod: Pod) {
    && RunningAndReady(pod) && sts.name != "" && sts.onDelete && !sts.paused && sts.updateRevision != ""
    && sts.specReplicas == Some(1) && sts.statusReplicas == 1 && sts.readyReplicas == 1
  }

  /** A set with an outdated pod whose current revision is not reported yet is shown as active, while the
      reconcile fails at it. */
  lemma UnknownRevisionDisagrees(pod: Pod, sts: StatefulSet, a: Answers)
    requires ReadySet(sts, pod) && Revision(pod) != sts.updateRevision && sts.currentRevision == ""
    ensures var sets := [SetView(sts, [pod])]; ShownActive(sets, 0) && Reconcile(sets, a).stop == FailedAt(sts.name)
  {
    LoneSetReady(pod, sts);
    OnlyNotReadySet([SetView(sts, [pod])], 0);
    FailsAtFirstSet([SetView(sts, [pod])], a, 0);
  }

  /** All revisions are known, and still: behind an updated set whose current revision cannot be moved, the
      outdated set is shown as active, while the reconcile fails before it. */
  lemma FailedMoveDisagrees(pod: Pod, sts: StatefulSet, other: Pod, next: StatefulSet, a: Answers)
    requires ReadySet(sts, pod) && ReadySet(next, other) && sts.name != next.name
    requires sts.currentRevision != "" && next.currentRevision != "" && Revision(other) != next.updateRevision
    requires Revision(pod) == sts.updateRevision != sts.currentRevision && sts.name in a.statusFails
    ensures var sets := [SetView(sts, [pod]), SetView(next, [other])];
            && (forall v | v in sets :: RevisionsKnown(v))
            && ShownActive(sets, 1) && Reconcile(sets, a).stop == FailedAt(sts.name)
  {
    LoneSetReady(pod, sts);
    LoneSetReady(other, next);
    var sets := [SetView(sts, [pod]), SetView(next, [other])];
    OnlyNotReadySet(sets, 0);
    FailsAtFirstSet(sets, a, 1);
  }

  // ----- the group phase -----

  lemma OneShown(sets: seq<SetView>, i: nat, l: nat)
    requires NamesGiven(sets) && i < |sets| && l < |sets| && ShownActive(sets, i) && ShownActive(sets, l)
    ensures i == l
  {
    GateShows(sets, i);
    GateShows(sets, l);
  }

  lemma GateKeepsDegraded(ms: seq<Member>)
    ensures |Gate(ms)| == |ms|
    ensures forall i | 0 <= i < |ms| :: Gate(ms)[i].phase == PhaseDegraded <==> ms[i].phase == PhaseDegraded
  {
  }

  ghost function ShownPhase(sets: seq<SetView>): RolloutPhase {
    GroupPhase(Gate(Members(sets)), |NotReadyNames(Members(sets))|)
  }

  lemma ShownMeansProgressing(sets: seq<SetView>, i: nat)
    requires i < |sets| && ShownActive(sets, i) && ShouldShow(sets, i)
    ensures ShownPhase(sets) == PhaseProgressing
  {
    var gated := Gate(Members(sets));
    GateKeepsDegraded(Members(sets));
    SameNotReady(sets);
    SetNamesAt(NotReadySets(sets));
    assert gated[i] in gated;
    forall m | m in gated ensures m.phase != PhaseDegraded {
      var j :| 0 <= j < |gated| && gated[j] == m;
      assert sets[j] in sets;
      MemberProgressing(sets[j]);
    }
  }

  /** The group is shown as Progressing if and only if a member is. */
  lemma ProgressingIffShown(sets: seq<SetView>)
    requires NamesGiven(sets)
    ensures ShownPhase(sets) == PhaseProgressing <==> exists i | 0 <= i < |sets| :: ShownActive(sets, i)
  {
    if i :| 0 <= i < |sets| && ShownActive(sets, i) {
      GateShows(sets, i);
      ShownMeansProgressing(sets, i);
    } else {
      var gated := Gate(Members(sets));
      forall m | m in gated ensures m.phase != PhaseProgressing {
        var j :| 0 <= j < |gated| && gated[j] == m;
        assert !ShownActive(sets, j);
      }
    }
  }

  lemma RollingSomewhere(sets: seq<SetView>, a: Answers)
    requires DistinctSets(sets) && Reconcile(sets, a).stop.Rolling?
    ensures exists i | 0 <= i < |sets| :: RollsAt(sets, a, i)
  {
    var v := RollingSet(sets, a);
    var i :| 0 <= i < |sets| && sets[i] == v;
    assert RollsAt(sets, a, i);
  }

  /** At most one zone is shown as active, always. When the zone that is due is reachable, it is the one the loop
      is rolling, and the group is Progressing if and only if there is one. */
  lemma StatusRefinesReconcile(sets: seq<SetView>, a: Answers)
    requires NamesGiven(sets)
    ensures forall i, l | 0 <= i < |sets| && 0 <= l < |sets| && ShownActive(sets, i) && ShownActive(sets, l) :: i == l
    ensures ReachableWhenDue(sets, a) ==>
              Agrees(sets, a) && (ShownPhase(sets) == PhaseProgressing <==> Reconcile(sets, a).stop.Rolling?)
  {
    forall i, l | 0 <= i < |sets| && 0 <= l < |sets| && ShownActive(sets, i) && ShownActive(sets, l) ensures i == l {
      OneShown(sets, i, l);
    }
    StatusAgreesIff(sets, a);
    ProgressingIffShown(sets);
    if Reconcile(sets, a).stop.Rolling? {
      RollingSomewhere(sets, a);
    }
  }

  /** In particular when all revisions are known and no needed status update fails. */
  lemma KnownRevisionsAgree(sets: seq<SetView>, a: Answers)
    requires NamesGiven(sets)
    requires forall v | v in sets && !v.sts.paused :: RevisionsKnown(v) && !MoveFails(v, a)
    ensures ReachableWhenDue(sets, a)
  {
    forall i | 0 <= i < |sets| && ShouldShow(sets, i) ensures Reachable(sets, a, i) {
      assert sets[i] in sets;
    }
  }
}
