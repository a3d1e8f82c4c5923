/** What a reconcile means, read off the StatefulSets and their pods. */
module ReconcileMeaning {
  import opened Kube
  import opened Rollout
  import opened RollingOrder

  // ----- readiness -----

  predicate PodUp(p: Pod) {
    p.phase == Running && !p.deleting && forall c | c in p.containers :: c == ContainerStatus(true, Started)
  }

  /** Every pod that the spec or the status asks for is listed, every listed pod is up, and the reported number of
      ready pods is the larger of the two. */
  predicate Whole(v: SetView) {
    && |v.pods| >= v.sts.statusReplicas && (v.sts.specReplicas.Some? ==> |v.pods| >= v.sts.specReplicas.value)
    && (forall p | p in v.pods :: PodUp(p))
    && v.sts.readyReplicas >= v.sts.statusReplicas
    && (v.sts.specReplicas.Some? ==> v.sts.readyReplicas >= v.sts.specReplicas.value)
    && (v.sts.readyReplicas == v.sts.statusReplicas || Some(v.sts.readyReplicas) == v.sts.specReplicas)
  }

  /** The not-ready test finds exactly the sets that are not whole, whatever their status reports. */
  lemma NotReadyIffNotWhole(v: SetView)
    ensures HasNotReady(v) <==> !Whole(v)
  {
  }

  predicate OthersWhole(sets: seq<SetView>, i: nat) {
    forall j | 0 <= j < |sets| && j != i :: Whole(sets[j])
  }

  lemma OthersWholeIff(sets: seq<SetView>, i: nat)
    ensures OthersReady(sets, i) <==> OthersWhole(sets, i)
  {
    forall j | 0 <= j < |sets| ensures HasNotReady(sets[j]) <==> !Whole(sets[j]) {
      NotReadyIffNotWhole(sets[j]);
    }
  }

  /** Nothing is deleted unless all pods deleted are of one set and every other set is whole. */
  lemma DeletesNextToWholeSetsOnly(sets: seq<SetView>, a: Answers) returns (i: nat)
    requires DistinctSets(sets) && Reconcile(sets, a).deleted != []
    ensures i < |sets| && OthersWhole(sets, i) && forall p | p in Reconcile(sets, a).deleted :: p in sets[i].pods
  {
    var v := ReconcileLicensed(sets, a);
    i :| 0 <= i < |sets| && sets[i] == v;
    RollsOnlyIf(sets, a, i);
    OthersWholeIff(sets, i);
  }

  // ----- outdated and stuck pods -----

  predicate AtRevision(p: Pod, revision: string) {
    if "controller-revision-hash" in p.labels then p.labels["controller-revision-hash"] == revision else revision == ""
  }

  /** Positions of a sequence, in order, one for each element of another. */
  predicate Picks(positions: seq<nat>, pods: seq<Pod>, picked: seq<Pod>) {
    && |positions| == |picked|
    && (forall i | 0 <= i < |positions| :: positions[i] < |pods| && pods[positions[i]] == picked[i])
    && (forall i, j | 0 <= i < j < |positions| :: positions[i] < positions[j])
  }

  lemma PicksLast(positions: seq<nat>, pods: seq<Pod>, picked: seq<Pod>, last: Pod)
    requires Picks(positions, pods, picked)
    ensures Picks(positions, pods + [last], picked)
    ensures Picks(positions + [|pods|], pods + [last], picked + [last])
  {
  }

  /** The positions of the pods at another revision. */
  ghost function OutdatedAt(pods: seq<Pod>, revision: string): set<nat> {
    set k: nat | k < |pods| && !AtRevision(pods[k], revision)
  }

  lemma OutdatedLast(pods: seq<Pod>, last: Pod, revision: string)
    ensures var all := pods + [last];
            if AtRevision(last, revision)
            then OutdatedPods(all, revision) == OutdatedPods(pods, revision)
                 && OutdatedAt(all, revision) == OutdatedAt(pods, revision)
            else OutdatedPods(all, revision) == OutdatedPods(pods, revision) + [last]
                 && OutdatedAt(all, revision) == OutdatedAt(pods, revision) + {|pods|}
  {
    assert (pods + [last])[..|pods|] == pods;
  }

  /** The outdated pods are those at another revision, all of them and in the order of the pods. */
  lemma {:induction false} OutdatedMeaning(pods: seq<Pod>, revision: string) returns (positions: seq<nat>)
    ensures Picks(positions, pods, OutdatedPods(pods, revision))
    ensures (set k | k in positions) == OutdatedAt(pods, revision)
  {
    positions := [];
    if pods != [] {
      var k := |pods| - 1;
      var front, last := pods[..k], pods[k];
      positions := OutdatedMeaning(front, revision);
      PicksLast(positions, front, OutdatedPods(front, revision), last);
      OutdatedLast(front, last, revision);
      assert front + [last] == pods;
      if !AtRevision(last, revision) {
        positions := positions + [k];
      }
    }
  }

  /** A container, of whatever kind, waits for a reason it cannot recover from. */
  lemma StuckMeaning(pod: Pod)
    ensures Stuck(pod) <==>
            exists c | c in pod.initContainers || c in pod.containers ::
              && c.state.Waiting?
              && var r := c.state.reason;
                 || r == "CrashLoopBackOff" || r == "ImagePullBackOff" || r == "ErrImagePull" || r == "InvalidImageName"
                 || r == "CreateContainerConfigError" || r == "CreateContainerError"
  {
    assert forall c :: c in pod.initContainers + pod.containers <==> c in pod.initContainers || c in pod.containers;
  }

  // ----- the window -----

  /** What is left of the limit after the pods that are not ready, by status and spec. */
  lemma WindowMeaning(v: SetView)
    ensures var left := MaxUnavailable(v.sts) - (ExpectedReplicas(v.sts) - v.sts.readyReplicas);
            && Window(v) <= |Outdated(v)| && (left <= 0 ==> Window(v) == 0) && (left > 0 ==> Window(v) <= left)
            && (Window(v) < |Outdated(v)| && left > 0 ==> Window(v) == left)
  {
  }

  lemma {:induction false} SelectsFront(outdated: seq<Pod>, window: nat, k: nat)
    requires k <= |outdated| && forall p | p in outdated :: !p.deleting && !Stuck(p)
    ensures Selected(outdated, window, k) == outdated[..if k < window then k else window]
  {
    if k > 0 {
      SelectsFront(outdated, window, k - 1);
      assert outdated[k - 1] in outdated;
      assert outdated[..k - 1] + [outdated[k - 1]] == outdated[..k];
    }
  }

  lemma {:induction false} AllDeleted(selected: seq<Pod>, a: Answers)
    requires a.deleteFails == {} && forall p | p in selected :: p.name in a.permitted
    ensures Deletions(selected, a) == Deletion(selected, false)
  {
    if selected != [] {
      assert selected[0] in selected;
      AllDeleted(selected[1..], a);
    }
  }

  /** The promised parallelism: a whole set loses its first outdated pods, as many as maxUnavailable allows. */
  lemma RollsInParallel(v: SetView, a: Answers)
    requires Whole(v) && RevisionsKnown(v) && Outdated(v) != [] && forall p | p in v.pods :: !Stuck(p)
    requires a.deleteFails == {} && a.lookupFails == {} && forall p | p in v.pods :: p.name in a.permitted
    ensures var n := if MaxUnavailable(v.sts) < |Outdated(v)| then MaxUnavailable(v.sts) else |Outdated(v)|;
            UpdateSet(v, a) == RollingPods(Deletion(Outdated(v)[..n], false))
  {
    var outdated := Outdated(v);
    forall p | p in outdated ensures p in v.pods && !p.deleting && !Stuck(p) {
      OutdatedMembers(v.pods, v.sts.updateRevision, p);
    }
    WindowMeaning(v);
    SelectsFront(outdated, Window(v), |outdated|);
    forall p | p in Selection(v) ensures p.name in a.permitted {
      assert p in outdated;
    }
    AllDeleted(Selection(v), a);
  }

  // ----- failing calls -----

  predicate DeleteFailsAt(selected: seq<Pod>, a: Answers, f: nat) {
    && f < |selected| && selected[f].name in a.permitted && selected[f].name in a.deleteFails
    && forall j | 0 <= j < f :: selected[j].name !in a.permitted || selected[j].name !in a.deleteFails
  }

  /** The first failing delete call ends the deletions; what came before it is deleted. */
  lemma {:induction false} FailingDeleteCuts(selected: seq<Pod>, a: Answers, f: nat)
    requires DeleteFailsAt(selected, a, f)
    ensures Deletions(selected, a).failed && Deletions(selected, a).deleted == Deletions(selected[..f], a).deleted
    ensures !Deletions(selected[..f], a).failed
    ensures forall p :: p in Deletions(selected[..f], a).deleted <==> p in selected[..f] && p.name in a.permitted
  {
    if f > 0 {
      var tail := selected[1..];
      assert selected[..f][1..] == tail[..f - 1];
      forall j | 0 <= j < f ensures tail[..f][j] == selected[j + 1] {}
      FailingDeleteCuts(tail, a, f - 1);
      assert forall p :: p in selected[..f] <==> p == selected[0] || p in tail[..f - 1];
    }
  }

  /** A failing budget lookup for the first selected pod stops the set before anything is deleted. */
  lemma FailingLookupBlocks(v: SetView, a: Answers)
    requires RevisionsKnown(v) && Outdated(v) != [] && Selection(v) != [] && Selection(v)[0].name in a.lookupFails
    ensures UpdateSet(v, a) == RollingPods(Deletion([], true))
  {
  }

  // ----- where and why the loop ends -----

  /** The loop ends at this set. */
  predicate Ends(v: SetView, a: Answers) {
    !v.sts.paused && !UpdateSet(v, a).Settled?
  }

  function StopAt(v: SetView, a: Answers): Stop {
    match UpdateSet(v, a)
    case RollingPods(d) => Rolling(v.sts.name, d.failed)
    case WaitingForPods => WaitingFor(v.sts.name)
    case UpdateFailed => FailedAt(v.sts.name)
    case Settled(_) => Completed
  }

  predicate FirstEnd(sets: seq<SetView>, a: Answers, k: nat, i: nat) {
    k <= i < |sets| && Ends(sets[i], a) && forall j | k <= j < i :: !Ends(sets[j], a)
  }

  lemma {:induction false} WalkEndsAt(sets: seq<SetView>, a: Answers, k: nat, i: nat)
    requires FirstEnd(sets, a, k, i)
    ensures Walk(sets[k..], None, a).stop == StopAt(sets[i], a)
    decreases i - k
  {
    assert sets[k..][1..] == sets[k + 1..];
    if k < i {
      WalkEndsAt(sets, a, k + 1, i);
    }
  }

  lemma {:induction false} WalkCompletes(sets: seq<SetView>, a: Answers, k: nat)
    requires k <= |sets| && forall j | k <= j < |sets| :: !Ends(sets[j], a)
    ensures Walk(sets[k..], None, a).stop == Completed
    decreases |sets| - k
  {
    if k < |sets| {
      assert sets[k..][1..] == sets[k + 1..];
      WalkCompletes(sets, a, k + 1);
    }
  }

  lemma {:induction false} TwoNotReady(sets: seq<SetView>, i: nat, j: nat)
    requires i < j < |sets| && HasNotReady(sets[i]) && HasNotReady(sets[j])
    ensures |NotReadySets(sets)| > 1
  {
    var k := |sets| - 1;
    if j < k {
      TwoNotReady(sets[..k], i, j);
    } else {
      NotReadySetsMembers(sets[..k], sets[..k][i]);
    }
  }

  /** Two sets that are not whole. */
  ghost predicate TwoBroken(sets: seq<SetView>) {
    exists i, j | 0 <= i < j < |sets| :: !Whole(sets[i]) && !Whole(sets[j])
  }

  lemma BrokenSets(sets: seq<SetView>)
    ensures |NotReadySets(sets)| > 1 <==> TwoBroken(sets)
  {
    forall j | 0 <= j < |sets| ensures HasNotReady(sets[j]) <==> !Whole(sets[j]) {
      NotReadyIffNotWhole(sets[j]);
    }
    if TwoBroken(sets) {
      var i, j :| 0 <= i < j < |sets| && !Whole(sets[i]) && !Whole(sets[j]);
      TwoNotReady(sets, i, j);
    } else if i: nat :| i < |sets| && !Whole(sets[i]) {
      OnlyNotReadySet(sets, i);
    } else {
      OnlyNotReadySet(sets, |sets|);
    }
  }

  /** One set is not whole, and it comes first. */
  lemma OneBroken(sets: seq<SetView>, a: Answers, i: nat)
    requires i < |sets| && AllOnDelete(sets) && OthersWhole(sets, i) && !Whole(sets[i])
    ensures Reconcile(sets, a).stop == if sets[i].sts.paused then HeldByPause else StopAt(sets[i], a)
    ensures !UpdateSet(sets[i], a).Settled? && Reconcile(sets, a).revised == []
  {
    NotReadyIffNotWhole(sets[i]);
    OthersWholeIff(sets, i);
    OnlyNotReadySet(sets, i);
  }

  lemma NoneBroken(sets: seq<SetView>, a: Answers)
    requires AllOnDelete(sets) && forall j | 0 <= j < |sets| :: Whole(sets[j])
    ensures Reconcile(sets, a) == Walk(sets, None, a)
    ensures (forall j | 0 <= j < |sets| :: !Ends(sets[j], a)) ==> Reconcile(sets, a).stop == Completed
    ensures forall i: nat | FirstEnd(sets, a, 0, i) :: Reconcile(sets, a).stop == StopAt(sets[i], a)
  {
    forall j | 0 <= j < |sets| ensures !HasNotReady(sets[j]) {
      NotReadyIffNotWhole(sets[j]);
    }
    OnlyNotReadySet(sets, |sets|);
    assert sets[0..] == sets;
    if forall j | 0 <= j < |sets| :: !Ends(sets[j], a) {
      WalkCompletes(sets, a, 0);
    }
    forall i: nat | FirstEnd(sets, a, 0, i) ensures Walk(sets, None, a).stop == StopAt(sets[i], a) {
      WalkEndsAt(sets, a, 0, i);
    }
  }

  /** How one set ends, read off its own fields. */
  lemma UpdateMeaning(v: SetView, a: Answers)
    ensures UpdateSet(v, a).RollingPods? <==> RevisionsKnown(v) && Outdated(v) != []
    ensures UpdateSet(v, a).WaitingForPods? <==> RevisionsKnown(v) && Outdated(v) == [] && !Whole(v)
    ensures UpdateSet(v, a).UpdateFailed? <==> !RevisionsKnown(v) || (Outdated(v) == [] && Whole(v) && MoveFails(v, a))
    ensures UpdateSet(v, a) == Settled(true) <==>
            && RevisionsKnown(v) && Outdated(v) == [] && Whole(v)
            && v.sts.currentRevision != v.sts.updateRevision && !MoveFails(v, a)
  {
    NotReadyIffNotWhole(v);
  }

  /** How a reconcile ends: an error for a wrong strategy, nothing for two broken sets or a paused broken one; else
      it ends at the broken set, or at the first set that does not pass, or after the last. */
  lemma ReconcileStops(sets: seq<SetView>, a: Answers)
    ensures var stop := Reconcile(sets, a).stop;
            if exists v | v in sets :: !v.sts.onDelete then stop == BadStrategy
            else if TwoBroken(sets) then stop == TooManyNotReady
            else
              && (forall i: nat | i < |sets| && !Whole(sets[i]) ::
                    stop == if sets[i].sts.paused then HeldByPause else StopAt(sets[i], a))
              && ((forall j | 0 <= j < |sets| :: Whole(sets[j])) ==>
                    && (forall i: nat | FirstEnd(sets, a, 0, i) :: stop == StopAt(sets[i], a))
                    && ((forall j | 0 <= j < |sets| :: !Ends(sets[j], a)) ==> stop == Completed))
  {
    BrokenSets(sets);
    if AllOnDelete(sets) && !TwoBroken(sets) {
      forall i: nat | i < |sets| && !Whole(sets[i])
        ensures Reconcile(sets, a).stop == if sets[i].sts.paused then HeldByPause else StopAt(sets[i], a)
      {
        OneBroken(sets, a, i);
      }
      if forall j | 0 <= j < |sets| :: Whole(sets[j]) {
        NoneBroken(sets, a);
      }
    }
  }

  // ----- whose revision is moved -----

  predicate MovesRevision(v: SetView, a: Answers) {
    !v.sts.paused && UpdateSet(v, a) == Settled(true)
  }

  lemma {:induction false} WalkRevises(sets: seq<SetView>, a: Answers, k: nat, i: nat)
    requires DistinctSets(sets) && k <= |sets| && i < |sets|
    ensures sets[i].sts.name in Walk(sets[k..], None, a).revised <==>
            k <= i && MovesRevision(sets[i], a) && forall j | k <= j < i :: !Ends(sets[j], a)
    decreases |sets| - k
  {
    if k < |sets| {
      assert sets[k..][1..] == sets[k + 1..];
      WalkRevises(sets, a, k + 1, i);
      assert i != k ==> sets[i].sts.name != sets[k].sts.name;
    }
  }

  /** A current revision is moved if and only if every set uses OnDelete and is whole, the loop gets to the set, and
      the set is unpaused, fully updated and behind. */
  lemma RevisedIff(sets: seq<SetView>, a: Answers, i: nat)
    requires DistinctSets(sets) && i < |sets|
    ensures sets[i].sts.name in Reconcile(sets, a).revised <==>
            && AllOnDelete(sets) && (forall j | 0 <= j < |sets| :: Whole(sets[j]))
            && (forall j | 0 <= j < i :: !Ends(sets[j], a)) && MovesRevision(sets[i], a)
  {
    BrokenSets(sets);
    if AllOnDelete(sets) && !TwoBroken(sets) {
      if b: nat :| b < |sets| && !Whole(sets[b]) {
        OneBroken(sets, a, b);
      } else {
        NoneBroken(sets, a);
        WalkRevises(sets, a, 0, i);
        assert sets[0..] == sets;
      }
    }
  }
}
