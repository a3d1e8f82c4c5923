/** The reconcile loops of the rollout controller, acting on the cluster. */
module RolloutController {
  import opened Kube
  import opened Rollout
  import opened ReconcileMeaning

  /** What the controller changes: pods it deletes and StatefulSets whose current revision it moves. */
  class Cluster {
    var deleted: seq<Pod>
    var revised: seq<string>

    constructor ()
      ensures deleted == [] && revised == []
    {
      deleted, revised := [], [];
    }
  }

  method IsPodStuck(pod: Pod) returns (r: bool)
    ensures r <==> Stuck(pod)
  {
    var statuses := pod.initContainers + pod.containers;
    for i := 0 to |statuses|
      invariant forall j | 0 <= j < i :: !StuckContainer(statuses[j])
    {
      if !statuses[i].state.Waiting? {
        continue;
      }
      if statuses[i].state.reason in STUCK_REASONS {
        assert statuses[i] in statuses;
        return true;
      }
    }
    return false;
  }

  method HasStatefulSetNotReadyPods(v: SetView) returns (r: bool)
    ensures r <==> HasNotReady(v)
    ensures r <==> !Whole(v)
  {
    NotReadyIffNotWhole(v);
    if ExpectedReplicas(v.sts) != v.sts.readyReplicas {
      return true;
    }
    if |v.pods| < ExpectedReplicas(v.sts) {
      return true;
    }
    for i := 0 to |v.pods|
      invariant forall j | 0 <= j < i :: RunningAndReady(v.pods[j])
    {
      var up := IsPodRunningAndReady(v.pods[i]);
      if !up {
        assert v.pods[i] in v.pods;
        return true;
      }
    }
    return false;
  }

  method PodsNotMatchingUpdateRevision(v: SetView) returns (r: Option<seq<Pod>>)
    ensures r == if v.sts.currentRevision == "" || v.sts.updateRevision == "" then None else Some(Outdated(v))
    ensures r.Some? ==> forall p :: p in r.value <==> p in v.pods && !AtRevision(p, v.sts.updateRevision)
  {
    forall p ensures p in Outdated(v) <==> p in v.pods && !AtRevision(p, v.sts.updateRevision) {
      OutdatedMembers(v.pods, v.sts.updateRevision, p);
    }
    if v.sts.currentRevision == "" || v.sts.updateRevision == "" {
      return None;
    }
    var pods := [];
    for i := 0 to |v.pods|
      invariant pods == OutdatedPods(v.pods[..i], v.sts.updateRevision)
    {
      assert v.pods[..i + 1][..i] == v.pods[..i];
      if Revision(v.pods[i]) != v.sts.updateRevision {
        pods := pods + [v.pods[i]];
      }
    }
    assert v.pods[..|v.pods|] == v.pods;
    return Some(pods);
  }

  method SelectPodsToDelete(podsToUpdate: seq<Pod>, numPods: nat) returns (podsToDelete: seq<Pod>)
    ensures podsToDelete == Selected(podsToUpdate, numPods, |podsToUpdate|)
  {
    podsToDelete := [];
    for i := 0 to |podsToUpdate|
      invariant podsToDelete == Selected(podsToUpdate, numPods, i)
    {
      var pod := podsToUpdate[i];
      if pod.deleting {
        continue;
      }
      if i < numPods {
        podsToDelete := podsToDelete + [pod];
      } else {
        var stuck := IsPodStuck(pod);
        if stuck {
          podsToDelete := podsToDelete + [pod];
        }
      }
    }
  }

  /** Deletes the pods the budget permits, up to the first failing delete call. */
  method DeletePods(cluster: Cluster, podsToDelete: seq<Pod>, a: Answers) returns (failed: bool)
    modifies cluster`deleted
    ensures var d := Deletions(podsToDelete, a);
            failed == d.failed && cluster.deleted == old(cluster.deleted) + d.deleted
  {
    var i := 0;
    ghost var before := cluster.deleted;
    while i < |podsToDelete|
      invariant 0 <= i <= |podsToDelete|
      invariant var d, rest := Deletions(podsToDelete, a), Deletions(podsToDelete[i..], a);
                before + d.deleted == cluster.deleted + rest.deleted && d.failed == rest.failed
    {
      var pod := podsToDelete[i];
      assert podsToDelete[i..][1..] == podsToDelete[i + 1..];
      if pod.name in a.permitted {
        if pod.name in a.deleteFails {
          return true;
        }
        cluster.deleted := cluster.deleted + [pod];
      }
      i := i + 1;
    }
    return false;
  }

  /** Deletes the outdated pods that the availability window and the budget allow, and the stuck ones. */
  method RollPods(cluster: Cluster, v: SetView, podsToUpdate: seq<Pod>, a: Answers) returns (failed: bool)
    requires podsToUpdate == Outdated(v) != []
    requires v.sts.currentRevision != "" && v.sts.updateRevision != ""
    modifies cluster`deleted
    ensures var u := UpdateSet(v, a);
            && u.RollingPods? && failed == u.deletion.failed
            && cluster.deleted == old(cluster.deleted) + u.deletion.deleted
  {
    var numNotReady := ExpectedReplicas(v.sts) - v.sts.readyReplicas;
    var numPods := Max(0, Min(MaxUnavailable(v.sts) - numNotReady, |podsToUpdate|));
    var podsToDelete := SelectPodsToDelete(podsToUpdate, numPods);
    if |podsToDelete| == 0 {
      return false;
    }
    if podsToDelete[0].name in a.lookupFails {
      return true;
    }
    failed := DeletePods(cluster, podsToDelete, a);
  }

  /** `ongoing` tells the caller not to touch another StatefulSet. */
  method UpdateStatefulSetPods(cluster: Cluster, v: SetView, a: Answers) returns (ongoing: bool, failed: bool)
    modifies cluster
    ensures match UpdateSet(v, a)
            case RollingPods(d) =>
              && (ongoing || failed) && failed == d.failed
              && cluster.deleted == old(cluster.deleted) + d.deleted && cluster.revised == old(cluster.revised)
            case WaitingForPods =>
              ongoing && !failed && cluster.deleted == old(cluster.deleted) && cluster.revised == old(cluster.revised)
            case UpdateFailed =>
              failed && cluster.deleted == old(cluster.deleted) && cluster.revised == old(cluster.revised)
            case Settled(revised) =>
              && !ongoing && !failed && cluster.deleted == old(cluster.deleted)
              && cluster.revised == old(cluster.revised) + if revised then [v.sts.name] else []
  {
    var outdated := PodsNotMatchingUpdateRevision(v);
    if outdated.None? {
      return false, true;
    }
    var podsToUpdate := outdated.value;
    if |podsToUpdate| > 0 {
      failed := RollPods(cluster, v, podsToUpdate, a);
      return !failed, failed;
    }
    var notReady := HasStatefulSetNotReadyPods(v);
    if notReady {
      return true, false;
    }
    if v.sts.currentRevision != v.sts.updateRevision {
      if v.sts.name in a.statusFails {
        return false, true;
      }
      cluster.revised := cluster.revised + [v.sts.name];
    }
    return false, false;
  }

  method MoveStatefulSetToFront(sets: seq<SetView>, toMove: SetView) returns (out: seq<SetView>)
    ensures out == [toMove] + Without(sets, toMove.sts.name)
  {
    var rest := [];
    for i := 0 to |sets|
      invariant rest == Without(sets[..i], toMove.sts.name)
    {
      assert sets[..i + 1][..i] == sets[..i];
      if sets[i].sts.name != toMove.sts.name {
        rest := rest + [sets[i]];
      }
    }
    assert sets[..|sets|] == sets;
    return [toMove] + rest;
  }

  method FindNotReadySets(sets: seq<SetView>) returns (notReadySets: seq<SetView>)
    ensures notReadySets == NotReadySets(sets)
  {
    notReadySets := [];
    for i := 0 to |sets|
      invariant notReadySets == NotReadySets(sets[..i])
    {
      assert sets[..i + 1][..i] == sets[..i];
      var notReady := HasStatefulSetNotReadyPods(sets[i]);
      if notReady {
        notReadySets := notReadySets + [sets[i]];
      }
    }
    assert sets[..|sets|] == sets;
  }

  lemma WalkPaused(order: seq<SetView>, i: nat, held: Option<string>, a: Answers)
    requires i < |order| && order[i].sts.paused
    ensures Walk(order[i..], held, a) ==
            if held == Some(order[i].sts.name) then Outcome(HeldByPause, [], []) else Walk(order[i + 1..], held, a)
  {
    assert order[i..][1..] == order[i + 1..];
  }

  /** The loop ends at a set that is not settled, and goes on after one that is. */
  lemma WalkUpdates(order: seq<SetView>, i: nat, held: Option<string>, a: Answers)
    requires i < |order| && !order[i].sts.paused
    ensures var o, rest, name := Walk(order[i..], held, a), Walk(order[i + 1..], held, a), order[i].sts.name;
            match UpdateSet(order[i], a)
            case RollingPods(d) => o == Outcome(Rolling(name, d.failed), d.deleted, [])
            case WaitingForPods => o == Outcome(WaitingFor(name), [], [])
            case UpdateFailed => o == Outcome(FailedAt(name), [], [])
            case Settled(revised) => o == rest.(revised := (if revised then [name] else []) + rest.revised)
  {
    assert order[i..][1..] == order[i + 1..];
  }

  method UpdateSets(cluster: Cluster, order: seq<SetView>, held: Option<string>, a: Answers) returns (failed: bool)
    modifies cluster
    ensures var o := Walk(order, held, a);
            && cluster.deleted == old(cluster.deleted) + o.deleted
            && cluster.revised == old(cluster.revised) + o.revised
            && (failed <==> o.stop.FailedAt? || (o.stop.Rolling? && o.stop.failed))
            && !o.stop.BadStrategy?
  {
    ghost var deleted, revised := cluster.deleted, cluster.revised;
    ghost var o := Walk(order, held, a);
    var i := 0;
    while i < |order|
      invariant 0 <= i <= |order|
      invariant var rest := Walk(order[i..], held, a);
                && o.stop == rest.stop && o.deleted == rest.deleted
                && revised + o.revised == cluster.revised + rest.revised
      invariant cluster.deleted == deleted
    {
      var v := order[i];
      if v.sts.paused {
        WalkPaused(order, i, held, a);
        if held == Some(v.sts.name) {
          return false;
        }
      } else {
        WalkUpdates(order, i, held, a);
        ghost var was, rest := cluster.revised, Walk(order[i + 1..], held, a).revised;
        var ongoing, bad := UpdateStatefulSetPods(cluster, v, a);
        if bad {
          return true;
        }
        if ongoing {
          return false;
        }
        ghost var moved := if UpdateSet(v, a).revised then [v.sts.name] else [];
        AppendAssociates(was, moved, rest);
      }
      i := i + 1;
    }
    return false;
  }

  /** Reconciles one group whose replicas needed no adjustment. */
  method ReconcileStatefulSetsGroup(cluster: Cluster, sets: seq<SetView>, a: Answers) returns (failed: bool)
    modifies cluster
    ensures var o := Reconcile(sets, a);
            && cluster.deleted == old(cluster.deleted) + o.deleted
            && cluster.revised == old(cluster.revised) + o.revised
            && (failed <==> o.stop.BadStrategy? || o.stop.FailedAt? || (o.stop.Rolling? && o.stop.failed))
  {
    for i := 0 to |sets|
      invariant forall j | 0 <= j < i :: sets[j].sts.onDelete
    {
      if !sets[i].sts.onDelete {
        assert sets[i] in sets;
        return true;
      }
    }
    var notReadySets := FindNotReadySets(sets);
    if |notReadySets| > 1 {
      return false;
    }
    if |notReadySets| == 1 {
      var order := MoveStatefulSetToFront(sets, notReadySets[0]);
      failed := UpdateSets(cluster, order, Some(notReadySets[0].sts.name), a);
    } else {
      failed := UpdateSets(cluster, sets, None, a);
    }
  }
}
