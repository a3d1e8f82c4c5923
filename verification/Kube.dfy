/** The Kubernetes objects the operator reads, reduced to the fields its decisions use.
    Annotations and labels that the operator parses are kept in parsed form; times are
    integers in nanoseconds. */
module Kube {

  datatype Option<+T> = None | Some(value: T)

  /** A value parsed out of an annotation: `Bad` is a parse error. */
  datatype Parsed = Good(value: int) | Bad

  const SECOND: int := 1_000_000_000

  /** Stored timestamps have whole seconds. */
  function Seconds(t: int): int {
    t - t % SECOND
  }

  datatype Phase = Pending | Running | Succeeded | Failed | UnknownPhase

  datatype ContainerState = Waiting(reason: string) | Started | Terminated

  datatype ContainerStatus = ContainerStatus(ready: bool, state: ContainerState)

  datatype ConditionStatus = True | False | Unknown

  /** `lastTransition` is `None` for the zero time. */
  datatype Condition = Condition(kind: string, status: ConditionStatus, lastTransition: Option<int>)

  datatype OwnerReference = NoController | Controller(kind: string, name: string)

  datatype Pod = Pod(
    name: string,
    uid: string,
    generation: int,
    labels: map<string, string>,
    owner: OwnerReference,
    phase: Phase,
    deleting: bool, // the deletion timestamp is set
    initContainers: seq<ContainerStatus>,
    containers: seq<ContainerStatus>,
    conditions: seq<Condition>)

  /** The parsed rollout-max-unavailable annotation; `None` inside means it is not an integer. */
  datatype MaxUnavailableAnnotation = Unset | Percentage(percent: Option<int>) | Absolute(count: Option<int>)

  datatype StatefulSet = StatefulSet(
    name: string,
    uid: string,
    specReplicas: Option<nat>,
    statusReplicas: nat,
    readyReplicas: nat,
    updatedReplicas: nat,
    currentRevision: string,
    updateRevision: string,
    onDelete: bool,
    paused: bool,
    maxUnavailable: MaxUnavailableAnnotation,
    leader: Option<string>,
    onlyWhenLeaderReady: bool,
    forceReplicas: Option<nat>,
    lastDownscale: Option<Parsed>,
    minTimeBetweenDownscales: Option<Parsed>)

  /** The label holding the revision a pod was created from. */
  const REVISION_LABEL := "controller-revision-hash"

  function Revision(pod: Pod): string {
    if REVISION_LABEL in pod.labels then pod.labels[REVISION_LABEL] else ""
  }

  function Max(a: int, b: int): int {
    if a < b then b else a
  }

  function Min(a: int, b: int): int {
    if a < b then a else b
  }

  predicate ContainerUp(c: ContainerStatus) {
    c.ready && c.state.Started?
  }

  predicate RunningAndReady(pod: Pod) {
    pod.phase == Running && !pod.deleting && forall c | c in pod.containers :: ContainerUp(c)
  }

  /** Running, not terminating, and no container that is not ready, waiting or terminated. */
  method IsPodRunningAndReady(pod: Pod) returns (r: bool)
    ensures r <==> RunningAndReady(pod)
    ensures r <==> && pod.phase == Running && !pod.deleting
                   && forall i | 0 <= i < |pod.containers| :: pod.containers[i] == ContainerStatus(true, Started)
  {
    if pod.phase != Running {
      return false;
    }
    if pod.deleting {
      return false;
    }
    for i := 0 to |pod.containers|
      invariant forall j | 0 <= j < i :: ContainerUp(pod.containers[j])
    {
      var container := pod.containers[i];
      if !container.ready || !container.state.Started? {
        assert container in pod.containers;
        return false;
      }
    }
    return true;
  }

  /** The number of pods a StatefulSet should have: missing pods count, and a scale-down
      still uses the current status. */
  function ExpectedReplicas(sts: StatefulSet): (r: nat)
    ensures r >= sts.statusReplicas && (sts.specReplicas.Some? ==> r >= sts.specReplicas.value)
    ensures r == sts.statusReplicas || Some(r) == sts.specReplicas
  {
    match sts.specReplicas
    case None => sts.statusReplicas
    case Some(n) => if n < sts.statusReplicas then sts.statusReplicas else n
  }

  predicate DistinctNames(pods: seq<Pod>) {
    forall i, j | 0 <= i < j < |pods| :: pods[i].name != pods[j].name
  }

  function Names(pods: seq<Pod>): set<string> {
    set i | 0 <= i < |pods| :: pods[i].name
  }

  lemma {:induction false} NamesOfPrefix(pods: seq<Pod>)
    requires pods != []
    ensures Names(pods) == Names(pods[..|pods| - 1]) + {pods[|pods| - 1].name}
  {
    var last := |pods| - 1;
    forall n | n in Names(pods) ensures n in Names(pods[..last]) + {pods[last].name} {
      var i :| 0 <= i < |pods| && pods[i].name == n;
      if i < last {
        assert pods[..last][i].name == n;
      }
    }
    forall n | n in Names(pods[..last]) ensures n in Names(pods) {
      var i :| 0 <= i < last && pods[..last][i].name == n;
      assert pods[i].name == n;
    }
    assert pods[last].name in Names(pods);
  }

  lemma {:induction false} NamesCardinality(pods: seq<Pod>)
    requires DistinctNames(pods)
    ensures |Names(pods)| == |pods|
  {
    if pods != [] {
      var last := |pods| - 1;
      NamesOfPrefix(pods);
      NamesCardinality(pods[..last]);
      assert pods[last].name !in Names(pods[..last]);
    }
  }

  lemma AppendAssociates<T>(x: seq<T>, y: seq<T>, z: seq<T>)
    ensures x + (y + z) == (x + y) + z
  {
  }

  lemma {:induction false} SubsetCardinality<T>(a: set<T>, b: set<T>)
    requires a <= b
    ensures |a| <= |b|
    decreases a
  {
    if a != {} {
      var x :| x in a;
      SubsetCardinality(a - {x}, b - {x});
    }
  }
}
