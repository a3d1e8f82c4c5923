/** Following leaders converges: every patch removes a mismatched link from some chain to a root. */
module LeaderFollowing {
  import opened Kube
  import opened Replicas

  type Sets = seq<StatefulSet>

  predicate Sized(sets: Sets) {
    forall s | s in sets :: s.specReplicas.Some?
  }

  /** What one reconcile does to the sizes. */
  datatype Adjustment = NoChange | AdjustFailed | Patched(index: nat, replicas: nat)

  /** The first set from `k` on whose desired size differs is patched, and nothing after it is looked at. */
  function Adjust(sets: Sets, now: int, patchFails: bool, k: nat): Adjustment
    requires Sized(sets) && k <= |sets|
    decreases |sets| - k
  {
    if k == |sets| then NoChange
    else
      match DesiredReplicas(sets[k], sets, now)
      case DesiredError => AdjustFailed
      case Size(n) =>
        if n == sets[k].specReplicas.value then Adjust(sets, now, patchFails, k + 1)
        else if patchFails then AdjustFailed
        else Patched(k, n)
  }

  /** Set `i` has its desired size. */
  predicate InStep(sets: Sets, now: int, i: nat)
    requires Sized(sets) && i < |sets|
  {
    DesiredReplicas(sets[i], sets, now) == Size(sets[i].specReplicas.value)
  }

  /** The first set from `k` on that does not have its desired size is patched, or stops the loop with an error. */
  lemma {:induction false} AdjustsFirst(sets: Sets, now: int, patchFails: bool, k: nat, i: nat)
    requires Sized(sets) && k <= i < |sets|
    requires !InStep(sets, now, i) && forall j | k <= j < i :: InStep(sets, now, j)
    ensures Adjust(sets, now, patchFails, k) ==
            match DesiredReplicas(sets[i], sets, now)
            case DesiredError => AdjustFailed
            case Size(n) => if patchFails then AdjustFailed else Patched(i, n)
    decreases i - k
  {
    if k < i {
      assert InStep(sets, now, k);
      AdjustsFirst(sets, now, patchFails, k + 1, i);
    }
  }

  lemma {:induction false} AdjustsNothing(sets: Sets, now: int, patchFails: bool, k: nat)
    requires Sized(sets) && k <= |sets| && forall j | k <= j < |sets| :: InStep(sets, now, j)
    ensures Adjust(sets, now, patchFails, k) == NoChange
    decreases |sets| - k
  {
    if k < |sets| {
      assert InStep(sets, now, k);
      AdjustsNothing(sets, now, patchFails, k + 1);
    }
  }

  method AdjustStatefulSetsGroupReplicasToFollowLeader(sets: Sets, now: int, patchFails: bool) returns (r: Adjustment)
    requires Sized(sets)
    ensures r == Adjust(sets, now, patchFails, 0)
    ensures r.Patched? ==> r.index < |sets| && sets[r.index].specReplicas != Some(r.replicas)
  {
    for i := 0 to |sets|
      invariant Adjust(sets, now, patchFails, 0) == Adjust(sets, now, patchFails, i)
    {
      var currentReplicas := sets[i].specReplicas.value;
      var desired := DesiredReplicas(sets[i], sets, now);
      if desired.DesiredError? {
        return AdjustFailed;
      }
      if desired.replicas > currentReplicas {
        if patchFails {
          return AdjustFailed;
        }
        return Patched(i, desired.replicas);
      } else if desired.replicas < currentReplicas {
        if patchFails {
          return AdjustFailed;
        }
        return Patched(i, desired.replicas);
      }
    }
    return NoChange;
  }

  // ----- leader chains, as indices and sizes -----

  /** `rank` orders every leader before its followers. */
  predicate Forest(leaders: seq<Option<nat>>, rank: seq<nat>) {
    && |rank| == |leaders|
    && forall i | 0 <= i < |leaders| && leaders[i].Some? ::
         leaders[i].value < |leaders| && rank[leaders[i].value] < rank[i]
  }

  /** The mismatched links between `i` and its root. */
  function Mismatches(leaders: seq<Option<nat>>, rank: seq<nat>, sizes: seq<nat>, i: nat): nat
    requires Forest(leaders, rank) && |sizes| == |leaders| && i < |leaders|
    decreases rank[i]
  {
    match leaders[i]
    case None => 0
    case Some(l) => (if sizes[i] != sizes[l] then 1 else 0) + Mismatches(leaders, rank, sizes, l)
  }

  /** The termination measure: mismatched links summed over the chains of the first `k` sets. */
  function Potential(leaders: seq<Option<nat>>, rank: seq<nat>, sizes: seq<nat>, k: nat): nat
    requires Forest(leaders, rank) && |sizes| == |leaders| && k <= |leaders|
  {
    if k == 0 then 0 else Potential(leaders, rank, sizes, k - 1) + Mismatches(leaders, rank, sizes, k - 1)
  }

  function Root(leaders: seq<Option<nat>>, rank: seq<nat>, i: nat): (r: nat)
    requires Forest(leaders, rank) && i < |leaders|
    ensures r < |leaders| && leaders[r].None?
    decreases rank[i]
  {
    match leaders[i]
    case None => i
    case Some(l) => Root(leaders, rank, l)
  }

  /** Resizing a set to its leader's size removes a link at that set and may break only links right below it. */
  lemma {:induction false} PatchOnChain(leaders: seq<Option<nat>>, rank: seq<nat>, sizes: seq<nat>, p: nat, i: nat)
    requires Forest(leaders, rank) && |sizes| == |leaders| && p < |leaders| && i < |leaders|
    requires leaders[p].Some? && sizes[p] != sizes[leaders[p].value]
    ensures var sizes' := sizes[p := sizes[leaders[p].value]];
            Mismatches(leaders, rank, sizes', i) <= Mismatches(leaders, rank, sizes, i) - (if i == p then 1 else 0)
    decreases rank[i]
  {
    if leaders[i].Some? {
      PatchOnChain(leaders, rank, sizes, p, leaders[i].value);
    }
  }

  lemma {:induction false} PatchShrinksPotential(
    leaders: seq<Option<nat>>, rank: seq<nat>, sizes: seq<nat>, p: nat, k: nat)
    requires Forest(leaders, rank) && |sizes| == |leaders| && p < |leaders| && k <= |leaders|
    requires leaders[p].Some? && sizes[p] != sizes[leaders[p].value]
    ensures var sizes' := sizes[p := sizes[leaders[p].value]];
            Potential(leaders, rank, sizes', k) <= Potential(leaders, rank, sizes, k) - (if p < k then 1 else 0)
  {
    if k > 0 {
      PatchShrinksPotential(leaders, rank, sizes, p, k - 1);
      PatchOnChain(leaders, rank, sizes, p, k - 1);
    }
  }

  /** The measure is at most the sum of the ranks, so it bounds the work before the run starts. */
  lemma {:induction false} MismatchesBoundedByRank(leaders: seq<Option<nat>>, rank: seq<nat>, sizes: seq<nat>, i: nat)
    requires Forest(leaders, rank) && |sizes| == |leaders| && i < |leaders|
    ensures Mismatches(leaders, rank, sizes, i) <= rank[i]
    decreases rank[i]
  {
    if leaders[i].Some? {
      MismatchesBoundedByRank(leaders, rank, sizes, leaders[i].value);
    }
  }

  lemma {:induction false} MatchedMeansRootSize(leaders: seq<Option<nat>>, rank: seq<nat>, sizes: seq<nat>, i: nat)
    requires Forest(leaders, rank) && |sizes| == |leaders| && i < |leaders|
    requires forall j | 0 <= j < |leaders| && leaders[j].Some? :: sizes[j] == sizes[leaders[j].value]
    ensures sizes[i] == sizes[Root(leaders, rank, i)]
    decreases rank[i]
  {
    if leaders[i].Some? {
      MatchedMeansRootSize(leaders, rank, sizes, leaders[i].value);
    }
  }

  // ----- the chains of a group -----

  function LeaderIndex(sets: Sets, i: nat): Option<nat>
    requires i < |sets|
  {
    var l := LeaderOf(sets[i], sets);
    if l.LeaderAt? then Some(l.index) else None
  }

  function Leaders(sets: Sets): seq<Option<nat>> {
    seq(|sets|, i requires 0 <= i < |sets| => LeaderIndex(sets, i))
  }

  function Sizes(sets: Sets): seq<nat>
    requires Sized(sets)
  {
    seq(|sets|, i requires 0 <= i < |sets| => sets[i].specReplicas.value)
  }

  /** No size is forced, every configured leader is in the group, and no chain of leaders loops. */
  ghost predicate Acyclic(sets: Sets, rank: seq<nat>) {
    && Sized(sets)
    && (forall i | 0 <= i < |sets| :: sets[i].forceReplicas.None? && !LeaderOf(sets[i], sets).LeaderMissing?)
    && Forest(Leaders(sets), rank)
  }

  ghost function Measure(sets: Sets, rank: seq<nat>): nat
    requires Acyclic(sets, rank)
  {
    Potential(Leaders(sets), rank, Sizes(sets), |sets|)
  }

  /** Every set has the size of the root of its chain. */
  ghost predicate Aligned(sets: Sets, rank: seq<nat>)
    requires Acyclic(sets, rank)
  {
    forall i | 0 <= i < |sets| :: Sizes(sets)[i] == Sizes(sets)[Root(Leaders(sets), rank, i)]
  }

  /** The same names and leaders; sizes may differ. */
  predicate SameShape(sets: Sets, sets': Sets) {
    && |sets| == |sets'|
    && forall i | 0 <= i < |sets| :: sets'[i].name == sets[i].name && sets'[i].leader == sets[i].leader
  }

  lemma {:induction false} SameIndex(sets: Sets, sets': Sets, name: string, k: nat)
    requires SameShape(sets, sets') && k <= |sets|
    ensures IndexOf(sets, name, k) == IndexOf(sets', name, k)
    decreases |sets| - k
  {
    if k < |sets| {
      SameIndex(sets, sets', name, k + 1);
    }
  }

  lemma SameLeaders(sets: Sets, sets': Sets)
    requires SameShape(sets, sets')
    ensures Leaders(sets) == Leaders(sets')
    ensures forall i | 0 <= i < |sets| :: LeaderOf(sets[i], sets) == LeaderOf(sets'[i], sets')
  {
    forall i | 0 <= i < |sets|
      ensures LeaderOf(sets[i], sets) == LeaderOf(sets'[i], sets') && LeaderIndex(sets, i) == LeaderIndex(sets', i)
    {
      if sets[i].leader.Some? {
        SameIndex(sets, sets', sets[i].leader.value, 0);
      }
    }
  }

  // ----- runs -----

  function Patch(sets: Sets, adjustment: Adjustment): Sets {
    if adjustment.Patched? && adjustment.index < |sets|
    then sets[adjustment.index := sets[adjustment.index].(specReplicas := Some(adjustment.replicas))]
    else sets
  }

  /** Between reconciles everything but names, leaders, sizes and the absence of force-replicas may change:
      pods become ready, downscale times and gates change. */
  predicate SameSizes(sets: Sets, sets': Sets) {
    && SameShape(sets, sets')
    && forall i | 0 <= i < |sets| :: sets'[i].specReplicas == sets[i].specReplicas && sets'[i].forceReplicas.None?
  }

  ghost predicate Next(sets: Sets, now: int, patchFails: bool, sets': Sets) {
    Sized(sets) && SameSizes(Patch(sets, Adjust(sets, now, patchFails, 0)), sets')
  }

  lemma {:induction false} AdjustPatches(sets: Sets, now: int, patchFails: bool, k: nat)
    requires Sized(sets) && k <= |sets| && Adjust(sets, now, patchFails, k).Patched?
    ensures var r := Adjust(sets, now, patchFails, k);
            && k <= r.index < |sets| && sets[r.index].specReplicas != Some(r.replicas)
            && DesiredReplicas(sets[r.index], sets, now) == Size(r.replicas)
    decreases |sets| - k
  {
    if DesiredReplicas(sets[k], sets, now) == Size(sets[k].specReplicas.value) {
      AdjustPatches(sets, now, patchFails, k + 1);
    }
  }

  /** Without a forced size, a set is only ever sent to its leader's size. */
  lemma DesiredIsLeaders(sets: Sets, now: int, i: nat)
    requires Sized(sets) && i < |sets| && sets[i].forceReplicas.None?
    ensures var d := DesiredReplicas(sets[i], sets, now);
            d.Size? && d.replicas != sets[i].specReplicas.value ==>
              LeaderIndex(sets, i).Some? && d.replicas == Sizes(sets)[LeaderIndex(sets, i).value]
  {
  }

  lemma PatchedSizes(sets: Sets, now: int, patchFails: bool)
    requires Sized(sets) && (forall i | 0 <= i < |sets| :: sets[i].forceReplicas.None?)
    requires Adjust(sets, now, patchFails, 0).Patched?
    ensures var p := Adjust(sets, now, patchFails, 0).index;
            && p < |sets| && Leaders(sets)[p].Some? && Leaders(sets)[p].value < |sets|
            && Sizes(sets)[p] != Sizes(sets)[Leaders(sets)[p].value]
            && Sized(Patch(sets, Adjust(sets, now, patchFails, 0)))
            && Sizes(Patch(sets, Adjust(sets, now, patchFails, 0)))
               == Sizes(sets)[p := Sizes(sets)[Leaders(sets)[p].value]]
  {
    var r := Adjust(sets, now, patchFails, 0);
    AdjustPatches(sets, now, patchFails, 0);
    DesiredIsLeaders(sets, now, r.index);
    var mid := Patch(sets, r);
    forall s | s in mid ensures s.specReplicas.Some? {
      var i :| 0 <= i < |mid| && mid[i] == s;
      assert sets[i] in sets;
    }
  }

  lemma SizesCarryOver(mid: Sets, sets': Sets)
    requires Sized(mid) && SameSizes(mid, sets')
    ensures Sized(sets') && Sizes(sets') == Sizes(mid)
  {
    forall s | s in sets' ensures s.specReplicas.Some? {
      var i :| 0 <= i < |sets'| && sets'[i] == s;
      assert mid[i] in mid;
    }
  }

  /** One reconcile, whatever the gates say: a patch shrinks the measure, anything else keeps it. */
  lemma StepShrinks(sets: Sets, rank: seq<nat>, now: int, patchFails: bool, sets': Sets)
    requires Acyclic(sets, rank) && Next(sets, now, patchFails, sets')
    ensures Acyclic(sets', rank) && |sets'| == |sets| && Leaders(sets') == Leaders(sets)
    ensures Measure(sets', rank) <= Measure(sets, rank) - (if Adjust(sets, now, patchFails, 0).Patched? then 1 else 0)
  {
    var r := Adjust(sets, now, patchFails, 0);
    var mid := Patch(sets, r);
    if r.Patched? {
      PatchedSizes(sets, now, patchFails);
      PatchShrinksPotential(Leaders(sets), rank, Sizes(sets), r.index, |sets|);
    }
    SizesCarryOver(mid, sets');
    SameLeaders(sets, sets');
  }

  ghost predicate StepsAt(states: seq<Sets>, times: seq<int>, failures: seq<bool>, k: nat)
    requires |states| == |times| + 1 && |failures| == |times| && k < |times|
  {
    Next(states[k], times[k], failures[k], states[k + 1])
  }

  ghost predicate IsRun(states: seq<Sets>, times: seq<int>, failures: seq<bool>) {
    && |states| == |times| + 1 && |failures| == |times|
    && forall k | 0 <= k < |times| :: StepsAt(states, times, failures, k)
  }

  predicate PatchesAt(sets: Sets, now: int, patchFails: bool) {
    Sized(sets) && Adjust(sets, now, patchFails, 0).Patched?
  }

  /** The number of patches among the first `k` reconciles. */
  function Patches(states: seq<Sets>, times: seq<int>, failures: seq<bool>, k: nat): nat
    requires |states| == |times| + 1 && |failures| == |times| && k <= |times|
  {
    if k == 0 then 0
    else
      Patches(states, times, failures, k - 1) + if PatchesAt(states[k - 1], times[k - 1], failures[k - 1]) then 1 else 0
  }

  lemma CountedStep(sets: Sets, rank: seq<nat>, now: int, patchFails: bool, sets': Sets)
    requires Acyclic(sets, rank) && Next(sets, now, patchFails, sets')
    ensures Acyclic(sets', rank) && Leaders(sets') == Leaders(sets)
    ensures (if PatchesAt(sets, now, patchFails) then 1 else 0) + Measure(sets', rank) <= Measure(sets, rank)
  {
    StepShrinks(sets, rank, now, patchFails, sets');
  }

  lemma {:induction false} AcyclicAt(
    states: seq<Sets>, rank: seq<nat>, times: seq<int>, failures: seq<bool>, k: nat)
    requires IsRun(states, times, failures) && k <= |times| && Acyclic(states[0], rank)
    ensures Acyclic(states[k], rank) && Leaders(states[k]) == Leaders(states[0])
  {
    if k > 0 {
      AcyclicAt(states, rank, times, failures, k - 1);
      var before, after := states[k - 1], states[k];
      assert StepsAt(states, times, failures, k - 1);
      CountedStep(before, rank, times[k - 1], failures[k - 1], after);
    }
  }

  lemma PatchesUpTo(states: seq<Sets>, times: seq<int>, failures: seq<bool>, k: nat)
    requires |states| == |times| + 1 && |failures| == |times| && k < |times|
    ensures Patches(states, times, failures, k + 1) ==
            Patches(states, times, failures, k) + if PatchesAt(states[k], times[k], failures[k]) then 1 else 0
  {
  }

  lemma StepSpends(
    states: seq<Sets>, rank: seq<nat>, times: seq<int>, failures: seq<bool>, k: nat)
    requires IsRun(states, times, failures) && k < |times|
    requires Acyclic(states[k], rank) && Acyclic(states[k + 1], rank)
    ensures Patches(states, times, failures, k + 1) + Measure(states[k + 1], rank)
            <= Patches(states, times, failures, k) + Measure(states[k], rank)
  {
    assert StepsAt(states, times, failures, k);
    CountedStep(states[k], rank, times[k], failures[k], states[k + 1]);
    PatchesUpTo(states, times, failures, k);
  }

  /** Over any run, for any name order and however the gates behave, the number of patches is bounded by
      the initial measure. */
  lemma {:induction false} FinitelyManyPatches(
    states: seq<Sets>, rank: seq<nat>, times: seq<int>, failures: seq<bool>, k: nat)
    requires IsRun(states, times, failures) && k <= |times| && Acyclic(states[0], rank)
    ensures Acyclic(states[k], rank) && Leaders(states[k]) == Leaders(states[0])
    ensures Patches(states, times, failures, k) + Measure(states[k], rank) <= Measure(states[0], rank)
  {
    AcyclicAt(states, rank, times, failures, k);
    if k > 0 {
      FinitelyManyPatches(states, rank, times, failures, k - 1);
      StepSpends(states, rank, times, failures, k - 1);
    }
  }

  // ----- convergence -----

  /** The gate lets set `i` move to its leader's size. */
  ghost predicate GateOpenAt(sets: Sets, now: int, i: nat)
    requires Sized(sets) && i < |sets|
  {
    var l := LeaderIndex(sets, i);
    l.Some? ==>
      && (Sizes(sets)[l.value] > Sizes(sets)[i] ==>
            !sets[i].onlyWhenLeaderReady || sets[l.value].readyReplicas == Sizes(sets)[l.value])
      && (Sizes(sets)[l.value] < Sizes(sets)[i] ==> MinimumTimeHasElapsed(sets[i], sets, now) == Open)
  }

  ghost predicate GatesOpen(sets: Sets, now: int)
    requires Sized(sets)
  {
    forall i | 0 <= i < |sets| :: GateOpenAt(sets, now, i)
  }

  lemma DesiredWhenOpen(sets: Sets, now: int, i: nat)
    requires Sized(sets) && i < |sets| && sets[i].forceReplicas.None? && GateOpenAt(sets, now, i)
    requires !LeaderOf(sets[i], sets).LeaderMissing?
    ensures var l := LeaderIndex(sets, i);
            DesiredReplicas(sets[i], sets, now) == Size(if l.Some? then Sizes(sets)[l.value] else Sizes(sets)[i])
  {
  }

  /** With open gates, a reconcile that patches nothing found every follower at its leader's size. */
  lemma {:induction false} QuietMeansMatched(sets: Sets, now: int, k: nat, i: nat)
    requires Sized(sets) && GatesOpen(sets, now) && k <= i < |sets|
    requires forall j | 0 <= j < |sets| :: sets[j].forceReplicas.None? && !LeaderOf(sets[j], sets).LeaderMissing?
    requires !Adjust(sets, now, false, k).Patched?
    ensures var l := LeaderIndex(sets, i); l.Some? ==> Sizes(sets)[i] == Sizes(sets)[l.value]
    decreases |sets| - k
  {
    DesiredWhenOpen(sets, now, k);
    if i != k {
      QuietMeansMatched(sets, now, k + 1, i);
    }
  }

  lemma QuietMeansAligned(sets: Sets, rank: seq<nat>, now: int)
    requires Acyclic(sets, rank) && GatesOpen(sets, now) && !Adjust(sets, now, false, 0).Patched?
    ensures Aligned(sets, rank)
  {
    var leaders, sizes := Leaders(sets), Sizes(sets);
    forall j | 0 <= j < |leaders| && leaders[j].Some? ensures sizes[j] == sizes[leaders[j].value] {
      QuietMeansMatched(sets, now, 0, j);
    }
    forall i | 0 <= i < |sets| ensures sizes[i] == sizes[Root(leaders, rank, i)] {
      MatchedMeansRootSize(leaders, rank, sizes, i);
    }
  }

  /** Roots are never patched, so what the followers converge to is what the roots had at the start. */
  lemma RootsKeepTheirSize(sets: Sets, rank: seq<nat>, now: int, patchFails: bool, sets': Sets, i: nat)
    requires Acyclic(sets, rank) && Next(sets, now, patchFails, sets') && i < |sets| && Leaders(sets)[i].None?
    ensures Acyclic(sets', rank) && |sets'| == |sets| && Leaders(sets') == Leaders(sets)
    ensures Sizes(sets')[i] == Sizes(sets)[i]
  {
    StepShrinks(sets, rank, now, patchFails, sets');
    if Adjust(sets, now, patchFails, 0).Patched? {
      PatchedSizes(sets, now, patchFails);
    }
    SizesCarryOver(Patch(sets, Adjust(sets, now, patchFails, 0)), sets');
  }

  lemma {:induction false} RootSizesKept(
    states: seq<Sets>, rank: seq<nat>, times: seq<int>, failures: seq<bool>, k: nat, i: nat)
    requires IsRun(states, times, failures) && k <= |times| && Acyclic(states[0], rank)
    requires i < |states[0]| && Leaders(states[0])[i].None?
    ensures Acyclic(states[k], rank) && |states[k]| == |states[0]| && Leaders(states[k]) == Leaders(states[0])
    ensures Sizes(states[k])[i] == Sizes(states[0])[i]
  {
    if k > 0 {
      RootSizesKept(states, rank, times, failures, k - 1, i);
      var before, after := states[k - 1], states[k];
      assert StepsAt(states, times, failures, k - 1);
      RootsKeepTheirSize(before, rank, times[k - 1], failures[k - 1], after, i);
    }
  }

  /** With open gates and working patches, a run longer than the initial measure reaches a state in which
      every follower has the size its root had at the start. */
  lemma {:induction false} FollowersConverge(
    states: seq<Sets>, rank: seq<nat>, times: seq<int>, failures: seq<bool>)
    returns (k: nat)
    requires IsRun(states, times, failures) && Acyclic(states[0], rank)
    requires forall j | 0 <= j < |times| :: !failures[j] && Sized(states[j]) && GatesOpen(states[j], times[j])
    requires |times| > Measure(states[0], rank)
    ensures k < |times| && Acyclic(states[k], rank) && Aligned(states[k], rank) && |states[k]| == |states[0]|
    ensures forall i | 0 <= i < |states[0]| ::
              Sizes(states[k])[i] == Sizes(states[0])[Root(Leaders(states[0]), rank, i)]
  {
    k := 0;
    while k < |times| && PatchesAt(states[k], times[k], failures[k])
      invariant 0 <= k <= |times| && Patches(states, times, failures, k) == k
    {
      k := k + 1;
    }
    FinitelyManyPatches(states, rank, times, failures, k);
    QuietMeansAligned(states[k], rank, times[k]);
    forall i | 0 <= i < |states[0]|
      ensures |states[k]| == |states[0]| && Sizes(states[k])[i] == Sizes(states[0])[Root(Leaders(states[0]), rank, i)]
    {
      RootSizesKept(states, rank, times, failures, k, Root(Leaders(states[0]), rank, i));
    }
  }
}
