/** Mirroring a reference resource's size, with a delayed downscale that the pods themselves time. */
module DelayedDownscale {
  import opened Kube

  /** The parsed delay and URL annotations; an absent one, or a zero delay, configures nothing. */
  datatype DelayConfig = NotConfigured | Configured(delay: int) | Malformed

  /** What a prepare (POST) call did: answered with a timestamp, took effect but failed to answer, or did nothing. */
  datatype Post = Answered | AppliedOnly | Lost

  /** Prepare timestamps kept by the pods, by replica. */
  type Prepared = map<nat, int>

  // ----- pod calls -----

  function Cancelled(prepared: Prepared, reached: set<nat>, to: nat): Prepared {
    map i | i in prepared && !(i < to && i in reached) :: prepared[i]
  }

  predicate Applied(posts: map<nat, Post>, i: nat) {
    i in posts && !posts[i].Lost?
  }

  /** A pod that is prepared already keeps its timestamp. */
  function Posted(prepared: Prepared, posts: map<nat, Post>, from: nat, to: nat, now: int): Prepared {
    map i | i in prepared.Keys + (set j: nat | from <= j < to && Applied(posts, j)) ::
      if i in prepared then prepared[i] else Seconds(now)
  }

  /** The replica answered with a timestamp; a zero timestamp counts as a failure. */
  predicate AnsweredStamp(prepared: Prepared, posts: map<nat, Post>, i: nat, now: int) {
    i in posts && posts[i].Answered? && (if i in prepared then prepared[i] else Seconds(now)) != 0
  }

  function Elapsed(prepared: Prepared, posts: map<nat, Post>, from: nat, to: nat, now: int): map<nat, int> {
    map i: nat | from <= i < to && AnsweredStamp(prepared, posts, i, now) ::
      now - if i in prepared then prepared[i] else Seconds(now)
  }

  predicate AllAnswered(elapsed: map<nat, int>, from: nat, to: nat) {
    forall i: nat | from <= i < to :: i in elapsed
  }

  // ----- how far the set may shrink -----

  predicate Waited(elapsed: map<nat, int>, delay: int, i: nat) {
    i in elapsed && elapsed[i] >= delay
  }

  function AllowedSize(elapsed: map<nat, int>, delay: int, desired: nat, n: nat): nat
    requires desired <= n
  {
    if n == desired || !Waited(elapsed, delay, n - 1) then n else AllowedSize(elapsed, delay, desired, n - 1)
  }

  /** Every replica from `m` up has waited. */
  predicate SuffixWaited(elapsed: map<nat, int>, delay: int, m: nat, current: nat) {
    forall i: nat | m <= i < current :: Waited(elapsed, delay, i)
  }

  /** The allowed size is the least one in [desired, current] from which on every replica has waited. */
  lemma {:induction false} AllowedSizeIsLeast(elapsed: map<nat, int>, delay: int, desired: nat, current: nat)
    requires desired <= current
    ensures var n := AllowedSize(elapsed, delay, desired, current);
            && desired <= n <= current
            && SuffixWaited(elapsed, delay, n, current)
            && forall m: nat | desired <= m <= current && SuffixWaited(elapsed, delay, m, current) :: n <= m
  {
    var n := AllowedSize(elapsed, delay, desired, current);
    if current != desired && Waited(elapsed, delay, current - 1) {
      AllowedSizeIsLeast(elapsed, delay, desired, current - 1);
    }
    forall m: nat | desired <= m <= current && SuffixWaited(elapsed, delay, m, current) ensures n <= m {
      if m < current {
        assert Waited(elapsed, delay, current - 1);
        assert SuffixWaited(elapsed, delay, m, current - 1);
      }
    }
  }

  datatype ScalingCheck = ScalingCheck(replicas: nat, prepared: nat, failed: bool)

  /** One look at the reference resource: what it and the annotations ask for, and how the calls go. */
  datatype Exam = Exam(
    now: int,
    reference: nat,
    force: Option<nat>,
    config: DelayConfig,
    exclude: bool,          // leave replicas pending downscale out of status.replicas
    writeBack: bool,        // status.replicas is written back, and the write succeeds
    patchFails: bool,
    reached: set<nat>,      // replicas on which a cancel (DELETE) takes effect
    posts: map<nat, Post>)

  function Wanted(e: Exam): nat {
    if e.force.Some? then e.force.value else e.reference
  }

  function CheckScaling(e: Exam, current: nat, prepared: Prepared): ScalingCheck {
    var desired := Wanted(e);
    if current == desired then ScalingCheck(current, 0, false)
    else match e.config
      case Malformed => ScalingCheck(current, 0, true)
      case NotConfigured => ScalingCheck(desired, 0, false)
      case Configured(delay) =>
        if desired >= current then ScalingCheck(desired, 0, false)
        else
          var elapsed := Elapsed(Cancelled(prepared, e.reached, desired), e.posts, desired, current, e.now);
          if !AllAnswered(elapsed, desired, current) then ScalingCheck(current, |elapsed|, true)
          else
            var allowed := AllowedSize(elapsed, delay, desired, current);
            if allowed == current then ScalingCheck(current, current - desired, true)
            else AllowedSizeIsLeast(elapsed, delay, desired, current);
                 ScalingCheck(allowed, allowed - desired, false)
  }

  /** The prepare timestamps after the calls of one examination. */
  function CallsMade(e: Exam, current: nat, prepared: Prepared): Prepared {
    var desired := Wanted(e);
    if !e.config.Configured? then prepared
    else if desired >= current then Cancelled(prepared, e.reached, current)
    else Posted(Cancelled(prepared, e.reached, desired), e.posts, desired, current, e.now)
  }

  /** The countdown over the replicas that answered. */
  method FindAllowedReplicas(
    elapsed: map<nat, int>, delay: int, currentReplicas: nat, desiredReplicas: nat)
    returns (allowed: nat)
    requires desiredReplicas <= currentReplicas
    ensures desiredReplicas <= allowed <= currentReplicas
    ensures forall i: nat | allowed <= i < currentReplicas :: Waited(elapsed, delay, i)
    ensures allowed > desiredReplicas ==> !Waited(elapsed, delay, allowed - 1)
    ensures allowed == AllowedSize(elapsed, delay, desiredReplicas, currentReplicas)
  {
    allowed := currentReplicas;
    var replica := currentReplicas - 1;
    while replica >= desiredReplicas
      invariant allowed == replica + 1 && desiredReplicas <= allowed <= currentReplicas
      invariant forall i: nat | allowed <= i < currentReplicas :: Waited(elapsed, delay, i)
      invariant AllowedSize(elapsed, delay, desiredReplicas, currentReplicas)
                == AllowedSize(elapsed, delay, desiredReplicas, allowed)
    {
      if replica !in elapsed {
        break;
      }
      if elapsed[replica] < delay {
        break;
      }
      allowed := allowed - 1;
      replica := replica - 1;
    }
  }

  /** The replicas a call goes to, in order. */
  method CreatePrepareDownscaleEndpoints(from: nat, to: nat) returns (eps: seq<nat>)
    ensures |eps| == if from < to then to - from else 0
    ensures forall k | 0 <= k < |eps| :: eps[k] == from + k
  {
    eps := [];
    var index := from;
    while index < to
      invariant from <= index
      invariant |eps| == index - from && (from <= to ==> index <= to) && (from > to ==> index == from)
      invariant forall k | 0 <= k < |eps| :: eps[k] == from + k
    {
      eps := eps + [index];
      index := index + 1;
    }
  }

  // ----- status.replicas -----

  function StatusReplicas(e: Exam, size: nat, prepared: nat): int {
    if e.exclude then size - prepared else size
  }

  /** The value computed for the reference resource's status.replicas. */
  function WrittenStatus(e: Exam, current: nat, prepared: Prepared): int {
    if Wanted(e) == current then current
    else
      var c := CheckScaling(e, current, prepared);
      StatusReplicas(e, if c.failed then current else c.replicas, c.prepared)
  }

  lemma {:induction false} FilledSubset(keys: set<nat>, from: nat, to: nat)
    requires from <= to && forall i | i in keys :: from <= i < to
    ensures |keys| <= to - from
    ensures |keys| == to - from ==> forall i: nat | from <= i < to :: i in keys
  {
    if from < to {
      if to - 1 in keys {
        FilledSubset(keys - {to - 1}, from, to - 1);
      } else {
        FilledSubset(keys, from, to - 1);
      }
    } else {
      assert forall i :: i !in keys;
      assert keys == {};
    }
  }

  /** With exclusion on, a downscale writes a status between the wanted and the current size; a delayed one
      writes exactly the wanted size when every excess replica is prepared, strictly more when a prepare call
      failed. */
  lemma StatusDuringDownscale(e: Exam, current: nat, prepared: Prepared)
    requires e.exclude && Wanted(e) < current
    ensures var w := WrittenStatus(e, current, prepared);
            var elapsed := Elapsed(Cancelled(prepared, e.reached, Wanted(e)), e.posts, Wanted(e), current, e.now);
            && Wanted(e) <= w <= current
            && (e.config.Configured? ==> (w == Wanted(e) <==> AllAnswered(elapsed, Wanted(e), current)))
  {
    var desired := Wanted(e);
    var elapsed := Elapsed(Cancelled(prepared, e.reached, desired), e.posts, desired, current, e.now);
    FilledSubset(elapsed.Keys, desired, current);
    assert |elapsed| == |elapsed.Keys|;
    if e.config.Configured? {
      AllowedSizeIsLeast(elapsed, e.config.delay, desired, current);
    }
  }

  // ----- one set over time -----

  datatype MirrorState = MirrorState(replicas: nat, prepared: Prepared, status: int)

  function Restricted(prepared: Prepared, replicas: nat): Prepared {
    map i | i in prepared && i < replicas :: prepared[i]
  }

  function WithStatus(s: MirrorState, e: Exam, status: int): MirrorState {
    if e.writeBack then s.(status := status) else s
  }

  datatype ExamResult = Unchanged | Patched | PatchFailed

  function ResultOf(e: Exam, s: MirrorState): ExamResult {
    if Wanted(e) == s.replicas || CheckScaling(e, s.replicas, s.prepared).failed then Unchanged
    else if e.patchFails then PatchFailed
    else Patched
  }

  /** One examination of the set. Removed pods take their timestamps with them; new pods start unprepared. */
  function Examined(e: Exam, s: MirrorState): MirrorState {
    var calls := CallsMade(e, s.replicas, s.prepared);
    match ResultOf(e, s)
    case Unchanged => WithStatus(s.(prepared := calls), e, WrittenStatus(e, s.replicas, s.prepared))
    case PatchFailed => s.(prepared := calls)
    case Patched =>
      var n := CheckScaling(e, s.replicas, s.prepared).replicas;
      WithStatus(MirrorState(n, Restricted(calls, n), s.status), e, WrittenStatus(e, s.replicas, s.prepared))
  }

  /** Without exclusion, the status written back is the size the set ends up with. */
  lemma StatusIsTheSize(e: Exam, s: MirrorState)
    requires !e.exclude && e.writeBack && !e.patchFails
    ensures Examined(e, s).status == Examined(e, s).replicas
  {
  }

  datatype Step =
    | Examine(exam: Exam)
    | Resize(replicas: nat)   // someone else scales the set
    | Forget(replica: nat)    // a pod loses its preparation

  function Next(s: MirrorState, step: Step): MirrorState {
    match step
    case Examine(e) => Examined(e, s)
    case Resize(n) => s.(replicas := n, prepared := Restricted(s.prepared, n))
    case Forget(i) => s.(prepared := s.prepared - {i})
  }

  /** The state after the first `k` steps. */
  function StateAt(s: MirrorState, steps: seq<Step>, k: nat): MirrorState
    requires k <= |steps|
  {
    if k == 0 then s else Next(StateAt(s, steps, k - 1), steps[k - 1])
  }

  /** The examination wanted the replica and its cancel took effect. */
  predicate CancelsReplica(step: Step, i: nat) {
    step.Examine? && step.exam.config.Configured? && i < Wanted(step.exam) && i in step.exam.reached
  }

  /** Replica `i` holds the timestamp of the examination at step `j`, which wanted at most `i` replicas, and
      no step from `j` up to `k` cancelled it. */
  predicate PreparedSince(s: MirrorState, steps: seq<Step>, j: nat, k: nat, i: nat, stamp: int)
    requires k <= |steps|
  {
    && j < k && steps[j].Examine? && steps[j].exam.config.Configured? && Wanted(steps[j].exam) <= i
    && stamp == Seconds(steps[j].exam.now)
    && forall m | j <= m < k :: !CancelsReplica(steps[m], i)
  }

  /** Where a timestamp after one more step comes from. */
  lemma StampOrigin(s: MirrorState, step: Step, i: nat)
    requires forall r | r in s.prepared :: r < s.replicas
    requires i in Next(s, step).prepared
    ensures i < Next(s, step).replicas
    ensures (i in s.prepared && Next(s, step).prepared[i] == s.prepared[i] && !CancelsReplica(step, i))
            || (step.Examine? && step.exam.config.Configured? && Wanted(step.exam) <= i
                && Next(s, step).prepared[i] == Seconds(step.exam.now))
  {
    if step.Examine? {
      var e := step.exam;
      if e.config.Configured? && Wanted(e) < s.replicas {
        var cancelled := Cancelled(s.prepared, e.reached, Wanted(e));
        var elapsed := Elapsed(cancelled, e.posts, Wanted(e), s.replicas, e.now);
        AllowedSizeIsLeast(elapsed, e.config.delay, Wanted(e), s.replicas);
      }
    }
  }

  lemma {:induction false} PreparedBelowSize(s: MirrorState, steps: seq<Step>, k: nat)
    requires s.prepared == map[] && k <= |steps|
    ensures forall r | r in StateAt(s, steps, k).prepared :: r < StateAt(s, steps, k).replicas
  {
    if k > 0 {
      PreparedBelowSize(s, steps, k - 1);
      forall r | r in StateAt(s, steps, k).prepared ensures r < StateAt(s, steps, k).replicas {
        StampOrigin(StateAt(s, steps, k - 1), steps[k - 1], r);
      }
    }
  }

  lemma SinceExtends(s: MirrorState, steps: seq<Step>, j: nat, k: nat, i: nat, stamp: int)
    requires k < |steps| && PreparedSince(s, steps, j, k, i, stamp) && !CancelsReplica(steps[k], i)
    ensures PreparedSince(s, steps, j, k + 1, i, stamp)
  {
  }

  lemma SinceStarts(s: MirrorState, steps: seq<Step>, k: nat, i: nat)
    requires k < |steps| && steps[k].Examine? && steps[k].exam.config.Configured? && Wanted(steps[k].exam) <= i
    ensures PreparedSince(s, steps, k, k + 1, i, Seconds(steps[k].exam.now))
  {
  }

  /** Every timestamp of a run goes back to an examination since which nothing cancelled it. */
  lemma {:induction false} StampHistory(s: MirrorState, steps: seq<Step>, k: nat, i: nat) returns (j: nat)
    requires s.prepared == map[] && k <= |steps| && i in StateAt(s, steps, k).prepared
    ensures PreparedSince(s, steps, j, k, i, StateAt(s, steps, k).prepared[i])
  {
    assert k > 0;
    var before, step := StateAt(s, steps, k - 1), steps[k - 1];
    var stamp := Next(before, step).prepared[i];
    PreparedBelowSize(s, steps, k - 1);
    StampOrigin(before, step, i);
    if i in before.prepared && stamp == before.prepared[i] && !CancelsReplica(step, i) {
      j := StampHistory(s, steps, k - 1, i);
      SinceExtends(s, steps, j, k - 1, i, stamp);
    } else {
      j := k - 1;
      SinceStarts(s, steps, j, i);
    }
  }

  /** A removal by a configured examination: the replica's timestamp is at least the delay old. */
  lemma RemovalWaited(s: MirrorState, e: Exam, i: nat)
    requires e.config.Configured? && Examined(e, s).replicas <= i < s.replicas
    ensures Wanted(e) <= i
    ensures var stamp := if i in s.prepared then s.prepared[i] else Seconds(e.now); e.now - stamp >= e.config.delay
  {
    var desired := Wanted(e);
    var prepared := Cancelled(s.prepared, e.reached, desired);
    var elapsed := Elapsed(prepared, e.posts, desired, s.replicas, e.now);
    AllowedSizeIsLeast(elapsed, e.config.delay, desired, s.replicas);
    assert Waited(elapsed, e.config.delay, i);
  }

  /** The mirror path removes replica `i` only if its stored timestamp is at least the delay old, and since the
      examination that set it, none wanted more than `i` replicas with a cancel that took effect. */
  lemma DelayedDownscaleSafe(s: MirrorState, steps: seq<Step>, k: nat, i: nat) returns (j: nat)
    requires s.prepared == map[] && k < |steps| && steps[k].Examine? && steps[k].exam.config.Configured?
    requires StateAt(s, steps, k + 1).replicas <= i < StateAt(s, steps, k).replicas
    ensures j <= k && steps[j].Examine?
    ensures PreparedSince(s, steps, j, k + 1, i, Seconds(steps[j].exam.now))
    ensures steps[k].exam.now - Seconds(steps[j].exam.now) >= steps[k].exam.config.delay
  {
    var before := StateAt(s, steps, k);
    RemovalWaited(before, steps[k].exam, i);
    if i in before.prepared {
      j := StampHistory(s, steps, k, i);
    } else {
      j := k;
    }
  }

  /** If the delay stays configured and cancels take effect, every examination since the preparation asked for
      at most `i` replicas, and more than the delay less a second has passed. */
  lemma DelayedDownscaleUnwanted(s: MirrorState, steps: seq<Step>, k: nat, i: nat) returns (j: nat)
    requires s.prepared == map[] && k < |steps| && steps[k].Examine?
    requires forall m | 0 <= m < |steps| && steps[m].Examine? ::
               && steps[m].exam.config.Configured?
               && forall r: nat | r < Wanted(steps[m].exam) :: r in steps[m].exam.reached
    requires StateAt(s, steps, k + 1).replicas <= i < StateAt(s, steps, k).replicas
    ensures j <= k && steps[j].Examine?
    ensures forall m | j <= m <= k && steps[m].Examine? :: Wanted(steps[m].exam) <= i
    ensures steps[k].exam.now - steps[j].exam.now > steps[k].exam.config.delay - SECOND
  {
    j := DelayedDownscaleSafe(s, steps, k, i);
    forall m | j <= m <= k && steps[m].Examine? ensures Wanted(steps[m].exam) <= i {
      assert !CancelsReplica(steps[m], i);
    }
  }

  // ----- all sets of a group -----

  method CheckScalingDelay(e: Exam, current: nat, prepared: Prepared) returns (c: ScalingCheck, calls: Prepared)
    ensures c == CheckScaling(e, current, prepared)
    ensures Wanted(e) != current ==> calls == CallsMade(e, current, prepared)
  {
    var desired := Wanted(e);
    if current == desired {
      return ScalingCheck(current, 0, false), prepared;
    }
    if e.config.Malformed? {
      return ScalingCheck(current, 0, true), prepared;
    }
    if e.config.NotConfigured? {
      return ScalingCheck(desired, 0, false), prepared;
    }
    if desired >= current {
      return ScalingCheck(desired, 0, false), Cancelled(prepared, e.reached, current);
    }
    var cancelled := Cancelled(prepared, e.reached, desired);
    calls := Posted(cancelled, e.posts, desired, current, e.now);
    var elapsed := Elapsed(cancelled, e.posts, desired, current, e.now);
    if !AllAnswered(elapsed, desired, current) {
      return ScalingCheck(current, |elapsed|, true), calls;
    }
    var allowed := FindAllowedReplicas(elapsed, e.config.delay, current, desired);
    if allowed == current {
      return ScalingCheck(current, current - desired, true), calls;
    }
    return ScalingCheck(allowed, allowed - desired, false), calls;
  }

  /** What the mirror annotations of a set resolve to. */
  datatype Reference = NoReference | ReferenceError | Reference(exam: Exam)

  datatype GroupResult = GroupResult(states: seq<MirrorState>, updated: bool, failed: bool)

  function MirrorGroup(states: seq<MirrorState>, refs: seq<Reference>): (r: GroupResult)
    requires |states| == |refs|
    ensures |r.states| == |states|
  {
    if states == [] then GroupResult([], false, false)
    else
      match refs[0]
      case ReferenceError => GroupResult(states, false, true)
      case NoReference =>
        var rest := MirrorGroup(states[1..], refs[1..]);
        rest.(states := [states[0]] + rest.states)
      case Reference(e) =>
        var s := Examined(e, states[0]);
        match ResultOf(e, states[0])
        case Patched => GroupResult([s] + states[1..], true, false)
        case PatchFailed => GroupResult([s] + states[1..], false, true)
        case Unchanged =>
          var rest := MirrorGroup(states[1..], refs[1..]);
          rest.(states := [s] + rest.states)
  }

  method ExamineSet(s: MirrorState, e: Exam) returns (s': MirrorState, result: ExamResult)
    ensures s' == Examined(e, s) && result == ResultOf(e, s)
  {
    if s.replicas == Wanted(e) {
      var calls := if e.config.Configured? then Cancelled(s.prepared, e.reached, Wanted(e)) else s.prepared;
      return WithStatus(s.(prepared := calls), e, Wanted(e)), Unchanged;
    }
    var c, calls := CheckScalingDelay(e, s.replicas, s.prepared);
    if c.failed {
      return WithStatus(s.(prepared := calls), e, StatusReplicas(e, s.replicas, c.prepared)), Unchanged;
    }
    if e.patchFails {
      return s.(prepared := calls), PatchFailed;
    }
    var resized := MirrorState(c.replicas, Restricted(calls, c.replicas), s.status);
    return WithStatus(resized, e, StatusReplicas(e, c.replicas, c.prepared)), Patched;
  }

  /** The sets are examined in order until one is patched or an error stops the loop. */
  method AdjustStatefulSetsGroupReplicasToMirrorResource(
    states: seq<MirrorState>, refs: seq<Reference>)
    returns (r: GroupResult)
    requires |states| == |refs|
    ensures r == MirrorGroup(states, refs)
  {
    var done := [];
    ghost var whole := MirrorGroup(states, refs);
    var i := 0;
    while i < |refs|
      invariant 0 <= i <= |refs|
      invariant whole == Resumed(done, states, refs, i)
    {
      MirrorStep(states, refs, i);
      var s := states[i];
      if refs[i].ReferenceError? {
        return GroupResult(done + states[i..], false, true);
      }
      if refs[i].Reference? {
        var result;
        s, result := ExamineSet(states[i], refs[i].exam);
        if !result.Unchanged? {
          return GroupResult(done + ([s] + states[i + 1..]), result.Patched?, result.PatchFailed?);
        }
      }
      AppendAssociates(done, [s], MirrorGroup(states[i + 1..], refs[i + 1..]).states);
      done := done + [s];
      i := i + 1;
    }
    assert done + [] == done;
    return GroupResult(done, false, false);
  }

  /** The group result when the sets before `i` are `done`. */
  ghost function Resumed(done: seq<MirrorState>, states: seq<MirrorState>, refs: seq<Reference>, i: nat): GroupResult
    requires |states| == |refs| && i <= |refs|
  {
    var rest := MirrorGroup(states[i..], refs[i..]);
    rest.(states := done + rest.states)
  }

  lemma MirrorStep(states: seq<MirrorState>, refs: seq<Reference>, i: nat)
    requires |states| == |refs| && i < |refs|
    ensures var r, rest := MirrorGroup(states[i..], refs[i..]), MirrorGroup(states[i + 1..], refs[i + 1..]);
            match refs[i]
            case ReferenceError => r == GroupResult(states[i..], false, true)
            case NoReference => r == rest.(states := [states[i]] + rest.states)
            case Reference(e) =>
              var s := Examined(e, states[i]);
              match ResultOf(e, states[i])
              case Patched => r == GroupResult([s] + states[i + 1..], true, false)
              case PatchFailed => r == GroupResult([s] + states[i + 1..], false, true)
              case Unchanged => r == rest.(states := [s] + rest.states)
  {
    assert states[i..][1..] == states[i + 1..] && refs[i..][1..] == refs[i + 1..];
  }

  lemma OnlyPatchesResize(e: Exam, s: MirrorState)
    ensures !ResultOf(e, s).Patched? ==> Examined(e, s).replicas == s.replicas
  {
  }

  /** Every set is left alone or examined once. */
  lemma {:induction false} ExaminedAtMostOnce(states: seq<MirrorState>, refs: seq<Reference>, i: nat)
    requires |states| == |refs| && i < |states|
    ensures var r := MirrorGroup(states, refs);
            r.states[i] == states[i] || (refs[i].Reference? && r.states[i] == Examined(refs[i].exam, states[i]))
  {
    if i > 0 {
      ExaminedAtMostOnce(states[1..], refs[1..], i - 1);
    }
  }

  /** At most one set is resized per reconcile. */
  lemma {:induction false} OneResizePerReconcile(states: seq<MirrorState>, refs: seq<Reference>, i: nat, j: nat)
    requires |states| == |refs| && i < j < |states|
    ensures var r := MirrorGroup(states, refs);
            r.states[i].replicas == states[i].replicas || r.states[j].replicas == states[j].replicas
  {
    if refs[0].Reference? {
      OnlyPatchesResize(refs[0].exam, states[0]);
    }
    if i > 0 {
      OneResizePerReconcile(states[1..], refs[1..], i - 1, j - 1);
    }
  }
}
