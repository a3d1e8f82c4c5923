/** The status view: a second implementation of the reconcile order, which must agree with the first. */
module StatusGating {
  import opened Kube
  import opened Rollout
  import opened ReconcileMeaning

  datatype RolloutPhase =
    | PhaseComplete | PhaseProgressing | PhaseWaiting | PhasePaused | PhaseDegraded | PhaseUnknown

  datatype Reason =
    | NoReason
    | WrongStrategy
    | RolloutPaused
    | PodsUpdated(updated: nat, total: nat)
    | PodsNotReady
    | ReplicasPending
    | RevisionPending
    | BlockedBy(names: seq<string>)
    | MultipleNotReady
    | WaitingForSet(name: string)
    | NoStatefulSets

  datatype Member = Member(
    name: string,
    desiredReplicas: nat,
    readyReplicas: nat,
    currentRevision: string,
    updateRevision: string,
    updatedPods: nat,
    totalPods: nat,
    paused: bool,
    onDelete: bool, // the update strategy
    notReady: bool,
    phase: RolloutPhase,
    reason: Reason)

  function UpdatedCount(pods: seq<Pod>, revision: string): nat {
    if pods == [] then 0
    else UpdatedCount(pods[..|pods| - 1], revision) + if Revision(pods[|pods| - 1]) == revision then 1 else 0
  }

  lemma {:induction false} UpdatedOrOutdated(pods: seq<Pod>, revision: string)
    ensures UpdatedCount(pods, revision) + |OutdatedPods(pods, revision)| == |pods|
  {
    if pods != [] {
      UpdatedOrOutdated(pods[..|pods| - 1], revision);
    }
  }

  function MemberOf(v: SetView): Member {
    var updated := UpdatedCount(v.pods, v.sts.updateRevision);
    var desired := if v.sts.specReplicas.Some? then v.sts.specReplicas.value else 0;
    var m := Member(v.sts.name, desired, v.sts.readyReplicas, v.sts.currentRevision, v.sts.updateRevision,
                    updated, |v.pods|, v.sts.paused, v.sts.onDelete, false, PhaseComplete, NoReason);
    if !v.sts.onDelete then m.(phase := PhaseDegraded, reason := WrongStrategy)
    else
      var notReady := HasNotReady(v);
      var n := m.(notReady := notReady);
      if v.sts.updateRevision != "" && updated < |v.pods| then
        if v.sts.paused then n.(phase := PhasePaused, reason := RolloutPaused)
        else n.(phase := PhaseProgressing, reason := PodsUpdated(updated, |v.pods|))
      else if notReady then n.(phase := PhaseWaiting, reason := PodsNotReady)
      else if desired != v.sts.readyReplicas then n.(phase := PhaseWaiting, reason := ReplicasPending)
      else if v.sts.currentRevision != "" && v.sts.updateRevision != "" && v.sts.currentRevision != v.sts.updateRevision
      then n.(reason := RevisionPending)
      else n
  }

  function Members(sets: seq<SetView>): seq<Member> {
    seq(|sets|, i requires 0 <= i < |sets| => MemberOf(sets[i]))
  }

  // ----- gating -----

  function Demoted(m: Member, reason: Reason): Member {
    if m.phase == PhaseProgressing then m.(phase := PhaseWaiting, reason := reason) else m
  }

  function DemoteExcept(ms: seq<Member>, keep: Option<string>, reason: Reason): seq<Member> {
    seq(|ms|, i requires 0 <= i < |ms| => if keep == Some(ms[i].name) then ms[i] else Demoted(ms[i], reason))
  }

  function DegradedNames(ms: seq<Member>): seq<string> {
    if ms == [] then []
    else DegradedNames(ms[..|ms| - 1]) + if ms[|ms| - 1].phase == PhaseDegraded then [ms[|ms| - 1].name] else []
  }

  function NotReadyNames(ms: seq<Member>): seq<string> {
    if ms == [] then []
    else NotReadyNames(ms[..|ms| - 1]) + if ms[|ms| - 1].notReady then [ms[|ms| - 1].name] else []
  }

  /** The set that blocks member `i` when all members are ready: the first progressing one before it. */
  function Blocker(ms: seq<Member>, i: nat): string
    requires i <= |ms|
  {
    if i == 0 then ""
    else NextBlocker(ms[i - 1], Blocker(ms, i - 1))
  }

  function NextBlocker(m: Member, blocker: string): string {
    if blocker == "" && m.phase == PhaseProgressing then m.name else blocker
  }

  function GatedBehind(m: Member, blocker: string): Member {
    if blocker == "" then m else Demoted(m, WaitingForSet(blocker))
  }

  function GateInOrder(ms: seq<Member>): seq<Member> {
    seq(|ms|, i requires 0 <= i < |ms| => GatedBehind(ms[i], Blocker(ms, i)))
  }

  function Gate(ms: seq<Member>): seq<Member> {
    if DegradedNames(ms) != [] then DemoteExcept(ms, None, BlockedBy(DegradedNames(ms)))
    else if |NotReadyNames(ms)| > 1 then DemoteExcept(ms, None, MultipleNotReady)
    else if |NotReadyNames(ms)| == 1 then
      DemoteExcept(ms, Some(NotReadyNames(ms)[0]), WaitingForSet(NotReadyNames(ms)[0]))
    else GateInOrder(ms)
  }

  predicate HasPhase(ms: seq<Member>, phase: RolloutPhase) {
    exists m | m in ms :: m.phase == phase
  }

  function GroupPhase(ms: seq<Member>, notReadyMembers: nat): RolloutPhase {
    if ms == [] then PhaseUnknown
    else if HasPhase(ms, PhaseDegraded) then PhaseDegraded
    else if notReadyMembers > 1 then PhaseWaiting
    else if HasPhase(ms, PhaseProgressing) then PhaseProgressing
    else if HasPhase(ms, PhaseWaiting) then PhaseWaiting
    else if HasPhase(ms, PhasePaused) then PhasePaused
    else if HasPhase(ms, PhaseComplete) then PhaseComplete
    else PhaseUnknown
  }

  /** The reason of the first member with the phase. */
  function FirstReason(ms: seq<Member>, phase: RolloutPhase): Reason
    requires HasPhase(ms, phase)
  {
    if ms[0].phase == phase then ms[0].reason else FirstReason(ms[1..], phase)
  }

  function GroupReason(ms: seq<Member>, notReadyMembers: nat): Reason {
    if ms == [] then NoStatefulSets
    else if !HasPhase(ms, PhaseDegraded) && notReadyMembers > 1 then MultipleNotReady
    else
      var phase := GroupPhase(ms, notReadyMembers);
      if phase == PhaseUnknown then NoReason else FirstReason(ms, phase)
  }

  /** A group is complete only if every one of its StatefulSets is, and degraded as soon as one is. */
  lemma GroupPhaseMeaning(ms: seq<Member>, notReadyMembers: nat)
    requires ms != [] && forall m | m in ms :: m.phase != PhaseUnknown
    ensures GroupPhase(ms, notReadyMembers) == PhaseComplete <==>
            notReadyMembers <= 1 && forall m | m in ms :: m.phase == PhaseComplete
    ensures GroupPhase(ms, notReadyMembers) == PhaseDegraded <==> exists m | m in ms :: m.phase == PhaseDegraded
    ensures GroupPhase(ms, notReadyMembers) == PhaseProgressing <==>
            && notReadyMembers <= 1 && (forall m | m in ms :: m.phase != PhaseDegraded)
            && exists m | m in ms :: m.phase == PhaseProgressing
    ensures GroupPhase(ms, notReadyMembers) == PhasePaused <==>
            && notReadyMembers <= 1 && (forall m | m in ms :: m.phase == PhasePaused || m.phase == PhaseComplete)
            && exists m | m in ms :: m.phase == PhasePaused
  {
    assert ms[0] in ms;
  }

  // ----- the loops -----

  method CollectNotReady(members: array<Member>) returns (names: seq<string>)
    ensures names == NotReadyNames(members[..])
    ensures names == [] ==> forall i | 0 <= i < members.Length :: !members[i].notReady
  {
    names := [];
    for i := 0 to members.Length
      invariant names == NotReadyNames(members[..i])
      invariant names == [] ==> forall j | 0 <= j < i :: !members[j].notReady
    {
      assert members[..i + 1][..i] == members[..i];
      if members[i].notReady {
        names := names + [members[i].name];
      }
    }
    assert members[..members.Length] == members[..];
  }

  method CollectDegraded(members: array<Member>) returns (names: seq<string>)
    ensures names == DegradedNames(members[..])
  {
    names := [];
    for i := 0 to members.Length
      invariant names == DegradedNames(members[..i])
    {
      assert members[..i + 1][..i] == members[..i];
      if members[i].phase == PhaseDegraded {
        names := names + [members[i].name];
      }
    }
    assert members[..members.Length] == members[..];
  }

  method DemoteMembers(members: array<Member>, keep: Option<string>, reason: Reason)
    modifies members
    ensures members[..] == DemoteExcept(old(members[..]), keep, reason)
  {
    ghost var was := members[..];
    for i := 0 to members.Length
      invariant forall j | 0 <= j < i :: members[j] == DemoteExcept(was, keep, reason)[j]
      invariant forall j | i <= j < members.Length :: members[j] == was[j]
    {
      if keep != Some(members[i].name) && members[i].phase == PhaseProgressing {
        members[i] := members[i].(phase := PhaseWaiting, reason := reason);
      }
    }
  }

  /** One pass of the loop over the members, none of which is not ready. */
  method GateMember(members: array<Member>, i: nat, blocker: string) returns (next: string)
    requires i < members.Length && !members[i].notReady
    modifies members
    ensures members[..] == old(members[..])[i := GatedBehind(old(members[i]), blocker)]
    ensures next == NextBlocker(old(members[i]), blocker)
  {
    var m := members[i];
    if m.phase == PhaseProgressing || m.phase == PhaseWaiting {
      if m.phase == PhaseWaiting && !m.notReady {
        return blocker;
      }
      if blocker == "" {
        return m.name;
      }
      if m.phase == PhaseProgressing {
        members[i] := m.(phase := PhaseWaiting, reason := WaitingForSet(blocker));
      }
    }
    return blocker;
  }

  /** What the loop has done to the first `i` members. */
  ghost predicate GatedUpTo(was: seq<Member>, now: seq<Member>, i: nat) {
    && i <= |was| == |now| && now[i..] == was[i..]
    && forall j | 0 <= j < i :: now[j] == GatedBehind(was[j], Blocker(was, j))
  }

  lemma GatesOneMore(was: seq<Member>, before: seq<Member>, now: seq<Member>, i: nat)
    requires i < |was| && GatedUpTo(was, before, i)
    requires now == before[i := GatedBehind(before[i], Blocker(was, i))]
    ensures GatedUpTo(was, now, i + 1) && Blocker(was, i + 1) == NextBlocker(before[i], Blocker(was, i))
  {
    assert before[i] == before[i..][0] == was[i..][0] == was[i];
    assert now[i + 1..] == before[i..][1..] == was[i + 1..];
  }

  lemma GatedToTheEnd(was: seq<Member>, now: seq<Member>)
    requires GatedUpTo(was, now, |was|)
    ensures now == GateInOrder(was)
  {
  }

  method GateMembersInOrder(members: array<Member>)
    requires forall i | 0 <= i < members.Length :: !members[i].notReady
    modifies members
    ensures members[..] == GateInOrder(old(members[..]))
  {
    ghost var was := members[..];
    var blocker := "";
    for i := 0 to members.Length
      invariant GatedUpTo(was, members[..], i)
      invariant blocker == Blocker(was, i)
    {
      ghost var before := members[..];
      assert before[i] == before[i..][0] == was[i..][0] == was[i];
      blocker := GateMember(members, i, blocker);
      GatesOneMore(was, before, members[..], i);
    }
    GatedToTheEnd(was, members[..]);
  }

  /** Rewrites phases in place so that the displayed active zone is the one that can be updated. */
  method ApplyZoneGating(members: array<Member>)
    modifies members
    ensures members[..] == Gate(old(members[..]))
  {
    var degraded := CollectDegraded(members);
    if |degraded| > 0 {
      DemoteMembers(members, None, BlockedBy(degraded));
      return;
    }
    var notReady := CollectNotReady(members);
    if |notReady| > 1 {
      DemoteMembers(members, None, MultipleNotReady);
    } else if |notReady| == 1 {
      DemoteMembers(members, Some(notReady[0]), WaitingForSet(notReady[0]));
    } else {
      GateMembersInOrder(members);
    }
  }

  method FirstMemberIn(members: seq<Member>, phase: RolloutPhase) returns (reason: Option<Reason>)
    ensures reason == if HasPhase(members, phase) then Some(FirstReason(members, phase)) else None
  {
    var i := 0;
    while i < |members|
      invariant 0 <= i <= |members|
      invariant HasPhase(members, phase) <==> HasPhase(members[i..], phase)
      invariant HasPhase(members, phase) ==> FirstReason(members, phase) == FirstReason(members[i..], phase)
    {
      var rest := members[i..];
      assert rest[1..] == members[i + 1..] && rest[0] in rest;
      if members[i].phase == phase {
        return Some(members[i].reason);
      }
      assert HasPhase(rest, phase) <==> HasPhase(rest[1..], phase);
      i := i + 1;
    }
    return None;
  }

  method AggregateGroupPhase(members: seq<Member>, notReadyMembers: nat) returns (phase: RolloutPhase, reason: Reason)
    ensures phase == GroupPhase(members, notReadyMembers) && reason == GroupReason(members, notReadyMembers)
  {
    if |members| == 0 {
      return PhaseUnknown, NoStatefulSets;
    }
    var found := FirstMemberIn(members, PhaseDegraded);
    if found.Some? {
      return PhaseDegraded, found.value;
    }
    if notReadyMembers > 1 {
      return PhaseWaiting, MultipleNotReady;
    }
    var priority := [PhaseProgressing, PhaseWaiting, PhasePaused, PhaseComplete];
    assert priority[0] == PhaseProgressing && priority[1] == PhaseWaiting && priority[2] == PhasePaused;
    assert priority[3] == PhaseComplete;
    for i := 0 to |priority|
      invariant forall j | 0 <= j < i :: !HasPhase(members, priority[j])
    {
      found := FirstMemberIn(members, priority[i]);
      if found.Some? {
        return priority[i], found.value;
      }
    }
    return PhaseUnknown, NoReason;
  }

  method StatefulSetHasNotReadyPods(v: SetView) returns (r: bool)
    ensures r <==> HasNotReady(v)
    ensures r <==> !Whole(v)
  {
    NotReadyIffNotWhole(v);
    if ExpectedReplicas(v.sts) != v.sts.readyReplicas {
      return true;
    }
    if |v.pods| < ExpectedReplicas(v.sts) {
      return true;
    }
    var notReady := 0;
    for i := 0 to |v.pods|
      invariant 0 <= notReady && (notReady == 0 <==> forall j | 0 <= j < i :: RunningAndReady(v.pods[j]))
    {
      var up := IsPodRunningAndReady(v.pods[i]);
      if !up {
        notReady := notReady + 1;
      }
    }
    return notReady > 0;
  }

  method MemberStatus(v: SetView) returns (m: Member)
    ensures m == MemberOf(v)
  {
    var desired := if v.sts.specReplicas.Some? then v.sts.specReplicas.value else 0;
    var updateRev := v.sts.updateRevision;
    var updated := 0;
    for i := 0 to |v.pods|
      invariant updated == UpdatedCount(v.pods[..i], updateRev)
    {
      assert v.pods[..i + 1][..i] == v.pods[..i];
      if Revision(v.pods[i]) == updateRev {
        updated := updated + 1;
      }
    }
    assert v.pods[..|v.pods|] == v.pods;
    m := Member(v.sts.name, desired, v.sts.readyReplicas, v.sts.currentRevision, updateRev,
                updated, |v.pods|, v.sts.paused, v.sts.onDelete, false, PhaseComplete, NoReason);
    if !v.sts.onDelete {
      return m.(phase := PhaseDegraded, reason := WrongStrategy);
    }
    var notReady := StatefulSetHasNotReadyPods(v);
    m := m.(notReady := notReady);
    var needsUpdate := updateRev != "" && updated < |v.pods|;
    if needsUpdate && v.sts.paused {
      return m.(phase := PhasePaused, reason := RolloutPaused);
    } else if needsUpdate {
      return m.(phase := PhaseProgressing, reason := PodsUpdated(updated, |v.pods|));
    } else if notReady {
      return m.(phase := PhaseWaiting, reason := PodsNotReady);
    } else if desired != v.sts.readyReplicas {
      return m.(phase := PhaseWaiting, reason := ReplicasPending);
    } else if v.sts.currentRevision != "" && updateRev != "" && v.sts.currentRevision != updateRev {
      return m.(reason := RevisionPending);
    }
  }
}
