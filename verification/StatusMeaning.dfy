/** What the status view shows, read off the StatefulSets and their pods. */
module StatusMeaning {
  import opened Kube
  import opened Rollout
  import opened RollingOrder
  import opened ReconcileMeaning
  import opened StatusGating
  import opened StatusRefinement

  // ----- one member -----

  /** The update revision is reported and some pod is not at it. */
  predicate NeedsUpdate(v: SetView) {
    v.sts.updateRevision != "" && exists p | p in v.pods :: !AtRevision(p, v.sts.updateRevision)
  }

  function Desired(v: SetView): nat {
    if v.sts.specReplicas.Some? then v.sts.specReplicas.value else 0
  }

  lemma NeedsUpdateIff(v: SetView)
    ensures NeedsUpdate(v) <==> v.sts.updateRevision != "" && Outdated(v) != []
  {
    forall p ensures p in Outdated(v) <==> p in v.pods && !AtRevision(p, v.sts.updateRevision) {
      OutdatedMembers(v.pods, v.sts.updateRevision, p);
    }
    if Outdated(v) != [] {
      assert Outdated(v)[0] in Outdated(v);
    }
  }

  /** Each phase of a member if and only if, with its reason. */
  lemma MemberMeaning(v: SetView)
    ensures var m := MemberOf(v);
            && (m.phase == PhaseDegraded <==> !v.sts.onDelete)
            && (m.phase == PhasePaused <==> v.sts.onDelete && NeedsUpdate(v) && v.sts.paused)
            && (m.phase == PhaseProgressing <==> v.sts.onDelete && NeedsUpdate(v) && !v.sts.paused)
            && (m.phase == PhaseWaiting <==>
                  v.sts.onDelete && !NeedsUpdate(v) && (!Whole(v) || v.sts.readyReplicas != Desired(v)))
            && (m.phase == PhaseComplete <==>
                  v.sts.onDelete && !NeedsUpdate(v) && Whole(v) && v.sts.readyReplicas == Desired(v))
            && (m.notReady <==> v.sts.onDelete && !Whole(v))
  {
    UpdatedOrOutdated(v.pods, v.sts.updateRevision);
    NeedsUpdateIff(v);
    NotReadyIffNotWhole(v);
  }

  lemma MemberReason(v: SetView)
    ensures var m := MemberOf(v);
            match m.phase
            case PhaseDegraded => m.reason == WrongStrategy
            case PhasePaused => m.reason == RolloutPaused
            case PhaseProgressing =>
              m.reason == PodsUpdated(m.updatedPods, |v.pods|) && m.updatedPods + |Outdated(v)| == |v.pods|
            case PhaseWaiting => m.reason == if Whole(v) then ReplicasPending else PodsNotReady
            case PhaseComplete =>
              var behind := RevisionsKnown(v) && v.sts.currentRevision != v.sts.updateRevision;
              m.reason == if behind then RevisionPending else NoReason
            case PhaseUnknown => false
  {
    UpdatedOrOutdated(v.pods, v.sts.updateRevision);
    NotReadyIffNotWhole(v);
  }

  lemma MemberCounts(v: SetView)
    ensures MemberOf(v).totalPods == |v.pods| && MemberOf(v).updatedPods + |Outdated(v)| == |v.pods|
  {
    UpdatedOrOutdated(v.pods, v.sts.updateRevision);
  }

  /** What is copied. */
  lemma MemberFields(v: SetView)
    ensures var m := MemberOf(v);
            && m.name == v.sts.name && m.desiredReplicas == Desired(v) && m.readyReplicas == v.sts.readyReplicas
            && m.currentRevision == v.sts.currentRevision && m.updateRevision == v.sts.updateRevision
            && m.paused == v.sts.paused && m.onDelete == v.sts.onDelete
  {
  }

  // ----- the gate -----

  lemma GateKeepsOthers(ms: seq<Member>, i: nat)
    requires i < |ms|
    ensures |Gate(ms)| == |ms|
    ensures ms[i].phase != PhaseProgressing ==> Gate(ms)[i] == ms[i]
    ensures Gate(ms)[i] == ms[i] || Gate(ms)[i] == ms[i].(phase := PhaseWaiting, reason := Gate(ms)[i].reason)
  {
  }

  lemma {:induction false} DegradedNamesAre(ms: seq<Member>, n: string)
    ensures n in DegradedNames(ms) <==> exists i | 0 <= i < |ms| :: ms[i].phase == PhaseDegraded && ms[i].name == n
  {
    if ms != [] {
      DegradedNamesAre(ms[..|ms| - 1], n);
    }
  }

  lemma {:induction false} BlockerIsFirst(ms: seq<Member>, f: nat, i: nat)
    requires f < i <= |ms| && ms[f].phase == PhaseProgressing && ms[f].name != ""
    requires forall j | 0 <= j < f :: ms[j].phase != PhaseProgressing
    ensures Blocker(ms, i) == ms[f].name
  {
    if i == f + 1 {
      NoBlocker(ms, f);
    } else {
      BlockerIsFirst(ms, f, i - 1);
    }
  }

  lemma {:induction false} NoBlocker(ms: seq<Member>, f: nat)
    requires f <= |ms| && forall j | 0 <= j < f :: ms[j].phase != PhaseProgressing
    ensures Blocker(ms, f) == ""
  {
    if f > 0 {
      NoBlocker(ms, f - 1);
    }
  }

  /** The member, waiting for `reason`. */
  function Waits(v: SetView, reason: Reason): Member {
    MemberOf(v).(phase := PhaseWaiting, reason := reason)
  }

  /** In a ready group a waiting set waits for the first one with outdated pods. */
  lemma WaitsForFirst(sets: seq<SetView>, f: nat, i: nat)
    requires NamesGiven(sets) && AllOnDelete(sets) && NotReadySets(sets) == [] && f < i < |sets|
    requires FirstCandidate(sets, f) && Candidate(sets[i])
    ensures Gate(Members(sets))[i] == Waits(sets[i], WaitingForSet(sets[f].sts.name))
  {
    var ms := Members(sets);
    DegradedIffBadStrategy(sets);
    SameNotReady(sets);
    forall j | 0 <= j < |sets| ensures ms[j].phase == PhaseProgressing <==> Candidate(sets[j]) {
      assert sets[j] in sets;
      MemberProgressing(sets[j]);
    }
    assert sets[f] in sets;
    MemberFields(sets[f]);
    BlockerIsFirst(ms, f, i);
  }

  lemma HeldGate(ms: seq<Member>, name: string, i: nat)
    requires DegradedNames(ms) == [] && NotReadyNames(ms) == [name]
    requires i < |ms| && ms[i].name != name && ms[i].phase == PhaseProgressing
    ensures Gate(ms)[i] == ms[i].(phase := PhaseWaiting, reason := WaitingForSet(name))
  {
  }

  lemma BrokenNames(sets: seq<SetView>, b: nat)
    requires AllOnDelete(sets) && b < |sets| && !Whole(sets[b]) && OthersWhole(sets, b)
    ensures DegradedNames(Members(sets)) == [] && NotReadyNames(Members(sets)) == [sets[b].sts.name]
  {
    NotReadyIffNotWhole(sets[b]);
    OthersWholeIff(sets, b);
    OnlyNotReadySet(sets, b);
    DegradedIffBadStrategy(sets);
    SameNotReady(sets);
    SetNamesAt(NotReadySets(sets));
  }

  /** With one broken set every other set with outdated pods waits for it. */
  lemma WaitsForBroken(sets: seq<SetView>, b: nat, i: nat)
    requires NamesGiven(sets) && AllOnDelete(sets) && b < |sets| && i < |sets| && b != i
    requires !Whole(sets[b]) && OthersWhole(sets, b) && Candidate(sets[i])
    ensures Gate(Members(sets))[i] == Waits(sets[i], WaitingForSet(sets[b].sts.name))
  {
    BrokenNames(sets, b);
    assert sets[i] in sets && sets[i].sts.name != sets[b].sts.name;
    MemberProgressing(sets[i]);
    HeldGate(Members(sets), sets[b].sts.name, i);
  }

  /** With two broken sets, or a wrong strategy somewhere, every set with outdated pods waits. */
  lemma WaitsForAll(sets: seq<SetView>, i: nat)
    requires i < |sets| && sets[i].sts.onDelete && Candidate(sets[i]) && (!AllOnDelete(sets) || TwoBroken(sets))
    ensures Gate(Members(sets))[i] ==
            Waits(sets[i], if AllOnDelete(sets) then MultipleNotReady else BlockedBy(DegradedNames(Members(sets))))
  {
    MemberProgressing(sets[i]);
    DegradedIffBadStrategy(sets);
    if AllOnDelete(sets) {
      BrokenSets(sets);
      SameNotReady(sets);
      SetNamesAt(NotReadySets(sets));
    }
  }

  /** The names of those with a wrong strategy. */
  lemma BlockedByNames(sets: seq<SetView>, n: string)
    ensures n in DegradedNames(Members(sets)) <==> exists v | v in sets :: !v.sts.onDelete && v.sts.name == n
  {
    var ms := Members(sets);
    DegradedNamesAre(ms, n);
    forall j | 0 <= j < |sets|
      ensures ms[j].name == sets[j].sts.name && (ms[j].phase == PhaseDegraded <==> !sets[j].sts.onDelete)
    {
      MemberFields(sets[j]);
      MemberMeaning(sets[j]);
    }
    if i :| 0 <= i < |ms| && ms[i].phase == PhaseDegraded && ms[i].name == n {
      assert sets[i] in sets;
    }
  }

  // ----- the group -----

  /** Nothing is left to do for the set. */
  predicate SetDone(v: SetView) {
    v.sts.onDelete && !NeedsUpdate(v) && Whole(v) && v.sts.readyReplicas == Desired(v)
  }

  lemma {:induction false} NoNotReadyNames(ms: seq<Member>)
    ensures NotReadyNames(ms) == [] <==> forall i | 0 <= i < |ms| :: !ms[i].notReady
  {
    if ms != [] {
      NoNotReadyNames(ms[..|ms| - 1]);
    }
  }

  lemma GatedPhases(sets: seq<SetView>)
    ensures var gated := Gate(Members(sets));
            && |gated| == |sets|
            && forall i | 0 <= i < |sets| ::
                 && gated[i].phase != PhaseUnknown
                 && (gated[i].phase == PhaseComplete <==> SetDone(sets[i]))
                 && (gated[i].phase == PhaseDegraded <==> !sets[i].sts.onDelete)
  {
    var ms := Members(sets);
    assert |Gate(ms)| == |sets|;
    forall i | 0 <= i < |sets|
      ensures Gate(ms)[i].phase != PhaseUnknown
      ensures Gate(ms)[i].phase == PhaseComplete <==> SetDone(sets[i])
      ensures Gate(ms)[i].phase == PhaseDegraded <==> !sets[i].sts.onDelete
    {
      GateKeepsOthers(ms, i);
      MemberMeaning(sets[i]);
      MemberReason(sets[i]);
    }
  }

  /** A group is shown as complete if and only if every one of its sets uses OnDelete, has no outdated pod, has all
      expected pods listed and up, and reports its desired number ready. */
  lemma GroupCompleteIff(sets: seq<SetView>)
    ensures ShownPhase(sets) == PhaseComplete <==> sets != [] && forall v | v in sets :: SetDone(v)
  {
    var ms := Members(sets);
    var gated := Gate(ms);
    GatedPhases(sets);
    if sets != [] {
      forall m | m in gated ensures m.phase != PhaseUnknown {
        var i :| 0 <= i < |gated| && gated[i] == m;
      }
      GroupPhaseMeaning(gated, |NotReadyNames(ms)|);
      if forall v | v in sets :: SetDone(v) {
        forall i | 0 <= i < |ms| ensures !ms[i].notReady && gated[i].phase == PhaseComplete {
          assert sets[i] in sets;
          MemberMeaning(sets[i]);
        }
        NoNotReadyNames(ms);
      } else {
        var v :| v in sets && !SetDone(v);
        var i :| 0 <= i < |sets| && sets[i] == v;
        assert gated[i] in gated;
      }
    }
  }

  /** It is shown as degraded if and only if some set uses another strategy. */
  lemma GroupDegradedIff(sets: seq<SetView>)
    ensures ShownPhase(sets) == PhaseDegraded <==> !AllOnDelete(sets)
  {
    var gated := Gate(Members(sets));
    GatedPhases(sets);
    if !AllOnDelete(sets) {
      var v :| v in sets && !v.sts.onDelete;
      var i :| 0 <= i < |sets| && sets[i] == v;
      assert gated[i] in gated;
    } else {
      forall m | m in gated ensures m.phase != PhaseDegraded {
        var i :| 0 <= i < |gated| && gated[i] == m;
        assert sets[i] in sets;
      }
    }
  }

  /** Degraded members explain the group first, then the number of broken sets, then the members of its phase. */
  lemma GroupReasonMeaning(ms: seq<Member>, notReadyMembers: nat)
    ensures var phase, reason := GroupPhase(ms, notReadyMembers), GroupReason(ms, notReadyMembers);
            if ms == [] then reason == NoStatefulSets
            else if exists m | m in ms :: m.phase == PhaseDegraded then reason == FirstReason(ms, PhaseDegraded)
            else if notReadyMembers > 1 then reason == MultipleNotReady
            else if phase == PhaseUnknown then reason == NoReason
            else HasPhase(ms, phase) && reason == FirstReason(ms, phase)
  {
  }

  /** The group's reason is that of its first member with the group's phase. */
  lemma {:induction false} FirstReasonMeaning(ms: seq<Member>, phase: RolloutPhase) returns (i: nat)
    requires HasPhase(ms, phase)
    ensures i < |ms| && ms[i].phase == phase && FirstReason(ms, phase) == ms[i].reason
    ensures forall j | 0 <= j < i :: ms[j].phase != phase
  {
    if ms[0].phase == phase {
      i := 0;
    } else {
      var tail := ms[1..];
      var m :| m in ms && m.phase == phase;
      assert m in tail;
      var k := FirstReasonMeaning(tail, phase);
      i := k + 1;
      forall j | 0 < j < i ensures ms[j] == tail[j - 1] {}
    }
  }
}
