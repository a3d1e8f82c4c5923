/** Why the interleaved delay theorems ask that no replacement is judged by the pod it replaced: a run of any two
    zones with one pod each in which that happens, and the delay is not kept. */
module HastyRuns {
  import opened Kube
  import opened EvictionCache
  import opened Budgets
  import opened Eviction
  import opened EvictionRuns
  import opened PartitionRuns
  import opened CrossZoneDelay
  import opened InterleavedRequests
  import opened InterleavedDelay
  import opened SlippedRuns

  /** A UID that no other pod has. */
  function NewUid(x: Pair): string {
    x.n + x.m + "+"
  }

  /** The pod that replaces `n` at time 0. */
  function Replacement(x: Pair): Pod {
    ReadyPod(x.n, NewUid(x), x.a, 0)
  }

  function Replaced(x: Pair): map<string, Pod> {
    map[x.n := Replacement(x), x.m := Second(x)]
  }

  /** As before up to the dropped record; then the replacement becomes ready, and `m` is recorded. */
  function HastyStates(x: Pair): seq<State> {
    StatesOf(x)[..4] + [State(Replaced(x), map[], 0), State(Replaced(x), map[x.m := RECORD], 0)]
  }

  function LastRequest(x: Pair): Event {
    Finish(x.b, OnePodSet(x.b), Second(x), false, 1, VisitsOf(x, 1, 4, 4, 4))
  }

  function HastyEvents(x: Pair): seq<Event> {
    EventsOf(x)[..3] + [Quiet(ChangePod(x.n, Some(Replacement(x)))), LastRequest(x)]
  }

  predicate Delayed(x: Pair) {
    Distinct(x) && x.partition != "" && x.delay > 0
  }

  lemma ReplacedIsValid(x: Pair, s: State)
    requires Delayed(x) && s.pods == Replaced(x)
    ensures ValidState(TwoZones(x), s)
  {
    NewUidIsNew(x);
    var f := TwoZones(x);
    assert BelongsTo(f, x.a, Replacement(x)) && BelongsTo(f, x.b, Second(x));
  }

  lemma ComesBack(x: Pair)
    requires Delayed(x)
    ensures Next(TwoZones(x), HastyStates(x)[3], ChangePod(x.n, Some(Replacement(x))), HastyStates(x)[4])
  {
    ReplacedIsValid(x, HastyStates(x)[4]);
    assert FirstDown(x)[x.n := Replacement(x)] == Replaced(x);
  }

  lemma NewUidIsNew(x: Pair)
    ensures NewUid(x) != x.n && NewUid(x) != x.m
  {
    assert |NewUid(x)| == |x.n| + |x.m| + 1;
  }

  lemma UidsStayOwned(x: Pair, pod: Pod)
    requires Delayed(x) && (pod == First(x) || pod == Second(x))
    ensures OwnsUid(HastyStates(x), pod)
  {
    NewUidIsNew(x);
    forall s, n | s in HastyStates(x) && n in s.pods && s.pods[n].uid == pod.uid ensures n == pod.name {
      assert s.pods == BothUp(x) || s.pods == FirstDown(x) || s.pods == Replaced(x);
    }
  }

  lemma FirstRequestMet(x: Pair)
    requires Delayed(x)
    ensures MetAt(TwoZones(x), HastyStates(x), HastyEvents(x), 0)
  {
    UidsStayOwned(x, First(x));
    RequestIsMet(x, HastyStates(x), HastyEvents(x), 0, 0, 0, 0, 0);
  }

  lemma LastRequestMet(x: Pair)
    requires Delayed(x)
    ensures MetAt(TwoZones(x), HastyStates(x), HastyEvents(x), 4)
  {
    UidsStayOwned(x, Second(x));
    RequestIsMet(x, HastyStates(x), HastyEvents(x), 4, 1, 4, 4, 4);
  }

  lemma QuietStepAt(x: Pair, k: nat)
    requires Delayed(x) && 1 <= k <= 3
    ensures NextAt(TwoZones(x), HastyStates(x), HastyEvents(x), k)
  {
    if k == 1 {
      StopsThePod(x);
    } else if k == 2 {
      DropsTheRecord(x);
    } else {
      ComesBack(x);
    }
  }

  lemma FirstStep(x: Pair)
    requires Delayed(x)
    ensures NextAt(TwoZones(x), HastyStates(x), HastyEvents(x), 0)
  {
    FirstRequestMet(x);
  }

  lemma LastStep(x: Pair)
    requires Delayed(x)
    ensures NextAt(TwoZones(x), HastyStates(x), HastyEvents(x), 4)
  {
    LastRequestMet(x);
  }

  lemma StepAt(x: Pair, k: nat)
    requires Delayed(x) && k < 5
    ensures NextAt(TwoZones(x), HastyStates(x), HastyEvents(x), k)
  {
    if k == 0 {
      FirstStep(x);
    } else if k == 4 {
      LastStep(x);
    } else {
      QuietStepAt(x, k);
    }
  }

  lemma Honest(x: Pair)
    requires Delayed(x)
    ensures forall k | 0 <= k < 5 && HastyEvents(x)[k].Quiet? ::
              HonestTransition(HastyStates(x)[k], HastyEvents(x)[k].step)
  {
    assert ReadySince(Replacement(x).conditions) == Some(0);
  }

  lemma StaysHonest(x: Pair)
    requires Delayed(x)
    ensures IsHonest(TwoZones(x), HastyStates(x), HastyEvents(x))
  {
    StartsHealthy(x);
    Honest(x);
    forall k | 0 <= k < |HastyEvents(x)| ensures NextAt(TwoZones(x), HastyStates(x), HastyEvents(x), k) {
      StepAt(x, k);
    }
  }

  lemma BothAllowed(x: Pair)
    requires Delayed(x)
    ensures Allows(TwoZones(x), HastyStates(x), HastyEvents(x), 0, x.a, x.partition)
    ensures Allows(TwoZones(x), HastyStates(x), HastyEvents(x), 4, x.b, x.partition)
  {
    FirstRequestMet(x);
    LastRequestMet(x);
  }

  lemma BackJustNow(x: Pair)
    requires Delayed(x)
    ensures !Up(HastyStates(x)[2], x.n) && HastyStates(x)[4].now == 0
    ensures Up(HastyStates(x)[4], x.n) && ReadySince(HastyStates(x)[4].pods[x.n].conditions) == Some(0)
  {
  }

  /** The second eviction is allowed at the very time at which the replacement became ready. */
  lemma SlipBreaksDelay(x: Pair) returns (f: Fleet, states: seq<State>, events: seq<Event>)
    requires Delayed(x)
    ensures DelayFleet(f) && IsHonest(f, states, events) && |events| == 5
    ensures Allows(f, states, events, 0, x.a, x.partition) && Allows(f, states, events, 4, x.b, x.partition)
    ensures !Up(states[2], x.n) && Up(states[4], x.n)
    ensures ReadySince(states[4].pods[x.n].conditions) == Some(states[4].now)
  {
    f, states, events := TwoZones(x), HastyStates(x), HastyEvents(x);
    TwoZonesValid(x);
    StaysHonest(x);
    BothAllowed(x);
    BackJustNow(x);
  }
}
