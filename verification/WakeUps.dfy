/** Two wake-up protocols over all interleavings: the reconcile flag and the readiness loop. */
module WakeUps {

  // ----- the reconcile flag -----

  datatype Loop = Idle | Reconciling(start: nat)

  /** Every step takes one tick of `clock`; times are `-1` for "never". */
  datatype FlagState = FlagState(clock: nat, flag: bool, loop: Loop, lastEnqueue: int, lastSuccessStart: int)

  datatype FlagStep = Enqueue | Begin | Succeed | Fail

  predicate FlagNext(s: FlagState, step: FlagStep, s': FlagState) {
    var t := s.clock + 1;
    match step
    case Enqueue => s' == s.(clock := t, flag := true, lastEnqueue := s.clock)
    case Begin => s.loop.Idle? && s.flag && s' == s.(clock := t, flag := false, loop := Reconciling(s.clock))
    case Succeed => s.loop.Reconciling? && s' == s.(clock := t, loop := Idle, lastSuccessStart := s.loop.start)
    case Fail => s.loop.Reconciling? && s' == s.(clock := t, loop := Idle, flag := true)
  }

  ghost predicate FlagRun(states: seq<FlagState>, steps: seq<FlagStep>) {
    && |states| == |steps| + 1 && states[0] == FlagState(0, false, Idle, -1, -1)
    && forall k | 0 <= k < |steps| :: FlagNext(states[k], steps[k], states[k + 1])
  }

  predicate FlagInv(s: FlagState) {
    && s.lastEnqueue < s.clock
    && (s.loop.Reconciling? ==> s.loop.start < s.clock)
    && (!s.flag && s.lastEnqueue >= 0 ==>
          match s.loop
          case Idle => s.lastEnqueue < s.lastSuccessStart
          case Reconciling(start) => s.lastEnqueue < start)
  }

  /** No enqueue is lost: if the flag is clear and the loop idle, the last successful reconcile began after the
      last enqueue. */
  lemma {:induction false} NoEnqueueLost(states: seq<FlagState>, steps: seq<FlagStep>, k: nat)
    requires FlagRun(states, steps) && k <= |steps|
    ensures FlagInv(states[k])
    ensures !states[k].flag && states[k].loop.Idle? && states[k].lastEnqueue >= 0 ==>
              states[k].lastEnqueue < states[k].lastSuccessStart
  {
    if k > 0 {
      NoEnqueueLost(states, steps, k - 1);
      assert FlagNext(states[k - 1], steps[k - 1], states[k]);
    }
  }

  // ----- the readiness loop -----

  /** The loop waits, probes the API, or has read the watch health and is about to publish. */
  datatype Probe = Waiting | Probing | Read(healthy: bool)

  /** `setters` counts the calls that changed the health and have not reached their send yet; `seen` is the
      health the last publication was based on. */
  datatype ReadinessState = ReadinessState(
    healthy: bool, token: bool, setters: nat, probe: Probe, seen: bool, published: bool)

  datatype ReadinessStep = Swap(value: bool) | Send | Receive | TickerFires | Load | Publish(listed: bool)

  predicate ReadinessNext(s: ReadinessState, step: ReadinessStep, s': ReadinessState) {
    match step
    case Swap(value) => s' == s.(healthy := value, setters := s.setters + if value != s.healthy then 1 else 0)
    case Send => s.setters > 0 && s' == s.(setters := s.setters - 1, token := true)
    case Receive => s.probe.Waiting? && s.token && s' == s.(token := false, probe := Probing)
    case TickerFires => s.probe.Waiting? && s' == s.(probe := Probing)
    case Load => s.probe.Probing? && s' == s.(probe := Read(s.healthy))
    case Publish(listed) =>
      s.probe.Read? && s' == s.(probe := Waiting, seen := s.probe.healthy, published := listed && s.probe.healthy)
  }

  /** The loop starts with a probe of its own. */
  ghost predicate ReadinessRun(states: seq<ReadinessState>, steps: seq<ReadinessStep>) {
    && |states| == |steps| + 1 && states[0].probe.Probing?
    && forall k | 0 <= k < |steps| :: ReadinessNext(states[k], steps[k], states[k + 1])
  }

  predicate ReadinessInv(s: ReadinessState) {
    match s.probe
    case Probing => true
    case Waiting => (s.seen != s.healthy ==> s.token || s.setters > 0) && (s.published ==> s.seen)
    case Read(h) => h != s.healthy ==> s.token || s.setters > 0
  }

  /** No health change is missed: if the loop waits with no token and no setter in flight, the last publication
      was based on the current health, and the gauge is up only if the watch is healthy. */
  lemma {:induction false} ReadinessCurrent(states: seq<ReadinessState>, steps: seq<ReadinessStep>, k: nat)
    requires ReadinessRun(states, steps) && k <= |steps|
    ensures ReadinessInv(states[k])
    ensures var s := states[k];
            s.probe.Waiting? && !s.token && s.setters == 0 ==> s.seen == s.healthy && (s.published ==> s.healthy)
  {
    if k > 0 {
      ReadinessCurrent(states, steps, k - 1);
      assert ReadinessNext(states[k - 1], steps[k - 1], states[k]);
    }
  }
}
