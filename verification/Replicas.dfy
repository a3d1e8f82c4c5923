/** The size a follower StatefulSet should have: its leader's, once the scaling gates are open. */
module Replicas {
  import opened Kube

  datatype LeaderResult = NoLeader | LeaderAt(index: nat) | LeaderMissing

  /** The first set from `k` on with the given name. */
  function IndexOf(sets: seq<StatefulSet>, name: string, k: nat): (r: Option<nat>)
    requires k <= |sets|
    ensures r.Some? ==> k <= r.value < |sets| && sets[r.value].name == name
    ensures r.Some? ==> forall i | k <= i < r.value :: sets[i].name != name
    ensures r.None? ==> forall i | k <= i < |sets| :: sets[i].name != name
    decreases |sets| - k
  {
    if k == |sets| then None
    else if sets[k].name == name then Some(k)
    else IndexOf(sets, name, k + 1)
  }

  function LeaderOf(follower: StatefulSet, sets: seq<StatefulSet>): (r: LeaderResult)
    ensures r.LeaderAt? ==> r.index < |sets| && follower.leader == Some(sets[r.index].name)
    ensures r.LeaderAt? ==> forall i | 0 <= i < r.index :: follower.leader != Some(sets[i].name)
    ensures r.LeaderMissing? ==> forall s | s in sets :: follower.leader != Some(s.name)
  {
    match follower.leader
    case None => NoLeader
    case Some(name) =>
      match IndexOf(sets, name, 0)
      case None => LeaderMissing
      case Some(i) => LeaderAt(i)
  }

  method GetLeaderForStatefulSet(follower: StatefulSet, sets: seq<StatefulSet>) returns (r: LeaderResult)
    ensures r == LeaderOf(follower, sets)
  {
    if follower.leader.None? {
      return NoLeader;
    }
    var leaderName := follower.leader.value;
    for i := 0 to |sets|
      invariant forall j | 0 <= j < i :: sets[j].name != leaderName
      invariant IndexOf(sets, leaderName, 0) == IndexOf(sets, leaderName, i)
    {
      if sets[i].name == leaderName {
        return LeaderAt(i);
      }
    }
    return LeaderMissing;
  }

  // ----- the time gate between downscales -----

  /** The zero time: no downscale has been recorded. */
  const ZERO_TIME: int := 0

  /** The most recent downscale of the other sets among the first `k`; `Bad` if a timestamp does not parse. */
  function MostRecent(follower: string, sets: seq<StatefulSet>, k: nat): Parsed
    requires k <= |sets|
  {
    if k == 0 then Good(ZERO_TIME)
    else
      var before, s := MostRecent(follower, sets, k - 1), sets[k - 1];
      if before.Bad? || s.name == follower || s.lastDownscale.None? then before
      else match s.lastDownscale.value
        case Bad => Bad
        case Good(t) => Good(Max(t, before.value))
  }

  method GetMostRecentDownscale(follower: string, sets: seq<StatefulSet>) returns (r: Parsed)
    ensures r == MostRecent(follower, sets, |sets|)
  {
    var mostRecent := ZERO_TIME;
    for i := 0 to |sets|
      invariant MostRecent(follower, sets, i) == Good(mostRecent)
    {
      var s := sets[i];
      if s.name == follower {
        continue;
      }
      if s.lastDownscale.None? {
        continue;
      }
      if s.lastDownscale.value.Bad? {
        BadStays(follower, sets, i + 1, |sets|);
        return Bad;
      }
      if s.lastDownscale.value.value > mostRecent {
        mostRecent := s.lastDownscale.value.value;
      }
    }
    return Good(mostRecent);
  }

  lemma {:induction false} BadStays(follower: string, sets: seq<StatefulSet>, i: nat, k: nat)
    requires i <= k <= |sets| && MostRecent(follower, sets, i).Bad?
    ensures MostRecent(follower, sets, k).Bad?
  {
    if i < k {
      BadStays(follower, sets, i, k - 1);
    }
  }

  datatype TimeGate = Open | Closed | GateError

  /** Uses the follower's own minimum time and the most recent downscale of any other set. */
  function MinimumTimeHasElapsed(follower: StatefulSet, sets: seq<StatefulSet>, now: int): TimeGate {
    match MostRecent(follower.name, sets, |sets|)
    case Bad => GateError
    case Good(recent) =>
      if recent == ZERO_TIME then Open
      else if follower.minTimeBetweenDownscales.None? || follower.minTimeBetweenDownscales.value.Bad? then GateError
      else if now - recent > follower.minTimeBetweenDownscales.value.value then Open
      else Closed
  }

  // ----- the desired size -----

  datatype Desired = Size(replicas: nat) | DesiredError

  function DesiredReplicas(sts: StatefulSet, sets: seq<StatefulSet>, now: int): Desired
    requires sts.specReplicas.Some? && forall s | s in sets :: s.specReplicas.Some?
  {
    var current := sts.specReplicas.value;
    match LeaderOf(sts, sets)
    case NoLeader => Size(current)
    case LeaderMissing => DesiredError
    case LeaderAt(l) =>
      if sts.forceReplicas.Some? then Size(sts.forceReplicas.value)
      else
        var leaderReplicas := sets[l].specReplicas.value;
        if leaderReplicas > current then
          if sts.onlyWhenLeaderReady && leaderReplicas != sets[l].readyReplicas then Size(current)
          else Size(leaderReplicas)
        else if leaderReplicas < current then
          match MinimumTimeHasElapsed(sts, sets, now)
          case GateError => DesiredError
          case Open => Size(leaderReplicas)
          case Closed => Size(current)
        else Size(current)
  }

  /** What size is desired. A set without a leader keeps its own; a missing leader is an error; a forced size wins.
      A larger leader is followed, unless the follower waits for it to be ready; a smaller one when the gate is open. */
  lemma DesiredMeaning(sts: StatefulSet, sets: seq<StatefulSet>, now: int)
    requires sts.specReplicas.Some? && forall s | s in sets :: s.specReplicas.Some?
    ensures var d, own := DesiredReplicas(sts, sets, now), Size(sts.specReplicas.value);
            && (sts.leader.None? ==> d == own)
            && (sts.leader.Some? && (forall s | s in sets :: s.name != sts.leader.value) ==> d == DesiredError)
            && forall l: nat | IsLeader(sts, sets, l) ::
                 var theirs := Size(sets[l].specReplicas.value);
                 if sts.forceReplicas.Some? then d == Size(sts.forceReplicas.value)
                 else if theirs.replicas == own.replicas then d == own
                 else if theirs.replicas > own.replicas then
                   d == if sts.onlyWhenLeaderReady && sets[l].readyReplicas != theirs.replicas then own else theirs
                 else
                   && (d == theirs <==> MinimumTimeHasElapsed(sts, sets, now) == Open)
                   && (d == own <==> MinimumTimeHasElapsed(sts, sets, now) == Closed)
  {
    forall l: nat | IsLeader(sts, sets, l) ensures LeaderOf(sts, sets) == LeaderAt(l) {
      assert sets[l] in sets;
    }
    if sts.leader.Some? && LeaderOf(sts, sets).LeaderAt? {
      assert sets[LeaderOf(sts, sets).index] in sets;
    }
  }

  /** The first set with the configured leader's name. */
  predicate IsLeader(sts: StatefulSet, sets: seq<StatefulSet>, l: nat) {
    && l < |sets| && sts.leader == Some(sets[l].name)
    && forall j | 0 <= j < l :: sts.leader != Some(sets[j].name)
  }
}
