/** The time gate between zone downscales: one abstract gate, its two storage variants, and the controller's own. */
module DownscaleGate {
  import opened Kube
  import opened Replicas

  datatype GateResult = Clear | RecentlyDownscaled(name: string) | Unparsable

  /** Last downscale times by StatefulSet name. */
  type Stamps = map<string, Parsed>

  /** What one set, with the given last downscale time, says about a downscale of another set. */
  function CheckSet(s: StatefulSet, stamp: Option<Parsed>, exclude: string, now: int): GateResult {
    if s.name == exclude || stamp.None? then Clear
    else if stamp.value.Bad? then Unparsable
    else if s.minTimeBetweenDownscales.None? then Clear
    else if s.minTimeBetweenDownscales.value.Bad? then Unparsable
    else if now - stamp.value.value < s.minTimeBetweenDownscales.value.value then RecentlyDownscaled(s.name)
    else Clear
  }

  /** The abstract gate, reading the given stamps. */
  function FindRecent(sets: seq<StatefulSet>, stamps: Stamps, exclude: string, now: int): GateResult {
    if sets == [] then Clear
    else
      var stamp := if sets[0].name in stamps then Some(stamps[sets[0].name]) else None;
      var r := CheckSet(sets[0], stamp, exclude, now);
      if r.Clear? then FindRecent(sets[1..], stamps, exclude, now) else r
  }

  lemma {:induction false} ClearIff(sets: seq<StatefulSet>, stamps: Stamps, exclude: string, now: int)
    ensures FindRecent(sets, stamps, exclude, now).Clear? <==>
            forall s | s in sets ::
              CheckSet(s, if s.name in stamps then Some(stamps[s.name]) else None, exclude, now).Clear?
  {
    if sets != [] {
      ClearIff(sets[1..], stamps, exclude, now);
      assert forall s :: s in sets <==> s == sets[0] || s in sets[1..];
    }
  }

  // ----- annotation variant -----

  function FindAnnotated(sets: seq<StatefulSet>, exclude: string, now: int): GateResult {
    if sets == [] then Clear
    else
      var r := CheckSet(sets[0], sets[0].lastDownscale, exclude, now);
      if r.Clear? then FindAnnotated(sets[1..], exclude, now) else r
  }

  method FindAnnotatedDownscale(sets: seq<StatefulSet>, exclude: string, now: int) returns (r: GateResult)
    ensures r == FindAnnotated(sets, exclude, now)
  {
    var i := 0;
    while i < |sets|
      invariant 0 <= i <= |sets|
      invariant FindAnnotated(sets, exclude, now) == FindAnnotated(sets[i..], exclude, now)
    {
      var sts := sets[i];
      assert sets[i..][1..] == sets[i + 1..];
      i := i + 1;
      if sts.name == exclude {
        continue;
      }
      if sts.lastDownscale.None? {
        continue;
      }
      if sts.lastDownscale.value.Bad? {
        return Unparsable;
      }
      if sts.minTimeBetweenDownscales.None? {
        continue;
      }
      if sts.minTimeBetweenDownscales.value.Bad? {
        return Unparsable;
      }
      if now - sts.lastDownscale.value.value < sts.minTimeBetweenDownscales.value.value {
        return RecentlyDownscaled(sts.name);
      }
    }
    return Clear;
  }

  /** The stamps are the sets' own last-downscale annotations. */
  ghost predicate StampsOf(sets: seq<StatefulSet>, stamps: Stamps) {
    forall s | s in sets ::
      (s.name in stamps <==> s.lastDownscale.Some?) && (s.name in stamps ==> stamps[s.name] == s.lastDownscale.value)
  }

  /** The annotation variant is the gate that the ConfigMap variant runs on its zones: from equivalent stored
      state both give the same verdict, whatever else the ConfigMap holds. */
  lemma {:induction false} AnnotatedRefines(sets: seq<StatefulSet>, stamps: Stamps, exclude: string, now: int)
    requires StampsOf(sets, stamps)
    ensures FindAnnotated(sets, exclude, now) == FindRecent(sets, stamps, exclude, now)
  {
    if sets != [] {
      assert sets[0] in sets;
      AnnotatedRefines(sets[1..], stamps, exclude, now);
    }
  }

  // ----- ConfigMap variant -----

  /** A zone entry of the ConfigMap; `Corrupt` is not valid JSON. */
  datatype ZoneData = Zone(lastDownscaled: Parsed) | Corrupt

  type Data = map<string, ZoneData>

  predicate Intact(data: Data) {
    forall z | z in data :: data[z].Zone?
  }

  function StampsIn(data: Data): Stamps
    requires Intact(data)
  {
    map z | z in data :: data[z].lastDownscaled
  }

  function DataOf(stamps: Stamps): Data {
    map z | z in stamps :: Zone(stamps[z])
  }

  /** Saving and loading undo each other. */
  lemma SaveLoadRoundTrip(stamps: Stamps, data: Data)
    ensures Intact(DataOf(stamps)) && StampsIn(DataOf(stamps)) == stamps
    ensures Intact(data) ==> DataOf(StampsIn(data)) == data
  {
  }

  class ZoneTracker {
    var zones: Stamps

    constructor ()
      ensures zones == map[]
    {
      zones := map[];
    }

    /** Loads all zones; one corrupt entry fails the load. */
    method LoadZones(data: Data) returns (ok: bool)
      modifies this
      ensures ok <==> Intact(data)
      ensures ok ==> zones == old(zones) + StampsIn(data)
    {
      var todo := data.Keys;
      while todo != {}
        invariant todo <= data.Keys && zones.Keys == old(zones).Keys + (data.Keys - todo)
        invariant forall z | z in data.Keys - todo :: data[z].Zone? && zones[z] == data[z].lastDownscaled
        invariant forall z | z in old(zones) && z !in data.Keys - todo :: zones[z] == old(zones)[z]
        decreases todo
      {
        var z :| z in todo;
        if data[z].Corrupt? {
          return false;
        }
        zones := zones[z := data[z].lastDownscaled];
        todo := todo - {z};
      }
      return true;
    }

    /** What is written loads back as exactly the zones in memory. */
    method SaveZones() returns (data: Data)
      ensures Intact(data) && StampsIn(data) == zones
    {
      data := map[];
      var todo := zones.Keys;
      while todo != {}
        invariant todo <= zones.Keys && data.Keys == zones.Keys - todo
        invariant forall z | z in data :: data[z] == Zone(zones[z])
        decreases todo
      {
        var z :| z in todo;
        data := data[z := Zone(zones[z])];
        todo := todo - {z};
      }
    }

    method SetDownscaled(zone: string, seconds: int) returns (data: Data)
      modifies this
      ensures zones == old(zones)[zone := Good(seconds)]
      ensures Intact(data) && StampsIn(data) == zones
    {
      zones := zones[zone := Good(seconds)];
      data := SaveZones();
    }

    method FindTrackedDownscale(sets: seq<StatefulSet>, exclude: string, now: int) returns (r: GateResult)
      ensures r == FindRecent(sets, zones, exclude, now)
    {
      var i := 0;
      while i < |sets|
        invariant 0 <= i <= |sets|
        invariant FindRecent(sets, zones, exclude, now) == FindRecent(sets[i..], zones, exclude, now)
      {
        var sts := sets[i];
        assert sets[i..][1..] == sets[i + 1..];
        i := i + 1;
        if sts.name == exclude {
          continue;
        }
        if sts.name !in zones {
          continue;
        }
        if zones[sts.name].Bad? {
          return Unparsable;
        }
        if sts.minTimeBetweenDownscales.None? {
          continue;
        }
        if sts.minTimeBetweenDownscales.value.Bad? {
          return Unparsable;
        }
        if now - zones[sts.name].value < sts.minTimeBetweenDownscales.value.value {
          return RecentlyDownscaled(sts.name);
        }
      }
      return Clear;
    }
  }

  // ----- the controller's gate -----

  /** A set other than the follower that has been downscaled, and when. */
  predicate DownscaledAt(follower: string, s: StatefulSet, t: int) {
    s.name != follower && s.lastDownscale == Some(Good(t))
  }

  lemma {:induction false} MostRecentBounds(follower: string, sets: seq<StatefulSet>, k: nat)
    requires k <= |sets|
    ensures var r := MostRecent(follower, sets, k);
            && (r.Bad? <==> exists i | 0 <= i < k :: sets[i].name != follower && sets[i].lastDownscale == Some(Bad))
            && (r.Good? ==>
                  && r.value >= ZERO_TIME
                  && (forall i, t | 0 <= i < k && DownscaledAt(follower, sets[i], t) :: t <= r.value)
                  && (r.value == ZERO_TIME || exists i | 0 <= i < k :: DownscaledAt(follower, sets[i], r.value)))
  {
    if k > 0 {
      MostRecentBounds(follower, sets, k - 1);
      var s := sets[k - 1];
      if s.name != follower && s.lastDownscale.Some? && s.lastDownscale.value.Good? {
        assert DownscaledAt(follower, s, s.lastDownscale.value.value);
      }
    }
  }

  /** Looking only at the most recent downscale is the same as looking at every other annotated set. */
  lemma MostRecentSuffices(follower: StatefulSet, sets: seq<StatefulSet>, now: int)
    requires follower.minTimeBetweenDownscales.Some? && follower.minTimeBetweenDownscales.value.Good?
    ensures MinimumTimeHasElapsed(follower, sets, now) == Open <==>
            && (forall s | s in sets && s.name != follower.name :: s.lastDownscale != Some(Bad))
            && ((forall s, t | s in sets && DownscaledAt(follower.name, s, t) :: t <= ZERO_TIME)
                || forall s, t | s in sets && DownscaledAt(follower.name, s, t) ::
                     now - t > follower.minTimeBetweenDownscales.value.value)
  {
    MostRecentBounds(follower.name, sets, |sets|);
    var r := MostRecent(follower.name, sets, |sets|);
    if r.Good? && r.value != ZERO_TIME {
      var i :| 0 <= i < |sets| && DownscaledAt(follower.name, sets[i], r.value);
      assert sets[i] in sets;
    }
  }

  /** Recorded downscales happened after the zero time. */
  ghost predicate AfterZeroTime(sets: seq<StatefulSet>) {
    forall s, t | s in sets && s.lastDownscale == Some(Good(t)) :: t > ZERO_TIME
  }

  predicate HasMinTime(s: StatefulSet) {
    s.minTimeBetweenDownscales.Some? && s.minTimeBetweenDownscales.value.Good?
  }

  function MinTime(s: StatefulSet): int
    requires HasMinTime(s)
  {
    s.minTimeBetweenDownscales.value.value
  }

  /** Another set whose last downscale is known. */
  predicate IsOtherDownscaled(follower: StatefulSet, s: StatefulSet) {
    s.name != follower.name && s.lastDownscale.Some? && s.lastDownscale.value.Good?
  }

  predicate OtherUnparsable(follower: StatefulSet, sets: seq<StatefulSet>) {
    exists s | s in sets :: s.name != follower.name && s.lastDownscale == Some(Bad)
  }

  predicate OtherDownscaled(follower: StatefulSet, sets: seq<StatefulSet>) {
    exists s | s in sets :: IsOtherDownscaled(follower, s)
  }

  predicate OthersLongAgo(follower: StatefulSet, sets: seq<StatefulSet>, now: int)
    requires HasMinTime(follower)
  {
    forall s | s in sets && IsOtherDownscaled(follower, s) :: now - s.lastDownscale.value.value > MinTime(follower)
  }

  /** The most recent time is the zero time if and only if no other set was downscaled. */
  lemma MostRecentZero(follower: StatefulSet, sets: seq<StatefulSet>)
    requires AfterZeroTime(sets)
    ensures var r := MostRecent(follower.name, sets, |sets|);
            && (r.Bad? <==> OtherUnparsable(follower, sets))
            && (r.Good? ==> (r.value == ZERO_TIME <==> !OtherDownscaled(follower, sets)))
  {
    MostRecentBounds(follower.name, sets, |sets|);
    var r := MostRecent(follower.name, sets, |sets|);
    if r.Bad? {
      var i :| 0 <= i < |sets| && sets[i].name != follower.name && sets[i].lastDownscale == Some(Bad);
      assert sets[i] in sets;
    } else {
      if r.value != ZERO_TIME {
        var i :| 0 <= i < |sets| && DownscaledAt(follower.name, sets[i], r.value);
        assert sets[i] in sets && IsOtherDownscaled(follower, sets[i]);
      }
      if s :| s in sets && IsOtherDownscaled(follower, s) {
        var i :| 0 <= i < |sets| && sets[i] == s;
        assert DownscaledAt(follower.name, sets[i], s.lastDownscale.value.value);
      }
    }
  }

  lemma MostRecentLongAgo(follower: StatefulSet, sets: seq<StatefulSet>, now: int)
    requires HasMinTime(follower)
    requires var r := MostRecent(follower.name, sets, |sets|); r.Good? && r.value != ZERO_TIME
    ensures var r := MostRecent(follower.name, sets, |sets|);
            now - r.value > MinTime(follower) <==> OthersLongAgo(follower, sets, now)
  {
    MostRecentBounds(follower.name, sets, |sets|);
    var r := MostRecent(follower.name, sets, |sets|);
    var k :| 0 <= k < |sets| && DownscaledAt(follower.name, sets[k], r.value);
    assert sets[k] in sets && IsOtherDownscaled(follower, sets[k]);
    forall s | s in sets && IsOtherDownscaled(follower, s) ensures s.lastDownscale.value.value <= r.value {
      var i :| 0 <= i < |sets| && sets[i] == s;
      assert DownscaledAt(follower.name, sets[i], s.lastDownscale.value.value);
    }
  }

  /** The controller's gate: an error for a time that cannot be read when it is needed, open before any other downscale
      and when all are longer ago than the follower's minimum time, and closed otherwise. */
  lemma ControllerGateMeaning(follower: StatefulSet, sets: seq<StatefulSet>, now: int)
    requires AfterZeroTime(sets)
    ensures MinimumTimeHasElapsed(follower, sets, now) ==
            if OtherUnparsable(follower, sets) then GateError
            else if !OtherDownscaled(follower, sets) then Open
            else if !HasMinTime(follower) then GateError
            else if OthersLongAgo(follower, sets, now) then Open
            else Closed
  {
    MostRecentZero(follower, sets);
    var r := MostRecent(follower.name, sets, |sets|);
    if r.Good? && r.value != ZERO_TIME && HasMinTime(follower) {
      MostRecentLongAgo(follower, sets, now);
    }
  }

  /** Every other set waits at most one tick longer than the follower does, and all times parse. */
  predicate NoStricterThan(sets: seq<StatefulSet>, follower: StatefulSet, min: int) {
    forall s | s in sets && s.name != follower.name && s.minTimeBetweenDownscales.Some? ::
      s.minTimeBetweenDownscales.value.Good? && s.minTimeBetweenDownscales.value.value <= min + 1
  }

  predicate AllSized(sets: seq<StatefulSet>) {
    forall s | s in sets :: s.specReplicas.Some?
  }

  /** The controller decides to scale the follower down. */
  predicate Downscales(follower: StatefulSet, sets: seq<StatefulSet>, now: int)
    requires follower.specReplicas.Some? && AllSized(sets)
  {
    var d := DesiredReplicas(follower, sets, now);
    d.Size? && d.replicas < follower.specReplicas.value
  }

  lemma {:induction false} AnnotatedClearIff(sets: seq<StatefulSet>, exclude: string, now: int)
    ensures FindAnnotated(sets, exclude, now).Clear? <==>
            forall s | s in sets :: CheckSet(s, s.lastDownscale, exclude, now).Clear?
  {
    if sets != [] {
      AnnotatedClearIff(sets[1..], exclude, now);
      assert forall s :: s in sets <==> s == sets[0] || s in sets[1..];
    }
  }

  /** The follower's leader is smaller than the follower. */
  predicate LeaderIsSmaller(follower: StatefulSet, sets: seq<StatefulSet>)
    requires follower.specReplicas.Some? && AllSized(sets)
  {
    var l := LeaderOf(follower, sets);
    l.LeaderAt? && sets[l.index].specReplicas.value < follower.specReplicas.value
  }

  /** The controller's gate lets nothing through that the webhook's would stop. A follower without a leader in the
      group is never resized. A forced size bypasses the controller's gate, so it must not shrink the follower
      unless there is no other set. Otherwise, if the leader is smaller, no other set may wait more than one tick
      longer than the follower; a follower without a readable minimum time is scaled down only before any other
      downscale. */
  predicate GatesAligned(follower: StatefulSet, sets: seq<StatefulSet>)
    requires follower.specReplicas.Some? && AllSized(sets)
  {
    LeaderOf(follower, sets).LeaderAt? ==>
      match follower.forceReplicas
      case Some(n) => n >= follower.specReplicas.value || forall s | s in sets :: s.name == follower.name
      case None =>
        LeaderIsSmaller(follower, sets) && HasMinTime(follower) ==> NoStricterThan(sets, follower, MinTime(follower))
  }

  /** An open gate of the controller means that no other set was downscaled, or all long enough ago. */
  lemma OpenGateIsClear(follower: StatefulSet, sets: seq<StatefulSet>, now: int, later: int, s: StatefulSet)
    requires AfterZeroTime(sets) && now <= later && MinimumTimeHasElapsed(follower, sets, now) == Open
    requires HasMinTime(follower) ==> NoStricterThan(sets, follower, MinTime(follower))
    requires s in sets
    ensures CheckSet(s, s.lastDownscale, follower.name, later).Clear?
  {
    MostRecentBounds(follower.name, sets, |sets|);
    var i :| 0 <= i < |sets| && sets[i] == s;
    if s.name != follower.name && s.lastDownscale.Some? {
      assert s.lastDownscale.value.Good?;
      assert DownscaledAt(follower.name, sets[i], s.lastDownscale.value.value);
    }
  }

  /** With aligned gates, a downscale the controller decides on also passes the webhook's time check, then or
      later, in both storage variants. */
  lemma ControllerGateImpliesWebhookGate(follower: StatefulSet, sets: seq<StatefulSet>, now: int, later: int)
    requires follower.specReplicas.Some? && AllSized(sets) && AfterZeroTime(sets)
    requires GatesAligned(follower, sets) && now <= later && Downscales(follower, sets, now)
    ensures FindAnnotated(sets, follower.name, later).Clear?
    ensures forall stamps | StampsOf(sets, stamps) :: FindRecent(sets, stamps, follower.name, later).Clear?
  {
    AnnotatedClearIff(sets, follower.name, later);
    forall s | s in sets ensures CheckSet(s, s.lastDownscale, follower.name, later).Clear? {
      if follower.forceReplicas.None? {
        OpenGateIsClear(follower, sets, now, later, s);
      }
    }
    forall stamps | StampsOf(sets, stamps) ensures FindRecent(sets, stamps, follower.name, later).Clear? {
      AnnotatedRefines(sets, stamps, follower.name, later);
    }
  }

  /** The same group with other last downscale times. */
  predicate Restamped(sets: seq<StatefulSet>, stamped: seq<StatefulSet>) {
    && |stamped| == |sets|
    && forall i | 0 <= i < |sets| :: stamped[i] == sets[i].(lastDownscale := stamped[i].lastDownscale)
  }

  lemma RestampedSized(sets: seq<StatefulSet>, stamped: seq<StatefulSet>)
    requires AllSized(sets) && Restamped(sets, stamped)
    ensures AllSized(stamped)
  {
    forall s | s in stamped ensures s.specReplicas.Some? {
      var i :| 0 <= i < |stamped| && stamped[i] == s;
      assert sets[i] in sets;
    }
  }

  /** Downscale times do not decide who leads. */
  lemma RestampedLeader(follower: StatefulSet, sets: seq<StatefulSet>, stamped: seq<StatefulSet>)
    requires Restamped(sets, stamped)
    ensures LeaderOf(follower, stamped) == LeaderOf(follower, sets)
  {
    var l, k := LeaderOf(follower, sets), LeaderOf(follower, stamped);
    if l.LeaderAt? {
      assert stamped[l.index] in stamped && stamped[l.index].name == sets[l.index].name;
    }
    if k.LeaderAt? {
      assert sets[k.index] in sets && stamped[k.index].name == sets[k.index].name;
    }
  }

  lemma RestampedOrigin(sets: seq<StatefulSet>, stamped: seq<StatefulSet>, s: StatefulSet) returns (r: StatefulSet)
    requires Restamped(sets, stamped) && s in stamped
    ensures r in sets && s == r.(lastDownscale := s.lastDownscale)
  {
    var i :| 0 <= i < |stamped| && stamped[i] == s;
    r := sets[i];
  }

  lemma RestampedNoStricter(follower: StatefulSet, sets: seq<StatefulSet>, stamped: seq<StatefulSet>, min: int)
    requires Restamped(sets, stamped) && NoStricterThan(sets, follower, min)
    ensures NoStricterThan(stamped, follower, min)
  {
    forall s | s in stamped && s.name != follower.name && s.minTimeBetweenDownscales.Some?
      ensures s.minTimeBetweenDownscales.value.Good? && s.minTimeBetweenDownscales.value.value <= min + 1
    {
      var _ := RestampedOrigin(sets, stamped, s);
    }
  }

  lemma RestampedAlone(follower: StatefulSet, sets: seq<StatefulSet>, stamped: seq<StatefulSet>)
    requires Restamped(sets, stamped) && forall s | s in sets :: s.name == follower.name
    ensures forall s | s in stamped :: s.name == follower.name
  {
    forall s | s in stamped ensures s.name == follower.name {
      var _ := RestampedOrigin(sets, stamped, s);
    }
  }

  lemma RestampedAligned(follower: StatefulSet, sets: seq<StatefulSet>, stamped: seq<StatefulSet>)
    requires follower.specReplicas.Some? && AllSized(sets) && Restamped(sets, stamped) && GatesAligned(follower, sets)
    ensures AllSized(stamped) && GatesAligned(follower, stamped)
  {
    RestampedSized(sets, stamped);
    RestampedLeader(follower, sets, stamped);
    if follower.forceReplicas.Some? {
      if forall s | s in sets :: s.name == follower.name {
        RestampedAlone(follower, sets, stamped);
      }
    } else if HasMinTime(follower) && NoStricterThan(sets, follower, MinTime(follower)) {
      RestampedNoStricter(follower, sets, stamped, MinTime(follower));
    }
  }

  /** The group with set `i` last downscaled at `stamp`, and no other. */
  function StampOnly(sets: seq<StatefulSet>, i: nat, stamp: Parsed): (stamped: seq<StatefulSet>)
    ensures Restamped(sets, stamped)
  {
    seq(|sets|, j requires 0 <= j < |sets| => sets[j].(lastDownscale := if j == i then Some(stamp) else None))
  }

  lemma OnlyStampIsMostRecent(follower: string, sets: seq<StatefulSet>, i: nat, stamp: int)
    requires i < |sets| && sets[i].name != follower && stamp > ZERO_TIME
    ensures MostRecent(follower, StampOnly(sets, i, Good(stamp)), |sets|) == Good(stamp)
  {
    var stamped := StampOnly(sets, i, Good(stamp));
    MostRecentBounds(follower, stamped, |sets|);
    assert DownscaledAt(follower, stamped[i], stamp);
  }

  /** For every group and every set in it that waits more than one tick longer or does not parse, there are
      downscale times and a moment at which the controller scales an unforced follower down and the webhook denies. */
  lemma StricterSetBlocksWebhook(follower: StatefulSet, sets: seq<StatefulSet>, i: nat)
    returns (stamped: seq<StatefulSet>, now: int)
    requires follower.specReplicas.Some? && AllSized(sets) && follower.forceReplicas.None?
    requires HasMinTime(follower) && LeaderIsSmaller(follower, sets)
    requires i < |sets| && sets[i].name != follower.name && sets[i].minTimeBetweenDownscales.Some?
    requires HasMinTime(sets[i]) ==> MinTime(sets[i]) > MinTime(follower) + 1
    ensures Restamped(sets, stamped) && AllSized(stamped) && AfterZeroTime(stamped)
    ensures Downscales(follower, stamped, now) && !FindAnnotated(stamped, follower.name, now).Clear?
  {
    stamped, now := StampOnly(sets, i, Good(1)), MinTime(follower) + 2;
    RestampedSized(sets, stamped);
    RestampedLeader(follower, sets, stamped);
    OnlyStampIsMostRecent(follower.name, sets, i, 1);
    AnnotatedClearIff(stamped, follower.name, now);
    assert stamped[i] in stamped;
  }

  /** A follower forced below its size is scaled down whatever the other sets did: as soon as there is another set,
      there are downscale times for which the webhook denies. If that set waits at all, one just now is enough. */
  lemma ForcedDownscaleBlocked(follower: StatefulSet, sets: seq<StatefulSet>, i: nat)
    returns (stamped: seq<StatefulSet>, now: int)
    requires follower.specReplicas.Some? && AllSized(sets) && LeaderOf(follower, sets).LeaderAt?
    requires follower.forceReplicas.Some? && follower.forceReplicas.value < follower.specReplicas.value
    requires i < |sets| && sets[i].name != follower.name
    ensures Restamped(sets, stamped) && AllSized(stamped) && AfterZeroTime(stamped)
    ensures Downscales(follower, stamped, now) && !FindAnnotated(stamped, follower.name, now).Clear?
    ensures HasMinTime(sets[i]) && MinTime(sets[i]) > 0 ==> stamped == StampOnly(sets, i, Good(now))
  {
    now := 1;
    stamped := StampOnly(sets, i, if HasMinTime(sets[i]) && MinTime(sets[i]) > 0 then Good(now) else Bad);
    RestampedSized(sets, stamped);
    RestampedLeader(follower, sets, stamped);
    AnnotatedClearIff(stamped, follower.name, now);
    assert stamped[i] in stamped;
  }

  /** Whatever the downscale times of the group are, a downscale of the follower that the controller decides on
      passes the webhook's time check, then or later. */
  ghost predicate WebhookNeverDenies(follower: StatefulSet, sets: seq<StatefulSet>)
    requires follower.specReplicas.Some? && AllSized(sets)
  {
    forall stamped, now, later | Restamped(sets, stamped) && AllSized(stamped) && AfterZeroTime(stamped)
                                 && Downscales(follower, stamped, now) && now <= later ::
      FindAnnotated(stamped, follower.name, later).Clear?
  }

  lemma AlignedNeverDenies(follower: StatefulSet, sets: seq<StatefulSet>)
    requires follower.specReplicas.Some? && AllSized(sets) && GatesAligned(follower, sets)
    ensures WebhookNeverDenies(follower, sets)
  {
    forall stamped, now, later | Restamped(sets, stamped) && AllSized(stamped) && AfterZeroTime(stamped)
                                 && Downscales(follower, stamped, now) && now <= later
      ensures FindAnnotated(stamped, follower.name, later).Clear?
    {
      RestampedAligned(follower, sets, stamped);
      ControllerGateImpliesWebhookGate(follower, stamped, now, later);
    }
  }

  lemma MisalignedDenies(follower: StatefulSet, sets: seq<StatefulSet>)
    requires follower.specReplicas.Some? && AllSized(sets) && !GatesAligned(follower, sets)
    ensures !WebhookNeverDenies(follower, sets)
  {
    var stamped, now;
    if follower.forceReplicas.Some? {
      var s :| s in sets && s.name != follower.name;
      var i :| 0 <= i < |sets| && sets[i] == s;
      stamped, now := ForcedDownscaleBlocked(follower, sets, i);
    } else {
      var s :| s in sets && s.name != follower.name && s.minTimeBetweenDownscales.Some?
               && (HasMinTime(s) ==> MinTime(s) > MinTime(follower) + 1);
      var i :| 0 <= i < |sets| && sets[i] == s;
      stamped, now := StricterSetBlocksWebhook(follower, sets, i);
    }
    assert !FindAnnotated(stamped, follower.name, now).Clear?;
  }

  /** That holds if and only if the gates are aligned. */
  lemma WebhookNeverDeniesIff(follower: StatefulSet, sets: seq<StatefulSet>)
    requires follower.specReplicas.Some? && AllSized(sets)
    ensures WebhookNeverDenies(follower, sets) <==> GatesAligned(follower, sets)
  {
    if GatesAligned(follower, sets) {
      AlignedNeverDenies(follower, sets);
    } else {
      MisalignedDenies(follower, sets);
    }
  }
}
