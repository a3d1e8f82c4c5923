/** The ConfigMap variant over runs: how it refines the abstract webhook, how far it separates zone downscales,
    and when it forgets zones. */
module TrackedRuns {
  import opened Kube
  import opened DownscaleGate
  import opened PrepareDownscale
  import opened PrepareWebhook

  /** Within a group and with the zones loaded, one tracked request is one abstract request on the stored times. */
  lemma TrackedRefines(call: Call, data: Option<Data>, m: MapAnswers)
    requires InGroup(call) && TrackedZones(call, data, m).Some?
    ensures var stamps := StampsIn(LoadOrCreate(call, data, m).value);
            var o, after := Handle(call, stamps), DataAfter(call, data, m);
            && HandleTracked(call, data, m) == o
            && after.Some? && Intact(after.value)
            && StampsIn(after.value) == StampsAfter(stamps, call, o)
  {
    var stamps := StampsIn(LoadOrCreate(call, data, m).value);
    var o := Handle(call, stamps);
    if o.stored.Some? {
      SaveLoadRoundTrip(stamps[call.name := Good(o.stored.value)], map[]);
    }
  }

  /** The ConfigMap before request `k`. */
  function DataAt(data: Option<Data>, calls: seq<Call>, ms: seq<MapAnswers>, k: nat): Option<Data>
    requires |ms| == |calls| && k <= |calls|
  {
    if k == 0 then data else DataAfter(calls[k - 1], DataAt(data, calls, ms, k - 1), ms[k - 1])
  }

  function OutcomeAt(data: Option<Data>, calls: seq<Call>, ms: seq<MapAnswers>, k: nat): Outcome
    requires |ms| == |calls| && k < |calls|
  {
    HandleTracked(calls[k], DataAt(data, calls, ms, k), ms[k])
  }

  /** To the abstract webhook, a ConfigMap that cannot be read is a group that cannot be listed. */
  function Abstracted(call: Call, m: MapAnswers): Call {
    if InGroup(call) && m.getFails then call.(group := None) else call
  }

  function AbstractedAll(calls: seq<Call>, ms: seq<MapAnswers>): seq<Call>
    requires |ms| == |calls|
  {
    seq(|calls|, k requires 0 <= k < |calls| => Abstracted(calls[k], ms[k]))
  }

  predicate SameEffect(o: Outcome, p: Outcome) {
    (Allowed(o.verdict) <==> Allowed(p.verdict)) && o == p.(verdict := o.verdict)
  }

  predicate Represents(data: Option<Data>, stamps: Stamps) {
    data.Some? && Intact(data.value) && StampsIn(data.value) == stamps
  }

  lemma AbstractedRefines(call: Call, data: Option<Data>, m: MapAnswers, stamps: Stamps)
    requires Represents(data, stamps) && (ReachesGroup(call) ==> call.info.value.group != "")
    ensures SameEffect(HandleTracked(call, data, m), Handle(Abstracted(call, m), stamps))
    ensures var c := Abstracted(call, m);
            Represents(DataAfter(call, data, m), StampsAfter(stamps, c, Handle(c, stamps)))
  {
    if InGroup(call) {
      if !m.getFails {
        TrackedRefines(call, data, m);
      }
    } else {
      assert !ReachesGroup(call) || call.group.None?;
    }
  }

  predicate AllInGroups(calls: seq<Call>) {
    forall m | 0 <= m < |calls| && ReachesGroup(calls[m]) :: calls[m].info.value.group != ""
  }

  lemma {:induction false} TrackedDataRefines(
    data: Option<Data>, stamps: Stamps, calls: seq<Call>, ms: seq<MapAnswers>, k: nat)
    requires Represents(data, stamps) && |ms| == |calls| && k <= |calls| && AllInGroups(calls)
    ensures Represents(DataAt(data, calls, ms, k), StampsAt(stamps, AbstractedAll(calls, ms), k))
  {
    if k > 0 {
      var c := k - 1;
      TrackedDataRefines(data, stamps, calls, ms, c);
      assert AbstractedAll(calls, ms)[c] == Abstracted(calls[c], ms[c]);
      AbstractedRefines(calls[c], DataAt(data, calls, ms, c), ms[c], StampsAt(stamps, AbstractedAll(calls, ms), c));
    }
  }

  /** Once there is an intact ConfigMap, every run of group requests is a run of the abstract webhook. */
  lemma TrackedRunRefines(data: Option<Data>, stamps: Stamps, calls: seq<Call>, ms: seq<MapAnswers>, k: nat)
    requires Represents(data, stamps) && |ms| == |calls| && k < |calls| && AllInGroups(calls)
    ensures SameEffect(OutcomeAt(data, calls, ms, k),
                       Handle(Abstracted(calls[k], ms[k]), StampsAt(stamps, AbstractedAll(calls, ms), k)))
  {
    TrackedDataRefines(data, stamps, calls, ms, k);
    AbstractedRefines(calls[k], DataAt(data, calls, ms, k), ms[k], StampsAt(stamps, AbstractedAll(calls, ms), k));
  }

  /** A downscale outside any group that gets as far as saving: it passes the first checks, all its pods prepare,
      and the save takes effect. */
  predicate SavesOutsideGroup(call: Call) {
    && ReachesGroup(call) && call.info.value.group == ""
    && AllPrepared(Ordinals(call.oldReplicas.value.value, call.newReplicas.value.value), call.posts)
    && call.store != StoreFailed(false)
  }

  /** Those are the requests that save zones they never loaded, as soon as there is a ConfigMap. */
  lemma SavesUnloadedIff(call: Call, data: Option<Data>, m: MapAnswers)
    ensures !InGroup(call) && HandleTracked(call, data, m).stored.Some? <==> SavesOutsideGroup(call) && data.Some?
  {
  }

  /** All other entries of the ConfigMap survive a request. */
  ghost predicate KeepsOthers(call: Call, data: Data, m: MapAnswers) {
    var after := DataAfter(call, Some(data), m);
    forall z | z in data && z != call.name :: after.Some? && z in after.value && after.value[z] == data[z]
  }

  /** They do if and only if it is not a downscale outside any group that gets as far as saving, or there are none:
      such a downscale, allowed or denied after its save took effect, replaces the ConfigMap by its own entry. */
  lemma OthersKeptIff(call: Call, data: Data, m: MapAnswers)
    ensures KeepsOthers(call, data, m) <==> !SavesOutsideGroup(call) || data.Keys <= {call.name}
  {
    var o := HandleTracked(call, Some(data), m);
    SavesUnloadedIff(call, Some(data), m);
    if InGroup(call) && o.stored.Some? {
      SaveLoadRoundTrip(map[], data);
    }
    if SavesOutsideGroup(call) && !(data.Keys <= {call.name}) {
      var z :| z in data && z != call.name;
      assert z !in DataAfter(call, Some(data), m).value;
    }
  }

  /** The entry of `name` holds a time of at least `t`. */
  predicate StampedSince(data: Option<Data>, name: string, t: int) {
    && data.Some? && name in data.value && data.value[name].Zone?
    && data.value[name].lastDownscaled.Good? && data.value[name].lastDownscaled.value >= t
  }

  lemma TrackedStoredTime(call: Call, data: Option<Data>, m: MapAnswers)
    ensures var o := HandleTracked(call, data, m);
            && (o.stored.Some? ==> o.stored.value == Seconds(call.stampTime) && TrackedZones(call, data, m).Some?)
            && (o.verdict.AllowedPrepared? ==> o.stored.Some?)
  {
    if TrackedZones(call, data, m).Some? {
      StoredTime(SavingTo(call, InGroup(call) || data.Some?), TrackedZones(call, data, m).value);
    }
  }

  lemma StampKept(call: Call, data: Option<Data>, m: MapAnswers, name: string, t: int)
    requires StampedSince(data, name, t) && t <= Seconds(call.stampTime)
    requires SavesOutsideGroup(call) ==> call.name == name
    ensures StampedSince(DataAfter(call, data, m), name, t)
  {
    TrackedStoredTime(call, data, m);
    OthersKeptIff(call, data.value, m);
  }

  /** Between requests `i` and `j`, no downscale outside a group, but for one of `x` itself, gets as far as saving. */
  predicate NothingForgotten(calls: seq<Call>, i: nat, j: nat, x: string)
    requires j <= |calls|
  {
    forall k | i < k < j && SavesOutsideGroup(calls[k]) :: calls[k].name == x
  }

  lemma {:induction false} TrackedStampStays(
    data: Option<Data>, calls: seq<Call>, ms: seq<MapAnswers>, i: nat, k: nat, x: string)
    requires |ms| == |calls| && Sequential(calls) && i < k <= |calls|
    requires calls[i].name == x && OutcomeAt(data, calls, ms, i).verdict.AllowedPrepared?
    requires NothingForgotten(calls, i, k, x)
    ensures StampedSince(DataAt(data, calls, ms, k), x, Seconds(calls[i].stampTime))
  {
    if k == i + 1 {
      TrackedStoredTime(calls[i], DataAt(data, calls, ms, i), ms[i]);
    } else {
      TrackedStampStays(data, calls, ms, i, k - 1, x);
      SecondsMonotone(calls[i].stampTime, calls[k - 1].stampTime);
      StampKept(calls[k - 1], DataAt(data, calls, ms, k - 1), ms[k - 1], x, Seconds(calls[i].stampTime));
    }
  }

  /** The separation of zone downscales for the ConfigMap variant: from any ConfigMap, missing or corrupt ones
      included, and however reading and creating it go. */
  lemma TrackedDownscalesSeparated(
    data: Option<Data>, calls: seq<Call>, ms: seq<MapAnswers>, i: nat, j: nat, x: string, y: string, min: int)
    requires |ms| == |calls| && Sequential(calls) && i < j < |calls| && x != y
    requires calls[i].name == x && OutcomeAt(data, calls, ms, i).verdict.AllowedPrepared?
    requires calls[j].name == y && OutcomeAt(data, calls, ms, j).verdict.AllowedPrepared?
    requires NothingForgotten(calls, i, j, x)
    requires ListsWithMinTime(calls[j], x, min)
    ensures calls[j].checkTime - Seconds(calls[i].stampTime) >= min
    ensures calls[j].checkTime - calls[i].stampTime > min - SECOND
  {
    TrackedStampStays(data, calls, ms, i, j, x);
    SecondsMonotone(calls[i].stampTime, calls[i].stampTime);
    var before := DataAt(data, calls, ms, j);
    AllowedMeansClear(calls[j], before, ms[j], x, min);
  }

  lemma AllowedMeansClear(call: Call, data: Option<Data>, m: MapAnswers, x: string, min: int)
    requires HandleTracked(call, data, m).verdict.AllowedPrepared? && ListsWithMinTime(call, x, min) && call.name != x
    requires data.Some? && x in data.value && data.value[x].Zone? && data.value[x].lastDownscaled.Good?
    ensures call.checkTime - data.value[x].lastDownscaled.value >= min
  {
    var group := call.group.value;
    var g :| g in group && g.sts.name == x && g.sts.minTimeBetweenDownscales == Some(Good(min));
    ClearOfSet(group, StampsIn(data.value), call.name, call.checkTime, g);
  }

  // ----- a forgotten zone -----

  function GroupMember(name: string, min: int): GroupSet {
    var minTime := Some(Good(min));
    var sts := StatefulSet(name, name, Some(0), 0, 0, 0, "", "", true, false, Unset, None, false, None, None, minTime);
    GroupSet(sts, Some(0))
  }

  /** A downscale from one replica to none at time 0, for which every call works. */
  function Downscale(name: string, group: string, sets: seq<GroupSet>): Call {
    Call(name, false, Some(Some(1)), Some(Some(0)), Some(PrepareInfo(true, "80", "/prepare", group, "svc")),
         Some(sets), 0, 0, map[0 := Prepared], Stored)
  }

  const WORKS := MapAnswers(false, Stored)

  function Both(x: string, y: string, min: int): seq<GroupSet> {
    [GroupMember(x, min), GroupMember(y, min)]
  }

  lemma PreparedAndStored(call: Call, stamps: Stamps)
    requires call.oldReplicas == Some(Some(1)) && call.newReplicas == Some(Some(0)) && call.posts == map[0 := Prepared]
    requires ReachesGroup(call) && GroupVerdict(call, stamps).AllowedPrepared? && call.store.Stored?
    ensures var o := Handle(call, stamps); o.verdict.AllowedPrepared? && o.stored == Some(Seconds(call.stampTime))
  {
    assert Ordinals(1, 0) == [0];
  }

  /** A downscale in the group passes if the other set has no stored time. */
  lemma GroupDownscaleAllowed(x: string, y: string, min: int, name: string, stamps: Stamps)
    requires (name == x || name == y) && (x == name || x !in stamps) && (y == name || y !in stamps)
    ensures var o := HandleTracked(Downscale(name, "group", Both(x, y, min)), Some(DataOf(stamps)), WORKS);
            o.verdict.AllowedPrepared? && o.stored == Some(0)
  {
    var call, group := Downscale(name, "group", Both(x, y, min)), Both(x, y, min);
    SaveLoadRoundTrip(stamps, map[]);
    ClearIff(Sets(group), stamps, name, 0);
    NotUpdatedSetVerdicts(group, name);
    PreparedAndStored(call, stamps);
  }

  lemma UngroupedDownscaleAllowed(name: string, sets: seq<GroupSet>, data: Data)
    ensures var call := Downscale(name, "", sets);
            && HandleTracked(call, Some(data), WORKS).verdict.AllowedPrepared?
            && DataAfter(call, Some(data), WORKS) == Some(DataOf(map[name := Good(0)]))
  {
    PreparedAndStored(Downscale(name, "", sets), map[]);
    var none: Stamps := map[];
    assert none[name := Good(0)] == map[name := Good(0)];
  }

  /** Without that condition the separation fails: `x` is downscaled, a set outside any group is, and then `y` at
      the same time, whatever minimum time `x` asks for. */
  lemma ForgottenZoneBreaksSeparation(x: string, y: string, other: string, min: int)
    returns (data: Option<Data>, calls: seq<Call>, ms: seq<MapAnswers>)
    requires x != y && other != x && other != y && min > 0
    ensures |ms| == |calls| == 3 && Sequential(calls)
    ensures calls[0].name == x && calls[1].name == other && calls[2].name == y
    ensures forall k | 0 <= k < 3 :: OutcomeAt(data, calls, ms, k).verdict.AllowedPrepared?
    ensures ListsWithMinTime(calls[2], x, min) && calls[2].checkTime == calls[0].stampTime
  {
    var group := Both(x, y, min);
    data, ms := Some(DataOf(map[])), [WORKS, WORKS, WORKS];
    calls := [Downscale(x, "group", group), Downscale(other, "", group), Downscale(y, "group", group)];
    GroupDownscaleAllowed(x, y, min, x, map[]);
    var second := DataAt(data, calls, ms, 1);
    UngroupedDownscaleAllowed(other, group, second.value);
    GroupDownscaleAllowed(x, y, min, y, map[other := Good(0)]);
    assert DataAt(data, calls, ms, 2) == Some(DataOf(map[other := Good(0)]));
    assert group[0].sts.name == x && group[0] in group;
  }
}
