/** The prepare-downscale webhook: gate, all-or-nothing preparation and the stored downscale time. */
module PrepareDownscale {
  import opened Kube
  import opened DownscaleGate

  /** The replicas of a decoded object: `None` for a decode error, `Some(None)` for unset replicas. */
  type DecodedReplicas = Option<Option<nat>>

  datatype PrepareInfo = PrepareInfo(labelled: bool, port: string, path: string, group: string, serviceName: string)

  /** A set of the rollout group and the number of its running and ready pods, if they could be listed. */
  datatype GroupSet = GroupSet(sts: StatefulSet, readyPods: Option<nat>)

  datatype Post = Prepared | PrepareFailed | NotSent

  /** How storing the downscale time goes; a failed call may still have taken effect. */
  datatype Store = Stored | StoreFailed(applied: bool)

  /** One admission request and everything the API and the pods answer to it. */
  datatype Call = Call(
    name: string,
    dryRun: bool,
    oldReplicas: DecodedReplicas,
    newReplicas: DecodedReplicas,
    info: Option<PrepareInfo>,       // `None`: the StatefulSet could not be read
    group: Option<seq<GroupSet>>,    // `None`: the group could not be listed
    checkTime: int,
    stampTime: int,
    posts: map<nat, Post>,
    store: Store)

  datatype Verdict =
    | DryRun | DecodeFailed | NotADownscale | InfoFailed | NotLabelled            // allowed, nothing to do
    | NoPort | NoPath | NoServiceName | GroupListFailed | ZonesLoadFailed         // denied
    | TimesUnparsable | TooSoon(other: string) | PodCheckFailed | NotUpdated(other: string)
    | PrepareDenied | StoreDenied
    | AllowedPrepared                                                             // allowed, pods prepared

  predicate Allowed(v: Verdict) {
    v.DryRun? || v.DecodeFailed? || v.NotADownscale? || v.InfoFailed? || v.NotLabelled? || v.AllowedPrepared?
  }

  /** The verdict, the pods asked to prepare, those asked to undo, and the time stored for the set, if any. */
  datatype Outcome = Outcome(verdict: Verdict, prepares: seq<nat>, undos: seq<nat>, stored: Option<int>)

  function Rejected(v: Verdict): Outcome {
    Outcome(v, [], [], None)
  }

  // ----- endpoints -----

  /** The ordinals [new, old), highest first. */
  function Ordinals(oldReplicas: nat, newReplicas: nat): (r: seq<nat>)
    requires newReplicas <= oldReplicas
    ensures |r| == oldReplicas - newReplicas
    ensures forall i | 0 <= i < |r| :: r[i] == oldReplicas - i - 1
  {
    seq(oldReplicas - newReplicas, i requires 0 <= i < oldReplicas - newReplicas => oldReplicas - i - 1)
  }

  method CreateEndpoints(oldReplicas: nat, newReplicas: nat) returns (eps: array<nat>)
    requires newReplicas < oldReplicas
    ensures fresh(eps) && eps[..] == Ordinals(oldReplicas, newReplicas)
  {
    var diff := oldReplicas - newReplicas;
    eps := new nat[diff];
    for i := 0 to diff
      invariant forall j | 0 <= j < i :: eps[j] == oldReplicas - j - 1
    {
      eps[i] := oldReplicas - i - 1;
    }
  }

  /** Each ordinal of [new, old) appears exactly once and nothing else does. */
  lemma OrdinalsExact(oldReplicas: nat, newReplicas: nat)
    requires newReplicas <= oldReplicas
    ensures forall n: nat :: n in Ordinals(oldReplicas, newReplicas) <==> newReplicas <= n < oldReplicas
    ensures forall i, j | 0 <= i < j < oldReplicas - newReplicas ::
              Ordinals(oldReplicas, newReplicas)[i] != Ordinals(oldReplicas, newReplicas)[j]
  {
    var r := Ordinals(oldReplicas, newReplicas);
    forall n: nat | newReplicas <= n < oldReplicas ensures n in r {
      assert r[oldReplicas - n - 1] == n;
    }
  }

  predicate AllPrepared(eps: seq<nat>, posts: map<nat, Post>) {
    forall n | n in eps :: n in posts && posts[n].Prepared?
  }

  /** The endpoints a prepare request was sent to. */
  function SentTo(eps: seq<nat>, posts: map<nat, Post>): seq<nat> {
    if eps == [] then []
    else
      var last := eps[|eps| - 1];
      SentTo(eps[..|eps| - 1], posts) + if last in posts && !posts[last].NotSent? then [last] else []
  }

  lemma {:induction false} AllPreparedSentToAll(eps: seq<nat>, posts: map<nat, Post>)
    requires AllPrepared(eps, posts)
    ensures SentTo(eps, posts) == eps
  {
    if eps != [] {
      var front, last := eps[..|eps| - 1], eps[|eps| - 1];
      assert eps == front + [last];
      assert last in eps && forall n | n in front :: n in eps;
      AllPreparedSentToAll(front, posts);
    }
  }

  lemma {:induction false} SentToMeaning(eps: seq<nat>, posts: map<nat, Post>, n: nat)
    ensures n in SentTo(eps, posts) <==> n in eps && n in posts && posts[n] != NotSent
  {
    if eps != [] {
      var front, last := eps[..|eps| - 1], eps[|eps| - 1];
      assert eps == front + [last];
      SentToMeaning(front, posts, n);
    }
  }

  // ----- the group checks -----

  function NotUpdatedSet(group: seq<GroupSet>, exclude: string): Verdict {
    if group == [] then AllowedPrepared
    else
      var g := group[0];
      if g.sts.name == exclude then NotUpdatedSet(group[1..], exclude)
      else if g.readyPods.None? then PodCheckFailed
      else if g.sts.statusReplicas != g.readyPods.value || g.sts.updatedReplicas != g.readyPods.value then
        NotUpdated(g.sts.name)
      else NotUpdatedSet(group[1..], exclude)
  }

  lemma {:induction false} NotUpdatedSetVerdicts(group: seq<GroupSet>, exclude: string)
    ensures var v := NotUpdatedSet(group, exclude); v.AllowedPrepared? || v.PodCheckFailed? || v.NotUpdated?
    ensures NotUpdatedSet(group, exclude).AllowedPrepared? <==>
            forall g | g in group && g.sts.name != exclude ::
              g.readyPods == Some(g.sts.statusReplicas) && g.sts.updatedReplicas == g.sts.statusReplicas
  {
    if group != [] {
      NotUpdatedSetVerdicts(group[1..], exclude);
      assert forall g :: g in group <==> g == group[0] || g in group[1..];
    }
  }

  function Sets(group: seq<GroupSet>): seq<StatefulSet> {
    seq(|group|, i requires 0 <= i < |group| => group[i].sts)
  }

  /** The group's answer, given the stored downscale times; `AllowedPrepared` lets the request go on. */
  function GroupVerdict(call: Call, stamps: Stamps): Verdict
    requires call.info.Some?
  {
    if call.info.value.group == "" then AllowedPrepared
    else match call.group
      case None => GroupListFailed
      case Some(group) =>
        match FindRecent(Sets(group), stamps, call.name, call.checkTime)
        case Unparsable => TimesUnparsable
        case RecentlyDownscaled(other) => TooSoon(other)
        case Clear => NotUpdatedSet(group, call.name)
  }

  /** Prepare every pod that goes away, then store the time; undo everything if either fails. */
  function PrepareAndStore(call: Call, eps: seq<nat>): Outcome {
    if !AllPrepared(eps, call.posts) then Outcome(PrepareDenied, SentTo(eps, call.posts), eps, None)
    else match call.store
      case Stored => Outcome(AllowedPrepared, eps, [], Some(Seconds(call.stampTime)))
      case StoreFailed(applied) =>
        Outcome(StoreDenied, eps, eps, if applied then Some(Seconds(call.stampTime)) else None)
  }

  predicate IsDownscale(call: Call) {
    && !call.dryRun && call.oldReplicas.Some? && call.newReplicas.Some?
    && call.oldReplicas.value.Some? && call.newReplicas.value.Some?
    && call.newReplicas.value.value < call.oldReplicas.value.value
  }

  /** The whole webhook, given the stored downscale times. */
  function Handle(call: Call, stamps: Stamps): Outcome {
    if call.dryRun then Rejected(DryRun)
    else if call.oldReplicas.None? || call.newReplicas.None? then Rejected(DecodeFailed)
    else if !IsDownscale(call) then Rejected(NotADownscale)
    else if call.info.None? then Rejected(InfoFailed)
    else
      var info := call.info.value;
      if !info.labelled then Rejected(NotLabelled)
      else if info.port == "" then Rejected(NoPort)
      else if info.path == "" then Rejected(NoPath)
      else if info.serviceName == "" then Rejected(NoServiceName)
      else
        var v := GroupVerdict(call, stamps);
        if !v.AllowedPrepared? then Rejected(v)
        else PrepareAndStore(call, Ordinals(call.oldReplicas.value.value, call.newReplicas.value.value))
  }

  /** An allowed downscale of a labelled set prepared exactly the ordinals [new, old), each once, and stored its
      time. A denied one contacted no pod, or asked every ordinal in [new, old) to undo. */
  lemma AllOrNothing(call: Call, stamps: Stamps)
    requires IsDownscale(call) && call.info.Some? && call.info.value.labelled
    ensures var o := Handle(call, stamps);
            var eps := Ordinals(call.oldReplicas.value.value, call.newReplicas.value.value);
            if Allowed(o.verdict)
            then
              && o.prepares == eps && o.undos == [] && AllPrepared(eps, call.posts)
              && o.stored == Some(Seconds(call.stampTime))
            else (o.prepares == [] && o.undos == [] && o.stored.None?) || o.undos == eps
  {
    var v := GroupVerdict(call, stamps);
    if call.group.Some? {
      NotUpdatedSetVerdicts(call.group.value, call.name);
    }
    assert !v.AllowedPrepared? ==> !Allowed(v);
  }

  /** Nothing but a labelled downscale ever contacts a pod or stores a time. */
  lemma OnlyDownscalesAct(call: Call, stamps: Stamps)
    requires !(IsDownscale(call) && call.info.Some? && call.info.value.labelled)
    ensures var o := Handle(call, stamps); Allowed(o.verdict) && o.prepares == [] && o.undos == [] && o.stored.None?
  {
  }

  // ----- separation over sequential requests -----

  function StampsAfter(stamps: Stamps, call: Call, o: Outcome): Stamps {
    if o.stored.Some? then stamps[call.name := Good(o.stored.value)] else stamps
  }

  /** The stored times before request `k`. */
  function StampsAt(stamps: Stamps, calls: seq<Call>, k: nat): Stamps
    requires k <= |calls|
  {
    if k == 0 then stamps
    else
      var before := StampsAt(stamps, calls, k - 1);
      StampsAfter(before, calls[k - 1], Handle(calls[k - 1], before))
  }

  /** Requests do not overlap. */
  predicate Sequential(calls: seq<Call>) {
    && (forall k | 0 <= k < |calls| :: calls[k].checkTime <= calls[k].stampTime)
    && (forall k, m | 0 <= k < m < |calls| :: calls[k].stampTime <= calls[m].checkTime)
  }

  /** A labelled downscale of `name` that was allowed. */
  predicate AllowedDownscale(call: Call, stamps: Stamps, name: string) {
    call.name == name && Handle(call, stamps).verdict.AllowedPrepared?
  }

  /** The request belongs to a group in which `name` waits `min` between zone downscales. */
  ghost predicate ListsWithMinTime(call: Call, name: string, min: int) {
    && call.info.Some? && call.info.value.group != "" && call.group.Some?
    && exists g | g in call.group.value :: g.sts.name == name && g.sts.minTimeBetweenDownscales == Some(Good(min))
  }

  lemma SecondsMonotone(a: int, b: int)
    requires a <= b
    ensures Seconds(a) <= Seconds(b) && a - SECOND < Seconds(a) <= a
  {
    assert a == a / SECOND * SECOND + a % SECOND && b == b / SECOND * SECOND + b % SECOND;
    assert a / SECOND <= b / SECOND;
  }

  lemma {:induction false} StampStays(stamps: Stamps, calls: seq<Call>, i: nat, k: nat, name: string)
    requires Sequential(calls) && i < k <= |calls|
    requires AllowedDownscale(calls[i], StampsAt(stamps, calls, i), name)
    ensures name in StampsAt(stamps, calls, k) && StampsAt(stamps, calls, k)[name].Good?
    ensures StampsAt(stamps, calls, k)[name].value >= Seconds(calls[i].stampTime)
  {
    if k > i + 1 {
      StampStays(stamps, calls, i, k - 1, name);
      SecondsMonotone(calls[i].stampTime, calls[k - 1].stampTime);
      StoredTime(calls[k - 1], StampsAt(stamps, calls, k - 1));
    } else {
      StoredTime(calls[i], StampsAt(stamps, calls, i));
    }
  }

  lemma StoredTime(call: Call, stamps: Stamps)
    ensures var o := Handle(call, stamps);
            && (o.stored.Some? ==> o.stored.value == Seconds(call.stampTime))
            && (o.verdict.AllowedPrepared? ==> o.stored.Some?)
  {
  }

  lemma ClearOfSet(group: seq<GroupSet>, stamps: Stamps, exclude: string, now: int, g: GroupSet)
    requires g in group && FindRecent(Sets(group), stamps, exclude, now).Clear?
    ensures CheckSet(g.sts, if g.sts.name in stamps then Some(stamps[g.sts.name]) else None, exclude, now).Clear?
  {
    ClearIff(Sets(group), stamps, exclude, now);
    var i :| 0 <= i < |group| && group[i] == g;
    assert Sets(group)[i] == g.sts;
  }

  /** For requests that do not overlap, an allowed downscale of one set comes at least the other set's minimum
      time after any earlier allowed downscale of that other set, less the truncation to seconds. */
  lemma ZoneDownscalesSeparated(stamps: Stamps, calls: seq<Call>, i: nat, j: nat, x: string, y: string, min: int)
    requires Sequential(calls) && i < j < |calls| && x != y
    requires AllowedDownscale(calls[i], StampsAt(stamps, calls, i), x)
    requires AllowedDownscale(calls[j], StampsAt(stamps, calls, j), y)
    requires ListsWithMinTime(calls[j], x, min)
    ensures calls[j].checkTime - Seconds(calls[i].stampTime) >= min
    ensures calls[j].checkTime - calls[i].stampTime > min - SECOND
  {
    StampStays(stamps, calls, i, j, x);
    SecondsMonotone(calls[i].stampTime, calls[i].stampTime);
    var group := calls[j].group.value;
    var g :| g in group && g.sts.name == x && g.sts.minTimeBetweenDownscales == Some(Good(min));
    ClearOfSet(group, StampsAt(stamps, calls, j), y, calls[j].checkTime, g);
  }
}
