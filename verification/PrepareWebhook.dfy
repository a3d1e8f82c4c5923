/** The two storage variants of the prepare-downscale webhook and how they refine the abstract one. */
module PrepareWebhook {
  import opened Kube
  import opened DownscaleGate
  import opened PrepareDownscale

  /** The prepare and undo calls the pods receive. */
  class Pods {
    var prepares: seq<nat>
    var undos: seq<nat>

    constructor ()
      ensures prepares == [] && undos == []
    {
      prepares, undos := [], [];
    }

    /** All endpoints are tried; one failure fails the whole. */
    method SendPrepareShutdownRequests(eps: seq<nat>, posts: map<nat, Post>) returns (ok: bool)
      modifies this
      ensures prepares == old(prepares) + SentTo(eps, posts) && undos == old(undos)
      ensures ok <==> AllPrepared(eps, posts)
    {
      ghost var before := prepares;
      ok := true;
      for i := 0 to |eps|
        invariant prepares == before + SentTo(eps[..i], posts) && undos == old(undos)
        invariant ok <==> AllPrepared(eps[..i], posts)
      {
        var ep := eps[i];
        assert eps[..i + 1] == eps[..i] + [ep] && eps[..i + 1][..i] == eps[..i];
        if ep in posts && !posts[ep].NotSent? {
          prepares := prepares + [ep];
        }
        if ep !in posts || !posts[ep].Prepared? {
          ok := false;
        }
      }
      assert eps[..|eps|] == eps;
    }

    method UndoPrepareShutdownRequests(eps: seq<nat>)
      modifies this
      ensures undos == old(undos) + eps && prepares == old(prepares)
    {
      for i := 0 to |eps|
        invariant undos == old(undos) + eps[..i] && prepares == old(prepares)
      {
        assert eps[..i + 1] == eps[..i] + [eps[i]];
        undos := undos + [eps[i]];
      }
      assert eps[..|eps|] == eps;
    }
  }

  method FindStatefulSetWithNonUpdatedReplicas(group: seq<GroupSet>, exclude: string) returns (v: Verdict)
    ensures v == NotUpdatedSet(group, exclude)
  {
    var i := 0;
    while i < |group|
      invariant 0 <= i <= |group|
      invariant NotUpdatedSet(group, exclude) == NotUpdatedSet(group[i..], exclude)
    {
      var g := group[i];
      assert group[i..][1..] == group[i + 1..];
      i := i + 1;
      if g.sts.name == exclude {
        continue;
      }
      if g.readyPods.None? {
        return PodCheckFailed;
      }
      if g.sts.statusReplicas != g.readyPods.value || g.sts.updatedReplicas != g.readyPods.value {
        return NotUpdated(g.sts.name);
      }
    }
    return AllowedPrepared;
  }

  /** The request passed every check before the group is looked at. */
  predicate ReachesGroup(call: Call) {
    && IsDownscale(call) && call.info.Some? && call.info.value.labelled
    && call.info.value.port != "" && call.info.value.path != "" && call.info.value.serviceName != ""
  }

  /** The checks that need no stored time. */
  method CheckRequest(call: Call) returns (v: Verdict)
    ensures v.AllowedPrepared? <==> ReachesGroup(call)
    ensures !v.AllowedPrepared? ==> forall stamps, store :: Handle(call.(store := store), stamps) == Rejected(v)
  {
    if call.dryRun {
      return DryRun;
    }
    if call.oldReplicas.None? || call.newReplicas.None? {
      return DecodeFailed;
    }
    if call.oldReplicas.value.None? || call.newReplicas.value.None? {
      return NotADownscale;
    }
    if call.oldReplicas.value.value <= call.newReplicas.value.value {
      return NotADownscale;
    }
    if call.info.None? {
      return InfoFailed;
    }
    var info := call.info.value;
    if !info.labelled {
      return NotLabelled;
    }
    if info.port == "" {
      return NoPort;
    }
    if info.path == "" {
      return NoPath;
    }
    if info.serviceName == "" {
      return NoServiceName;
    }
    return AllowedPrepared;
  }

  // ----- annotations -----

  /** The last-downscale annotations of the StatefulSets. */
  class Annotations {
    var stamps: Stamps

    constructor (stamps: Stamps)
      ensures this.stamps == stamps
    {
      this.stamps := stamps;
    }
  }

  /** Past the first checks, a request is its group's verdict followed by preparing and storing. */
  lemma HandleSplits(call: Call, stamps: Stamps)
    requires ReachesGroup(call)
    ensures var v := GroupVerdict(call, stamps);
            var eps := Ordinals(call.oldReplicas.value.value, call.newReplicas.value.value);
            Handle(call, stamps) == if v.AllowedPrepared? then PrepareAndStore(call, eps) else Rejected(v)
  {
  }

  /** Prepares the pods that go away and reports whether the downscale time gets stored; if a pod cannot be
      prepared or the time not stored, all of them are asked to undo. */
  method PrepareThenStore(pods: Pods, call: Call, eps: seq<nat>) returns (v: Verdict, stored: bool)
    modifies pods
    ensures var o := PrepareAndStore(call, eps);
            && v == o.verdict && stored == o.stored.Some?
            && pods.prepares == old(pods.prepares) + o.prepares && pods.undos == old(pods.undos) + o.undos
  {
    var ok := pods.SendPrepareShutdownRequests(eps, call.posts);
    if !ok {
      pods.UndoPrepareShutdownRequests(eps);
      return PrepareDenied, false;
    }
    AllPreparedSentToAll(eps, call.posts);
    if call.store.StoreFailed? {
      pods.UndoPrepareShutdownRequests(eps);
      return StoreDenied, call.store.applied;
    }
    return AllowedPrepared, true;
  }

  method CheckGroupByAnnotations(call: Call, ghost stamps: Stamps) returns (v: Verdict)
    requires call.info.Some? && (call.group.Some? ==> StampsOf(Sets(call.group.value), stamps))
    ensures v == GroupVerdict(call, stamps)
  {
    if call.info.value.group == "" {
      return AllowedPrepared;
    }
    if call.group.None? {
      return GroupListFailed;
    }
    var gate := FindAnnotatedDownscale(Sets(call.group.value), call.name, call.checkTime);
    AnnotatedRefines(Sets(call.group.value), stamps, call.name, call.checkTime);
    if gate.Unparsable? {
      return TimesUnparsable;
    }
    if gate.RecentlyDownscaled? {
      return TooSoon(gate.name);
    }
    v := FindStatefulSetWithNonUpdatedReplicas(call.group.value, call.name);
  }

  method PrepareDownscaleWithAnnotations(pods: Pods, store: Annotations, call: Call) returns (v: Verdict)
    requires call.group.Some? ==> StampsOf(Sets(call.group.value), store.stamps)
    modifies pods, store
    ensures var o := Handle(call, old(store.stamps));
            && v == o.verdict
            && pods.prepares == old(pods.prepares) + o.prepares && pods.undos == old(pods.undos) + o.undos
            && store.stamps == StampsAfter(old(store.stamps), call, o)
  {
    v := CheckRequest(call);
    if !v.AllowedPrepared? {
      assert call.(store := call.store) == call;
      return;
    }
    HandleSplits(call, store.stamps);
    v := CheckGroupByAnnotations(call, store.stamps);
    if !v.AllowedPrepared? {
      return;
    }
    var eps := CreateEndpoints(call.oldReplicas.value.value, call.newReplicas.value.value);
    var stored;
    v, stored := PrepareThenStore(pods, call, eps[..]);
    if stored {
      StoredTime(call, store.stamps);
      store.stamps := store.stamps[call.name := Good(Seconds(call.stampTime))];
    }
  }

  // ----- ConfigMap -----

  predicate InGroup(call: Call) {
    ReachesGroup(call) && call.info.value.group != "" && call.group.Some?
  }

  function GroupNames(group: seq<GroupSet>): set<string> {
    set g | g in group :: g.sts.name
  }

  /** A missing ConfigMap is created with the current time for every set of the group. */
  function Created(call: Call): Data
    requires call.group.Some?
  {
    map n | n in GroupNames(call.group.value) :: Zone(Good(Seconds(call.checkTime)))
  }

  /** How reading the ConfigMap goes, and creating it if it is missing. */
  datatype MapAnswers = MapAnswers(getFails: bool, create: Store)

  /** The data a group request works with. */
  function LoadOrCreate(call: Call, data: Option<Data>, m: MapAnswers): Option<Data>
    requires call.group.Some?
  {
    if m.getFails then None
    else if data.Some? then data
    else if m.create.Stored? then Some(Created(call))
    else None
  }

  /** The ConfigMap after that; a failed creation may still have taken effect. */
  function Loaded(call: Call, data: Option<Data>, m: MapAnswers): Option<Data>
    requires call.group.Some?
  {
    if !m.getFails && data.None? && (m.create.Stored? || m.create.applied) then Some(Created(call)) else data
  }

  /** The zones a request works with, or `None` when they cannot be loaded; outside a group none are loaded. */
  function TrackedZones(call: Call, data: Option<Data>, m: MapAnswers): Option<Stamps> {
    if !InGroup(call) then Some(map[])
    else
      var d := LoadOrCreate(call, data, m);
      if d.Some? && Intact(d.value) then Some(StampsIn(d.value)) else None
  }

  /** Saving updates the ConfigMap, which fails if there is none. */
  function SavingTo(call: Call, found: bool): Call {
    if found then call else call.(store := StoreFailed(false))
  }

  function HandleTracked(call: Call, data: Option<Data>, m: MapAnswers): Outcome {
    match TrackedZones(call, data, m)
    case None => Rejected(ZonesLoadFailed)
    case Some(zones) => Handle(SavingTo(call, InGroup(call) || data.Some?), zones)
  }

  /** The saved zones replace the whole ConfigMap; a request outside a group never loaded any. */
  function DataAfter(call: Call, data: Option<Data>, m: MapAnswers): Option<Data> {
    var zones, o := TrackedZones(call, data, m), HandleTracked(call, data, m);
    if o.stored.Some? && zones.Some? then Some(DataOf(zones.value[call.name := Good(o.stored.value)]))
    else if InGroup(call) then Loaded(call, data, m)
    else data
  }

  class ConfigMap {
    var data: Option<Data>

    constructor (data: Option<Data>)
      ensures this.data == data
    {
      this.data := data;
    }
  }

  /** Gets the ConfigMap, creating it if it is missing, and loads its zones. */
  method LoadGroupZones(tracker: ZoneTracker, store: ConfigMap, call: Call, m: MapAnswers) returns (ok: bool)
    requires InGroup(call) && tracker.zones == map[]
    modifies tracker, store
    ensures store.data == Loaded(call, old(store.data), m)
    ensures ok == TrackedZones(call, old(store.data), m).Some?
    ensures ok ==> store.data.Some? && tracker.zones == TrackedZones(call, old(store.data), m).value
  {
    if m.getFails {
      return false;
    }
    if store.data.None? {
      if m.create.StoreFailed? {
        if m.create.applied {
          store.data := Some(Created(call));
        }
        return false;
      }
      store.data := Some(Created(call));
    }
    ok := tracker.LoadZones(store.data.value);
    if ok {
      assert map[] + StampsIn(store.data.value) == StampsIn(store.data.value);
    }
  }

  method CheckGroupByZones(tracker: ZoneTracker, call: Call) returns (v: Verdict)
    requires InGroup(call)
    ensures v == GroupVerdict(call, tracker.zones)
  {
    var gate := tracker.FindTrackedDownscale(Sets(call.group.value), call.name, call.checkTime);
    if gate.Unparsable? {
      return TimesUnparsable;
    }
    if gate.RecentlyDownscaled? {
      return TooSoon(gate.name);
    }
    v := FindStatefulSetWithNonUpdatedReplicas(call.group.value, call.name);
  }

  /** A new tracker serves every request. */
  method PrepareDownscaleWithZoneTracker(pods: Pods, store: ConfigMap, call: Call, m: MapAnswers) returns (v: Verdict)
    modifies pods, store
    ensures var o := HandleTracked(call, old(store.data), m);
            && v == o.verdict
            && pods.prepares == old(pods.prepares) + o.prepares && pods.undos == old(pods.undos) + o.undos
            && store.data == DataAfter(call, old(store.data), m)
  {
    v := CheckRequest(call);
    if !v.AllowedPrepared? {
      assert call.(store := call.store) == call;
      return;
    }
    var tracker := new ZoneTracker();
    if call.info.value.group != "" {
      if call.group.None? {
        HandleSplits(SavingTo(call, store.data.Some?), map[]);
        return GroupListFailed;
      }
      var loaded := LoadGroupZones(tracker, store, call, m);
      if !loaded {
        return ZonesLoadFailed;
      }
      HandleSplits(call, tracker.zones);
      v := CheckGroupByZones(tracker, call);
      if !v.AllowedPrepared? {
        return;
      }
    }
    var saving := SavingTo(call, store.data.Some?);
    HandleSplits(saving, tracker.zones);
    StoredTime(saving, tracker.zones);
    var eps := CreateEndpoints(call.oldReplicas.value.value, call.newReplicas.value.value);
    var stored;
    v, stored := PrepareThenStore(pods, saving, eps[..]);
    if stored {
      var saved := tracker.SetDownscaled(call.name, Seconds(call.stampTime));
      SaveLoadRoundTrip(map[], saved);
      store.data := Some(saved);
    }
  }
}
