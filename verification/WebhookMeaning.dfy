/** When the prepare-downscale webhook lets a downscale through, read off the request and the group. */
module WebhookMeaning {
  import opened Kube
  import opened DownscaleGate
  import opened PrepareDownscale
  import opened PrepareWebhook

  /** The set was never downscaled, asks for no minimum time, or was downscaled that long ago; all times parse. */
  predicate LongAgo(s: StatefulSet, stamp: Option<Parsed>, now: int) {
    match stamp
    case None => true
    case Some(Bad) => false
    case Some(Good(t)) =>
      match s.minTimeBetweenDownscales
      case None => true
      case Some(Bad) => false
      case Some(Good(w)) => now - t >= w
  }

  lemma CheckSetMeaning(s: StatefulSet, stamp: Option<Parsed>, exclude: string, now: int)
    ensures CheckSet(s, stamp, exclude, now).Clear? <==> s.name == exclude || LongAgo(s, stamp, now)
    ensures CheckSet(s, stamp, exclude, now).RecentlyDownscaled? ==>
              s.name != exclude && CheckSet(s, stamp, exclude, now).name == s.name
  {
  }

  /** All pods of the set exist at the new revision, run and are ready. */
  predicate UpToDate(g: GroupSet) {
    g.readyPods == Some(g.sts.statusReplicas) && g.sts.updatedReplicas == g.sts.statusReplicas
  }

  function StampIn(stamps: Stamps, name: string): Option<Parsed> {
    if name in stamps then Some(stamps[name]) else None
  }

  predicate GroupLetsGo(group: seq<GroupSet>, stamps: Stamps, name: string, now: int) {
    forall g | g in group && g.sts.name != name :: LongAgo(g.sts, StampIn(stamps, g.sts.name), now) && UpToDate(g)
  }

  lemma TimeGateMeaning(group: seq<GroupSet>, stamps: Stamps, name: string, now: int)
    ensures FindRecent(Sets(group), stamps, name, now).Clear? <==>
            forall g | g in group && g.sts.name != name :: LongAgo(g.sts, StampIn(stamps, g.sts.name), now)
  {
    ClearIff(Sets(group), stamps, name, now);
    forall s ensures s in Sets(group) <==> exists g | g in group :: g.sts == s {
      if s in Sets(group) {
        var i :| 0 <= i < |group| && Sets(group)[i] == s;
        assert group[i] in group;
      }
      if g :| g in group && g.sts == s {
        var i :| 0 <= i < |group| && group[i] == g;
        assert Sets(group)[i] == s;
      }
    }
    forall s: StatefulSet
      ensures CheckSet(s, StampIn(stamps, s.name), name, now).Clear? <==>
              s.name == name || LongAgo(s, StampIn(stamps, s.name), now)
    {
      CheckSetMeaning(s, StampIn(stamps, s.name), name, now);
    }
  }

  lemma GroupMeaning(call: Call, stamps: Stamps)
    requires call.info.Some?
    ensures GroupVerdict(call, stamps).AllowedPrepared? <==>
            (call.info.value.group != "" ==>
               call.group.Some? && GroupLetsGo(call.group.value, stamps, call.name, call.checkTime))
  {
    if call.group.Some? {
      TimeGateMeaning(call.group.value, stamps, call.name, call.checkTime);
      NotUpdatedSetVerdicts(call.group.value, call.name);
    }
  }

  /** A downscale of a set that is to be prepared, with everything that needs configured. */
  predicate AsksToPrepare(call: Call) {
    && !call.dryRun && call.oldReplicas.Some? && call.oldReplicas.value.Some?
    && call.newReplicas.Some? && call.newReplicas.value.Some?
    && call.newReplicas.value.value < call.oldReplicas.value.value
    && call.info.Some? && call.info.value.labelled
    && call.info.value.port != "" && call.info.value.path != "" && call.info.value.serviceName != ""
  }

  /** Every pod that goes away was prepared. */
  predicate LeaversPrepared(call: Call)
    requires AsksToPrepare(call)
  {
    forall i: nat | call.newReplicas.value.value <= i < call.oldReplicas.value.value ::
      i in call.posts && call.posts[i] == Prepared
  }

  lemma LeaversAreOrdinals(call: Call)
    requires AsksToPrepare(call)
    ensures LeaversPrepared(call) <==>
            AllPrepared(Ordinals(call.oldReplicas.value.value, call.newReplicas.value.value), call.posts)
  {
    OrdinalsExact(call.oldReplicas.value.value, call.newReplicas.value.value);
  }

  /** A downscale is let through prepared if and only if it asks for it, every other set of its group was downscaled
      long enough ago and is up to date, every pod that goes away was prepared, and the time was stored. */
  lemma PreparedIff(call: Call, stamps: Stamps)
    ensures Handle(call, stamps).verdict.AllowedPrepared? <==>
            && AsksToPrepare(call)
            && (call.info.value.group != "" ==>
                  call.group.Some? && GroupLetsGo(call.group.value, stamps, call.name, call.checkTime))
            && LeaversPrepared(call) && call.store == Stored
  {
    if AsksToPrepare(call) {
      HandleSplits(call, stamps);
      GroupMeaning(call, stamps);
      LeaversAreOrdinals(call);
    } else {
      NotAskedNotPrepared(call, stamps);
    }
  }

  lemma NotAskedNotPrepared(call: Call, stamps: Stamps)
    requires !AsksToPrepare(call)
    ensures !Handle(call, stamps).verdict.AllowedPrepared?
  {
  }

  /** The times a tracked group request goes by: those in the ConfigMap, or the present for every set of the group
      if the ConfigMap is only just created. */
  ghost predicate GoesBy(call: Call, data: Option<Data>, m: MapAnswers, stamps: Stamps)
    requires call.group.Some?
  {
    && !m.getFails
    && match data
       case Some(d) =>
         d.Keys == stamps.Keys && forall z | z in d :: d[z] == Zone(stamps[z])
       case None =>
         && m.create == Stored
         && (forall g | g in call.group.value :: g.sts.name in stamps)
         && (forall z | z in stamps ::
               stamps[z] == Good(Seconds(call.checkTime)) && exists g | g in call.group.value :: g.sts.name == z)
  }

  lemma ZonesMeaning(call: Call, data: Option<Data>, m: MapAnswers, stamps: Stamps)
    requires InGroup(call)
    ensures TrackedZones(call, data, m) == Some(stamps) <==> GoesBy(call, data, m, stamps)
  {
    if GoesBy(call, data, m, stamps) {
      if data.Some? {
        assert StampsIn(data.value) == stamps;
      } else {
        assert StampsIn(Created(call)) == stamps;
      }
    }
  }

  /** The same for the ConfigMap variant: in a group by the tracked times, outside one only on an existing ConfigMap. */
  lemma TrackedPreparedIff(call: Call, data: Option<Data>, m: MapAnswers)
    ensures HandleTracked(call, data, m).verdict.AllowedPrepared? <==>
            && AsksToPrepare(call) && LeaversPrepared(call) && call.store == Stored
            && if call.info.value.group == "" then data.Some?
               else
                 && call.group.Some?
                 && exists stamps ::
                      GoesBy(call, data, m, stamps) && GroupLetsGo(call.group.value, stamps, call.name, call.checkTime)
  {
    if !AsksToPrepare(call) {
      if TrackedZones(call, data, m).Some? {
        NotAskedNotPrepared(SavingTo(call, InGroup(call) || data.Some?), TrackedZones(call, data, m).value);
      }
    } else if InGroup(call) {
      TrackedInGroup(call, data, m);
    } else {
      PreparedIff(SavingTo(call, data.Some?), map[]);
      assert LeaversPrepared(call) <==> LeaversPrepared(SavingTo(call, data.Some?));
    }
  }

  lemma TrackedInGroup(call: Call, data: Option<Data>, m: MapAnswers)
    requires AsksToPrepare(call) && InGroup(call)
    ensures HandleTracked(call, data, m).verdict.AllowedPrepared? <==>
            && LeaversPrepared(call) && call.store == Stored
            && exists stamps ::
                 GoesBy(call, data, m, stamps) && GroupLetsGo(call.group.value, stamps, call.name, call.checkTime)
  {
    if TrackedZones(call, data, m).Some? {
      var zones := TrackedZones(call, data, m).value;
      PreparedIff(call, zones);
      ZonesMeaning(call, data, m, zones);
    }
    forall stamps | GoesBy(call, data, m, stamps) ensures TrackedZones(call, data, m) == Some(stamps) {
      ZonesMeaning(call, data, m, stamps);
    }
  }

  /** A group that has no ConfigMap yet waits as if every set had just been downscaled. */
  lemma FreshMapHoldsBack(call: Call, m: MapAnswers, g: GroupSet)
    requires AsksToPrepare(call) && InGroup(call) && g in call.group.value && g.sts.name != call.name
    requires g.sts.minTimeBetweenDownscales.Some? && g.sts.minTimeBetweenDownscales.value.Good?
    requires g.sts.minTimeBetweenDownscales.value.value >= SECOND
    ensures !HandleTracked(call, None, m).verdict.AllowedPrepared?
  {
    TrackedInGroup(call, None, m);
    SecondsMonotone(call.checkTime, call.checkTime);
  }
}
