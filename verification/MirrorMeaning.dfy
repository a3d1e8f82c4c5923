/** What mirroring a reference resource does to a set, read off the annotations, the calls and the set. */
module MirrorMeaning {
  import opened Kube
  import opened DelayedDownscale

  /** The size asked for: the forced one, or else the reference's. */
  function Asked(e: Exam): nat {
    match e.force
    case Some(n) => n
    case None => e.reference
  }

  /** The timestamp of a replica that is asked to prepare: the one it has, or else that of this call. */
  function StampOf(e: Exam, s: MirrorState, i: nat): int {
    if i in s.prepared then s.prepared[i] else Seconds(e.now)
  }

  predicate Answers(e: Exam, s: MirrorState, i: nat) {
    i in e.posts && e.posts[i] == Answered && StampOf(e, s, i) != 0
  }

  predicate HasWaited(e: Exam, s: MirrorState, delay: int, i: nat) {
    Answers(e, s, i) && e.now - StampOf(e, s, i) >= delay
  }

  /** Every replica that should go answered. */
  predicate ExcessAnswers(e: Exam, s: MirrorState) {
    forall i: nat | Asked(e) <= i < s.replicas :: Answers(e, s, i)
  }

  /** `n` is the size the examination decides on. */
  predicate DecidedSize(e: Exam, s: MirrorState, n: nat) {
    if Asked(e) == s.replicas then n == s.replicas
    else match e.config
      case NotConfigured => n == Asked(e)
      case Malformed => n == s.replicas
      case Configured(delay) =>
        if Asked(e) > s.replicas then n == Asked(e)
        else if !ExcessAnswers(e, s) then n == s.replicas
        else
          && Asked(e) <= n <= s.replicas
          && (forall i: nat | n <= i < s.replicas :: HasWaited(e, s, delay, i))
          && (n > Asked(e) ==> !HasWaited(e, s, delay, n - 1))
  }

  ghost function ElapsedIn(e: Exam, s: MirrorState): map<nat, int> {
    Elapsed(Cancelled(s.prepared, e.reached, Asked(e)), e.posts, Asked(e), s.replicas, e.now)
  }

  lemma ElapsedMeaning(e: Exam, s: MirrorState)
    ensures forall i: nat | Asked(e) <= i < s.replicas ::
              && (i in ElapsedIn(e, s) <==> Answers(e, s, i))
              && (i in ElapsedIn(e, s) ==> ElapsedIn(e, s)[i] == e.now - StampOf(e, s, i))
    ensures forall i | i in ElapsedIn(e, s) :: Asked(e) <= i < s.replicas
    ensures AllAnswered(ElapsedIn(e, s), Asked(e), s.replicas) <==> ExcessAnswers(e, s)
  {
  }

  lemma {:induction false} CountdownMeaning(e: Exam, s: MirrorState, delay: int, n: nat)
    requires Asked(e) <= n <= s.replicas
    ensures var m := AllowedSize(ElapsedIn(e, s), delay, Asked(e), n);
            && Asked(e) <= m <= n && (forall i: nat | m <= i < n :: HasWaited(e, s, delay, i))
            && (m > Asked(e) ==> !HasWaited(e, s, delay, m - 1))
  {
    ElapsedMeaning(e, s);
    if n > Asked(e) {
      CountdownMeaning(e, s, delay, n - 1);
    }
  }

  /** The size a working patch sets is the decided one; a failing patch sets none. */
  lemma SizeMeaning(e: Exam, s: MirrorState)
    ensures if e.patchFails then Examined(e, s).replicas == s.replicas else DecidedSize(e, s, Examined(e, s).replicas)
  {
    ElapsedMeaning(e, s);
    if e.config.Configured? && Asked(e) < s.replicas {
      CountdownMeaning(e, s, e.config.delay, s.replicas);
    }
  }

  /** There is only one such size. */
  lemma DecidedOnce(e: Exam, s: MirrorState, m: nat, n: nat)
    requires DecidedSize(e, s, m) && DecidedSize(e, s, n)
    ensures m == n
  {
    if e.config.Configured? {
      var below := m > 0 && HasWaited(e, s, e.config.delay, m - 1);
      var beneath := n > 0 && HasWaited(e, s, e.config.delay, n - 1);
    }
  }

  /** A delayed downscale does happen: once every excess replica answers with a timestamp as old as the delay. */
  lemma DownscaleHappens(e: Exam, s: MirrorState)
    requires e.config.Configured? && Asked(e) < s.replicas && !e.patchFails
    requires forall i: nat | Asked(e) <= i < s.replicas :: HasWaited(e, s, e.config.delay, i)
    ensures Examined(e, s).replicas == Asked(e)
  {
    SizeMeaning(e, s);
    forall i: nat | Asked(e) <= i < s.replicas ensures Answers(e, s, i) {
      assert HasWaited(e, s, e.config.delay, i);
    }
    var n := Examined(e, s).replicas;
    var waited := n > 0 && HasWaited(e, s, e.config.delay, n - 1);
  }

  // ----- timestamps -----

  /** Unwanted replicas that stay keep their timestamps or get one; wanted ones lose theirs if a cancel reaches them. */
  lemma StampsMeaning(e: Exam, s: MirrorState, i: nat)
    requires e.config.Configured? && i < s.replicas && i < Examined(e, s).replicas
    ensures var after := Examined(e, s).prepared;
            if i < Asked(e)
            then (i in after <==> i in s.prepared && i !in e.reached) && (i in after ==> after[i] == s.prepared[i])
            else
              && (i in after <==> i in s.prepared || (i in e.posts && e.posts[i] != Lost))
              && (i in after ==> after[i] == StampOf(e, s, i))
  {
  }

  /** Without a delay no pod is called. */
  lemma UndelayedKeepsStamps(e: Exam, s: MirrorState, i: nat)
    requires !e.config.Configured? && i < Examined(e, s).replicas
    ensures i in Examined(e, s).prepared <==> i in s.prepared
    ensures i in s.prepared ==> Examined(e, s).prepared[i] == s.prepared[i]
  {
  }

  // ----- status.replicas -----

  ghost function Answering(e: Exam, s: MirrorState): set<nat> {
    set i: nat | Asked(e) <= i < s.replicas && Answers(e, s, i)
  }

  lemma AnsweringIsElapsed(e: Exam, s: MirrorState)
    ensures |ElapsedIn(e, s)| == |Answering(e, s)|
  {
    ElapsedMeaning(e, s);
    assert ElapsedIn(e, s).Keys == Answering(e, s);
    assert |ElapsedIn(e, s)| == |ElapsedIn(e, s).Keys|;
  }

  /** The status written back: the size that is in effect, without the replicas pending downscale if these are to be
      left out. Nothing is written when the patch fails. */
  lemma StatusMeaning(e: Exam, s: MirrorState)
    requires e.writeBack
    ensures var after := Examined(e, s);
            var shrinking := e.config.Configured? && Asked(e) < s.replicas;
            if ResultOf(e, s).PatchFailed? then after.status == s.status
            else if !e.exclude || !shrinking then after.status == after.replicas
            else if ExcessAnswers(e, s) then after.status == Asked(e)
            else after.status == s.replicas - |Answering(e, s)|
  {
    AnsweringIsElapsed(e, s);
    ElapsedMeaning(e, s);
    SizeMeaning(e, s);
  }

  /** A patch is made if and only if the decided size differs. */
  lemma ResultMeaning(e: Exam, s: MirrorState, n: nat)
    requires DecidedSize(e, s, n)
    ensures ResultOf(e, s) == if n == s.replicas then Unchanged else if e.patchFails then PatchFailed else Patched
  {
    var working := e.(patchFails := false);
    SizeMeaning(working, s);
    SameDecision(e, working, s, Examined(working, s).replicas);
    DecidedOnce(e, s, n, Examined(working, s).replicas);
    ResultByCheck(working, s);
    assert CheckScaling(working, s.replicas, s.prepared) == CheckScaling(e, s.replicas, s.prepared);
  }

  /** Whether the patch works has no part in the decision. */
  lemma SameDecision(e: Exam, e': Exam, s: MirrorState, n: nat)
    requires e == e'.(patchFails := e.patchFails) && DecidedSize(e', s, n)
    ensures DecidedSize(e, s, n)
  {
    forall i: nat ensures Answers(e, s, i) <==> Answers(e', s, i) {}
    if e.config.Configured? {
      forall i: nat ensures HasWaited(e, s, e.config.delay, i) <==> HasWaited(e', s, e.config.delay, i) {}
    }
  }

  lemma ResultByCheck(e: Exam, s: MirrorState)
    requires !e.patchFails
    ensures ResultOf(e, s).Patched? <==> Examined(e, s).replicas != s.replicas
  {
    if e.config.Configured? && Asked(e) < s.replicas {
      CountdownMeaning(e, s, e.config.delay, s.replicas);
    }
  }

  // ----- the group -----

  /** The loop goes on after this set. */
  predicate GoesOn(s: MirrorState, r: Reference) {
    r.NoReference? || (r.Reference? && ResultOf(r.exam, s).Unchanged?)
  }

  /** Every set up to the first patch or error is examined, and none after it; the result tells which it was. */
  lemma {:induction false} GroupMeaning(states: seq<MirrorState>, refs: seq<Reference>, i: nat)
    requires |states| == |refs| && i < |states|
    ensures var r := MirrorGroup(states, refs);
            && ((forall j | 0 <= j < i :: GoesOn(states[j], refs[j])) ==>
                  && r.states[i] == (if refs[i].Reference? then Examined(refs[i].exam, states[i]) else states[i])
                  && (!GoesOn(states[i], refs[i]) ==>
                        && (r.updated <==> refs[i].Reference? && ResultOf(refs[i].exam, states[i]).Patched?)
                        && r.failed == !r.updated))
            && (forall j | 0 <= j < i && !GoesOn(states[j], refs[j]) :: r.states[i] == states[i])
  {
    if i > 0 && GoesOn(states[0], refs[0]) {
      var ss, rs := states[1..], refs[1..];
      GroupMeaning(ss, rs, i - 1);
      forall j | 0 < j < |states| ensures states[j] == ss[j - 1] && refs[j] == rs[j - 1] {}
    }
  }

  lemma {:induction false} QuietGroup(states: seq<MirrorState>, refs: seq<Reference>)
    requires |states| == |refs| && forall j | 0 <= j < |states| :: GoesOn(states[j], refs[j])
    ensures !MirrorGroup(states, refs).updated && !MirrorGroup(states, refs).failed
  {
    if states != [] {
      var ss, rs := states[1..], refs[1..];
      forall j | 0 <= j < |ss| ensures GoesOn(ss[j], rs[j]) {
        assert ss[j] == states[j + 1] && rs[j] == refs[j + 1];
      }
      QuietGroup(ss, rs);
    }
  }
}
