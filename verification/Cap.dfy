/** The configured maximum of builds. It is tested only when a build of several
    members fails, so it is not a limit on builds; here is exactly when a batch
    stays within it. */
module Cap {
  import opened Lists
  import opened Commits
  import opened Model
  import opened Invariants
  import opened Transitions
  import opened Guarantees
  import opened Bisection

  // ----- which events build -------------------------------------------------

  /** A failure builds if it pops or splits. */
  predicate FailBuilds(c: Config, b: Batch) {
    if |b.current| == 1 then b.pending != [] else !Capped(c, b)
  }

  predicate PassBuilds(s: State, b: Batch, push: Push) {
    b.sha.Some? &&
    match push
    case Unavailable => false
    case Denied => b.pending != []
    case Reach => b.pending != [] || (!IsAncestor(s.target, b.sha.value) && b.ffRetries + 1 < MAX_FF_RETRIES)
  }

  predicate CheckBuilds(c: Config, s: State, e: Event, b: Batch)
    requires e.Check? && Fresh(s, e.snap)
  {
    match Decision(s, e)
    case Passes => PassBuilds(s, b, e.push)
    case Fails => FailBuilds(c, b)
    case Waits => e.required.Some? && e.timedOut && FailBuilds(c, b)
  }

  /** The step has something of batch `k` to build. Everything it looks at is
      known before the step. */
  predicate Builds(c: Config, s: State, e: Event, k: nat)
    requires k < |s.batches|
  {
    var b := s.batches[k];
    b.Live() &&
    match e
    case Check(snap, _, _, _, _, _, _) => Fresh(s, snap) && snap.batch == k && CheckBuilds(c, s, e, b)
    case Timeout(j, elapsed, _) => j == k && elapsed && b.phase.Testing? && FailBuilds(c, b)
    case Remove(id, _, _) => Addresses(s, e, k) && id in b.current && (|b.current| > 1 || b.pending != [])
    case FormAndBuild(_) => b.phase.Forming?
    case Reconcile(_) => b.phase.Forming?
    case _ => false
  }

  function One(p: bool): nat { if p then 1 else 0 }

  // ----- at most one build a step, whatever the forge answers ---------------

  lemma {:induction false} BuildMost(c: Config, w: World, s: State, k: nat)
    requires k < |s.batches|
    ensures Build(c, w, s, k).batches[k].builds <= s.batches[k].builds + 1
    decreases |s.batches[k].pending|, 1
  {
    if !w.broken(|s.batches[k].pending|) {
      var s1 := Weeded(c, w, s, k);
      if s1.batches[k].current == [] { NextMost(c, w, s1, k); }
    }
  }

  lemma {:induction false} NextMost(c: Config, w: World, s: State, k: nat)
    requires k < |s.batches|
    ensures Next(c, w, s, k).batches[k].builds <= s.batches[k].builds + One(s.batches[k].pending != [])
    decreases |s.batches[k].pending|, 0
  {
    var b := s.batches[k];
    if b.pending != [] { BuildMost(c, w, Put(s, k, b.Pop()), k); }
  }

  lemma PassMost(c: Config, w: World, push: Push, s: State, k: nat)
    requires k < |s.batches| && s.batches[k].phase.Testing?
    ensures HandlePass(c, w, push, s, k).batches[k].builds
         <= s.batches[k].builds + One(PassBuilds(s, s.batches[k], push))
  {
    var b := s.batches[k];
    if b.sha.Some? {
      match push
      case Unavailable =>
      case Denied => NextMost(c, w, EjectCurrent(s, k), k);
      case Reach =>
        if IsAncestor(s.target, b.sha.value) {
          NextMost(c, w, LandCurrent(s, k, b.sha.value), k);
        } else if b.ffRetries + 1 < MAX_FF_RETRIES {
          BuildMost(c, w, Put(Put(s, k, b.Race()), k, b.Race().Rebuilding()), k);
        } else {
          NextMost(c, w, EjectCurrent(Put(s, k, b.Race()), k), k);
        }
    }
  }

  lemma FailMost(c: Config, w: World, s: State, k: nat)
    requires k < |s.batches| && s.batches[k].phase.Testing?
    ensures HandleFail(c, w, s, k).batches[k].builds <= s.batches[k].builds + One(FailBuilds(c, s.batches[k]))
  {
    var b := s.batches[k];
    if |b.current| == 1 {
      NextMost(c, w, EjectCurrent(s, k), k);
    } else if Capped(c, b) {
      NextMost(c, w, EjectCurrent(Put(s, k, b.Drain()), k), k);
    } else {
      BuildMost(c, w, AfterSplit(s, k), k);
    }
  }

  lemma RemovedMost(c: Config, w: World, s: State, k: nat, id: Id)
    requires LiveOk(c, s, k)
    ensures var b := s.batches[k];
            OnMemberRemoved(c, w, s.(rows := Dequeued(s.rows, [id])), k, id).batches[k].builds
            <= b.builds + One(id in b.current && (|b.current| > 1 || b.pending != []))
  {
    var b := s.batches[k];
    var s1 := Discarded(s, k, b.Discard(id), id);
    DiscardBatch(b, id);
    UniqueParts(b);
    if id in b.current {
      TrimUpcoming(b.pending, id);
      if Without(b.current, id) == [] {
        NextMost(c, w, s1, k);
      } else {
        BuildMost(c, w, Put(s1, k, b.Discard(id).Rebuilding()), k);
      }
    }
  }

  // ----- exactly one, when the forge cooperates -----------------------------

  lemma BuildExact(c: Config, w: World, s: State, k: nat)
    requires BuildPre(c, s, k) && Cooperates(w)
    ensures k < |Build(c, w, s, k).batches| && Build(c, w, s, k).batches[k].builds == s.batches[k].builds + 1
  {
    CleanBuild(c, w, s, k);
  }

  lemma NextExact(c: Config, w: World, s: State, k: nat)
    requires NextPre(c, s, k) && Cooperates(w)
    ensures k < |Next(c, w, s, k).batches|
    ensures Next(c, w, s, k).batches[k].builds == s.batches[k].builds + One(s.batches[k].pending != [])
  {
    CleanNext(c, w, s, k);
  }

  lemma RaceBuilds(c: Config, w: World, s: State, k: nat)
    requires LiveOk(c, s, k) && s.batches[k].phase.Testing? && Cooperates(w)
    requires s.batches[k].ffRetries + 1 < MAX_FF_RETRIES
    ensures Build(c, w, Put(s, k, s.batches[k].Race().Rebuilding()), k).batches[k].builds == s.batches[k].builds + 1
  {
    RaceOk(c, s, k);
    BuildExact(c, w, Put(s, k, s.batches[k].Race().Rebuilding()), k);
  }

  lemma RacePops(c: Config, w: World, s: State, k: nat)
    requires LiveOk(c, s, k) && s.batches[k].phase.Testing? && Cooperates(w)
    ensures Next(c, w, EjectCurrent(Put(s, k, s.batches[k].Race()), k), k).batches[k].builds
         == s.batches[k].builds + One(s.batches[k].pending != [])
  {
    RaceOk(c, s, k);
    GiveUpOk(c, Put(s, k, s.batches[k].Race()), k);
    NextExact(c, w, EjectCurrent(Put(s, k, s.batches[k].Race()), k), k);
  }

  lemma RaceExact(c: Config, w: World, s: State, k: nat)
    requires LiveOk(c, s, k) && s.batches[k].phase.Testing? && Cooperates(w)
    requires !IsAncestor(s.target, s.batches[k].sha.value)
    ensures HandlePass(c, w, Reach, s, k).batches[k].builds
         == s.batches[k].builds + One(PassBuilds(s, s.batches[k], Reach))
  {
    var b := s.batches[k];
    if b.ffRetries + 1 < MAX_FF_RETRIES {
      PutTwice(s, k, b.Race(), b.Race().Rebuilding());
      RaceBuilds(c, w, s, k);
    } else {
      RacePops(c, w, s, k);
    }
  }

  lemma PassExact(c: Config, w: World, push: Push, s: State, k: nat)
    requires LiveOk(c, s, k) && s.batches[k].phase.Testing? && Cooperates(w)
    ensures HandlePass(c, w, push, s, k).batches[k].builds
         == s.batches[k].builds + One(PassBuilds(s, s.batches[k], push))
  {
    match push
    case Unavailable =>
    case Denied =>
      GiveUpOk(c, s, k);
      NextExact(c, w, EjectCurrent(s, k), k);
    case Reach =>
      if IsAncestor(s.target, s.batches[k].sha.value) {
        LandOk(c, s, k);
        NextExact(c, w, LandCurrent(s, k, s.batches[k].sha.value), k);
      } else {
        RaceExact(c, w, s, k);
      }
  }

  lemma FailExact(c: Config, w: World, s: State, k: nat)
    requires LiveOk(c, s, k) && s.batches[k].phase.Testing? && Cooperates(w)
    ensures HandleFail(c, w, s, k).batches[k].builds == s.batches[k].builds + One(FailBuilds(c, s.batches[k]))
  {
    var b := s.batches[k];
    if |b.current| == 1 {
      GiveUpOk(c, s, k);
      NextExact(c, w, EjectCurrent(s, k), k);
    } else if Capped(c, b) {
      CapOk(c, s, k);
      NextExact(c, w, EjectCurrent(Put(s, k, b.Drain()), k), k);
    } else {
      SplitOk(c, s, k);
      BuildExact(c, w, AfterSplit(s, k), k);
    }
  }

  lemma RemovedExact(c: Config, w: World, s: State, k: nat, id: Id)
    requires LiveOk(c, s, k) && Cooperates(w)
    ensures var b := s.batches[k];
            OnMemberRemoved(c, w, s.(rows := Dequeued(s.rows, [id])), k, id).batches[k].builds
            == b.builds + One(id in b.current && (|b.current| > 1 || b.pending != []))
  {
    var b := s.batches[k];
    DiscardBatch(b, id);
    UniqueParts(b);
    if id in b.current {
      TrimUpcoming(b.pending, id);
      if Without(b.current, id) == [] {
        DiscardNone(c, s, k, id);
        NextExact(c, w, Discarded(s, k, b.Discard(id), id), k);
      } else {
        DiscardSome(c, s, k, id);
        BuildExact(c, w, Put(Discarded(s, k, b.Discard(id), id), k, b.Discard(id).Rebuilding()), k);
      }
    }
  }

  // ----- one step -----------------------------------------------------------

  /** The forge cooperates during the step. */
  ghost predicate Smooth(e: Event) {
    e.Enqueue? || e.Promote? || e.OutsidePush? || Cooperates(e.w)
  }

  ghost predicate Counts(c: Config, s: State, e: Event, k: nat)
    requires k < |s.batches|
  {
    && k < |Step(c, s, e).batches|
    && Step(c, s, e).batches[k].builds <= s.batches[k].builds + One(Builds(c, s, e, k))
    && (Smooth(e) ==> Step(c, s, e).batches[k].builds == s.batches[k].builds + One(Builds(c, s, e, k)))
  }

  lemma DoneCounts(c: Config, s: State, e: Event, k: nat)
    requires Inv(c, s) && k < |s.batches| && !s.batches[k].Live()
    ensures Counts(c, s, e, k)
  {
    StepMoves(c, s, e);
    assert Later(s.batches[k], Step(c, s, e).batches[k]);
  }

  lemma CheckCounts(c: Config, s: State, e: Event, k: nat)
    requires Inv(c, s) && e.Check? && k < |s.batches| && s.batches[k].Live()
    ensures Counts(c, s, e, k)
  {
    hide Inv, LiveOk, FailBuilds, Progresses, Credit;
    CheckResult(c, s, e);
    if Fresh(s, e.snap) {
      hide HandlePass, HandleFail;
      var s1 := Recorded(s, e);
      AnyBatch(c, s, k);
      AnyBatch(c, s1, k);
      match Decision(s, e)
      case Passes =>
        PassMost(c, e.w, e.push, s1, k);
        if Smooth(e) { PassExact(c, e.w, e.push, s1, k); }
      case Fails =>
        FailMost(c, e.w, s1, k);
        if Smooth(e) { FailExact(c, e.w, s1, k); }
      case Waits =>
        FailMost(c, e.w, s1, k);
        if Smooth(e) { FailExact(c, e.w, s1, k); }
    }
  }

  lemma TimeoutCounts(c: Config, s: State, e: Event, k: nat)
    requires Inv(c, s) && e.Timeout? && k < |s.batches| && s.batches[k].Live()
    ensures Counts(c, s, e, k)
  {
    hide Inv, LiveOk, FailBuilds;
    AnyBatch(c, s, k);
    if e.batch < |s.batches| && s.batches[e.batch].phase.Testing? {
      AnyBatch(c, s, e.batch);
      FailMost(c, e.w, s, k);
      if Smooth(e) { FailExact(c, e.w, s, k); }
    }
  }

  lemma RemovalKeepsBatches(s: State, s': State, k: nat, id: Id)
    requires k < |s.batches| && Removal(s, s', k, id)
    ensures |s'.batches| == |s.batches|
  {
  }

  lemma RemoveCounts(c: Config, s: State, e: Event, k: nat)
    requires Inv(c, s) && e.Remove? && k < |s.batches| && s.batches[k].Live()
    ensures Counts(c, s, e, k)
  {
    hide Removal, OnMemberRemoved, Inv, LiveOk, Batch.Account;
    AnyBatch(c, s, k);
    if Addresses(s, e, k) {
      AddressedStep(c, s, e, k);
      RemovalKeepsBatches(s, Step(c, s, e), k, e.id);
      RemovedMost(c, e.w, s, k, e.id);
      if Smooth(e) { RemovedExact(c, e.w, s, k, e.id); }
    } else {
      NotAddressed(c, s, e, k);
    }
  }

  lemma FormingCounts(c: Config, s: State, e: Event, k: nat)
    requires Inv(c, s) && (e.FormAndBuild? || e.Reconcile?) && k < |s.batches| && s.batches[k].Live()
    ensures Counts(c, s, e, k)
  {
    AnyBatch(c, s, k);
    if s.batches[k].phase.Forming? {
      BuildMost(c, e.w, s, k);
      if Smooth(e) { BuildExact(c, e.w, s, k); }
    }
  }

  /** A step builds at most once, only if it has something to build, and exactly
      once then if the forge cooperates. */
  lemma StepCounts(c: Config, s: State, e: Event, k: nat)
    requires Inv(c, s) && k < |s.batches|
    ensures Counts(c, s, e, k)
  {
    if !s.batches[k].Live() {
      DoneCounts(c, s, e, k);
    } else {
      match e
      case Check(_, _, _, _, _, _, _) => CheckCounts(c, s, e, k);
      case Timeout(_, _, _) => TimeoutCounts(c, s, e, k);
      case Remove(_, _, _) => RemoveCounts(c, s, e, k);
      case FormAndBuild(_) => FormingCounts(c, s, e, k);
      case Reconcile(_) => FormingCounts(c, s, e, k);
      case _ =>
    }
  }

  /** At the cap, a failure builds exactly if it ejects a single member and a
      slice waits. */
  lemma FailBuildsAtCap(c: Config, b: Batch)
    requires c.bisectMax > 0 && b.builds == c.bisectMax
    ensures FailBuilds(c, b) <==> |b.current| == 1 && b.pending != []
  {
  }

  /** From within the cap, a step exceeds it exactly if the batch is at the cap
      and the step has something to build; for a forge that does not cooperate
      this remains the only way. */
  lemma CapExceededIff(c: Config, s: State, e: Event, k: nat)
    requires Inv(c, s) && k < |s.batches| && c.bisectMax > 0 && s.batches[k].builds <= c.bisectMax
    ensures k < |Step(c, s, e).batches|
    ensures Step(c, s, e).batches[k].builds > c.bisectMax ==> s.batches[k].builds == c.bisectMax && Builds(c, s, e, k)
    ensures Smooth(e) ==>
              (Step(c, s, e).batches[k].builds > c.bisectMax <==>
               s.batches[k].builds == c.bisectMax && Builds(c, s, e, k))
  {
    StepCounts(c, s, e, k);
  }

  // ----- whole runs ---------------------------------------------------------

  lemma NewCounts(c: Config, s: State, e: Event, k: nat)
    requires Inv(c, s) && |s.batches| <= k < |Step(c, s, e).batches|
    ensures Step(c, s, e).batches[k].builds <= 1
  {
    OnlyFormingAdds(c, s, e);
    BuildMost(c, e.w, Adopted(c, s), |s.batches|);
  }

  /** Event `u` meets the batch at the cap with something to build. */
  predicate Overruns(c: Config, tip: Commit, events: seq<Event>, u: nat, k: nat)
    requires u < |events|
  {
    var s := At(c, tip, events, u);
    k < |s.batches| && s.batches[k].builds == c.bisectMax && Builds(c, s, events[u], k)
  }

  lemma WithinNext(c: Config, s: State, e: Event, k: nat)
    requires Inv(c, s) && c.bisectMax > 0 && k < |Step(c, s, e).batches|
    requires k < |s.batches| ==>
               s.batches[k].builds <= c.bisectMax && !(s.batches[k].builds == c.bisectMax && Builds(c, s, e, k))
    ensures Step(c, s, e).batches[k].builds <= c.bisectMax
  {
    if k < |s.batches| { CapExceededIff(c, s, e, k); } else { NewCounts(c, s, e, k); }
  }

  lemma WithinAtNext(c: Config, tip: Commit, events: seq<Event>, t: nat, k: nat)
    requires t < |events| && c.bisectMax > 0 && k < |At(c, tip, events, t + 1).batches|
    requires k < |At(c, tip, events, t).batches| ==> At(c, tip, events, t).batches[k].builds <= c.bisectMax
    requires !Overruns(c, tip, events, t, k)
    ensures At(c, tip, events, t + 1).batches[k].builds <= c.bisectMax
  {
    AtNext(c, tip, events, t);
    WithinNext(c, At(c, tip, events, t), events[t], k);
  }

  /** In every run: a batch that no event meets at the cap with something to
      build stays within the cap. */
  lemma {:induction false} WithinCap(c: Config, tip: Commit, events: seq<Event>, t: nat, k: nat)
    requires t <= |events| && c.bisectMax > 0 && k < |At(c, tip, events, t).batches|
    requires forall u :: 0 <= u < t ==> !Overruns(c, tip, events, u, k)
    ensures At(c, tip, events, t).batches[k].builds <= c.bisectMax
    decreases t
  {
    if t > 0 {
      if k < |At(c, tip, events, t - 1).batches| { WithinCap(c, tip, events, t - 1, k); }
      WithinAtNext(c, tip, events, t - 1, k);
    }
  }

  lemma OverrunExceeds(c: Config, tip: Commit, events: seq<Event>, u: nat, k: nat)
    requires u < |events| && c.bisectMax > 0 && Overruns(c, tip, events, u, k) && Smooth(events[u])
    ensures k < |At(c, tip, events, u + 1).batches| && At(c, tip, events, u + 1).batches[k].builds > c.bisectMax
  {
    AtNext(c, tip, events, u);
    CapExceededIff(c, At(c, tip, events, u), events[u], k);
  }

  /** The documented limit, exactly: in a run with a cooperating forge a batch
      takes at most the configured number of builds if and only if no event meets
      it at the cap with something to build. */
  lemma CapKeptIff(c: Config, tip: Commit, events: seq<Event>, k: nat)
    requires c.bisectMax > 0 && k < |At(c, tip, events, |events|).batches|
    requires forall e :: e in events ==> Smooth(e)
    ensures At(c, tip, events, |events|).batches[k].builds <= c.bisectMax
       <==> forall u :: 0 <= u < |events| ==> !Overruns(c, tip, events, u, k)
  {
    if forall u :: 0 <= u < |events| ==> !Overruns(c, tip, events, u, k) {
      WithinCap(c, tip, events, |events|, k);
    } else {
      var u :| 0 <= u < |events| && Overruns(c, tip, events, u, k);
      assert events[u] in events;
      OverrunExceeds(c, tip, events, u, k);
      BuildsGrow(c, tip, events, u + 1, |events|, k);
    }
  }
}
