/** Fast-forward races: a batch gives the members under test up after exactly
    three refused fast-forwards in a row, counted from its last landing. */
module Races {
  import opened Commits
  import opened Model
  import opened Invariants
  import opened Transitions
  import opened Guarantees
  import opened Landing
  import opened Bounds

  lemma GiveUpRetries(c: Config, w: World, s: State, k: nat)
    requires LiveOk(c, s, k) && s.batches[k].phase.Testing?
    ensures Next(c, w, EjectCurrent(s, k), k).batches[k].ffRetries == s.batches[k].ffRetries
  {
    GiveUpOk(c, s, k);
    NextOk(c, w, EjectCurrent(s, k), k);
  }

  lemma DeniedRetries(c: Config, w: World, s: State, k: nat)
    requires LiveOk(c, s, k) && s.batches[k].phase.Testing?
    ensures HandlePass(c, w, Denied, s, k).batches[k].ffRetries == s.batches[k].ffRetries
  {
    GiveUpRetries(c, w, s, k);
  }

  lemma LandRetries(c: Config, w: World, s: State, k: nat)
    requires LiveOk(c, s, k) && s.batches[k].phase.Testing? && IsAncestor(s.target, s.batches[k].sha.value)
    ensures HandlePass(c, w, Reach, s, k).batches[k].ffRetries == 0
  {
    LandOk(c, s, k);
    NextOk(c, w, LandCurrent(s, k, s.batches[k].sha.value), k);
  }

  lemma RaceRetried(c: Config, w: World, s: State, k: nat)
    requires LiveOk(c, s, k) && s.batches[k].phase.Testing? && s.batches[k].ffRetries + 1 < MAX_FF_RETRIES
    ensures var b, b' := s.batches[k], Build(c, w, Put(s, k, s.batches[k].Race().Rebuilding()), k).batches[k];
            b'.ffRetries == b.ffRetries + 1 && b'.landed == b.landed && b'.extra == b.extra + 1
  {
    RaceOk(c, s, k);
    BuildOk(c, w, Put(s, k, s.batches[k].Race().Rebuilding()), k);
  }

  lemma RaceGivenUp(c: Config, w: World, s: State, k: nat)
    requires LiveOk(c, s, k) && s.batches[k].phase.Testing?
    ensures var b, b' := s.batches[k], Next(c, w, EjectCurrent(Put(s, k, s.batches[k].Race()), k), k).batches[k];
            && b'.ffRetries == b.ffRetries + 1 && b'.landed == b.landed && b'.extra == b.extra
            && b.ejected + b.current <= b'.ejected
  {
    var s1 := Put(s, k, s.batches[k].Race());
    RaceOk(c, s, k);
    GiveUpOk(c, s1, k);
    EjectAllCore(c, s1, k);
    NextOk(c, w, EjectCurrent(s1, k), k);
  }

  /** A refused fast-forward: build again, or after the third give up. */
  lemma RaceOutcome(c: Config, w: World, s: State, k: nat)
    requires LiveOk(c, s, k) && s.batches[k].phase.Testing? && !IsAncestor(s.target, s.batches[k].sha.value)
    ensures var b, b' := s.batches[k], HandlePass(c, w, Reach, s, k).batches[k];
            && b'.ffRetries == b.ffRetries + 1 && b'.landed == b.landed
            && if b.ffRetries + 1 < MAX_FF_RETRIES then b'.extra == b.extra + 1
               else b'.extra == b.extra && b.ejected + b.current <= b'.ejected
  {
    var b := s.batches[k];
    if b.ffRetries + 1 < MAX_FF_RETRIES {
      assert Put(Put(s, k, b.Race()), k, b.Race().Rebuilding()) == Put(s, k, b.Race().Rebuilding());
      RaceRetried(c, w, s, k);
    } else {
      RaceGivenUp(c, w, s, k);
    }
  }

  lemma CheckRetries(c: Config, s: State, e: Event)
    requires Inv(c, s) && e.Check? && Fresh(s, e.snap)
    ensures var k := e.snap.batch;
            Step(c, s, e).batches[k].ffRetries ==
            if Lands(s, e) then 0 else s.batches[k].ffRetries + if Raced(s, e) then 1 else 0
  {
    hide Inv, Batch.Account, HandleFail, Progresses, Credit;
    CheckResult(c, s, e);
    var s1, k := Recorded(s, e), e.snap.batch;
    AnyBatch(c, s1, k);
    match Decision(s, e)
    case Passes =>
      match e.push {
        case Unavailable =>
        case Denied => DeniedRetries(c, e.w, s1, k);
        case Reach =>
          if IsAncestor(s1.target, s1.batches[k].sha.value) { LandRetries(c, e.w, s1, k); }
          else { RaceOutcome(c, e.w, s1, k); }
      }
    case Fails => FailCounts(c, e.w, s1, k);
    case Waits => if e.required.Some? && e.timedOut { FailCounts(c, e.w, s1, k); }
  }

  lemma LastRetries(c: Config, w: World, s: State, k: nat, id: Id)
    requires LiveOk(c, s, k) && id in s.batches[k].current && s.batches[k].Discard(id).current == []
    ensures Next(c, w, Discarded(s, k, s.batches[k].Discard(id), id), k).batches[k].ffRetries == s.batches[k].ffRetries
  {
    DiscardNone(c, s, k, id);
    NextOk(c, w, Discarded(s, k, s.batches[k].Discard(id), id), k);
  }

  lemma RebuiltRetries(c: Config, w: World, s: State, k: nat, id: Id)
    requires LiveOk(c, s, k) && id in s.batches[k].current && s.batches[k].Discard(id).current != []
    ensures Build(c, w, Discarded(s, k, s.batches[k].Discard(id).Rebuilding(), id), k).batches[k].ffRetries
         == s.batches[k].ffRetries
  {
    RebuildPre(c, w, s, k, id);
    BuildOk(c, w, Discarded(s, k, s.batches[k].Discard(id).Rebuilding(), id), k);
  }

  lemma RemoveRetries(c: Config, w: World, s: State, k: nat, id: Id)
    requires LiveOk(c, s, k)
    ensures OnMemberRemoved(c, w, s.(rows := Dequeued(s.rows, [id])), k, id).batches[k].ffRetries
         == s.batches[k].ffRetries
  {
    var b := s.batches[k];
    if id in b.current {
      assert Put(Discarded(s, k, b.Discard(id), id), k, b.Discard(id).Rebuilding())
          == Discarded(s, k, b.Discard(id).Rebuilding(), id);
      if b.Discard(id).current == [] { LastRetries(c, w, s, k, id); } else { RebuiltRetries(c, w, s, k, id); }
    }
  }

  lemma RemovedRetries(c: Config, s: State, e: Event, k: nat)
    requires Inv(c, s) && e.Remove? && k < |s.batches| && s.batches[k].Live()
    ensures k < |Step(c, s, e).batches| && Step(c, s, e).batches[k].ffRetries == s.batches[k].ffRetries
  {
    AnyBatch(c, s, k);
    if Addresses(s, e, k) {
      AddressedStep(c, s, e, k);
      RemoveRetries(c, e.w, s, k, e.id);
    } else {
      NotAddressed(c, s, e, k);
    }
  }

  lemma TimeoutRetries(c: Config, s: State, e: Event, k: nat)
    requires Inv(c, s) && e.Timeout? && k < |s.batches|
    ensures k < |Step(c, s, e).batches| && Step(c, s, e).batches[k].ffRetries == s.batches[k].ffRetries
  {
    if e.batch < |s.batches| && s.batches[e.batch].phase.Testing? {
      AnyBatch(c, s, e.batch);
      FailCounts(c, e.w, s, e.batch);
      FailOk(c, e.w, s, e.batch);
    }
  }

  lemma DoneRetries(c: Config, s: State, e: Event, k: nat)
    requires Inv(c, s) && k < |s.batches| && !s.batches[k].Live()
    ensures k < |Step(c, s, e).batches| && Step(c, s, e).batches[k].ffRetries == s.batches[k].ffRetries
  {
    StepMoves(c, s, e);
    assert Later(s.batches[k], Step(c, s, e).batches[k]);
  }

  lemma BuildRetries(c: Config, s: State, e: Event, k: nat)
    requires Inv(c, s) && (e.FormAndBuild? || e.Reconcile?) && k < |s.batches| && s.batches[k].Live()
    ensures k < |Step(c, s, e).batches| && Step(c, s, e).batches[k].ffRetries == s.batches[k].ffRetries
  {
    AnyBatch(c, s, k);
    if s.batches[k].phase.Forming? { BuildOk(c, e.w, s, k); }
  }

  predicate On(e: Event, k: nat) { e.Check? && e.snap.batch == k }

  /** The counter restarts at a landing, counts a race, and is left alone by
      everything else. */
  lemma StepRetries(c: Config, s: State, e: Event, k: nat)
    requires Inv(c, s) && k < |s.batches|
    ensures k < |Step(c, s, e).batches|
    ensures Step(c, s, e).batches[k].ffRetries ==
            if On(e, k) && Lands(s, e) then 0
            else s.batches[k].ffRetries + if On(e, k) && Raced(s, e) then 1 else 0
  {
    hide Inv, LiveOk, Closed, Sound, Batch.Account;
    AnyBatch(c, s, k);
    if !s.batches[k].Live() {
      DoneRetries(c, s, e, k);
    } else {
      match e
      case Check(_, _, _, _, _, _, _) => if Fresh(s, e.snap) { FreshIsLast(c, s, e.snap); CheckRetries(c, s, e); }
      case Timeout(_, _, _) => TimeoutRetries(c, s, e, k);
      case Remove(_, _, _) => RemovedRetries(c, s, e, k);
      case FormAndBuild(_) => BuildRetries(c, s, e, k);
      case Reconcile(_) => BuildRetries(c, s, e, k);
      case _ =>
    }
  }

  lemma NewRetries(c: Config, s: State, e: Event, k: nat)
    requires Inv(c, s) && |s.batches| <= k < |Step(c, s, e).batches|
    ensures Step(c, s, e).batches[k].ffRetries == 0
  {
    hide Inv, Step;
    NewIsAdopted(c, s, e);
  }

  /** Refused fast-forwards of the batch since it last landed something. */
  function Streak(c: Config, tip: Commit, events: seq<Event>, t: nat, k: nat): nat
    requires t <= |events|
  {
    if t == 0 then 0
    else
      var s, e := At(c, tip, events, t - 1), events[t - 1];
      if k >= |s.batches| || (On(e, k) && Lands(s, e)) then 0
      else Streak(c, tip, events, t - 1, k) + if On(e, k) && Raced(s, e) then 1 else 0
  }

  lemma StreakStep(c: Config, s: State, e: Event, k: nat, streak: nat)
    requires Inv(c, s) && k < |Step(c, s, e).batches|
    requires k < |s.batches| ==> s.batches[k].ffRetries == streak
    ensures Step(c, s, e).batches[k].ffRetries ==
            if k >= |s.batches| || (On(e, k) && Lands(s, e)) then 0
            else streak + if On(e, k) && Raced(s, e) then 1 else 0
  {
    if k < |s.batches| { StepRetries(c, s, e, k); } else { NewRetries(c, s, e, k); }
  }

  lemma {:induction false} RetriesAreStreak(c: Config, tip: Commit, events: seq<Event>, t: nat, k: nat)
    requires t <= |events| && k < |At(c, tip, events, t).batches|
    ensures At(c, tip, events, t).batches[k].ffRetries == Streak(c, tip, events, t, k)
    decreases t
  {
    hide Inv, Step;
    if t > 0 {
      var s := At(c, tip, events, t - 1);
      if k < |s.batches| { RetriesAreStreak(c, tip, events, t - 1, k); }
      AtNext(c, tip, events, t - 1);
      StreakStep(c, s, events[t - 1], k, Streak(c, tip, events, t - 1, k));
    }
  }

  /** In every run: the first two refused fast-forwards in a row each cost a
      rebuild, and from the third on the members under test are ejected. */
  lemma GivesUpAfterThree(c: Config, tip: Commit, events: seq<Event>, t: nat)
    requires t < |events| && Raced(At(c, tip, events, t), events[t])
    ensures var s, s', k := At(c, tip, events, t), At(c, tip, events, t + 1), events[t].snap.batch;
            && k < |s'.batches| && s'.batches[k].landed == s.batches[k].landed
            && if Streak(c, tip, events, t, k) < 2
               then s'.batches[k].extra == s.batches[k].extra + 1
               else s'.batches[k].extra == s.batches[k].extra
                    && s.batches[k].ejected + s.batches[k].current <= s'.batches[k].ejected
  {
    AtNext(c, tip, events, t);
    var s, e := At(c, tip, events, t), events[t];
    RetriesAreStreak(c, tip, events, t, e.snap.batch);
    CheckResult(c, s, e);
    AnyBatch(c, Recorded(s, e), e.snap.batch);
    RaceOutcome(c, e.w, Recorded(s, e), e.snap.batch);
  }
}
