/** What lands is what was tested, however late, stale or repeated the events
    that lead to it are. */
module Landing {
  import opened Lists
  import opened Commits
  import opened Checks
  import opened Model
  import opened Invariants
  import opened Transitions
  import opened Guarantees

  /** The event makes the engine fast-forward the target. */
  predicate Lands(s: State, e: Event) {
    && e.Check? && Fresh(s, e.snap)
    && Decision(s, e).Passes?
    && e.push.Reach?
    && IsAncestor(s.target, e.snap.sha.value)
  }

  predicate Ignored(tip: Commit, proposed: Commit) { Outside(tip, proposed) == tip }

  /** Nobody else moves the target while the step runs. */
  ghost predicate Undisturbed(w: World) {
    forall d: nat, tip: Commit :: Ignored(tip, w.drift(d))
  }

  lemma {:induction false} BuildQuiet(c: Config, w: World, s: State, k: nat)
    requires k < |s.batches| && Undisturbed(w)
    ensures Build(c, w, s, k).target == s.target
    decreases |s.batches[k].pending|, 1
  {
    var d := |s.batches[k].pending|;
    assert Ignored(s.target, w.drift(d));
    if !w.broken(d) {
      var s1 := Weeded(c, w, s, k);
      if s1.batches[k].current == [] { NextQuiet(c, w, s1, k); }
    }
  }

  lemma {:induction false} NextQuiet(c: Config, w: World, s: State, k: nat)
    requires k < |s.batches| && Undisturbed(w)
    ensures Next(c, w, s, k).target == s.target
    decreases |s.batches[k].pending|, 0
  {
    var b := s.batches[k];
    if b.pending != [] { BuildQuiet(c, w, Put(s, k, b.Pop()), k); }
  }

  lemma PassQuiet(c: Config, w: World, push: Push, s: State, k: nat)
    requires k < |s.batches| && Undisturbed(w)
    ensures var b := s.batches[k];
            HandlePass(c, w, push, s, k).target ==
            if b.phase.Testing? && b.sha.Some? && push.Reach? && IsAncestor(s.target, b.sha.value)
            then b.sha.value else s.target
  {
    var b := s.batches[k];
    if b.phase.Testing? && b.sha.Some? {
      match push
      case Unavailable =>
      case Denied => NextQuiet(c, w, EjectCurrent(s, k), k);
      case Reach =>
        if IsAncestor(s.target, b.sha.value) {
          NextQuiet(c, w, LandCurrent(s, k, b.sha.value), k);
        } else if b.ffRetries + 1 < MAX_FF_RETRIES {
          BuildQuiet(c, w, Put(Put(s, k, b.Race()), k, b.Race().Rebuilding()), k);
        } else {
          NextQuiet(c, w, EjectCurrent(Put(s, k, b.Race()), k), k);
        }
    }
  }

  lemma FailQuiet(c: Config, w: World, s: State, k: nat)
    requires k < |s.batches| && Undisturbed(w)
    ensures HandleFail(c, w, s, k).target == s.target
  {
    var b := s.batches[k];
    if b.phase.Testing? {
      if |b.current| == 1 {
        NextQuiet(c, w, EjectCurrent(s, k), k);
      } else if Capped(c, b) {
        NextQuiet(c, w, EjectCurrent(Put(s, k, b.Drain()), k), k);
      } else {
        BuildQuiet(c, w, AfterSplit(s, k), k);
      }
    }
  }

  lemma RemoveQuiet(c: Config, w: World, s: State, k: nat, id: Id)
    requires Undisturbed(w)
    ensures OnMemberRemoved(c, w, s, k, id).target == s.target
  {
    if k < |s.batches| && s.batches[k].Live() {
      var b := s.batches[k];
      var s1 := Put(s, k, b.Discard(id));
      if id in b.current {
        if Without(b.current, id) == [] {
          NextQuiet(c, w, s1, k);
        } else {
          BuildQuiet(c, w, Put(s1, k, b.Discard(id).Rebuilding()), k);
        }
      }
    }
  }

  lemma FormQuiet(c: Config, w: World, s: State)
    requires Undisturbed(w)
    ensures OnForm(c, w, s).target == s.target
    ensures OnReconcile(c, w, s).target == s.target
  {
    if HasLive(s) {
      BuildQuiet(c, w, s, |s.batches| - 1);
    } else if QueuedHead(s.rows, s.next, Limit(c)) != [] {
      BuildQuiet(c, w, Adopted(c, s), |s.batches|);
    }
  }

  lemma CheckQuiet(c: Config, s: State, e: Event)
    requires e.Check? && Undisturbed(e.w)
    ensures Step(c, s, e).target == if Lands(s, e) then e.snap.sha.value else s.target
  {
    if Fresh(s, e.snap) {
      var s1 := Recorded(s, e);
      match Decision(s, e)
      case Passes => PassQuiet(c, e.w, e.push, s1, e.snap.batch);
      case Fails => FailQuiet(c, e.w, s1, e.snap.batch);
      case Waits => if e.required.Some? && e.timedOut { FailQuiet(c, e.w, s1, e.snap.batch); }
    }
  }

  /** With no outsider at work during the step, a landing sets the target to
      the tested commit, and no other event moves the target at all. */
  lemma OnlyLandingMovesTarget(c: Config, s: State, e: Event)
    requires !e.OutsidePush?
    requires !e.Enqueue? && !e.Promote? ==> Undisturbed(e.w)
    ensures Step(c, s, e).target == if Lands(s, e) then e.snap.sha.value else s.target
  {
    match e
    case Check(_, _, _, _, _, _, _) => CheckQuiet(c, s, e);
    case Timeout(k, elapsed, w) => if k < |s.batches| { FailQuiet(c, w, s, k); }
    case FormAndBuild(w) => FormQuiet(c, w, s);
    case Reconcile(w) => FormQuiet(c, w, s);
    case Remove(id, snapBatch, w) =>
      if ReportedTo(s, e).Some? {
        RemoveQuiet(c, w, s.(rows := Dequeued(s.rows, [id])), ReportedTo(s, e).value, id);
      }
    case _ =>
  }

  // ----- what a landing is --------------------------------------------------

  /** All recorded results belong to the batch's present build, and they satisfy
      the requirements. */
  ghost predicate GreenOn(checks: map<string, Result>, required: seq<string>, b: Batch) {
    && (forall x :: x in checks ==> Of(checks[x], b))
    && (forall x :: x in required ==> x in checks && checks[x].state.Success?)
    && (required == [] ==> exists x :: x in checks && checks[x].state.Success?)
  }

  /** Landing, then popping the stack, from a state that has the result saved. */
  lemma LandThenNext(c: Config, w: World, s: State, k: nat)
    requires LiveOk(c, s, k) && s.batches[k].phase.Testing? && IsAncestor(s.target, s.batches[k].sha.value)
    ensures var b, s' := s.batches[k], HandlePass(c, w, Reach, s, k);
            && |s'.batches| == |s.batches|
            && s'.batches[k].landed == b.landed + b.current
            && IsAncestor(b.sha.value, s'.target)
            && (forall i :: i in b.current ==> i !in s'.rows)
  {
    var s1 := LandCurrent(s, k, s.batches[k].sha.value);
    LandOk(c, s, k);
    NextOk(c, w, s1, k);
    assert forall i :: i in s.batches[k].current ==> i !in s1.rows;
  }

  lemma LandsIsPass(c: Config, s: State, e: Event)
    requires Inv(c, s) && Lands(s, e)
    ensures var k, s1 := e.snap.batch, Recorded(s, e);
            && k < |s.batches| && s1.batches == s.batches && s1.target == s.target
            && LiveOk(c, s1, k) && s1.batches[k].phase.Testing? && s1.batches[k].sha == e.snap.sha
            && Step(c, s, e) == HandlePass(c, e.w, Reach, s1, k)
  {
    CheckResult(c, s, e);
    AnyBatch(c, Recorded(s, e), e.snap.batch);
  }

  /** The commit pushed to the target is the fold of exactly the current
      members' heads onto the tip their build started from, and exactly those
      members are noted as landed and leave the queue. */
  lemma LandingIsFold(c: Config, s: State, e: Event)
    requires Inv(c, s) && Lands(s, e)
    ensures var k, s' := e.snap.batch, Step(c, s, e);
            var b := s.batches[k];
            && k < |s'.batches|
            && e.snap.sha.value == Fold(c.noop, b.base, Heads(c, b.current))
            && IsAncestor(b.base, s.target)
            && s'.batches[k].landed == b.landed + b.current
            && IsAncestor(e.snap.sha.value, s'.target)
            && (forall i :: i in b.current ==> i !in s'.rows)
  {
    LandsIsPass(c, s, e);
    LandThenNext(c, e.w, Recorded(s, e), e.snap.batch);
  }

  lemma GreenFrom(checks: map<string, Result>, required: seq<string>, b: Batch)
    requires forall x :: x in checks ==> Of(checks[x], b)
    requires Judge(Standings(checks), required).Passes?
    ensures GreenOn(checks, required, b)
  {
  }

  /** If the deciding row is one of the members under test, every result it was
      judged by was reported on that very commit. */
  lemma LandingIsGreen(c: Config, s: State, e: Event)
    requires Inv(c, s) && Lands(s, e) && e.snap.id in s.batches[e.snap.batch].current
    ensures GreenOn(Recorded(s, e).rows[e.snap.id].checks, e.required.value, s.batches[e.snap.batch])
  {
    LandsIsPass(c, s, e);
    assert Tested(c, Recorded(s, e), e.snap.batch);
    GreenFrom(Recorded(s, e).rows[e.snap.id].checks, e.required.value, s.batches[e.snap.batch]);
  }

  lemma LandingFacts(c: Config, s: State, e: Event)
    requires Inv(c, s) && Lands(s, e) && e.snap.id in s.batches[e.snap.batch].current
    ensures var b := s.batches[e.snap.batch];
            && b.sha == e.snap.sha
            && e.snap.sha.value == Fold(c.noop, b.base, Heads(c, b.current))
            && GreenOn(Recorded(s, e).rows[e.snap.id].checks, e.required.value, b)
            && IsAncestor(e.snap.sha.value, Step(c, s, e).target)
            && (Undisturbed(e.w) ==> Step(c, s, e).target == e.snap.sha.value)
  {
    LandingIsFold(c, s, e);
    LandingIsGreen(c, s, e);
    if Undisturbed(e.w) { CheckQuiet(c, s, e); }
  }

  // ----- stale, foreign and repeated events ---------------------------------

  /** The row carried this commit at some moment up to `t`. */
  ghost predicate Carried(c: Config, tip: Commit, events: seq<Event>, t: nat, id: Id, sha: Commit)
    requires t <= |events|
  {
    exists u :: 0 <= u <= t && CarriedAt(At(c, tip, events, u), id, sha)
  }

  predicate CarriedAt(s: State, id: Id, sha: Commit) {
    id in s.rows && s.rows[id].sha == Some(sha)
  }

  predicate UnderTest(s: State) { HasLive(s) && s.batches[|s.batches| - 1].phase.Testing? }

  function TestedSha(s: State): Option<Commit>
    requires UnderTest(s)
  {
    s.batches[|s.batches| - 1].sha
  }

  /** The step ended with a build. */
  predicate NewBuild(s: State, s': State) {
    && UnderTest(s')
    && (|s'.batches| > |s.batches| ||
        (|s'.batches| == |s.batches| && s'.batches[|s'.batches| - 1].builds > s.batches[|s.batches| - 1].builds))
  }

  /** If event `u` ends with a build, every row that still exists and carried the
      commit it made at some time before is one of the members now under test. */
  ghost predicate UnambiguousAt(c: Config, tip: Commit, events: seq<Event>, u: nat)
    requires u < |events|
  {
    var s, s' := At(c, tip, events, u), At(c, tip, events, u + 1);
    NewBuild(s, s') ==>
      forall id, sha :: Carried(c, tip, events, u, id, sha) && TestedSha(s') == Some(sha) && id in s'.rows ==>
        id in Tester(s').current
  }

  ghost predicate Unambiguous(c: Config, tip: Commit, events: seq<Event>, t: nat)
    requires t <= |events|
  {
    forall u :: 0 <= u < t ==> UnambiguousAt(c, tip, events, u)
  }

  lemma CarriersAreCurrent(c: Config, s: State, id: Id, sha: Commit)
    requires Inv(c, s) && CarriedAt(s, id, sha)
    ensures HasLive(s) && id in s.batches[|s.batches| - 1].current
  {
  }

  /** The batch under test, when there is one. */
  function Tester(s: State): Batch
    requires UnderTest(s)
  {
    s.batches[|s.batches| - 1]
  }

  lemma SameBuild(s: State, s': State)
    requires Moves(s, s') && UnderTest(s') && !NewBuild(s, s') && |s'.batches| > 0
    ensures UnderTest(s) && TestedSha(s) == TestedSha(s') && Tester(s).current == Tester(s').current
  {
  }

  /** A key is never given out twice: a row that was there before was never away. */
  lemma NeverAway(c: Config, tip: Commit, events: seq<Event>, u: nat, t: nat, id: Id)
    requires u <= t < |events| && id in At(c, tip, events, u).rows && id in At(c, tip, events, t + 1).rows
    ensures id in At(c, tip, events, t).rows
  {
    RunOk(c, tip, events[..u]);
    KeysBelow(c, At(c, tip, events, u), id);
    HistoryGrows(c, tip, events, u, t);
    NextMoves(c, tip, events, t);
  }

  lemma KeysBelow(c: Config, s: State, id: Id)
    requires Inv(c, s) && id in s.rows
    ensures id < s.next
  {
  }

  lemma {:induction false} OnlyCurrentCarried(c: Config, tip: Commit, events: seq<Event>, t: nat, id: Id, sha: Commit)
    requires t <= |events| && Unambiguous(c, tip, events, t)
    requires UnderTest(At(c, tip, events, t)) && TestedSha(At(c, tip, events, t)) == Some(sha)
    requires Carried(c, tip, events, t, id, sha) && id in At(c, tip, events, t).rows
    ensures id in Tester(At(c, tip, events, t)).current
    decreases t
  {
    hide Inv, Step, NewBuild, Run;
    var u :| 0 <= u <= t && CarriedAt(At(c, tip, events, u), id, sha);
    if u == t {
      RunOk(c, tip, events[..t]);
      CarriersAreCurrent(c, At(c, tip, events, t), id, sha);
    } else if !NewBuild(At(c, tip, events, t - 1), At(c, tip, events, t)) {
      NeverAway(c, tip, events, u, t - 1, id);
      NotRebuilt(c, tip, events, t - 1);
      OnlyCurrentCarried(c, tip, events, t - 1, id, sha);
    } else {
      assert UnambiguousAt(c, tip, events, t - 1);
      assert Carried(c, tip, events, t - 1, id, sha);
    }
  }

  lemma NotRebuilt(c: Config, tip: Commit, events: seq<Event>, u: nat)
    requires u < |events| && UnderTest(At(c, tip, events, u + 1))
    requires !NewBuild(At(c, tip, events, u), At(c, tip, events, u + 1))
    ensures var s, s' := At(c, tip, events, u), At(c, tip, events, u + 1);
            UnderTest(s) && TestedSha(s) == TestedSha(s') && Tester(s).current == Tester(s').current
  {
    NextMoves(c, tip, events, u);
    SameBuild(At(c, tip, events, u), At(c, tip, events, u + 1));
  }

  /** Tested is what lands, for every event of a run. The event may carry a
      snapshot of any age, as long as the row really carried that commit once.
      Builds may make the same commit again, as the right half does after its
      left half landed, as long as they are unambiguous; Identity.dfy shows when
      they always are. */
  lemma TestedIsWhatLands(c: Config, tip: Commit, events: seq<Event>, t: nat)
    requires t < |events| && Unambiguous(c, tip, events, t)
    requires var s, e := At(c, tip, events, t), events[t];
             Lands(s, e) && Carried(c, tip, events, t, e.snap.id, e.snap.sha.value)
    ensures var s, e := At(c, tip, events, t), events[t];
            var b := s.batches[e.snap.batch];
            && b.sha == e.snap.sha
            && e.snap.sha.value == Fold(c.noop, b.base, Heads(c, b.current))
            && GreenOn(Recorded(s, e).rows[e.snap.id].checks, e.required.value, b)
            && IsAncestor(e.snap.sha.value, At(c, tip, events, t + 1).target)
            && (Undisturbed(e.w) ==> At(c, tip, events, t + 1).target == e.snap.sha.value)
  {
    hide Inv, Step, Carried, Unambiguous, GreenOn, Undisturbed, Run;
    var s, e := At(c, tip, events, t), events[t];
    AtNext(c, tip, events, t);
    FreshIsLast(c, s, e.snap);
    OnlyCurrentCarried(c, tip, events, t, e.snap.id, e.snap.sha.value);
    LandingFacts(c, s, e);
  }

  // A forge whose commits are never repeated names a build by its commit: a
  // snapshot with the commit under test was read while that very build was
  // tested. Then nothing is asked of heads or builds.

  /** Both states have the same build of the same batch under test. */
  predicate SameTest(s: State, s': State) {
    && UnderTest(s) && UnderTest(s')
    && |s.batches| == |s'.batches| && Tester(s).builds == Tester(s').builds
  }

  /** The row carried the commit under test at some moment of the present build. */
  ghost predicate CarriedInBuild(c: Config, tip: Commit, events: seq<Event>, t: nat, id: Id)
    requires t <= |events|
  {
    exists u :: 0 <= u <= t && SameTest(At(c, tip, events, u), At(c, tip, events, t))
                && CarriedInTest(At(c, tip, events, u), id)
  }

  predicate CarriedInTest(s: State, id: Id)
    requires UnderTest(s)
  {
    id in s.rows && s.rows[id].sha.Some? && s.rows[id].sha == TestedSha(s)
  }

  lemma SameTestBefore(s: State, t: State, u: State)
    requires SameTest(s, u) && Moves(t, u)
    requires |s.batches| <= |t.batches|
    requires s.batches[|s.batches| - 1].builds <= t.batches[|s.batches| - 1].builds
    ensures SameTest(t, u) && Tester(t).current == Tester(u).current
  {
    assert Later(t.batches[|s.batches| - 1], u.batches[|s.batches| - 1]);
  }

  /** While a build is tested, the members under test stay the same. */
  lemma {:induction false} SameTestSameMembers(c: Config, tip: Commit, events: seq<Event>, u: nat, t: nat)
    requires u <= t <= |events| && SameTest(At(c, tip, events, u), At(c, tip, events, t))
    ensures Tester(At(c, tip, events, u)).current == Tester(At(c, tip, events, t)).current
    decreases t
  {
    hide Run, Moves;
    if u < t {
      BuildsGrow(c, tip, events, u, t - 1, |At(c, tip, events, u).batches| - 1);
      NextMoves(c, tip, events, t - 1);
      SameTestBefore(At(c, tip, events, u), At(c, tip, events, t - 1), At(c, tip, events, t));
      SameTestSameMembers(c, tip, events, u, t - 1);
    }
  }

  /** Tested is what lands, with no condition on heads or builds: the snapshot is
      of any age within the present build. */
  lemma TestedInBuildLands(c: Config, tip: Commit, events: seq<Event>, t: nat)
    requires t < |events|
    requires var s, e := At(c, tip, events, t), events[t];
             Lands(s, e) && CarriedInBuild(c, tip, events, t, e.snap.id)
    ensures var s, e := At(c, tip, events, t), events[t];
            var b := s.batches[e.snap.batch];
            && b.sha == e.snap.sha
            && e.snap.sha.value == Fold(c.noop, b.base, Heads(c, b.current))
            && GreenOn(Recorded(s, e).rows[e.snap.id].checks, e.required.value, b)
            && IsAncestor(e.snap.sha.value, At(c, tip, events, t + 1).target)
            && (Undisturbed(e.w) ==> At(c, tip, events, t + 1).target == e.snap.sha.value)
  {
    hide Inv, Step, GreenOn, Undisturbed, Run;
    var s, e := At(c, tip, events, t), events[t];
    AtNext(c, tip, events, t);
    FreshIsLast(c, s, e.snap);
    var u :| 0 <= u <= t && SameTest(At(c, tip, events, u), s) && CarriedInTest(At(c, tip, events, u), e.snap.id);
    RunOk(c, tip, events[..u]);
    CarriersAreCurrent(c, At(c, tip, events, u), e.snap.id, TestedSha(At(c, tip, events, u)).value);
    SameTestSameMembers(c, tip, events, u, t);
    LandingFacts(c, s, e);
  }

  /** In every reachable state, a member under test holds only results reported
      on the commit under test and stored during the present build: two builds
      never mix, not even two that make the same commit. */
  lemma LedgerIsPure(c: Config, tip: Commit, events: seq<Event>, id: Id, context: string)
    requires var s := Run(c, Initial(tip), events);
             UnderTest(s) && id in s.batches[|s.batches| - 1].current && id in s.rows && context in s.rows[id].checks
    ensures var s := Run(c, Initial(tip), events);
            && Some(s.rows[id].checks[context].on) == TestedSha(s)
            && s.rows[id].checks[context].build == s.batches[|s.batches| - 1].builds
  {
    RunOk(c, tip, events);
  }

  /** An event about a commit that is not, or no longer, under test changes
      nothing; one delivered twice acts once. */
  lemma StaleOrRepeatedIsInert(c: Config, s: State, e: Event)
    requires Inv(c, s) && e.Check?
    ensures (e.snap.batch >= |s.batches| || !s.batches[e.snap.batch].phase.Testing? ||
             e.snap.sha.None? || e.snap.sha != s.batches[e.snap.batch].sha) ==> Step(c, s, e) == s
    ensures var s' := Step(c, s, e);
            !Acts(s, e) || !UnderTest(s') || TestedSha(s') != e.snap.sha ==> Step(c, s', e) == s'
  {
    CheckResult(c, s, e);
    if Fresh(s, e.snap) && !Acts(s, e) {
      RepeatRecorded(c, s, e);
    } else {
      StepOk(c, s, e);
      CheckResult(c, Step(c, s, e), e);
    }
  }

  lemma RepeatRecorded(c: Config, s: State, e: Event)
    requires Inv(c, s) && e.Check? && Fresh(s, e.snap) && !Acts(s, e)
    ensures Step(c, s, e) == Recorded(s, e) && Step(c, Recorded(s, e), e) == Recorded(s, e)
  {
    var s1 := Recorded(s, e);
    CheckResult(c, s, e);
    var checks := s1.rows[e.snap.id].checks;
    assert checks[e.context := NewResult(s1, e)] == checks;
    assert Recorded(s1, e) == s1;
    CheckResult(c, s1, e);
  }
}
