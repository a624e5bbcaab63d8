/** Concrete runs from an empty queue: the scenarios that the theorems speak of,
    and the inputs on which the findings rest. */
module Witnesses {
  import opened Lists
  import opened Commits
  import opened Stacking
  import opened Model
  import opened Invariants
  import opened Transitions
  import opened Guarantees
  import opened Landing
  import opened Identity
  import opened Bisection
  import opened Cap
  import opened Bounds
  import opened Races
  import opened Recovery
  import opened Aftermath

  const START := Root(0)

  function HeadOf(i: Id): Commit { Pushed(Root(0), i) }

  /** No batch limit, merges that always commit, and the given cap on builds. */
  function Plain(cap: int): Config { Config(0, cap, false, HeadOf) }

  /** Every merge is clean and nobody pushes during a step. */
  const SMOOTH :=
    World((d: nat) => Root(1), (d: nat) => false, (d: nat) => (i: nat, t: Commit, h: Commit) => Clean)

  lemma SmoothCooperates()
    ensures Cooperates(SMOOTH)
  {
    forall d: nat
      ensures AlwaysClean(SMOOTH.merge(d))
    {
    }
    forall d: nat, tip: Commit
      ensures Ignored(tip, SMOOTH.drift(d))
    {
      assert SMOOTH.drift(d) == Root(1);
    }
  }

  lemma HeadsDiffer(cap: int, s: State)
    ensures DistinctHeads(Plain(cap), s)
  {
    forall i, j | SameHead(Plain(cap), i, j)
      ensures i == j
    {
      assert HeadOf(i) == HeadOf(j);
    }
  }

  lemma RunMore(c: Config, s: State, events: seq<Event>, e: Event)
    ensures Run(c, s, events + [e]) == Step(c, Run(c, s, events), e)
  {
    assert (events + [e])[..|events|] == events;
  }

  function After(cap: int, events: seq<Event>): State { Run(Plain(cap), Initial(START), events) }

  const PAIR: seq<Event> := [Enqueue, Enqueue] + [FormAndBuild(SMOOTH)]

  /** One batch, with these members under test on the target's tip, and these
      slices waiting. */
  ghost predicate Testing1(c: Config, s: State, current: seq<Id>, pending: seq<seq<Id>>) {
    OnTip(c, s) && |s.batches| == 1 && s.batches[0].current == current && s.batches[0].pending == pending
  }

  lemma TwoQueued(c: Config)
    ensures Run(c, Initial(Root(0)), [Enqueue, Enqueue])
         == State(Root(0), 2, map[0 := Row(Queued, None, None, map[]), 1 := Row(Queued, None, None, map[])], [])
  {
    var two: seq<Event> := [Enqueue, Enqueue];
    var row := Row(Queued, None, None, map[]);
    assert two[..1][..0] == [];
    assert Run(c, Initial(Root(0)), two[..1][..0]) == Initial(Root(0));
    assert Run(c, Initial(Root(0)), two[..1]) == Step(c, Initial(Root(0)), Enqueue);
    assert map[][0 := row] == map[0 := row];
  }

  lemma BothTaken(rows: Rows)
    requires {0, 1} <= rows.Keys && rows[0].state.Queued? && rows[1].state.Queued?
    ensures QueuedHead(rows, 2, EVERYTHING) == [0, 1]
  {
    assert QueuedHead(rows, 1, EVERYTHING) == [0];
  }

  lemma PairQueued(cap: int)
    ensures var s := After(cap, [Enqueue, Enqueue]);
            && Inv(Plain(cap), s) && !HasLive(s) && s.batches == [] && s.target == START
            && QueuedHead(s.rows, s.next, Limit(Plain(cap))) == [0, 1]
  {
    TwoQueued(Plain(cap));
    RunOk(Plain(cap), START, [Enqueue, Enqueue]);
    BothTaken(After(cap, [Enqueue, Enqueue]).rows);
  }

  lemma PairFormed(cap: int)
    ensures var s := After(cap, PAIR);
            && Testing1(Plain(cap), s, [0, 1], []) && s.target == START
            && s.batches[0] == Rebuilt(Plain(cap), NewBatch([0, 1], START), START)
  {
    PairQueued(cap);
    SmoothCooperates();
    RunMore(Plain(cap), Initial(START), [Enqueue, Enqueue], FormAndBuild(SMOOTH));
    FormedOnTip(Plain(cap), SMOOTH, After(cap, [Enqueue, Enqueue]));
  }

  // ----- more builds than the cap -------------------------------------------

  const RED := Timeout(0, true, SMOOTH)

  lemma RedIsFail(c: Config, s: State)
    requires |s.batches| == 1
    ensures Step(c, s, RED) == HandleFail(c, SMOOTH, s, 0)
  {
  }

  lemma HalvesOfPair(b: Batch)
    requires b.current == [0, 1] && b.pending == []
    ensures b.Split().current == [0] && b.Split().pending == [[1]]
  {
    assert [0, 1][..1] == [0] && [0, 1][1..] == [1];
  }

  lemma PairSplitRow(c: Config, s: State)
    requires Testing1(c, s, [0, 1], []) && !Capped(c, s.batches[0])
    ensures var s' := HandleFail(c, SMOOTH, s, 0);
            && s'.target == s.target && Inv(c, s')
            && s'.batches == [Rebuilt(c, s.batches[0].Split(), s.target)]
  {
    SmoothCooperates();
    SplitJudged(c, SMOOTH, s, 0);
    FailOk(c, SMOOTH, s, 0);
  }

  lemma RowTests(c: Config, s: State, b: Batch)
    requires Inv(c, s) && s.batches == [Rebuilt(c, b, s.target)]
    ensures Testing1(c, s, b.current, b.pending)
  {
  }

  /** Splitting a pair. */
  lemma PairSplits(c: Config, s: State)
    requires Testing1(c, s, [0, 1], []) && !Capped(c, s.batches[0])
    ensures var s' := Step(c, s, RED);
            && Testing1(c, s', [0], [[1]]) && s'.target == s.target
            && s'.batches[0] == Rebuilt(c, s.batches[0].Split(), s.target)
  {
    RedIsFail(c, s);
    PairSplitRow(c, s);
    HalvesOfPair(s.batches[0]);
    RowTests(c, HandleFail(c, SMOOTH, s, 0), s.batches[0].Split());
  }

  lemma LeftFails(c: Config, s: State)
    requires Testing1(c, s, [0], [[1]])
    ensures |Step(c, s, RED).batches| == 1 && Step(c, s, RED).batches[0].builds == s.batches[0].builds + 1
  {
    SmoothCooperates();
    RedIsFail(c, s);
    SingleJudged(c, SMOOTH, s, 0);
  }

  /** With a cap of two, a batch of two whose first member fails is built three
      times: the pop after the ejection is not stopped by the cap. */
  lemma CapIsNoLimit()
    ensures var events := PAIR + [RED] + [RED];
            var s := After(2, events);
            && |s.batches| == 1 && s.batches[0].builds == 3 > Plain(2).bisectMax
            && Overruns(Plain(2), START, events, 4, 0)
  {
    var c := Plain(2);
    var s3, s4 := After(2, PAIR), After(2, PAIR + [RED]);
    PairFormed(2);
    RunMore(c, Initial(START), PAIR, RED);
    PairSplits(c, s3);
    RunMore(c, Initial(START), PAIR + [RED], RED);
    LeftFails(c, s4);
    assert (PAIR + [RED] + [RED])[..4] == PAIR + [RED];
  }

  // ----- the right half rebuilt on its landed left half ---------------------

  const NONE_BAD: Fault := (i: Id) => false

  lemma GreenLands(c: Config, s: State)
    requires OnTip(c, s)
    ensures Tester(s).current != [] && Lands(s, Report(s, NONE_BAD, SMOOTH))
  {
    ResultDecides(c, s, NONE_BAD, SMOOTH);
    FoldContains(c.noop, Tester(s).base, Heads(c, Tester(s).current));
  }

  lemma LeftLands(c: Config, s: State)
    requires Testing1(c, s, [0], [[1]])
    ensures var s' := Step(c, s, Report(s, NONE_BAD, SMOOTH));
            && Testing1(c, s', [1], []) && s'.target == s.batches[0].sha.value
            && s'.batches[0] == Rebuilt(c, s.batches[0].Land().Pop(), s.batches[0].sha.value)
  {
    SmoothCooperates();
    OneVerdict(c, NONE_BAD, SMOOTH, s);
    assert s.batches[0].pending[..0] == [];
  }

  lemma RightLands(c: Config, s: State)
    requires Testing1(c, s, [1], [])
    ensures var s' := Step(c, s, Report(s, NONE_BAD, SMOOTH));
            && s'.target == s.batches[0].sha.value
            && s'.batches == [s.batches[0].Land().Finish()]
  {
    SmoothCooperates();
    OneVerdict(c, NONE_BAD, SMOOTH, s);
  }

  /** Merging the left heads and then the right ones makes the commit that
      merging them all made. */
  lemma SameCommit(c: Config, target: Commit)
    ensures Fold(c.noop, Fold(c.noop, target, Heads(c, [0])), Heads(c, [1])) == Fold(c.noop, target, Heads(c, [0, 1]))
  {
    assert [0, 1] == [0] + [1];
    HeadsCat(c, [0], [1]);
    FoldCat(c.noop, target, Heads(c, [0]), Heads(c, [1]));
  }

  /** The pair was tested on START as the fold of its heads. */
  lemma PairTested(c: Config, s: State, s1: State, s2: State)
    requires Testing1(c, s, [0, 1], []) && s.target == START
    requires Testing1(c, s1, [0], [[1]]) && s1.target == START
    requires Testing1(c, s2, [1], []) && s2.target == s1.batches[0].sha.value
    ensures s2.batches[0].sha == s.batches[0].sha
  {
    SameCommit(c, START);
  }

  /** The left half has landed, the right half is under test. */
  ghost predicate RightNext(s: State) {
    && Testing1(Plain(0), s, [1], [])
    && s.batches[0].landed == [0] && s.batches[0].ejected == []
    && s.batches[0].builds == 3 && s.batches[0].members == [0, 1]
  }

  predicate SameBuildCommit(s: State, t: State) {
    UnderTest(s) && UnderTest(t) && TestedSha(s) == TestedSha(t)
  }

  lemma LeftHalf() returns (left: Event)
    ensures Lands(After(0, PAIR + [RED]), left)
    ensures RightNext(After(0, PAIR + [RED] + [left]))
    ensures SameBuildCommit(After(0, PAIR), After(0, PAIR + [RED] + [left]))
  {
    var c := Plain(0);
    var s, s1 := After(0, PAIR), After(0, PAIR + [RED]);
    PairFormed(0);
    RunMore(c, Initial(START), PAIR, RED);
    PairSplits(c, s);
    left := Report(s1, NONE_BAD, SMOOTH);
    RunMore(c, Initial(START), PAIR + [RED], left);
    GreenLands(c, s1);
    LeftLands(c, s1);
    PairTested(c, s, s1, After(0, PAIR + [RED] + [left]));
  }

  lemma RightHalf(left: Event) returns (right: Event)
    requires RightNext(After(0, PAIR + [RED] + [left]))
    ensures Lands(After(0, PAIR + [RED] + [left]), right)
    ensures BothLanded(After(0, PAIR + [RED] + [left] + [right]))
  {
    var s := After(0, PAIR + [RED] + [left]);
    right := Report(s, NONE_BAD, SMOOTH);
    GreenLands(Plain(0), s);
    RightLands(Plain(0), s);
    RunMore(Plain(0), Initial(START), PAIR + [RED] + [left], right);
  }

  predicate BothLanded(s: State) {
    |s.batches| == 1 && s.batches[0].phase.Done? && s.batches[0].landed == [0, 1] && s.batches[0].flaky
  }

  /** In the run, the fifth event lands the left half, and the sixth the right
      half, rebuilt as the commit that the pair had at the third. */
  ghost predicate LeftThenRight(events: seq<Event>) {
    && |events| == 6
    && SameBuildCommit(After(0, events[..3]), After(0, events[..5]))
    && Lands(After(0, events[..4]), events[4])
    && Lands(After(0, events[..5]), events[5])
    && BothLanded(After(0, events))
  }

  lemma Prefixes(left: Event, right: Event)
    ensures var events := PAIR + [RED] + [left] + [right];
            && events[..3] == PAIR && events[..4] == PAIR + [RED] && events[4] == left
            && events[..5] == PAIR + [RED] + [left] && events[5] == right
  {
  }

  /** CI flakes on a pair: the left half lands, and the right half is rebuilt as
      the very commit that the pair was tested as. Builds are unambiguous all the
      same, so both landings are landings of what was tested. */
  lemma LeftLandsRightRebuilt() returns (events: seq<Event>)
    ensures LeftThenRight(events) && Unambiguous(Plain(0), START, events, 6)
  {
    var left := LeftHalf();
    var right := RightHalf(left);
    events := PAIR + [RED] + [left] + [right];
    PairFormed(0);
    Prefixes(left, right);
    CloneExtends(Plain(0), START, events, 6);
    HeadsDiffer(0, At(Plain(0), START, events, |events|));
    BuildsAreUnambiguous(Plain(0), START, events, 6);
  }

  // ----- the retry counter outlives an ejection -----------------------------

  function Size(c: Commit): nat {
    match c
    case Root(_) => 1
    case Pushed(p, _) => 1 + Size(p)
    case Merge(p, h) => 1 + Size(p) + Size(h)
  }

  lemma {:induction false} AncestorIsSmaller(a: Commit, c: Commit)
    requires IsAncestor(a, c)
    ensures Size(a) <= Size(c)
    decreases c
  {
    if a != c {
      match c
      case Pushed(p, _) => AncestorIsSmaller(a, p);
      case Merge(p, h) => if IsAncestor(a, p) { AncestorIsSmaller(a, p); } else { AncestorIsSmaller(a, h); }
    }
  }

  /** The push of somebody else on top of the target. */
  function Overtaking(target: Commit): Commit { Pushed(target, 7) }

  lemma OvertakingIsNew(target: Commit, i: Id)
    requires i < 2
    ensures !IsAncestor(Overtaking(target), Commit.Merge(target, HeadOf(i)))
    ensures IsAncestor(target, Overtaking(target))
  {
    if IsAncestor(Overtaking(target), target) { AncestorIsSmaller(Overtaking(target), target); }
    assert HeadOf(i) != Overtaking(target);
    assert !IsAncestor(Overtaking(target), Root(0));
  }

  function RaceRow(c: Config, b: Batch, target: Commit): Batch {
    if b.ffRetries + 1 < MAX_FF_RETRIES then Rebuilt(c, b.Race().Rebuilding(), target)
    else Popped(c, b.Race().Narrow([], b.current), target)
  }

  lemma RaceRebuilt(c: Config, s: State, k: nat)
    requires LiveOk(c, s, k) && s.batches[k].phase.Testing? && s.batches[k].ffRetries + 1 < MAX_FF_RETRIES
    ensures var b, s' := s.batches[k], Build(c, SMOOTH, Put(s, k, s.batches[k].Race().Rebuilding()), k);
            && s'.target == s.target
            && s'.batches == s.batches[k := Rebuilt(c, b.Race().Rebuilding(), s.target)]
  {
    SmoothCooperates();
    var b := s.batches[k];
    RaceOk(c, s, k);
    CleanBuild(c, SMOOTH, Put(s, k, b.Race().Rebuilding()), k);
    UpdateTwice(s.batches, k, b.Race().Rebuilding(), Rebuilt(c, b.Race().Rebuilding(), s.target));
  }

  /** What a refused fast-forward leads to. */
  function Refused(c: Config, s: State, k: nat): State
    requires k < |s.batches|
  {
    if s.batches[k].ffRetries + 1 < MAX_FF_RETRIES
    then Build(c, SMOOTH, Put(s, k, s.batches[k].Race().Rebuilding()), k)
    else Next(c, SMOOTH, EjectCurrent(Put(s, k, s.batches[k].Race()), k), k)
  }

  lemma RaceIsRefused(c: Config, s: State, k: nat)
    requires k < |s.batches| && s.batches[k].phase.Testing? && s.batches[k].sha.Some?
    requires !IsAncestor(s.target, s.batches[k].sha.value)
    ensures HandlePass(c, SMOOTH, Reach, s, k) == Refused(c, s, k)
  {
    PutTwice(s, k, s.batches[k].Race(), s.batches[k].Race().Rebuilding());
  }

  lemma RefusedRow(c: Config, s: State, k: nat)
    requires LiveOk(c, s, k) && s.batches[k].phase.Testing?
    ensures var s' := Refused(c, s, k);
            s'.target == s.target && s'.batches == s.batches[k := RaceRow(c, s.batches[k], s.target)]
  {
    if s.batches[k].ffRetries + 1 < MAX_FF_RETRIES { RaceRebuilt(c, s, k); } else { GaveUp(c, s, k); }
  }

  lemma RaceJudged(c: Config, s: State, k: nat)
    requires LiveOk(c, s, k) && s.batches[k].phase.Testing? && !IsAncestor(s.target, s.batches[k].sha.value)
    ensures var s' := HandlePass(c, SMOOTH, Reach, s, k);
            s'.target == s.target && s'.batches == s.batches[k := RaceRow(c, s.batches[k], s.target)]
  {
    RaceIsRefused(c, s, k);
    RefusedRow(c, s, k);
  }

  lemma GaveUp(c: Config, s: State, k: nat)
    requires LiveOk(c, s, k) && s.batches[k].phase.Testing?
    ensures var b, s' := s.batches[k], Next(c, SMOOTH, EjectCurrent(Put(s, k, s.batches[k].Race()), k), k);
            && s'.target == s.target
            && s'.batches == s.batches[k := Popped(c, b.Race().Narrow([], b.current), s.target)]
  {
    SmoothCooperates();
    var s1 := Put(s, k, s.batches[k].Race());
    RaceOk(c, s, k);
    GiveUpOk(c, s1, k);
    EjectCurrentRow(c, s1, k);
    UpdateTwice(s.batches, k, s.batches[k].Race(), s.batches[k].Race().Narrow([], s.batches[k].current));
    AfterEject(c, SMOOTH, s, EjectCurrent(s1, k), k, s.batches[k].Race().Narrow([], s.batches[k].current));
  }

  /** One member under test, these slices waiting, so many races so far. */
  ghost predicate Chased(s: State, i: Id, pending: seq<seq<Id>>, retries: nat, ejected: seq<Id>) {
    && Testing1(Plain(0), s, [i], pending)
    && s.batches[0].ffRetries == retries && s.batches[0].ejected == ejected && s.batches[0].landed == []
  }

  lemma FoldOne(target: Commit, i: Id)
    ensures Fold(false, target, Heads(Plain(0), [i])) == Commit.Merge(target, HeadOf(i))
  {
    var one: seq<Id> := [i];
    assert one[..0] == [];
    assert Heads(Plain(0), one) == [HeadOf(i)];
    assert [HeadOf(i)][..0] == [];
  }

  lemma SingleSha(s: State, i: Id, pending: seq<seq<Id>>)
    requires Testing1(Plain(0), s, [i], pending)
    ensures s.batches[0].sha == Some(Commit.Merge(s.target, HeadOf(i)))
  {
    FoldOne(s.target, i);
    assert Tested(Plain(0), s, 0);
  }

  lemma GreenIsPass(c: Config, s: State, e: Event)
    requires e.Check? && Fresh(s, e.snap) && Decision(s, e).Passes?
    ensures Step(c, s, e) == HandlePass(c, e.w, e.push, Recorded(s, e), e.snap.batch)
  {
  }

  lemma GreenPasses(c: Config, s: State)
    requires Inv(c, s) && UnderTest(s) && |s.batches| == 1
    ensures Tester(s).current != []
    ensures var e := Report(s, NONE_BAD, SMOOTH);
            && Fresh(s, e.snap) && Decision(s, e).Passes?
            && Inv(c, Recorded(s, e)) && Recorded(s, e).batches == s.batches && Recorded(s, e).target == s.target
            && Step(c, s, e) == HandlePass(c, SMOOTH, Reach, Recorded(s, e), 0)
  {
    ResultDecides(c, s, NONE_BAD, SMOOTH);
    CheckResult(c, s, Report(s, NONE_BAD, SMOOTH));
    GreenIsPass(c, s, Report(s, NONE_BAD, SMOOTH));
  }

  /** The target moved on while the batch was tested, and now it is green. */
  lemma GreenRaces(c: Config, s: State)
    requires Inv(c, s) && UnderTest(s) && |s.batches| == 1
    requires s.batches[0].sha.Some? && !IsAncestor(s.target, s.batches[0].sha.value)
    ensures Tester(s).current != []
    ensures var e := Report(s, NONE_BAD, SMOOTH);
            && Raced(s, e) && Inv(c, Step(c, s, e)) && Step(c, s, e).target == s.target
            && Step(c, s, e).batches == [RaceRow(c, s.batches[0], s.target)]
  {
    GreenPasses(c, s);
    var e := Report(s, NONE_BAD, SMOOTH);
    StepOk(c, s, e);
    AnyBatch(c, Recorded(s, e), 0);
    RaceJudged(c, Recorded(s, e), 0);
  }

  /** Somebody pushes, and then the build turns green. */
  lemma Overtaken(s: State, i: Id, pending: seq<seq<Id>>, retries: nat, ejected: seq<Id>)
    requires Chased(s, i, pending, retries, ejected) && i < 2
    ensures var c := Plain(0);
            var s1 := s.(target := Overtaking(s.target));
            && UnderTest(s1) && Tester(s1).current != []
            && var e := Report(s1, NONE_BAD, SMOOTH);
               var s' := Step(c, s1, e);
               && Raced(s1, e) && Inv(c, s') && s'.target == Overtaking(s.target)
               && s'.batches == [RaceRow(c, s.batches[0], s'.target)]
  {
    OvertakingIsNew(s.target, i);
    SingleSha(s, i, pending);
    TargetOk(Plain(0), s, Overtaking(s.target));
    GreenRaces(Plain(0), s.(target := Overtaking(s.target)));
  }

  lemma OvertakingMoves(c: Config, s: State)
    ensures Step(c, s, OutsidePush(Overtaking(s.target))) == s.(target := Overtaking(s.target))
  {
    assert IsAncestor(s.target, s.target);
  }

  /** The same, as two more events of a run. */
  lemma ChaseMore(events: seq<Event>, i: Id, pending: seq<seq<Id>>, retries: nat, ejected: seq<Id>)
    returns (green: Event)
    requires Chased(After(0, events), i, pending, retries, ejected) && i < 2
    ensures var s := After(0, events);
            var push := OutsidePush(Overtaking(s.target));
            && Raced(After(0, events + [push]), green)
            && var s' := After(0, events + [push] + [green]);
               && Inv(Plain(0), s') && s'.target == Overtaking(s.target)
               && s'.batches == [RaceRow(Plain(0), s.batches[0], s'.target)]
  {
    var c, s := Plain(0), After(0, events);
    var push := OutsidePush(Overtaking(s.target));
    Overtaken(s, i, pending, retries, ejected);
    OvertakingMoves(c, s);
    green := Report(s.(target := Overtaking(s.target)), NONE_BAD, SMOOTH);
    RunMore(c, Initial(START), events, push);
    RunMore(c, Initial(START), events + [push], green);
  }

  /** The first two races build the slice again. */
  lemma ChaseAgain(events: seq<Event>, retries: nat) returns (events': seq<Event>)
    requires Chased(After(0, events), 0, [[1]], retries, []) && retries < 2
    ensures Chased(After(0, events'), 0, [[1]], retries + 1, [])
  {
    var green := ChaseMore(events, 0, [[1]], retries, []);
    events' := events + [OutsidePush(Overtaking(After(0, events).target))] + [green];
  }

  /** The third race gives it up, and the next slice is popped. */
  lemma ChaseAway(events: seq<Event>) returns (events': seq<Event>)
    requires Chased(After(0, events), 0, [[1]], 2, [])
    ensures Chased(After(0, events'), 1, [], 3, [0])
  {
    var green := ChaseMore(events, 0, [[1]], 2, []);
    events' := events + [OutsidePush(Overtaking(After(0, events).target))] + [green];
    assert [[1]][..0] == [] && [] + [0] == [0];
  }

  /** The right half is given up without another build. */
  predicate RightRaces(s: State, s': State) {
    && |s.batches| == 1 && s.batches[0].Live() && s.batches[0].current == [1] && s.batches[0].ejected == [0]
    && |s'.batches| == 1 && s'.batches[0].phase.Done? && s'.batches[0].ejected == [0, 1]
    && s'.batches[0].landed == [] && s'.batches[0].extra == s.batches[0].extra
  }

  /** Its first race gives the popped slice up at once. */
  lemma ChaseLast(events: seq<Event>) returns (before: seq<Event>, green: Event)
    requires Chased(After(0, events), 1, [], 3, [0])
    ensures Raced(After(0, before), green) && RightRaces(After(0, before), After(0, before + [green]))
    ensures After(0, before).batches[0].ffRetries == 3
  {
    hide Inv, Fold, Run;
    var push := OutsidePush(Overtaking(After(0, events).target));
    green := ChaseMore(events, 1, [], 3, [0]);
    before := events + [push];
    RunMore(Plain(0), Initial(START), events, push);
  }

  lemma LeftAlone()
    ensures Chased(After(0, PAIR + [RED]), 0, [[1]], 0, [])
  {
    PairFormed(0);
    RunMore(Plain(0), Initial(START), PAIR, RED);
    PairSplits(Plain(0), After(0, PAIR));
  }

  /** A run in which three races eject the left half, the right half is popped,
      and its first race ejects it too: the counter stood at three already. */
  lemma RacesOutliveEjection() returns (events: seq<Event>)
    ensures |events| > 0
    ensures var t := |events| - 1;
            var s, s' := At(Plain(0), START, events, t), At(Plain(0), START, events, t + 1);
            && Raced(s, events[t]) && RightRaces(s, s')
            && Streak(Plain(0), START, events, t, 0) == 3
  {
    hide Chased, Step, Inv, RightRaces, Overtaking;
    LeftAlone();
    var once := ChaseAgain(PAIR + [RED], 0);
    var twice := ChaseAgain(once, 1);
    var away := ChaseAway(twice);
    var before, green := ChaseLast(away);
    events := before + [green];
    assert events[..|before|] == before && events[..|before| + 1] == events;
    RetriesAreStreak(Plain(0), START, events, |before|, 0);
  }

  // ----- a late removal -----------------------------------------------------

  /** The first head conflicts, the others merge. */
  const FIRST_CONFLICTS :=
    World((d: nat) => Root(1), (d: nat) => false,
          (d: nat) => (i: nat, t: Commit, h: Commit) => if i == 0 then Conflict else Clean)

  const TRIO: seq<Event> := [Enqueue, Enqueue] + [Enqueue] + [FormAndBuild(SMOOTH)]

  lemma TrioQueued()
    ensures var s := After(0, [Enqueue, Enqueue] + [Enqueue]);
            && Inv(Plain(0), s) && !HasLive(s) && s.batches == []
            && QueuedHead(s.rows, s.next, Limit(Plain(0))) == [0, 1, 2]
  {
    var s := After(0, [Enqueue, Enqueue] + [Enqueue]);
    TwoQueued(Plain(0));
    RunMore(Plain(0), Initial(START), [Enqueue, Enqueue], Enqueue);
    RunOk(Plain(0), START, [Enqueue, Enqueue] + [Enqueue]);
    BothTaken(s.rows);
  }

  lemma TrioFormed()
    ensures var s := After(0, TRIO);
            && Testing1(Plain(0), s, [0, 1, 2], []) && s.batches[0].members == [0, 1, 2] && s.batches[0].ejected == []
  {
    TrioQueued();
    SmoothCooperates();
    RunMore(Plain(0), Initial(START), [Enqueue, Enqueue] + [Enqueue], FormAndBuild(SMOOTH));
    FormedOnTip(Plain(0), SMOOTH, After(0, [Enqueue, Enqueue] + [Enqueue]));
  }

  /** Of two heads the first conflicts. */
  lemma SecondStays(onto: Commit, a: Id, b: Id)
    requires a != b
    ensures var answers := Stacked(false, onto, Heads(Plain(0), [a, b]), FIRST_CONFLICTS.merge(0)).answers;
            && |answers| == 2
            && Pick<Id>([a, b], answers, true) == [b] && Pick<Id>([a, b], answers, false) == [a]
  {
    var heads := Heads(Plain(0), [a, b]);
    var answers := Stacked(false, onto, heads, FIRST_CONFLICTS.merge(0)).answers;
    var one := Stacked(false, onto, heads[..1], FIRST_CONFLICTS.merge(0));
    assert heads[..1][..0] == [];
    assert one.answers == [Conflict];
    assert |heads| == 2 && FIRST_CONFLICTS.merge(0)(1, one.tip, heads[1]) == Clean;
    assert answers == one.answers + [Clean];
    assert [a, b][..1] == [a] && answers[..1] == [Conflict];
    assert [a][..0] == [] && [Conflict][..0] == [];
    assert Pick<Id>([], [], true) == [] && Pick<Id>([], [], false) == [];
    assert Pick<Id>([a], [Conflict], true) == [] && Pick<Id>([a], [Conflict], false) == [a];
  }

  lemma WithoutFirst()
    ensures Without<Id>([0, 1, 2], 0) == [1, 2] && Trim<Id>([], 0) == []
  {
    assert [0, 1, 2][..2] == [0, 1] && [0, 1][..1] == [0] && [0][..0] == [];
    assert Without<Id>([0], 0) == [];
    assert Without<Id>([0, 1], 0) == [1];
  }

  /** The row of the batch when the first member was removed and the second is
      found to conflict. */
  ghost predicate Dropped(s: State, ejected: seq<Id>) {
    && |s.batches| == 1 && s.batches[0].phase.Testing? && s.batches[0].members == [0, 1, 2]
    && s.batches[0].current == [2] && s.batches[0].pending == [] && s.batches[0].ejected == ejected
    && 1 !in s.rows
  }

  lemma RebuiltWithoutFirst(t: State)
    requires |t.batches| == 1 && t.batches[0].current == [1, 2] && t.batches[0].pending == []
    requires t.batches[0].members == [0, 1, 2] && t.batches[0].ejected == [0]
    requires 1 in t.rows && 2 in t.rows
    ensures Dropped(Build(Plain(0), FIRST_CONFLICTS, t, 0), [0, 1])
  {
    var w := FIRST_CONFLICTS;
    ExistingAll(t.rows, [1, 2]);
    SecondStays(Onto(w, t, 0), 1, 2);
    var s1 := Weeded(Plain(0), w, t, 0);
    assert s1.batches[0] == t.batches[0].Narrow([2], [1]);
    assert s1.batches[0].ejected == [0] + [1] == [0, 1];
  }

  lemma FirstRemoved(s: State)
    requires Testing1(Plain(0), s, [0, 1, 2], []) && s.batches[0].members == [0, 1, 2] && s.batches[0].ejected == []
    ensures NamedBy(s, 0, Some(0)) && NamedBy(s, 1, Some(0))
    ensures Dropped(Step(Plain(0), s, Remove(0, Some(0), FIRST_CONFLICTS)), [0, 1])
  {
    hide Removal, Dropped, Build, Batch.Account, Inv;
    var c, b, e := Plain(0), s.batches[0], Remove(0, Some(0), FIRST_CONFLICTS);
    TrioRows(s);
    AddressedStep(c, s, e, 0);
    RemovedIs(c, FIRST_CONFLICTS, s, 0, 0);
    TrioWithoutFirst(b);
    RebuiltWithoutFirst(Discarded(s, 0, b.Discard(0).Rebuilding(), 0));
  }

  lemma TrioRows(s: State)
    requires Testing1(Plain(0), s, [0, 1, 2], [])
    ensures NamedBy(s, 0, Some(0)) && NamedBy(s, 1, Some(0)) && NamedBy(s, 2, Some(0))
  {
    var b := s.batches[0];
    assert b.InPlay(0) && b.InPlay(1) && b.InPlay(2);
  }

  lemma TrioWithoutFirst(b: Batch)
    requires b.current == [0, 1, 2] && b.pending == [] && b.ejected == []
    ensures b.Discard(0).current == [1, 2] && b.Discard(0).pending == [] && b.Discard(0).ejected == [0]
  {
    WithoutFirst();
  }

  lemma SecondRemoved(s: State)
    requires Dropped(s, [0, 1])
    ensures Dropped(Step(Plain(0), s, Remove(1, Some(0), FIRST_CONFLICTS)), [0, 1, 1])
  {
    RemovedIs(Plain(0), FIRST_CONFLICTS, s, 0, 1);
    WithoutAbsent([2], 1);
    assert [0, 1] + [1] == [0, 1, 1];
  }

  /** One poll finds the first two PRs of a batch of three closed. Removing the
      first builds the rest again, and there the second conflicts and is ejected;
      then the poll comes to the second in the list it read before, and the batch
      notes it a second time. */
  lemma LateRemovalCountsTwice()
    ensures var first, second := Remove(0, Some(0), FIRST_CONFLICTS), Remove(1, Some(0), FIRST_CONFLICTS);
            var s := After(0, TRIO + [first] + [second]);
            && NamedBy(After(0, TRIO), 0, Some(0)) && NamedBy(After(0, TRIO), 1, Some(0))
            && Dropped(s, [0, 1, 1]) && !Exact(s.batches[0])
  {
    var first, second := Remove(0, Some(0), FIRST_CONFLICTS), Remove(1, Some(0), FIRST_CONFLICTS);
    var s := After(0, TRIO + [first] + [second]);
    TrioFormed();
    FirstRemoved(After(0, TRIO));
    RunMore(Plain(0), Initial(START), TRIO, first);
    SecondRemoved(After(0, TRIO + [first]));
    RunMore(Plain(0), Initial(START), TRIO + [first], second);
    TwiceIsNotExact(s.batches[0]);
  }

  lemma TwiceIsNotExact(b: Batch)
    requires b.members == [0, 1, 2] && b.ejected == [0, 1, 1]
    ensures !Exact(b)
  {
    assert multiset([0, 1, 2])[1] == 1 && multiset([0, 1, 1])[1] == 2;
    assert b.Account()[1] >= multiset(b.ejected)[1];
  }

  // ----- what a crash loses -------------------------------------------------

  /** The program took these rows out and stopped before it saved the batch. */
  function CrashedAfter(s: State, gone: seq<Id>): State { s.(rows := Dequeued(s.rows, gone)) }

  lemma CrashIsRecoverable(c: Config, s: State, gone: seq<Id>)
    requires Inv(c, s)
    ensures Recoverable(CrashedAfter(s, gone))
  {
    InvIsRecoverable(c, s);
    FewerCarriers(s, Dequeued(s.rows, gone));
  }

  lemma TwoSteps(c: Config, s: State, e: Event, f: Event)
    ensures Run(c, s, [e, f]) == Step(c, Step(c, s, e), f)
  {
    assert [e, f][..1] == [e] && [e][..0] == [];
    assert Run(c, s, [e]) == Step(c, s, e);
  }

  lemma LeftAloneTests()
    ensures var s := After(0, PAIR + [RED]);
            Testing1(Plain(0), s, [0], [[1]]) && s.batches[0].landed == [] && s.batches[0].ejected == []
  {
    LeftAlone();
  }

  /** Reconciling a batch under test leaves its row as it is. */
  lemma RestampKeepsRow(c: Config, w: World, s: State)
    requires UnderTest(s) && TestedSha(s).Some?
    ensures Step(c, s, Reconcile(w)).batches == s.batches && Step(c, s, Reconcile(w)).rows.Keys == s.rows.Keys
  {
  }

  /** The left half is alone under test, and its member's row is gone: the batch
      was being failed, or had been pushed. The next timeout loses track of the
      member, whatever else happens; the one that waits, with its row, is kept. */
  lemma CrashLosesTested(w: World)
    ensures var s := CrashedAfter(After(0, PAIR + [RED]), [0]);
            var t := Run(Plain(0), s, [Reconcile(w), Timeout(0, true, w)]);
            && Recoverable(s) && Adrift(s, 0, 0) && Forgotten(t, 0, 0) && Safe(t, 0, 1)
  {
    var c, s := Plain(0), CrashedAfter(After(0, PAIR + [RED]), [0]);
    LeftAloneTests();
    CrashIsRecoverable(c, After(0, PAIR + [RED]), [0]);
    assert s.batches[0].InPlay(0);
    WaitingHasRow(s, After(0, PAIR + [RED]));
    hide Recoverable, Inv, Run, Step;
    TimeoutLoses(c, s, w);
    SafeForever(c, s, [Reconcile(w), Timeout(0, true, w)], 0, 1);
  }

  lemma TimeoutLoses(c: Config, s: State, w: World)
    requires Recoverable(s) && |s.batches| == 1 && UnderTest(s) && TestedSha(s).Some?
    requires Tester(s).current == [0] && Adrift(s, 0, 0)
    ensures Forgotten(Run(c, s, [Reconcile(w), Timeout(0, true, w)]), 0, 0)
  {
    TwoSteps(c, s, Reconcile(w), Timeout(0, true, w));
    RestampKeepsAdrift(c, s, w, 0);
    TimeoutForgets(c, Step(c, s, Reconcile(w)), w);
  }

  lemma RestampKeepsAdrift(c: Config, s: State, w: World, i: Id)
    requires Recoverable(s) && |s.batches| == 1 && UnderTest(s) && TestedSha(s).Some? && Adrift(s, 0, i)
    ensures var s1 := Step(c, s, Reconcile(w));
            Recoverable(s1) && s1.batches == s.batches && s1.rows.Keys == s.rows.Keys && Adrift(s1, 0, i)
  {
    RestampKeepsRow(c, w, s);
    StepRecovers(c, s, Reconcile(w));
  }

  lemma TimeoutForgets(c: Config, s: State, w: World)
    requires Recoverable(s) && |s.batches| == 1 && UnderTest(s) && Tester(s).current == [0] && Adrift(s, 0, 0)
    ensures Forgotten(Step(c, s, Timeout(0, true, w)), 0, 0)
  {
    hide Recoverable, Step, PopStacks;
    AdriftFate(c, s, Timeout(0, true, w), 0, 0);
    assert Loses(c, s, Timeout(0, true, w), 0, 0);
  }

  lemma WaitingHasRow(s: State, before: State)
    requires Testing1(Plain(0), before, [0], [[1]]) && s == CrashedAfter(before, [0])
    ensures Safe(s, 0, 1)
  {
    assert [[1]][..0] == [];
    assert before.batches[0].InPlay(1);
  }

  /** The same crash after the push: the head is on the target already when the
      batch loses track of it. */
  lemma CrashLosesLanded(w: World)
    ensures var before := After(0, PAIR + [RED]);
            && UnderTest(before) && TestedSha(before).Some?
            && var s := CrashedAfter(before, [0]).(target := TestedSha(before).value);
               && Recoverable(s) && IsAncestor(HeadOf(0), s.target)
               && Forgotten(Run(Plain(0), s, [Reconcile(w), Timeout(0, true, w)]), 0, 0)
  {
    var c, before := Plain(0), After(0, PAIR + [RED]);
    LeftAloneTests();
    SingleSha(before, 0, [[1]]);
    var s := CrashedAfter(before, [0]).(target := TestedSha(before).value);
    CrashIsRecoverable(c, before, [0]);
    OutsideRecovers(CrashedAfter(before, [0]), s.target);
    assert s.batches[0].InPlay(0);
    TimeoutLoses(c, s, w);
  }

  /** A waiting member's row is gone and its removal was not reported: the pop of
      its slice loses track of it. */
  lemma CrashLosesWaiting(w: World)
    requires !w.broken(0)
    ensures var s := CrashedAfter(After(0, PAIR + [RED]), [1]);
            && Recoverable(s) && Adrift(s, 0, 1)
            && Forgotten(Run(Plain(0), s, [Reconcile(w), Timeout(0, true, w)]), 0, 1)
  {
    var c, s := Plain(0), CrashedAfter(After(0, PAIR + [RED]), [1]);
    LeftAloneTests();
    CrashIsRecoverable(c, After(0, PAIR + [RED]), [1]);
    assert [[1]][..0] == [];
    assert s.batches[0].InPlay(1);
    TwoSteps(c, s, Reconcile(w), Timeout(0, true, w));
    RestampKeepsAdrift(c, s, w, 1);
    PopForgets(c, Step(c, s, Reconcile(w)), w);
  }

  lemma PopForgets(c: Config, s: State, w: World)
    requires Recoverable(s) && |s.batches| == 1 && UnderTest(s) && Tester(s).current == [0] && Adrift(s, 0, 1)
    requires Tester(s).pending == [[1]] && !w.broken(0)
    ensures Forgotten(Step(c, s, Timeout(0, true, w)), 0, 1)
  {
    hide Recoverable, Step;
    AdriftFate(c, s, Timeout(0, true, w), 0, 1);
    assert [[1]][..0] == [];
    assert PopStacks(c, w, EjectCurrent(s, 0), 0, 1);
    assert Loses(c, s, Timeout(0, true, w), 0, 1);
  }

  /** A conflicting member's row is gone and the batch was not saved yet: building
      the forming batch again loses track of it. */
  lemma CrashLosesForming(w: World)
    requires !w.broken(0)
    ensures var s := CrashedAfter(Adopted(Plain(0), After(0, [Enqueue, Enqueue])), [0]);
            && Recoverable(s) && Adrift(s, 0, 0) && Forgotten(Step(Plain(0), s, Reconcile(w)), 0, 0)
  {
    hide Recoverable, Inv, Run, Step;
    FormingCrash();
    AdriftFate(Plain(0), CrashedAfter(Adopted(Plain(0), After(0, [Enqueue, Enqueue])), [0]), Reconcile(w), 0, 0);
  }

  lemma FormingCrash()
    ensures var s := CrashedAfter(Adopted(Plain(0), After(0, [Enqueue, Enqueue])), [0]);
            && Recoverable(s) && Adrift(s, 0, 0)
            && s.batches[0].phase.Forming? && s.batches[0].current == [0, 1] && s.batches[0].pending == []
  {
    var c, idle := Plain(0), After(0, [Enqueue, Enqueue]);
    PairQueued(0);
    InvIsRecoverable(c, idle);
    AdoptedCrash(c, idle);
  }

  lemma AdoptedCrash(c: Config, idle: State)
    requires Recoverable(idle) && !HasLive(idle) && idle.batches == []
    requires QueuedHead(idle.rows, idle.next, Limit(c)) == [0, 1]
    ensures var s := CrashedAfter(Adopted(c, idle), [0]);
            && Recoverable(s) && Adrift(s, 0, 0)
            && s.batches[0].phase.Forming? && s.batches[0].current == [0, 1] && s.batches[0].pending == []
  {
    hide Midway, QueuedHead, Apart;
    var formed := Adopted(c, idle);
    AdoptMidway(c, idle);
    SavedFits(formed, 0);
    hide Recoverable;
    FewerCarriers(formed, Dequeued(formed.rows, [0]));
    assert formed.batches == [NewBatch([0, 1], idle.target)];
    assert CrashedAfter(formed, [0]).batches[0].InPlay(0);
  }

  /** Both members of a pair were pushed and their rows taken out when the program
      stopped: nobody is left to report on the batch. */
  lemma CrashSilences(w: World)
    ensures var s := CrashedAfter(After(0, PAIR), [0, 1]);
            Recoverable(s) && Silent(Step(Plain(0), s, Reconcile(w)))
  {
    PairFormed(0);
    CrashIsRecoverable(Plain(0), After(0, PAIR), [0, 1]);
    RestampKeepsRow(Plain(0), w, CrashedAfter(After(0, PAIR), [0, 1]));
  }
}
