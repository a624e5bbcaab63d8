/** How many builds a batch can cost and how many verdicts it can absorb,
    against arbitrary CI results, conflicts, races, failures and removals. */
module Bounds {
  import opened Lists
  import opened Commits
  import opened Model
  import opened Invariants
  import opened Transitions
  import opened Guarantees

  /** The unconditional bound: a bisection tree over all members, plus two
      fast-forward races for each landing and for the end. */
  lemma BuildBound(c: Config, tip: Commit, events: seq<Event>, j: nat)
    requires j < |Run(c, Initial(tip), events).batches|
    ensures var b := Run(c, Initial(tip), events).batches[j];
            b.builds <= 2 * |b.members| - 1 + 2 * |b.landed| + 2
  {
    RunOk(c, tip, events);
    var s := Run(c, Initial(tip), events);
    AnyBatch(c, s, j);
    if s.batches[j].Live() { OwedNat(s.batches[j].pending); }
  }

  // ----- verdicts -----------------------------------------------------------

  /** The event is a verdict on batch `k`, or takes away a member under test. */
  predicate Bites(s: State, e: Event, k: nat) {
    k < |s.batches| &&
    match e
    case Check(snap, _, _, _, _, _, _) => Acts(s, e) && snap.batch == k
    case Timeout(batch, elapsed, _) => batch == k && elapsed && s.batches[k].phase.Testing?
    case Remove(id, _, _) => Addresses(s, e, k) && id in s.batches[k].current
    case _ => false
  }

  lemma WaitingCredit(b: Batch, id: Id)
    requires Accounted(b) && [] !in b.pending && id !in b.current
    ensures Credit(b.Discard(id)) <= Credit(b)
  {
    DiscardBatch(b, id);
  }

  lemma RemoveCredit(c: Config, s: State, e: Event, k: nat)
    requires Inv(c, s) && e.Remove? && k < |s.batches|
    ensures k < |Step(c, s, e).batches|
    ensures Credit(Step(c, s, e).batches[k]) <= Credit(s.batches[k])
    ensures Bites(s, e, k) ==> Credit(Step(c, s, e).batches[k]) < Credit(s.batches[k])
  {
    AnyBatch(c, s, k);
    hide Batch.Account, Inv, Step, Credit;
    if Addresses(s, e, k) {
      AddressedStep(c, s, e, k);
      if e.id !in s.batches[k].current { WaitingCredit(s.batches[k], e.id); }
    } else if s.batches[k].Live() {
      NotAddressed(c, s, e, k);
    } else {
      StepMoves(c, s, e);
      assert Later(s.batches[k], Step(c, s, e).batches[k]);
    }
  }

  lemma CheckCredit(c: Config, s: State, e: Event, k: nat)
    requires Inv(c, s) && e.Check? && k < |s.batches|
    ensures k < |Step(c, s, e).batches|
    ensures Credit(Step(c, s, e).batches[k]) <= Credit(s.batches[k])
    ensures Bites(s, e, k) ==> Credit(Step(c, s, e).batches[k]) < Credit(s.batches[k])
  {
    CheckResult(c, s, e);
    if Acts(s, e) {
      assert Recorded(s, e).batches == s.batches;
    }
  }

  lemma TimeoutCredit(c: Config, s: State, e: Event, k: nat)
    requires Inv(c, s) && e.Timeout? && k < |s.batches|
    ensures k < |Step(c, s, e).batches|
    ensures Credit(Step(c, s, e).batches[k]) <= Credit(s.batches[k])
    ensures Bites(s, e, k) ==> Credit(Step(c, s, e).batches[k]) < Credit(s.batches[k])
  {
    hide Inv, LiveOk, Credit, Batch.Account;
    AnyBatch(c, s, k);
    if e.batch < |s.batches| && e.elapsed && s.batches[e.batch].phase.Testing? {
      AnyBatch(c, s, e.batch);
      FailOk(c, e.w, s, e.batch);
    }
  }

  lemma BuildCredit(c: Config, s: State, e: Event, k: nat)
    requires Inv(c, s) && (e.FormAndBuild? || e.Reconcile?) && k < |s.batches|
    ensures k < |Step(c, s, e).batches|
    ensures Credit(Step(c, s, e).batches[k]) <= Credit(s.batches[k])
  {
    AnyBatch(c, s, k);
    StepMoves(c, s, e);
    if s.batches[k].Live() {
      if s.batches[k].phase.Forming? { BuildOk(c, e.w, s, k); }
    } else {
      assert Later(s.batches[k], Step(c, s, e).batches[k]);
    }
  }

  /** A verdict, or a removal of a member under test, strictly reduces the
      credit of its batch; nothing ever raises it. */
  lemma StepCredit(c: Config, s: State, e: Event, k: nat)
    requires Inv(c, s) && k < |s.batches|
    ensures k < |Step(c, s, e).batches|
    ensures Credit(Step(c, s, e).batches[k]) <= Credit(s.batches[k])
    ensures Bites(s, e, k) ==> Credit(Step(c, s, e).batches[k]) < Credit(s.batches[k])
  {
    match e
    case Check(_, _, _, _, _, _, _) => CheckCredit(c, s, e, k);
    case Timeout(_, _, _) => TimeoutCredit(c, s, e, k);
    case Remove(_, _, _) => RemoveCredit(c, s, e, k);
    case FormAndBuild(_) => BuildCredit(c, s, e, k);
    case Reconcile(_) => BuildCredit(c, s, e, k);
    case _ =>
  }

  lemma NewCredit(c: Config, s: State, e: Event)
    requires Inv(c, s) && |s.batches| < |Step(c, s, e).batches|
    ensures var b := Step(c, s, e).batches[|s.batches|]; Credit(b) <= 6 * |b.members| - 3
    ensures |Step(c, s, e).batches| == |s.batches| + 1
  {
    hide Inv, Step;
    NewIsAdopted(c, s, e);
  }

  function BiteCount(c: Config, tip: Commit, events: seq<Event>, t: nat, k: nat): nat
    requires t <= |events|
  {
    if t == 0 then 0
    else BiteCount(c, tip, events, t - 1, k) + if Bites(At(c, tip, events, t - 1), events[t - 1], k) then 1 else 0
  }

  lemma {:induction false} NoBitesBefore(c: Config, tip: Commit, events: seq<Event>, t: nat, k: nat)
    requires t <= |events| && |At(c, tip, events, t).batches| <= k
    ensures BiteCount(c, tip, events, t, k) == 0
  {
    if t > 0 {
      HistoryGrows(c, tip, events, t - 1, t);
      NoBitesBefore(c, tip, events, t - 1, k);
    }
  }

  lemma SpendStep(c: Config, s: State, e: Event, k: nat, spent: nat)
    requires Inv(c, s) && k < |s.batches|
    requires spent + Credit(s.batches[k]) <= 6 * |s.batches[k].members| - 3
    ensures k < |Step(c, s, e).batches|
    ensures var b := Step(c, s, e).batches[k];
            spent + (if Bites(s, e, k) then 1 else 0) + Credit(b) <= 6 * |b.members| - 3
  {
    StepCredit(c, s, e, k);
    StepMoves(c, s, e);
    assert Later(s.batches[k], Step(c, s, e).batches[k]);
  }

  lemma NoBiteYet(c: Config, tip: Commit, events: seq<Event>, t: nat, k: nat)
    requires t < |events| && |At(c, tip, events, t).batches| <= k
    ensures BiteCount(c, tip, events, t + 1, k) == 0
  {
    NoBitesBefore(c, tip, events, t, k);
  }

  lemma SpendNew(c: Config, tip: Commit, events: seq<Event>, t: nat, k: nat)
    requires t < |events| && |At(c, tip, events, t).batches| <= k < |At(c, tip, events, t + 1).batches|
    ensures var b := At(c, tip, events, t + 1).batches[k]; Credit(b) <= 6 * |b.members| - 3
  {
    AtNext(c, tip, events, t);
    FreshCredit(c, At(c, tip, events, t), events[t], k);
  }

  lemma FreshCredit(c: Config, s: State, e: Event, k: nat)
    requires Inv(c, s) && |s.batches| <= k < |Step(c, s, e).batches|
    ensures var b := Step(c, s, e).batches[k]; Credit(b) <= 6 * |b.members| - 3
  {
    hide Inv, Step, Credit;
    NewCredit(c, s, e);
  }

  lemma {:induction false} CreditSpent(c: Config, tip: Commit, events: seq<Event>, t: nat, k: nat)
    requires t <= |events| && k < |At(c, tip, events, t).batches|
    ensures var b := At(c, tip, events, t).batches[k];
            BiteCount(c, tip, events, t, k) + Credit(b) <= 6 * |b.members| - 3
    decreases t
  {
    if t > 0 {
      if k < |At(c, tip, events, t - 1).batches| {
        CreditSpent(c, tip, events, t - 1, k);
        AtNext(c, tip, events, t - 1);
        SpendStep(c, At(c, tip, events, t - 1), events[t - 1], k, BiteCount(c, tip, events, t - 1, k));
      } else {
        SpendNew(c, tip, events, t - 1, k);
        NoBiteYet(c, tip, events, t - 1, k);
      }
    }
  }

  /** Bisection terminates: in any run, a batch of n members absorbs at most
      6n-3 verdicts and removals of members under test, after which it is done. */
  lemma VerdictsBounded(c: Config, tip: Commit, events: seq<Event>, t: nat, k: nat)
    requires t <= |events| && k < |At(c, tip, events, t).batches|
    ensures var b := At(c, tip, events, t).batches[k];
            && BiteCount(c, tip, events, t, k) <= 6 * |b.members| - 3
            && (BiteCount(c, tip, events, t, k) == 6 * |b.members| - 3 ==> b.phase.Done?)
  {
    RunOk(c, tip, events[..t]);
    var s := At(c, tip, events, t);
    AnyBatch(c, s, k);
    CreditSpent(c, tip, events, t, k);
    if s.batches[k].Live() { OwedNat(s.batches[k].pending); }
  }

  // ----- the bisection cap --------------------------------------------------

  /** The cap stops splits, so it limits builds to twice its value, apart from
      rebuilds caused by races and by removals of members under test. */
  lemma CapBound(c: Config, tip: Commit, events: seq<Event>, j: nat)
    requires c.bisectMax > 0 && j < |Run(c, Initial(tip), events).batches|
    ensures var b := Run(c, Initial(tip), events).batches[j];
            b.splits < c.bisectMax && b.builds <= 2 * c.bisectMax - 1 + b.extra
  {
    RunOk(c, tip, events);
    AnyBatch(c, Run(c, Initial(tip), events), j);
  }

  /** The fast-forward of this event is refused because the target moved. */
  predicate Raced(s: State, e: Event) {
    && e.Check? && Fresh(s, e.snap) && Decision(s, e).Passes?
    && e.push.Reach? && !IsAncestor(s.target, e.snap.sha.value)
  }

  lemma FailExtra(c: Config, w: World, s: State, k: nat)
    requires LiveOk(c, s, k) && s.batches[k].phase.Testing?
    ensures HandleFail(c, w, s, k).batches[k].extra == s.batches[k].extra
  {
    FailCounts(c, w, s, k);
  }

  /** A failure splits exactly a slice of several members below the cap. */
  lemma FailSplits(c: Config, w: World, s: State, k: nat)
    requires LiveOk(c, s, k) && s.batches[k].phase.Testing?
    ensures HandleFail(c, w, s, k).batches[k].splits == s.batches[k].splits +
              if |s.batches[k].current| > 1 && (c.bisectMax <= 0 || s.batches[k].builds < c.bisectMax) then 1 else 0
  {
    FailCounts(c, w, s, k);
  }

  lemma FailCounts(c: Config, w: World, s: State, k: nat)
    requires LiveOk(c, s, k) && s.batches[k].phase.Testing?
    ensures var b, b' := s.batches[k], HandleFail(c, w, s, k).batches[k];
            && b'.extra == b.extra && b'.ffRetries == b.ffRetries
            && b'.splits == b.splits + if |b.current| > 1 && !Capped(c, b) then 1 else 0
  {
    var b := s.batches[k];
    OwedNat(b.pending);
    if |b.current| == 1 {
      GiveUpOk(c, s, k);
      NextOk(c, w, EjectCurrent(s, k), k);
    } else if Capped(c, b) {
      CapOk(c, s, k);
      NextOk(c, w, EjectCurrent(Put(s, k, b.Drain()), k), k);
    } else {
      SplitOk(c, s, k);
      BuildOk(c, w, AfterSplit(s, k), k);
    }
  }

  lemma PassExtra(c: Config, w: World, push: Push, s: State, k: nat)
    requires LiveOk(c, s, k) && s.batches[k].phase.Testing?
    requires push.Reach? ==> IsAncestor(s.target, s.batches[k].sha.value)
    ensures HandlePass(c, w, push, s, k).batches[k].extra == s.batches[k].extra
  {
    hide Batch.Account, Credit, NextCredit, Owed;
    match push
    case Unavailable =>
    case Denied =>
      GiveUpOk(c, s, k);
      NextOk(c, w, EjectCurrent(s, k), k);
    case Reach =>
      LandOk(c, s, k);
      NextOk(c, w, LandCurrent(s, k, s.batches[k].sha.value), k);
  }

  lemma CheckExtra(c: Config, s: State, e: Event)
    requires Inv(c, s) && e.Check? && Fresh(s, e.snap) && !Raced(s, e)
    ensures Step(c, s, e).batches[e.snap.batch].extra == s.batches[e.snap.batch].extra
  {
    hide Inv, Progresses, Credit, Batch.Account;
    CheckResult(c, s, e);
    var s1 := Recorded(s, e);
    AnyBatch(c, s1, e.snap.batch);
    match Decision(s, e)
    case Passes => PassExtra(c, e.w, e.push, s1, e.snap.batch);
    case Fails => FailExtra(c, e.w, s1, e.snap.batch);
    case Waits => if e.required.Some? && e.timedOut { FailExtra(c, e.w, s1, e.snap.batch); }
  }

  lemma DoneExtra(c: Config, s: State, e: Event, k: nat)
    requires Inv(c, s) && k < |s.batches| && !s.batches[k].Live()
    ensures k < |Step(c, s, e).batches| && Step(c, s, e).batches[k].extra == s.batches[k].extra
  {
    StepMoves(c, s, e);
    assert Later(s.batches[k], Step(c, s, e).batches[k]);
  }

  lemma RemoveExtra(c: Config, s: State, e: Event, k: nat)
    requires Inv(c, s) && e.Remove? && k < |s.batches| && s.batches[k].Live()
    requires Addresses(s, e, k) ==> e.id !in s.batches[k].current
    ensures k < |Step(c, s, e).batches| && Step(c, s, e).batches[k].extra == s.batches[k].extra
  {
    if Addresses(s, e, k) { AddressedStep(c, s, e, k); } else { NotAddressed(c, s, e, k); }
  }

  lemma TimeoutExtra(c: Config, s: State, e: Event, k: nat)
    requires Inv(c, s) && e.Timeout? && k < |s.batches| && s.batches[k].Live()
    ensures k < |Step(c, s, e).batches| && Step(c, s, e).batches[k].extra == s.batches[k].extra
  {
    hide Inv, LiveOk;
    if e.batch < |s.batches| && s.batches[e.batch].phase.Testing? {
      AnyBatch(c, s, k);
      AnyBatch(c, s, e.batch);
      FailExtra(c, e.w, s, e.batch);
    }
  }

  lemma FormingExtra(c: Config, s: State, e: Event, k: nat)
    requires Inv(c, s) && (e.FormAndBuild? || e.Reconcile?) && k < |s.batches| && s.batches[k].Live()
    ensures k < |Step(c, s, e).batches| && Step(c, s, e).batches[k].extra == s.batches[k].extra
  {
    hide LiveOk, Batch.Account;
    AnyBatch(c, s, k);
    if s.batches[k].phase.Forming? { BuildOk(c, e.w, s, k); }
  }

  /** Only a race or a removal of a member under test adds an extra rebuild. */
  lemma ExtraOnlyBy(c: Config, s: State, e: Event, k: nat)
    requires Inv(c, s) && k < |s.batches|
    requires !Raced(s, e) && !(e.Remove? && Addresses(s, e, k) && e.id in s.batches[k].current)
    ensures k < |Step(c, s, e).batches| && Step(c, s, e).batches[k].extra == s.batches[k].extra
  {
    hide Inv, LiveOk, Closed, Sound, Batch.Account;
    AnyBatch(c, s, k);
    if !s.batches[k].Live() {
      DoneExtra(c, s, e, k);
    } else {
      match e
      case Check(_, _, _, _, _, _, _) => if Fresh(s, e.snap) { FreshIsLast(c, s, e.snap); CheckExtra(c, s, e); }
      case Timeout(_, _, _) => TimeoutExtra(c, s, e, k);
      case Remove(_, _, _) => RemoveExtra(c, s, e, k);
      case FormAndBuild(_) => FormingExtra(c, s, e, k);
      case Reconcile(_) => FormingExtra(c, s, e, k);
      case _ =>
    }
  }

  lemma NewExtra(c: Config, s: State, e: Event)
    requires Inv(c, s) && |s.batches| < |Step(c, s, e).batches|
    ensures Step(c, s, e).batches[|s.batches|].extra == 0
    ensures |Step(c, s, e).batches| == |s.batches| + 1
  {
    hide Inv, Step;
    NewIsAdopted(c, s, e);
  }

  predicate Undisrupted(s: State, e: Event, k: nat) {
    !Raced(s, e) && (e.Remove? && Addresses(s, e, k) ==> e.id !in s.batches[k].current)
  }

  lemma ExtraStep(c: Config, s: State, e: Event, k: nat)
    requires Inv(c, s) && Undisrupted(s, e, k) && k < |Step(c, s, e).batches|
    requires k < |s.batches| ==> s.batches[k].extra == 0
    ensures Step(c, s, e).batches[k].extra == 0
  {
    if k < |s.batches| { ExtraOnlyBy(c, s, e, k); } else { NewExtra(c, s, e); }
  }

  lemma ExtraAtNext(c: Config, tip: Commit, events: seq<Event>, t: nat, k: nat)
    requires t < |events| && k < |At(c, tip, events, t + 1).batches|
    requires Undisrupted(At(c, tip, events, t), events[t], k)
    requires k < |At(c, tip, events, t).batches| ==> At(c, tip, events, t).batches[k].extra == 0
    ensures At(c, tip, events, t + 1).batches[k].extra == 0
  {
    AtNext(c, tip, events, t);
    ExtraStep(c, At(c, tip, events, t), events[t], k);
  }

  ghost predicate UndisruptedAt(c: Config, tip: Commit, events: seq<Event>, u: nat, k: nat)
    requires u < |events|
  {
    Undisrupted(At(c, tip, events, u), events[u], k)
  }

  lemma {:induction false} NoExtra(c: Config, tip: Commit, events: seq<Event>, t: nat, k: nat)
    requires t <= |events| && k < |At(c, tip, events, t).batches|
    requires forall u :: 0 <= u < t ==> UndisruptedAt(c, tip, events, u, k)
    ensures At(c, tip, events, t).batches[k].extra == 0
    decreases t
  {
    if t > 0 {
      if k < |At(c, tip, events, t - 1).batches| { NoExtra(c, tip, events, t - 1, k); }
      assert UndisruptedAt(c, tip, events, t - 1, k);
      ExtraAtNext(c, tip, events, t - 1, k);
    }
  }

  /** Without races and removals, a cap of K allows at most 2K-1 builds. */
  lemma CapBoundUndisrupted(c: Config, tip: Commit, events: seq<Event>, k: nat)
    requires c.bisectMax > 0 && k < |Run(c, Initial(tip), events).batches|
    requires forall u :: 0 <= u < |events| ==> UndisruptedAt(c, tip, events, u, k)
    ensures Run(c, Initial(tip), events).batches[k].builds <= 2 * c.bisectMax - 1
  {
    assert events[..|events|] == events;
    CapBound(c, tip, events, k);
    NoExtra(c, tip, events, |events|, k);
  }

  /** When the cap fires, everybody still in play is ejected, the stack from
      its bottom up, and the batch is done without another build. */
  lemma CapEndsBatch(c: Config, w: World, s: State, k: nat)
    requires LiveOk(c, s, k) && s.batches[k].phase.Testing?
    requires |s.batches[k].current| >= 2 && Capped(c, s.batches[k])
    ensures var b, s' := s.batches[k], HandleFail(c, w, s, k);
            var b' := s'.batches[k];
            && b'.phase.Done? && b'.builds == b.builds && b'.landed == b.landed
            && b'.ejected == b.ejected + (b.current + Concat(b.pending))
            && s'.target == s.target
            && (forall i :: i in s'.rows <==> i in s.rows && !b.InPlay(i))
  {
    var b := s.batches[k];
    CapOk(c, s, k);
    DrainBatch(b);
    ExistingAll(s.rows, b.current + Concat(b.pending));
  }

  // ----- flaky --------------------------------------------------------------

  lemma NoneLeftOut(b: Batch)
    requires Accounted(b) && b.current == [] && b.pending == [] && b.ejected == []
    ensures b.landed == b.members
  {
    assert b.Line() == b.landed;
    SubMultiset(b.landed, b.members);
    assert multiset(b.landed) == multiset(b.members);
    assert |multiset(b.landed)| == |b.landed| && |multiset(b.members)| == |b.members|;
    SubFull(b.landed, b.members);
  }

  /** A finished batch is marked flaky exactly if it ejected nobody and took more
      than one build, as the design says: it has then landed all its members, in
      order, so that the length test of the code never decides. */
  lemma FlakyLandedAll(c: Config, tip: Commit, events: seq<Event>, j: nat)
    requires j < |Run(c, Initial(tip), events).batches|
    requires Run(c, Initial(tip), events).batches[j].phase.Done?
    ensures var b := Run(c, Initial(tip), events).batches[j];
            && (b.flaky <==> b.landed == b.members && b.ejected == [] && b.builds > 1)
            && (b.flaky <==> b.ejected == [] && b.builds > 1)
  {
    RunOk(c, tip, events);
    AnyBatch(c, Run(c, Initial(tip), events), j);
    var b := Run(c, Initial(tip), events).batches[j];
    if b.ejected == [] { NoneLeftOut(b); }
  }
}
