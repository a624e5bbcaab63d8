/** Bisection finds the culprits: when CI rejects a build exactly if it holds a
    bad member, and the forge cooperates, the stack loop of the engine is
    recursive bisection, and its cost is logarithmic in the batch size for each
    culprit. */
module Bisection {
  import opened Lists
  import opened Commits
  import opened Checks
  import opened Stacking
  import opened Model
  import opened Invariants
  import opened Transitions
  import opened Guarantees
  import opened Landing

  type Fault = Id -> bool

  predicate AnyBad(bad: Fault, ids: seq<Id>) { exists i :: i in ids && bad(i) }

  /** The members with the given verdict, in order. */
  function Those(bad: Fault, ids: seq<Id>, verdict: bool): (r: seq<Id>)
  {
    if ids == [] then []
    else
      var n := |ids| - 1;
      Those(bad, ids[..n], verdict) + if bad(ids[n]) == verdict then [ids[n]] else []
  }

  // ----- the reference: recursive bisection ---------------------------------

  datatype Outcome = Outcome(target: Commit, landed: seq<Id>, ejected: seq<Id>, builds: nat)

  function Bisect(c: Config, bad: Fault, ids: seq<Id>, target: Commit): (o: Outcome)
    requires ids != []
    ensures o.builds >= 1
    decreases |ids|
  {
    if !AnyBad(bad, ids) then Outcome(Fold(c.noop, target, Heads(c, ids)), ids, [], 1)
    else if |ids| == 1 then Outcome(target, [], ids, 1)
    else
      var mid := |ids| / 2;
      var l := Bisect(c, bad, ids[..mid], target);
      var r := Bisect(c, bad, ids[mid..], l.target);
      Outcome(r.target, l.landed + r.landed, l.ejected + r.ejected, 1 + l.builds + r.builds)
  }

  lemma {:induction false} ThoseCat(bad: Fault, a: seq<Id>, b: seq<Id>, verdict: bool)
    ensures Those(bad, a + b, verdict) == Those(bad, a, verdict) + Those(bad, b, verdict)
    decreases |b|
  {
    if b == [] {
      assert a + b == a;
    } else {
      var n := |b| - 1;
      var last := if bad(b[n]) == verdict then [b[n]] else [];
      ThoseCat(bad, a, b[..n], verdict);
      assert (a + b)[..|a + b| - 1] == a + b[..n];
      assert Those(bad, a + b, verdict) == Those(bad, a + b[..n], verdict) + last;
      assert Those(bad, b, verdict) == Those(bad, b[..n], verdict) + last;
    }
  }

  lemma {:induction false} ThoseAll(bad: Fault, ids: seq<Id>, verdict: bool)
    requires forall j :: 0 <= j < |ids| ==> bad(ids[j]) == verdict
    ensures Those(bad, ids, verdict) == ids && Those(bad, ids, !verdict) == []
  {
    if ids != [] {
      var n := |ids| - 1;
      ThoseAll(bad, ids[..n], verdict);
      assert ids == ids[..n] + [ids[n]];
    }
  }

  lemma ThoseNone(bad: Fault, ids: seq<Id>)
    requires !AnyBad(bad, ids)
    ensures Those(bad, ids, false) == ids && Those(bad, ids, true) == []
  {
    forall j | 0 <= j < |ids|
      ensures !bad(ids[j])
    {
      assert ids[j] in ids;
    }
    ThoseAll(bad, ids, false);
  }

  lemma {:induction false} HeadsCat(c: Config, a: seq<Id>, b: seq<Id>)
    ensures Heads(c, a + b) == Heads(c, a) + Heads(c, b)
    decreases |b|
  {
    if b == [] {
      assert a + b == a;
    } else {
      var n := |b| - 1;
      HeadsCat(c, a, b[..n]);
      assert (a + b)[..|a + b| - 1] == a + b[..n];
    }
  }

  /** What bisection should lead to. */
  ghost predicate Separates(c: Config, bad: Fault, ids: seq<Id>, target: Commit, o: Outcome) {
    && o.landed == Those(bad, ids, false)
    && o.ejected == Those(bad, ids, true)
    && o.target == Fold(c.noop, target, Heads(c, o.landed))
  }

  lemma SeparatesCat(c: Config, bad: Fault, a: seq<Id>, b: seq<Id>, target: Commit, l: Outcome, r: Outcome, o: Outcome)
    requires Separates(c, bad, a, target, l) && Separates(c, bad, b, l.target, r)
    requires o.target == r.target && o.landed == l.landed + r.landed && o.ejected == l.ejected + r.ejected
    ensures Separates(c, bad, a + b, target, o)
  {
    ThoseCat(bad, a, b, false);
    ThoseCat(bad, a, b, true);
    HeadsCat(c, l.landed, r.landed);
    FoldCat(c.noop, target, Heads(c, l.landed), Heads(c, r.landed));
  }

  lemma SeparatesOne(c: Config, bad: Fault, id: Id, target: Commit)
    requires bad(id)
    ensures Separates(c, bad, [id], target, Outcome(target, [], [id], 1))
  {
  }

  lemma SeparatesLeaf(c: Config, bad: Fault, ids: seq<Id>, target: Commit)
    requires ids != [] && (!AnyBad(bad, ids) || |ids| == 1)
    ensures Separates(c, bad, ids, target, Bisect(c, bad, ids, target))
  {
    if !AnyBad(bad, ids) {
      ThoseNone(bad, ids);
    } else {
      assert ids == [ids[0]];
      SeparatesOne(c, bad, ids[0], target);
    }
  }

  lemma BisectHalves(c: Config, bad: Fault, ids: seq<Id>, target: Commit)
    requires AnyBad(bad, ids) && |ids| > 1
    ensures var l := Bisect(c, bad, ids[..|ids| / 2], target);
            var r := Bisect(c, bad, ids[|ids| / 2..], l.target);
            Bisect(c, bad, ids, target) ==
              Outcome(r.target, l.landed + r.landed, l.ejected + r.ejected, 1 + l.builds + r.builds)
  {
  }

  lemma SeparatesJoin(c: Config, bad: Fault, ids: seq<Id>, mid: nat, target: Commit, l: Outcome, r: Outcome, o: Outcome)
    requires mid <= |ids|
    requires Separates(c, bad, ids[..mid], target, l) && Separates(c, bad, ids[mid..], l.target, r)
    requires o.target == r.target && o.landed == l.landed + r.landed && o.ejected == l.ejected + r.ejected
    ensures Separates(c, bad, ids, target, o)
  {
    SeparatesCat(c, bad, ids[..mid], ids[mid..], target, l, r, o);
    assert ids == ids[..mid] + ids[mid..];
  }

  lemma SeparatesHalves(c: Config, bad: Fault, ids: seq<Id>, target: Commit, l: Outcome, r: Outcome)
    requires AnyBad(bad, ids) && |ids| > 1
    requires l == Bisect(c, bad, ids[..|ids| / 2], target) && r == Bisect(c, bad, ids[|ids| / 2..], l.target)
    requires Separates(c, bad, ids[..|ids| / 2], target, l) && Separates(c, bad, ids[|ids| / 2..], l.target, r)
    ensures Separates(c, bad, ids, target, Bisect(c, bad, ids, target))
  {
    BisectHalves(c, bad, ids, target);
    SeparatesJoin(c, bad, ids, |ids| / 2, target, l, r, Bisect(c, bad, ids, target));
  }

  /** Recursive bisection lands exactly the good members and ejects exactly the
      bad ones, both in order, and the target is the fold over the good heads. */
  lemma {:induction false} BisectSeparates(c: Config, bad: Fault, ids: seq<Id>, target: Commit)
    requires ids != []
    ensures Separates(c, bad, ids, target, Bisect(c, bad, ids, target))
    decreases |ids|
  {
    if !AnyBad(bad, ids) || |ids| == 1 {
      SeparatesLeaf(c, bad, ids, target);
    } else {
      var l := Bisect(c, bad, ids[..|ids| / 2], target);
      BisectSeparates(c, bad, ids[..|ids| / 2], target);
      BisectSeparates(c, bad, ids[|ids| / 2..], l.target);
      SeparatesHalves(c, bad, ids, target, l, Bisect(c, bad, ids[|ids| / 2..], l.target));
    }
  }

  // ----- its cost -----------------------------------------------------------

  function CeilLog2(n: nat): (r: nat)
    requires n >= 1
  {
    if n == 1 then 0 else 1 + CeilLog2((n + 1) / 2)
  }

  function Pow2(e: nat): nat { if e == 0 then 1 else 2 * Pow2(e - 1) }

  /** The smallest power of two that reaches n. */
  lemma {:induction false} CeilLog2Meaning(n: nat)
    requires n >= 1
    ensures n <= Pow2(CeilLog2(n))
    ensures forall e: nat :: n <= Pow2(e) ==> CeilLog2(n) <= e
  {
    if n > 1 {
      CeilLog2Meaning((n + 1) / 2);
      forall e: nat | n <= Pow2(e)
        ensures CeilLog2(n) <= e
      {
        assert e > 0;
        assert (n + 1) / 2 <= Pow2(e - 1);
      }
    }
  }

  lemma {:induction false} CeilLog2Mono(a: nat, b: nat)
    requires 1 <= a <= b
    ensures CeilLog2(a) <= CeilLog2(b)
    decreases b
  {
    if a > 1 { CeilLog2Mono((a + 1) / 2, (b + 1) / 2); }
  }

  /** k * n by repeated addition, to keep products out of the induction. */
  function Times(k: nat, n: nat): nat { if n == 0 then 0 else k + Times(k, n - 1) }

  lemma {:induction false} TimesIsProduct(k: nat, n: nat)
    ensures Times(k, n) == k * n
  {
    if n > 0 { TimesIsProduct(k, n - 1); }
  }

  lemma {:induction false} TimesMono(k: nat, a: nat, b: nat)
    requires a <= b
    ensures Times(k, a) <= Times(k, b)
    decreases b
  {
    if a < b { TimesMono(k, a, b - 1); }
  }

  lemma {:induction false} TimesAdd(k: nat, l: nat, n: nat)
    ensures Times(k + l, n) == Times(k, n) + Times(l, n)
  {
    if n > 0 { TimesAdd(k, l, n - 1); }
  }

  lemma HalvesCost(l: nat, r: nat, kl: nat, kr: nat, logl: nat, logr: nat, log: nat)
    requires l <= 1 + 2 * Times(kl, logl) && r <= 1 + 2 * Times(kr, logr)
    requires logl <= log && logr <= log && kl + kr >= 1
    ensures 1 + l + r <= 1 + 2 * Times(kl + kr, 1 + log)
  {
    TimesMono(kl, logl, log);
    TimesMono(kr, logr, log);
    TimesAdd(kl, kr, log);
  }

  function Culprits(bad: Fault, ids: seq<Id>): nat { |Those(bad, ids, true)| }

  lemma CulpritsSplit(bad: Fault, ids: seq<Id>, mid: nat)
    requires mid <= |ids|
    ensures Culprits(bad, ids) == Culprits(bad, ids[..mid]) + Culprits(bad, ids[mid..])
  {
    assert ids == ids[..mid] + ids[mid..];
    ThoseCat(bad, ids[..mid], ids[mid..], true);
  }

  lemma HalvesLogs(n: nat)
    requires n > 1
    ensures CeilLog2(n) == 1 + CeilLog2((n + 1) / 2)
    ensures CeilLog2(n / 2) <= CeilLog2((n + 1) / 2)
    ensures n - n / 2 == (n + 1) / 2
  {
    CeilLog2Mono(n / 2, (n + 1) / 2);
  }

  lemma CostOfHalves(n: nat, k: nat, kl: nat, kr: nat, l: nat, r: nat)
    requires n > 1 && k == kl + kr && k >= 1
    requires l <= 1 + 2 * Times(kl, CeilLog2(n / 2)) && r <= 1 + 2 * Times(kr, CeilLog2((n + 1) / 2))
    ensures 1 + l + r <= 1 + 2 * Times(k, CeilLog2(n))
  {
    HalvesLogs(n);
    HalvesCost(l, r, kl, kr, CeilLog2(n / 2), CeilLog2((n + 1) / 2), CeilLog2((n + 1) / 2));
  }

  lemma {:induction false} BadCounted(bad: Fault, ids: seq<Id>)
    requires AnyBad(bad, ids)
    ensures |Those(bad, ids, true)| >= 1
  {
    var n := |ids| - 1;
    if !bad(ids[n]) {
      var i :| i in ids && bad(i);
      assert i in ids[..n];
      BadCounted(bad, ids[..n]);
    }
  }

  /** The builds of a bisection, which do not depend on the target. */
  function Cost(bad: Fault, ids: seq<Id>): (n: nat)
    requires ids != []
    decreases |ids|
  {
    if !AnyBad(bad, ids) || |ids| == 1 then 1
    else 1 + Cost(bad, ids[..|ids| / 2]) + Cost(bad, ids[|ids| / 2..])
  }

  lemma {:induction false} BisectBuilds(c: Config, bad: Fault, ids: seq<Id>, target: Commit)
    requires ids != []
    ensures Bisect(c, bad, ids, target).builds == Cost(bad, ids)
    decreases |ids|
  {
    if AnyBad(bad, ids) && |ids| > 1 {
      BisectBuilds(c, bad, ids[..|ids| / 2], target);
      BisectBuilds(c, bad, ids[|ids| / 2..], Bisect(c, bad, ids[..|ids| / 2], target).target);
    }
  }

  /** One culprit costs at most two builds for each halving. */
  lemma {:induction false} CostBound(bad: Fault, ids: seq<Id>)
    requires ids != []
    ensures Cost(bad, ids) <= 1 + 2 * Times(Culprits(bad, ids), CeilLog2(|ids|))
    decreases |ids|
  {
    if AnyBad(bad, ids) && |ids| > 1 {
      var mid := |ids| / 2;
      var left, right := ids[..mid], ids[mid..];
      assert |left| == mid && |right| == (|ids| + 1) / 2;
      CostBound(bad, left);
      CostBound(bad, right);
      CulpritsSplit(bad, ids, mid);
      BadCounted(bad, ids);
      CostOfHalves(|ids|, Culprits(bad, ids), Culprits(bad, left), Culprits(bad, right),
                   Cost(bad, left), Cost(bad, right));
    }
  }

  // ----- a cooperating forge ------------------------------------------------

  /** Every merge is clean, no build fails as a whole, nobody else pushes. */
  ghost predicate Cooperates(w: World) {
    && Undisturbed(w)
    && (forall d: nat :: !w.broken(d))
    && (forall d: nat :: AlwaysClean(w.merge(d)))
  }

  ghost predicate AlwaysClean(oracle: Oracle) {
    forall i: nat, t: Commit, h: Commit :: oracle(i, t, h).Clean?
  }

  /** The row after a build of its current members on `target`. */
  function Rebuilt(c: Config, b: Batch, target: Commit): Batch {
    b.Built(Fold(c.noop, target, Heads(c, b.current)), target)
  }

  lemma NobodyPicked(c: Config, onto: Commit, ids: seq<Id>, oracle: Oracle)
    requires AlwaysClean(oracle)
    ensures var answers := Stacked(c.noop, onto, Heads(c, ids), oracle).answers;
            Pick(ids, answers, true) == ids && Pick(ids, answers, false) == []
  {
    AllClean(c.noop, onto, Heads(c, ids), oracle);
    PickAll(ids, Stacked(c.noop, onto, Heads(c, ids), oracle).answers);
  }

  lemma EjectNobody(s: State, k: nat)
    requires k < |s.batches|
    ensures Eject(s, k, s.batches[k].current, []).batches == s.batches
  {
    var b := s.batches[k];
    assert b.ejected + [] == b.ejected;
    assert b.Narrow(b.current, []) == b;
  }

  /** Nobody is ejected when every merge is clean. */
  lemma CleanWeeded(c: Config, w: World, s: State, k: nat)
    requires BuildPre(c, s, k) && Cooperates(w)
    ensures Weeded(c, w, s, k).batches == s.batches && Weeded(c, w, s, k).target == s.target
  {
    var b := s.batches[k];
    var d := |b.pending|;
    assert Ignored(s.target, w.drift(d));
    assert forall i :: i in b.current ==> b.InPlay(i);
    ExistingAll(s.rows, b.current);
    assert AlwaysClean(w.merge(d));
    NobodyPicked(c, Onto(w, s, k), b.current, w.merge(d));
    EjectNobody(s.(target := Onto(w, s, k)), k);
  }

  lemma CleanBuild(c: Config, w: World, s: State, k: nat)
    requires BuildPre(c, s, k) && Cooperates(w)
    ensures var s' := Build(c, w, s, k);
            s'.batches == s.batches[k := Rebuilt(c, s.batches[k], s.target)] && s'.target == s.target
  {
    CleanWeeded(c, w, s, k);
    WeededOk(c, w, s, k);
    assert !w.broken(|s.batches[k].pending|);
  }

  /** The row after popping the stack, or after finishing. */
  function Popped(c: Config, b: Batch, target: Commit): Batch {
    if b.pending != [] then Rebuilt(c, b.Pop(), target) else b.Finish()
  }

  lemma UpdateTwice(batches: seq<Batch>, k: nat, a: Batch, b: Batch)
    requires k < |batches|
    ensures batches[k := a][k := b] == batches[k := b]
  {
  }

  lemma CleanPop(c: Config, w: World, s: State, k: nat)
    requires NextPre(c, s, k) && Cooperates(w) && s.batches[k].pending != []
    ensures var s' := Build(c, w, Put(s, k, s.batches[k].Pop()), k);
            s'.batches == s.batches[k := Rebuilt(c, s.batches[k].Pop(), s.target)] && s'.target == s.target
  {
    var s1 := Put(s, k, s.batches[k].Pop());
    PopPre(c, s, k);
    CleanBuild(c, w, s1, k);
    UpdateTwice(s.batches, k, s.batches[k].Pop(), Rebuilt(c, s.batches[k].Pop(), s.target));
  }

  lemma CleanNext(c: Config, w: World, s: State, k: nat)
    requires NextPre(c, s, k) && Cooperates(w)
    ensures var s' := Next(c, w, s, k);
            s'.batches == s.batches[k := Popped(c, s.batches[k], s.target)] && s'.target == s.target
  {
    if s.batches[k].pending != [] { CleanPop(c, w, s, k); }
  }

  // ----- feeding CI's verdicts ----------------------------------------------

  /** CI's result for the build under test, reported on its first member. */
  function Report(s: State, bad: Fault, w: World): Event
    requires UnderTest(s) && Tester(s).current != []
  {
    var b := Tester(s);
    Check(Snapshot(b.current[0], |s.batches| - 1, b.sha), "ci",
          if AnyBad(bad, b.current) then Failure else Success, Some(["ci"]), false, Reach, w)
  }

  /** `n` results, one after the other. */
  function Feeding(c: Config, bad: Fault, w: World, s: State, n: nat): State
    decreases n
  {
    if n == 0 || !UnderTest(s) || Tester(s).current == [] then s
    else Feeding(c, bad, w, Step(c, s, Report(s, bad, w)), n - 1)
  }

  lemma {:induction false} FeedingMore(c: Config, bad: Fault, w: World, s: State, m: nat, n: nat)
    ensures Feeding(c, bad, w, s, m + n) == Feeding(c, bad, w, Feeding(c, bad, w, s, m), n)
    decreases m
  {
    if m > 0 && UnderTest(s) && Tester(s).current != [] {
      FeedingMore(c, bad, w, Step(c, s, Report(s, bad, w)), m - 1, n);
    }
  }

  /** Under test, built on the tip the target still has. */
  ghost predicate OnTip(c: Config, s: State) {
    Inv(c, s) && UnderTest(s) && Tester(s).base == s.target
  }

  /** The row and the tip after one verdict. */
  function Judged(c: Config, bad: Fault, b: Batch, target: Commit): (Batch, Commit)
    requires b.sha.Some?
  {
    if !AnyBad(bad, b.current) then (Popped(c, b.Land(), b.sha.value), b.sha.value)
    else if |b.current| == 1 then (Popped(c, b.Narrow([], b.current), target), target)
    else (Rebuilt(c, b.Split(), target), target)
  }

  lemma ResultDecides(c: Config, s: State, bad: Fault, w: World)
    requires Inv(c, s) && UnderTest(s)
    ensures Tester(s).current != []
    ensures var e := Report(s, bad, w);
            && Fresh(s, e.snap)
            && Decision(s, e) == if AnyBad(bad, Tester(s).current) then Fails else Passes
  {
    var b := Tester(s);
    var e := Report(s, bad, w);
    assert b.InPlay(b.current[0]);
    var m := Standings(Recorded(s, e).rows[e.snap.id].checks);
    assert "ci" in m && m["ci"] == e.state;
    assert "ci" in ["ci"];
  }

  lemma ResultHandled(c: Config, s: State, bad: Fault, w: World)
    requires Inv(c, s) && UnderTest(s)
    ensures var e, k := Report(s, bad, w), |s.batches| - 1;
            && Fresh(s, e.snap)
            && Step(c, s, e) == if AnyBad(bad, Tester(s).current) then HandleFail(c, w, Recorded(s, e), k)
                                else HandlePass(c, w, Reach, Recorded(s, e), k)
  {
    hide Inv, HandleFail, HandlePass;
    ResultDecides(c, s, bad, w);
  }

  lemma PassJudged(c: Config, w: World, s: State, k: nat)
    requires LiveOk(c, s, k) && s.batches[k].phase.Testing? && s.batches[k].base == s.target && Cooperates(w)
    ensures var b, s' := s.batches[k], HandlePass(c, w, Reach, s, k);
            s'.batches == s.batches[k := Popped(c, b.Land(), b.sha.value)] && s'.target == b.sha.value
  {
    var b := s.batches[k];
    FoldContains(c.noop, b.base, Heads(c, b.current));
    LandOk(c, s, k);
    CleanNext(c, w, LandCurrent(s, k, b.sha.value), k);
  }

  lemma EjectCurrentRow(c: Config, s: State, k: nat)
    requires Core(c, s, k)
    ensures EjectCurrent(s, k).batches == s.batches[k := s.batches[k].Narrow([], s.batches[k].current)]
    ensures EjectCurrent(s, k).target == s.target
  {
    assert forall i :: i in s.batches[k].current ==> s.batches[k].InPlay(i);
    ExistingAll(s.rows, s.batches[k].current);
  }

  lemma SingleJudged(c: Config, w: World, s: State, k: nat)
    requires LiveOk(c, s, k) && s.batches[k].phase.Testing? && Cooperates(w)
    ensures var b, s' := s.batches[k], Next(c, w, EjectCurrent(s, k), k);
            && s'.target == s.target
            && s'.batches == s.batches[k := Popped(c, b.Narrow([], b.current), s.target)]
  {
    GiveUpOk(c, s, k);
    EjectCurrentRow(c, s, k);
    AfterEject(c, w, s, EjectCurrent(s, k), k, s.batches[k].Narrow([], s.batches[k].current));
  }

  lemma AfterEject(c: Config, w: World, s: State, s1: State, k: nat, b1: Batch)
    requires NextPre(c, s1, k) && Cooperates(w) && k < |s.batches|
    requires s1.batches == s.batches[k := b1] && s1.target == s.target
    ensures Next(c, w, s1, k).target == s.target
    ensures Next(c, w, s1, k).batches == s.batches[k := Popped(c, b1, s.target)]
  {
    CleanNext(c, w, s1, k);
  }

  lemma SplitJudged(c: Config, w: World, s: State, k: nat)
    requires LiveOk(c, s, k) && s.batches[k].phase.Testing? && Cooperates(w)
    requires |s.batches[k].current| >= 2 && !Capped(c, s.batches[k])
    ensures var s' := Build(c, w, AfterSplit(s, k), k);
            && s'.target == s.target
            && s'.batches == s.batches[k := Rebuilt(c, s.batches[k].Split(), s.target)]
  {
    SplitOk(c, s, k);
    CleanBuild(c, w, AfterSplit(s, k), k);
  }

  lemma FailJudged(c: Config, w: World, s: State, k: nat)
    requires LiveOk(c, s, k) && s.batches[k].phase.Testing? && Cooperates(w)
    requires |s.batches[k].current| == 1 || !Capped(c, s.batches[k])
    ensures var b, s' := s.batches[k], HandleFail(c, w, s, k);
            && s'.target == s.target
            && s'.batches == s.batches[k :=
                 if |b.current| == 1 then Popped(c, b.Narrow([], b.current), s.target)
                 else Rebuilt(c, b.Split(), s.target)]
  {
    assert s.batches[k].current != [];
    if |s.batches[k].current| == 1 {
      SingleJudged(c, w, s, k);
    } else {
      SplitJudged(c, w, s, k);
    }
  }

  /** The cap does not fire on this slice. */
  predicate Uncapped(c: Config, bad: Fault, b: Batch) {
    !AnyBad(bad, b.current) || |b.current| == 1 || !Capped(c, b)
  }

  lemma OneVerdict(c: Config, bad: Fault, w: World, s: State)
    requires OnTip(c, s) && Cooperates(w) && Uncapped(c, bad, Tester(s))
    ensures Tester(s).current != [] && Tester(s).sha.Some?
    ensures var s' := Step(c, s, Report(s, bad, w));
            var j := Judged(c, bad, Tester(s), s.target);
            s'.batches == s.batches[|s.batches| - 1 := j.0] && s'.target == j.1 && Inv(c, s')
  {
    var k := |s.batches| - 1;
    var e := Report(s, bad, w);
    hide LiveOk, Credit, Batch.Account, Step, HandlePass, HandleFail;
    ResultDecides(c, s, bad, w);
    ResultHandled(c, s, bad, w);
    StepOk(c, s, e);
    var s1 := Recorded(s, e);
    SavedOk(c, s, e.snap, e.context, NewResult(s, e));
    AnyBatch(c, s1, k);
    if AnyBad(bad, Tester(s).current) {
      FailJudged(c, w, s1, k);
    } else {
      PassJudged(c, w, s1, k);
    }
  }

  // ----- the refinement -----------------------------------------------------

  /** The state `s'` is what recursive bisection of the slice under test in `s`
      leads to: its outcome applied, and the next slice, if any, under test. */
  ghost predicate Solved(c: Config, bad: Fault, s: State, s': State)
    requires UnderTest(s) && Tester(s).current != []
  {
    && |s'.batches| == |s.batches|
    && Inv(c, s')
    && (var o := Bisect(c, bad, Tester(s).current, s.target);
        s'.target == o.target && Follows(Tester(s), s'.batches[|s.batches| - 1], o))
    && (Tester(s).pending != [] ==> OnTip(c, s'))
  }

  /** The outcome of the current slice applied to the row, and the next slice
      taken from the stack. */
  ghost predicate Follows(b: Batch, b': Batch, o: Outcome) {
    && b'.members == b.members
    && b'.landed == b.landed + o.landed
    && b'.ejected == b.ejected + o.ejected
    && (b.pending == [] ==> b'.phase.Done? && b'.builds == b.builds + o.builds - 1)
    && (b.pending != [] ==>
          && b'.current == b.pending[|b.pending| - 1]
          && b'.pending == b.pending[..|b.pending| - 1]
          && b'.builds == b.builds + o.builds)
  }

  lemma FollowsGood(c: Config, b: Batch, target: Commit, sha: Commit)
    ensures Follows(b, Popped(c, b.Land(), sha), Outcome(target, b.current, [], 1))
  {
  }

  lemma FollowsBad(c: Config, b: Batch, target: Commit, onto: Commit)
    ensures Follows(b, Popped(c, b.Narrow([], b.current), onto), Outcome(target, [], b.current, 1))
  {
  }

  lemma SolvedByOne(c: Config, bad: Fault, w: World, s: State)
    requires OnTip(c, s) && Cooperates(w)
    requires !AnyBad(bad, Tester(s).current) || |Tester(s).current| == 1
    ensures Tester(s).current != [] && Solved(c, bad, s, Step(c, s, Report(s, bad, w)))
  {
    var b := Tester(s);
    OneVerdict(c, bad, w, s);
    FollowsGood(c, b, b.sha.value, b.sha.value);
    FollowsBad(c, b, s.target, s.target);
  }

  /** The row after a split and the build of its left half. */
  ghost predicate Halved(b: Batch, b': Batch) {
    var mid := |b.current| / 2;
    && b'.members == b.members && b'.landed == b.landed && b'.ejected == b.ejected
    && b'.current == b.current[..mid]
    && b'.pending == b.pending + [b.current[mid..]]
    && b'.builds == b.builds + 1
  }

  lemma SplitByOne(c: Config, bad: Fault, w: World, s: State)
    requires OnTip(c, s) && Cooperates(w) && !Capped(c, Tester(s))
    requires AnyBad(bad, Tester(s).current) && |Tester(s).current| > 1
    ensures var s1 := Step(c, s, Report(s, bad, w));
            OnTip(c, s1) && |s1.batches| == |s.batches| && s1.target == s.target && Halved(Tester(s), Tester(s1))
  {
    OneVerdict(c, bad, w, s);
  }

  lemma FollowsHalves(b: Batch, b1: Batch, b2: Batch, b3: Batch, l: Outcome, r: Outcome, o: Outcome)
    requires Halved(b, b1) && Follows(b1, b2, l) && Follows(b2, b3, r)
    requires o.landed == l.landed + r.landed && o.ejected == l.ejected + r.ejected
    requires o.builds == 1 + l.builds + r.builds
    ensures b2.current == b.current[|b.current| / 2..]
    ensures Follows(b, b3, o)
  {
  }

  lemma SolvedHalves(c: Config, bad: Fault, s: State, s1: State, s2: State, s3: State)
    requires UnderTest(s) && AnyBad(bad, Tester(s).current) && |Tester(s).current| > 1
    requires UnderTest(s1) && |s1.batches| == |s.batches| && s1.target == s.target && Halved(Tester(s), Tester(s1))
    requires Tester(s1).current != [] && Solved(c, bad, s1, s2)
    requires UnderTest(s2) && Tester(s2).current == Tester(s).current[|Tester(s).current| / 2..]
    requires Tester(s2).pending == Tester(s).pending
    requires Solved(c, bad, s2, s3)
    ensures Solved(c, bad, s, s3)
  {
    var b := Tester(s);
    var mid := |b.current| / 2;
    var l := Bisect(c, bad, b.current[..mid], s.target);
    var r := Bisect(c, bad, b.current[mid..], l.target);
    FollowsHalves(b, Tester(s1), Tester(s2), s3.batches[|s.batches| - 1], l, r, Bisect(c, bad, b.current, s.target));
  }

  /** After the left half the right half is under test. */
  lemma RightIsNext(c: Config, bad: Fault, s: State, s1: State, s2: State)
    requires UnderTest(s) && |Tester(s).current| > 1
    requires UnderTest(s1) && |s1.batches| == |s.batches| && Halved(Tester(s), Tester(s1))
    requires Tester(s1).current != [] && Solved(c, bad, s1, s2)
    ensures OnTip(c, s2)
    ensures Tester(s2).current == Tester(s).current[|Tester(s).current| / 2..]
    ensures Tester(s2).pending == Tester(s).pending
  {
  }

  lemma FeedOne(c: Config, bad: Fault, w: World, s: State, n: nat)
    requires UnderTest(s) && Tester(s).current != []
    ensures Feeding(c, bad, w, s, 1 + n) == Feeding(c, bad, w, Step(c, s, Report(s, bad, w)), n)
  {
  }

  /** The results fed to the halves one after the other are the results fed
      to the whole. */
  lemma FedInTurn(c: Config, bad: Fault, w: World, s: State, l: nat, r: nat)
    requires UnderTest(s) && Tester(s).current != []
    ensures Feeding(c, bad, w, s, 1 + l + r)
         == Feeding(c, bad, w, Feeding(c, bad, w, Step(c, s, Report(s, bad, w)), l), r)
  {
    FeedOne(c, bad, w, s, l + r);
    FeedingMore(c, bad, w, Step(c, s, Report(s, bad, w)), l, r);
  }

  lemma CostSplits(bad: Fault, ids: seq<Id>)
    requires AnyBad(bad, ids) && |ids| > 1
    ensures Cost(bad, ids) == 1 + Cost(bad, ids[..|ids| / 2]) + Cost(bad, ids[|ids| / 2..])
  {
  }

  lemma FedOnHalves(c: Config, bad: Fault, w: World, s: State)
    requires UnderTest(s) && AnyBad(bad, Tester(s).current) && |Tester(s).current| > 1
    ensures var ids := Tester(s).current;
            Feeding(c, bad, w, s, Cost(bad, ids))
            == Feeding(c, bad, w, Feeding(c, bad, w, Step(c, s, Report(s, bad, w)), Cost(bad, ids[..|ids| / 2])),
                       Cost(bad, ids[|ids| / 2..]))
  {
    var ids := Tester(s).current;
    CostSplits(bad, ids);
    FedInTurn(c, bad, w, s, Cost(bad, ids[..|ids| / 2]), Cost(bad, ids[|ids| / 2..]));
  }

  /** The cap never fires while the slice, whose build is the batch's `builds`-th,
      is bisected: no slice of several members fails at the cap. */
  predicate Roomy(c: Config, bad: Fault, builds: nat, ids: seq<Id>)
    requires ids != []
    decreases |ids|
  {
    !AnyBad(bad, ids) || |ids| == 1 ||
    (&& (c.bisectMax <= 0 || builds < c.bisectMax)
     && Roomy(c, bad, builds + 1, ids[..|ids| / 2])
     && Roomy(c, bad, builds + 1 + Cost(bad, ids[..|ids| / 2]), ids[|ids| / 2..]))
  }

  /** There is room if there is no cap, or if the cap is at least one less than
      the builds that the bisection takes. */
  lemma {:induction false} RoomEnough(c: Config, bad: Fault, builds: nat, ids: seq<Id>)
    requires ids != [] && (c.bisectMax <= 0 || builds + Cost(bad, ids) <= c.bisectMax + 2)
    ensures Roomy(c, bad, builds, ids)
    decreases |ids|
  {
    if AnyBad(bad, ids) && |ids| > 1 {
      CostSplits(bad, ids);
      CostPositive(bad, ids[..|ids| / 2]);
      CostPositive(bad, ids[|ids| / 2..]);
      RoomEnough(c, bad, builds + 1, ids[..|ids| / 2]);
      RoomEnough(c, bad, builds + 1 + Cost(bad, ids[..|ids| / 2]), ids[|ids| / 2..]);
    }
  }

  lemma CostPositive(bad: Fault, ids: seq<Id>)
    requires ids != []
    ensures Cost(bad, ids) >= 1
  {
  }

  /** The stack loop refines the recursion: after as many verdicts as recursive
      bisection of the current slice has builds, the engine has its outcome. */
  lemma {:induction false} StackLoopIsBisection(c: Config, bad: Fault, w: World, s: State)
    requires OnTip(c, s) && Cooperates(w) && Tester(s).current != []
    requires Roomy(c, bad, Tester(s).builds, Tester(s).current)
    ensures Solved(c, bad, s, Feeding(c, bad, w, s, Cost(bad, Tester(s).current)))
    decreases |Tester(s).current|, 1
  {
    ResultDecides(c, s, bad, w);
    if !AnyBad(bad, Tester(s).current) || |Tester(s).current| == 1 {
      SolvedByOne(c, bad, w, s);
      FeedOne(c, bad, w, s, 0);
    } else {
      SplitByOne(c, bad, w, s);
      StackLoopOnHalves(c, bad, w, s, Step(c, s, Report(s, bad, w)));
      FedOnHalves(c, bad, w, s);
    }
  }

  lemma RoomyHalves(c: Config, bad: Fault, builds: nat, ids: seq<Id>)
    requires AnyBad(bad, ids) && |ids| > 1 && Roomy(c, bad, builds, ids)
    ensures Roomy(c, bad, builds + 1, ids[..|ids| / 2])
    ensures Roomy(c, bad, builds + 1 + Cost(bad, ids[..|ids| / 2]), ids[|ids| / 2..])
  {
  }

  lemma RoomyRight(c: Config, bad: Fault, builds: nat, ids: seq<Id>, builds': nat, right: seq<Id>)
    requires AnyBad(bad, ids) && |ids| > 1 && Roomy(c, bad, builds, ids)
    requires right == ids[|ids| / 2..] && builds' == builds + 1 + Cost(bad, ids[..|ids| / 2])
    ensures Roomy(c, bad, builds', right)
  {
  }

  lemma RightBuilds(c: Config, bad: Fault, s: State, s1: State, s2: State)
    requires UnderTest(s) && |Tester(s).current| > 1
    requires UnderTest(s1) && |s1.batches| == |s.batches| && Halved(Tester(s), Tester(s1))
    requires Tester(s1).current != [] && Solved(c, bad, s1, s2)
    ensures UnderTest(s2) && Tester(s2).builds == Tester(s).builds + 1 + Cost(bad, Tester(s1).current)
  {
    BisectBuilds(c, bad, Tester(s1).current, s1.target);
  }

  /** The right half is under test, and there is room for it. */
  lemma RightIsReady(c: Config, bad: Fault, s: State, s1: State, s2: State)
    requires UnderTest(s) && AnyBad(bad, Tester(s).current) && |Tester(s).current| > 1
    requires Roomy(c, bad, Tester(s).builds, Tester(s).current)
    requires UnderTest(s1) && |s1.batches| == |s.batches| && Halved(Tester(s), Tester(s1))
    requires Tester(s1).current != [] && Solved(c, bad, s1, s2)
    ensures OnTip(c, s2) && Tester(s2).current != []
    ensures Tester(s2).current == Tester(s).current[|Tester(s).current| / 2..]
    ensures Tester(s2).pending == Tester(s).pending
    ensures Roomy(c, bad, Tester(s2).builds, Tester(s2).current)
  {
    RightIsNext(c, bad, s, s1, s2);
    RightBuilds(c, bad, s, s1, s2);
    RoomyRight(c, bad, Tester(s).builds, Tester(s).current, Tester(s2).builds, Tester(s2).current);
  }

  lemma {:induction false} StackLoopOnHalves(c: Config, bad: Fault, w: World, s: State, s1: State)
    requires UnderTest(s) && AnyBad(bad, Tester(s).current) && |Tester(s).current| > 1
    requires OnTip(c, s1) && |s1.batches| == |s.batches| && s1.target == s.target && Halved(Tester(s), Tester(s1))
    requires Cooperates(w) && Roomy(c, bad, Tester(s).builds, Tester(s).current)
    ensures var ids := Tester(s).current;
            Solved(c, bad, s, Feeding(c, bad, w, Feeding(c, bad, w, s1, Cost(bad, ids[..|ids| / 2])),
                                      Cost(bad, ids[|ids| / 2..])))
    decreases |Tester(s).current|, 0
  {
    RoomyHalves(c, bad, Tester(s).builds, Tester(s).current);
    StackLoopIsBisection(c, bad, w, s1);
    var s2 := Feeding(c, bad, w, s1, Cost(bad, Tester(s1).current));
    RightIsReady(c, bad, s, s1, s2);
    StackLoopIsBisection(c, bad, w, s2);
    SolvedHalves(c, bad, s, s1, s2, Feeding(c, bad, w, s2, Cost(bad, Tester(s2).current)));
  }

  lemma FormedOnTip(c: Config, w: World, s: State)
    requires Inv(c, s) && !HasLive(s) && QueuedHead(s.rows, s.next, Limit(c)) != [] && Cooperates(w)
    ensures var ids, s1 := QueuedHead(s.rows, s.next, Limit(c)), Step(c, s, FormAndBuild(w));
            && OnTip(c, s1) && |s1.batches| == |s.batches| + 1 && s1.target == s.target
            && Tester(s1) == Rebuilt(c, NewBatch(ids, s.target), s.target)
  {
    AdoptOk(c, s);
    BuildOk(c, w, Adopted(c, s), |s.batches|);
    CleanBuild(c, w, Adopted(c, s), |s.batches|);
  }

  lemma CulpritsCost(bad: Fault, ids: seq<Id>)
    requires ids != []
    ensures Cost(bad, ids) <= 1 + 2 * (|Those(bad, ids, true)| * CeilLog2(|ids|))
  {
    CostBound(bad, ids);
    TimesIsProduct(Culprits(bad, ids), CeilLog2(|ids|));
  }

  /** The whole batch is the first slice, so its outcome is the batch's. */
  lemma WholeBatch(ids: seq<Id>, b: Batch, b': Batch, o: Outcome)
    requires Follows(b, b', o) && b.pending == [] && b.landed == [] && b.ejected == [] && b.builds == 1
    ensures b'.landed == o.landed && b'.ejected == o.ejected && b'.builds == o.builds && b'.phase.Done?
    ensures b'.members == b.members
  {
  }

  /** End to end, from any good state with no live batch and a queued row, if
      the cap, if any, leaves room: the batch formed there ends with the good
      members landed and the bad ones ejected, both in queue order, the target is
      the fold of the good heads on the original tip, and k culprits among n
      members cost at most 1 + 2k*ceil(log2 n) builds. */
  lemma BisectionFindsCulprits(c: Config, bad: Fault, w: World, s: State)
    requires Inv(c, s) && !HasLive(s) && QueuedHead(s.rows, s.next, Limit(c)) != []
    requires Cooperates(w) && Roomy(c, bad, 1, QueuedHead(s.rows, s.next, Limit(c)))
    ensures var ids := QueuedHead(s.rows, s.next, Limit(c));
            var n := Cost(bad, ids);
            var s' := Feeding(c, bad, w, Step(c, s, FormAndBuild(w)), n);
            && |s'.batches| == |s.batches| + 1
            && var b := s'.batches[|s.batches|];
               && b.phase.Done?
               && b.members == ids
               && b.landed == Those(bad, ids, false)
               && b.ejected == Those(bad, ids, true)
               && s'.target == Fold(c.noop, s.target, Heads(c, b.landed))
               && b.builds == n
               && b.builds <= 1 + 2 * (|b.ejected| * CeilLog2(|ids|))
  {
    var ids := QueuedHead(s.rows, s.next, Limit(c));
    var s1 := Step(c, s, FormAndBuild(w));
    FormedOnTip(c, w, s);
    StackLoopIsBisection(c, bad, w, s1);
    var o := Bisect(c, bad, ids, s.target);
    WholeBatch(ids, Tester(s1), Feeding(c, bad, w, s1, Cost(bad, ids)).batches[|s.batches|], o);
    BisectSeparates(c, bad, ids, s.target);
    BisectBuilds(c, bad, ids, s.target);
    CulpritsCost(bad, ids);
  }
}
