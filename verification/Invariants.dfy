/** What every reachable state satisfies, and what one build or one pop of the
    stack changes. */
module Invariants {
  import opened Lists
  import opened Commits
  import opened Stacking
  import opened Model

  // ----- one batch row ------------------------------------------------------

  /** First in, first out, and nothing lost: what has landed, what is on the
      branch and what waits is a duplicate-free subsequence of the members, and
      with the ejected ones it covers every member. */
  ghost predicate Accounted(b: Batch) {
    && Unique(b.members)
    && Sub(b.Line(), b.members)
    && multiset(b.members) <= b.Account()
  }

  /** Builds that the waiting slices can still cost: a slice of n members is a
      bisection tree with at most 2n-1 nodes. */
  function Owed(p: seq<seq<Id>>): int {
    if p == [] then 0 else Owed(p[..|p| - 1]) + 2 * |p[|p| - 1]| - 1
  }

  function Races(b: Batch): nat { if b.ffRetries < 2 then b.ffRetries else 2 }

  /** The bisection tree of all members, plus two fast-forward races for each
      landing and for the end. */
  function Budget(b: Batch): int { 2 * |b.members| - 1 + 2 * |b.landed| + Races(b) }

  /** Builds the members on the branch can still cost. */
  function Due(b: Batch): int {
    match b.phase
    case Forming => 2 * |b.current| - 1 + Owed(b.pending)
    case Testing => 2 * |b.current| - 2 + Owed(b.pending)
    case Done => 0
  }

  /** A split adds a leaf to the stack and a build; every other build uses up a
      slice, or is one of the `extra` ones. */
  predicate Paid(b: Batch, coming: nat) {
    b.builds + coming + |b.pending| <= 1 + 2 * b.splits + b.extra
  }

  // ----- the whole state ----------------------------------------------------

  ghost predicate Sound(c: Config, s: State, b: Batch) {
    && Accounted(b)
    && (forall i :: i in b.members ==> i < s.next)
    && (forall i :: i in b.landed ==> IsAncestor(c.head(i), s.target))
    && b.splits <= b.builds
    && (c.bisectMax > 0 ==> b.splits < c.bisectMax)
  }

  ghost predicate Closed(c: Config, s: State, b: Batch) {
    && Sound(c, s, b)
    && b.phase.Done? && b.current == [] && b.pending == []
    && b.builds <= Budget(b)
    && Paid(b, 0)
    && (b.flaky <==> b.landed == b.members && b.ejected == [] && b.builds > 1)
  }

  /** Only batch `k` owns rows, and it owns exactly its members in play. */
  ghost predicate Linked(s: State, k: nat)
    requires k < |s.batches|
  {
    && (forall i :: i in s.rows ==>
          && i < s.next
          && (s.rows[i].batch.None? ==> s.rows[i].sha.None?)
          && (s.rows[i].batch.Some? ==>
                && s.rows[i].batch.value == k
                && s.rows[i].state.InTesting?
                && s.batches[k].InPlay(i)))
    && (forall i :: s.batches[k].InPlay(i) ==> i in s.rows && s.rows[i].batch == Some(k))
    && (forall i :: i in Upcoming(s.batches[k].pending) && i in s.rows ==> s.rows[i].sha.None?)
  }

  /** What holds between two writes of one step, with `k` the batch at work. */
  ghost predicate Core(c: Config, s: State, k: nat) {
    && k + 1 == |s.batches|
    && (forall j :: 0 <= j < k ==> Closed(c, s, s.batches[j]))
    && Sound(c, s, s.batches[k])
    && s.batches[k].Live()
    && [] !in s.batches[k].pending
    && Linked(s, k)
  }

  /** The result belongs to the batch's present build and its commit. */
  predicate Of(r: Result, b: Batch) { Some(r.on) == b.sha && r.build == b.builds }

  /** The commit under test is the fold of the current members' heads onto the
      tip the build started from; every current row carries it, and holds only
      results reported on it and stored during this build. */
  ghost predicate Tested(c: Config, s: State, k: nat)
    requires k < |s.batches|
  {
    var b := s.batches[k];
    && b.sha == Some(Fold(c.noop, b.base, Heads(c, b.current)))
    && IsAncestor(b.base, s.target)
    && b.splits < b.builds
    && (forall i :: i in b.current && i in s.rows ==>
          s.rows[i].sha == b.sha &&
          forall x :: x in s.rows[i].checks ==> Of(s.rows[i].checks[x], b))
  }

  ghost predicate LiveOk(c: Config, s: State, k: nat) {
    && Core(c, s, k)
    && s.batches[k].current != []
    && s.batches[k].builds + Due(s.batches[k]) <= Budget(s.batches[k])
    && Paid(s.batches[k], if s.batches[k].phase.Forming? then 1 else 0)
    && (s.batches[k].phase.Testing? ==> Tested(c, s, k))
  }

  ghost predicate Idle(c: Config, s: State) {
    && (forall j :: 0 <= j < |s.batches| ==> Closed(c, s, s.batches[j]))
    && (forall i :: i in s.rows ==> i < s.next && s.rows[i].batch.None? && s.rows[i].sha.None?)
  }

  ghost predicate Inv(c: Config, s: State) {
    if HasLive(s) then LiveOk(c, s, |s.batches| - 1) else Idle(c, s)
  }

  ghost predicate BuildPre(c: Config, s: State, k: nat) {
    && Core(c, s, k)
    && s.batches[k].phase.Forming? && s.batches[k].current != []
    && s.batches[k].builds + Due(s.batches[k]) <= Budget(s.batches[k])
    && Paid(s.batches[k], 1)
  }

  ghost predicate NextPre(c: Config, s: State, k: nat) {
    && Core(c, s, k)
    && s.batches[k].current == []
    && s.batches[k].builds + Owed(s.batches[k].pending) <= Budget(s.batches[k])
    && Paid(s.batches[k], 0)
  }

  // ----- what a build or a pop changes --------------------------------------

  /** How far a live batch is from being finished, whatever the forge and CI
      answer. */
  function Credit(b: Batch): int {
    if b.phase.Done? then 0
    else 1 + 3 * (2 * |b.current| - 2 + Owed(b.pending)) + 2 - Races(b)
  }

  /** An upper bound for the credit once the top slice, if any, is popped. */
  function NextCredit(b: Batch): int {
    if b.pending == [] then 0 else 1 + 3 * (Owed(b.pending) - 1) + 2 - Races(b)
  }

  /** What no build and no pop touches, and what they only let grow. */
  ghost predicate Keeps(s: State, s': State, k: nat)
    requires k < |s.batches|
  {
    && IsAncestor(s.target, s'.target)
    && s'.next == s.next
    && |s'.batches| == |s.batches|
    && (forall j :: 0 <= j < |s.batches| && j != k ==> s'.batches[j] == s.batches[j])
    && (forall i :: i in s'.rows ==> i in s.rows)
    && (forall i :: i in s.rows && s.rows[i].batch.None? ==> i in s'.rows && s'.rows[i] == s.rows[i])
    && var b, b' := s.batches[k], s'.batches[k];
       && b'.members == b.members
       && b'.landed == b.landed
       && b'.ffRetries == b.ffRetries
       && b'.splits == b.splits && b'.extra == b.extra
       && b'.Account() == b.Account()
       && b.ejected <= b'.ejected
       && b.builds <= b'.builds
  }

  ghost predicate Evolves(s: State, s': State, k: nat)
    requires k < |s.batches|
  {
    Keeps(s, s', k) && (s'.batches[k].phase.Testing? ==> s.batches[k].builds < s'.batches[k].builds)
  }

  lemma KeepsThenEvolves(s: State, t: State, u: State, k: nat)
    requires k < |s.batches| && Keeps(s, t, k) && Evolves(t, u, k)
    ensures Evolves(s, u, k)
  {
    AncestorTrans(s.target, t.target, u.target);
  }

  lemma PutTwice(s: State, k: nat, a: Batch, b: Batch)
    requires k < |s.batches|
    ensures Put(Put(s, k, a), k, b) == Put(s, k, b)
  {
  }

  lemma PutSame(s: State, k: nat)
    requires k < |s.batches|
    ensures Put(s, k, s.batches[k]) == s
  {
  }

  lemma {:induction false} OwedNat(p: seq<seq<Id>>)
    requires [] !in p
    ensures Owed(p) >= |p|
  {
    if p != [] {
      assert p[|p| - 1] in p;
      OwedNat(p[..|p| - 1]);
    }
  }

  lemma {:induction false} ExistingAll(rows: Rows, ids: seq<Id>)
    requires forall i :: i in ids ==> i in rows
    ensures Existing(rows, ids) == ids
  {
    if ids != [] {
      ExistingAll(rows, ids[..|ids| - 1]);
      assert ids == ids[..|ids| - 1] + [ids[|ids| - 1]];
    }
  }

  lemma {:induction false} HeadsPick(c: Config, ids: seq<Id>, answers: seq<Answer>)
    requires |ids| == |answers|
    ensures Pick(Heads(c, ids), answers, true) == Heads(c, Pick(ids, answers, true))
  {
    if ids != [] {
      var n := |ids| - 1;
      HeadsPick(c, ids[..n], answers[..n]);
      assert Heads(c, ids)[..n] == Heads(c, ids[..n]);
      var p := Pick(ids[..n], answers[..n], true);
      if answers[n].Clean? {
        assert (p + [ids[n]])[..|p|] == p;
      } else {
        assert p + [] == p;
        assert Heads(c, p) + [] == Heads(c, p);
      }
    }
  }

  lemma {:induction false} HeadsIn(c: Config, ids: seq<Id>)
    ensures forall i :: i in ids ==> c.head(i) in Heads(c, ids)
  {
    if ids != [] {
      HeadsIn(c, ids[..|ids| - 1]);
      assert ids == ids[..|ids| - 1] + [ids[|ids| - 1]];
    }
  }

  lemma TargetGrows(c: Config, s: State, b: Batch, t: Commit)
    requires IsAncestor(s.target, t)
    requires forall i :: i in b.landed ==> IsAncestor(c.head(i), s.target)
    ensures forall i :: i in b.landed ==> IsAncestor(c.head(i), t)
  {
  }

  /** Moving the tip forward disturbs nothing. */
  lemma CoreTarget(c: Config, s: State, k: nat, t: Commit)
    requires Core(c, s, k) && IsAncestor(s.target, t)
    ensures Core(c, s.(target := t), k)
  {
    var s' := s.(target := t);
    forall j | 0 <= j <= k
      ensures forall i :: i in s'.batches[j].landed ==> IsAncestor(c.head(i), t)
    {
      TargetGrows(c, s, s.batches[j], t);
    }
    forall j | 0 <= j < k
      ensures Closed(c, s', s'.batches[j])
    {
      assert Closed(c, s, s.batches[j]);
    }
  }

  lemma UniqueParts(b: Batch)
    requires Accounted(b)
    ensures Unique(b.Line()) && Unique(b.current) && Unique(Upcoming(b.pending))
    ensures forall i :: i in b.current ==> i !in Upcoming(b.pending) && i !in b.landed
    ensures forall i :: i in Upcoming(b.pending) ==> i !in b.landed
    ensures forall i :: i in b.Line() ==> i in b.members
  {
    var line := b.Line();
    SubUnique(line, b.members);
    SubMultiset(line, b.members);
    assert multiset(line) == multiset(b.landed) + multiset(b.current) + multiset(Upcoming(b.pending));
    forall i
      ensures multiset(b.landed)[i] + multiset(b.current)[i] + multiset(Upcoming(b.pending))[i] <= 1
      ensures i in line ==> i in b.members
    {
      if i in line {
        assert multiset(line)[i] == 1;
        assert i in multiset(b.members);
      } else {
        assert i !in multiset(line);
      }
    }
  }

  /** What is taken out of a duplicate-free list is not in the rest. */
  lemma PartsApart(all: seq<Id>, kept: seq<Id>, lost: seq<Id>)
    requires Unique(all) && multiset(kept) + multiset(lost) == multiset(all)
    ensures forall i :: i in all <==> i in kept || i in lost
    ensures forall i :: i in kept ==> i !in lost
  {
  }

  lemma NarrowSub(b: Batch, kept: seq<Id>, lost: seq<Id>)
    requires Sub(b.Line(), b.members) && Sub(kept, b.current)
    ensures Sub(b.Narrow(kept, lost).Line(), b.members)
  {
    SubMiddle(b.landed, kept, b.current, Upcoming(b.pending));
    SubTrans(b.Narrow(kept, lost).Line(), b.Line(), b.members);
  }

  lemma NarrowAccount(b: Batch, kept: seq<Id>, lost: seq<Id>)
    requires multiset(kept) + multiset(lost) == multiset(b.current)
    ensures b.Narrow(kept, lost).Account() == b.Account()
  {
  }

  lemma NarrowAccounted(b: Batch, kept: seq<Id>, lost: seq<Id>)
    requires Accounted(b)
    requires Sub(kept, b.current)
    requires multiset(kept) + multiset(lost) == multiset(b.current)
    ensures Accounted(b.Narrow(kept, lost))
    ensures b.Narrow(kept, lost).Account() == b.Account()
    ensures forall i :: i in b.current <==> i in kept || i in lost
    ensures forall i :: i in kept ==> i !in lost
    ensures forall i :: i in lost ==> i !in Upcoming(b.pending)
  {
    UniqueParts(b);
    NarrowSub(b, kept, lost);
    NarrowAccount(b, kept, lost);
    PartsApart(b.current, kept, lost);
  }

  /** Ejecting part of the current members leaves everything in order. */
  lemma EjectCore(c: Config, s: State, k: nat, kept: seq<Id>, lost: seq<Id>)
    requires Core(c, s, k)
    requires Sub(kept, s.batches[k].current)
    requires multiset(kept) + multiset(lost) == multiset(s.batches[k].current)
    ensures Core(c, Eject(s, k, kept, lost), k)
    ensures forall i :: i in Eject(s, k, kept, lost).rows <==> i in s.rows && i !in lost
    ensures forall i :: i in s.rows && s.rows[i].batch.None? ==> i !in lost
  {
    var b := s.batches[k];
    var s' := Eject(s, k, kept, lost);
    NarrowAccounted(b, kept, lost);
    assert Sound(c, s', s'.batches[k]);
    forall j | 0 <= j < k
      ensures Closed(c, s', s'.batches[j])
    {
      assert Closed(c, s, s.batches[j]);
    }
    assert forall i :: i in lost ==> b.InPlay(i);
  }

  /** Everybody current is ejected. */
  lemma EjectAllCore(c: Config, s: State, k: nat)
    requires Core(c, s, k)
    ensures Core(c, EjectCurrent(s, k), k)
    ensures EjectCurrent(s, k) == Eject(s, k, [], s.batches[k].current)
    ensures EjectCurrent(s, k).batches[k].Account() == s.batches[k].Account()
    ensures forall i :: i in s.rows && s.rows[i].batch.None? ==>
              i in EjectCurrent(s, k).rows && EjectCurrent(s, k).rows[i] == s.rows[i]
  {
    var b := s.batches[k];
    assert forall i :: i in b.current ==> b.InPlay(i);
    ExistingAll(s.rows, b.current);
    EjectCore(c, s, k, [], b.current);
    NarrowAccounted(b, [], b.current);
  }

  /** `Core` from its parts, when one batch row, the rows and the tip change. */
  lemma CoreFrom(c: Config, s: State, s': State, k: nat)
    requires Core(c, s, k)
    requires IsAncestor(s.target, s'.target) && s'.next == s.next && |s'.batches| == |s.batches|
    requires forall j :: 0 <= j < k ==> s'.batches[j] == s.batches[j]
    requires Accounted(s'.batches[k]) && s'.batches[k].members == s.batches[k].members
    requires forall i :: i in s'.batches[k].landed ==> IsAncestor(c.head(i), s'.target)
    requires s'.batches[k].splits <= s'.batches[k].builds
    requires c.bisectMax > 0 ==> s'.batches[k].splits < c.bisectMax
    requires s'.batches[k].Live() && [] !in s'.batches[k].pending
    requires Linked(s', k)
    ensures Core(c, s', k)
  {
    assert Sound(c, s', s'.batches[k]);
    forall j | 0 <= j < k
      ensures Closed(c, s', s'.batches[j])
    {
      assert Closed(c, s, s.batches[j]);
      TargetGrows(c, s, s.batches[j], s'.target);
    }
  }

  /** Rearranging one batch row without changing what it has in play. */
  lemma CorePut(c: Config, s: State, k: nat, b': Batch)
    requires Core(c, s, k)
    requires b'.Live() && Accounted(b') && [] !in b'.pending
    requires b'.members == s.batches[k].members && b'.landed == s.batches[k].landed
    requires b'.splits <= b'.builds && (c.bisectMax > 0 ==> b'.splits < c.bisectMax)
    requires forall i :: b'.InPlay(i) <==> s.batches[k].InPlay(i)
    requires forall i :: i in Upcoming(b'.pending) ==> i in Upcoming(s.batches[k].pending)
    ensures Core(c, Put(s, k, b'), k)
  {
  }

  lemma PopLine(b: Batch)
    requires b.pending != [] && b.current == []
    ensures b.Pop().Line() == b.Line() && b.Pop().Account() == b.Account()
  {
  }

  lemma PopBatch(b: Batch)
    requires b.pending != [] && b.current == [] && [] !in b.pending
    ensures b.Pop().Line() == b.Line() && b.Pop().Account() == b.Account()
    ensures forall i :: b.Pop().InPlay(i) <==> b.InPlay(i)
    ensures forall i :: i in Upcoming(b.Pop().pending) ==> i in Upcoming(b.pending)
    ensures b.Pop().current != [] && [] !in b.Pop().pending
    ensures Due(b.Pop()) == Owed(b.pending)
  {
    var n := |b.pending| - 1;
    PopLine(b);
    assert b.pending[n] in b.pending;
    assert forall x :: x in b.pending[..n] ==> x in b.pending;
  }

  lemma PopPre(c: Config, s: State, k: nat)
    requires NextPre(c, s, k) && s.batches[k].pending != []
    ensures BuildPre(c, Put(s, k, s.batches[k].Pop()), k)
    ensures Keeps(s, Put(s, k, s.batches[k].Pop()), k)
    ensures Credit(s.batches[k].Pop()) <= NextCredit(s.batches[k])
  {
    PopBatch(s.batches[k]);
    CorePut(c, s, k, s.batches[k].Pop());
  }

  lemma FinishOk(c: Config, s: State, k: nat)
    requires NextPre(c, s, k) && s.batches[k].pending == []
    ensures Inv(c, Put(s, k, s.batches[k].Finish()))
    ensures Evolves(s, Put(s, k, s.batches[k].Finish()), k)
  {
    var b := s.batches[k];
    var b' := b.Finish();
    var s' := Put(s, k, b');
    assert b'.Line() == b.Line();
    assert b.Line() == b.landed;
    if |b.landed| == |b.members| {
      SubFull(b.landed, b.members);
    }
    assert Closed(c, s', b');
    forall j | 0 <= j < |s'.batches|
      ensures Closed(c, s', s'.batches[j])
    {
      if j < k { assert Closed(c, s, s.batches[j]); }
    }
    assert forall i :: i in s.rows ==> !b.InPlay(i);
    assert Idle(c, s');
  }

  lemma InstallCore(c: Config, s: State, k: nat, tip: Commit)
    requires Core(c, s, k)
    ensures Core(c, Install(s, k, tip), k)
  {
    var b := s.batches[k];
    UniqueParts(b);
    var b' := Install(s, k, tip).batches[k];
    assert b'.Line() == b.Line();
    assert forall i :: b'.InPlay(i) <==> b.InPlay(i);
    CoreFrom(c, s, Install(s, k, tip), k);
  }

  lemma InstallEvolves(s: State, k: nat, tip: Commit)
    requires k < |s.batches| && Linked(s, k)
    ensures Evolves(s, Install(s, k, tip), k)
  {
  }

  lemma InstallOk(c: Config, s: State, k: nat)
    requires Core(c, s, k) && s.batches[k].phase.Forming? && s.batches[k].current != []
    requires s.batches[k].builds + Due(s.batches[k]) <= Budget(s.batches[k])
    requires Paid(s.batches[k], 1)
    ensures var tip := Fold(c.noop, s.target, Heads(c, s.batches[k].current));
            var s' := Install(s, k, tip);
            && LiveOk(c, s', k) && Evolves(s, s', k)
            && s'.target == s.target && s'.batches[k].phase.Testing?
  {
    var tip := Fold(c.noop, s.target, Heads(c, s.batches[k].current));
    InstallCore(c, s, k, tip);
    InstallEvolves(s, k, tip);
    assert Tested(c, Install(s, k, tip), k);
  }

  /** The members that merge, those that do not, and the tip. */
  lemma StackSplits(c: Config, onto: Commit, ids: seq<Id>, oracle: Oracle)
    ensures var steps := Stacked(c.noop, onto, Heads(c, ids), oracle);
            var kept := Pick(ids, steps.answers, true);
            && Sub(kept, ids) && |kept| <= |ids|
            && multiset(kept) + multiset(Pick(ids, steps.answers, false)) == multiset(ids)
            && steps.tip == Fold(c.noop, onto, Heads(c, kept))
  {
    var steps := Stacked(c.noop, onto, Heads(c, ids), oracle);
    PickSub(ids, steps.answers, true);
    PickSplits(ids, steps.answers);
    SubMultiset(Pick(ids, steps.answers, true), ids);
    StackedIsFold(c.noop, onto, Heads(c, ids), oracle);
    HeadsPick(c, ids, steps.answers);
  }

  /** Who merges is a subsequence of current, and the tip is the fold over them. */
  lemma WeededParts(c: Config, w: World, s: State, k: nat)
    requires Core(c, s, k)
    ensures var b, answers := s.batches[k], Merges(c, w, s, k).answers;
            && Existing(s.rows, b.current) == b.current && |answers| == |b.current|
            && Sub(Pick(b.current, answers, true), b.current)
            && |Pick(b.current, answers, true)| <= |b.current|
            && multiset(Pick(b.current, answers, true)) + multiset(Pick(b.current, answers, false)) == multiset(b.current)
            && Merges(c, w, s, k).tip == Fold(c.noop, Onto(w, s, k), Heads(c, Pick(b.current, answers, true)))
  {
    var b := s.batches[k];
    assert forall i :: i in b.current ==> b.InPlay(i);
    ExistingAll(s.rows, b.current);
    StackSplits(c, Onto(w, s, k), b.current, w.merge(|b.pending|));
  }

  lemma WeededKeeps(c: Config, s: State, k: nat, onto: Commit, kept: seq<Id>, lost: seq<Id>)
    requires Core(c, s, k) && IsAncestor(s.target, onto)
    requires Sub(kept, s.batches[k].current)
    requires multiset(kept) + multiset(lost) == multiset(s.batches[k].current)
    ensures var s1 := Eject(s.(target := onto), k, kept, lost);
            Keeps(s, s1, k) && Core(c, s1, k)
  {
    CoreTarget(c, s, k, onto);
    EjectCore(c, s.(target := onto), k, kept, lost);
    NarrowAccounted(s.batches[k], kept, lost);
  }

  /** After the members that do not merge are gone, the rest can be installed,
      or, if there is no rest, the next slice can be popped. */
  lemma WeededOk(c: Config, w: World, s: State, k: nat)
    requires BuildPre(c, s, k)
    ensures var s1 := Weeded(c, w, s, k);
            && Keeps(s, s1, k) && Core(c, s1, k)
            && s1.target == Onto(w, s, k)
            && s1.batches[k].pending == s.batches[k].pending
            && s1.batches[k].phase.Forming?
            && |s1.batches[k].current| <= |s.batches[k].current|
            && s1.batches[k].builds == s.batches[k].builds
            && Merges(c, w, s, k).tip == Fold(c.noop, s1.target, Heads(c, s1.batches[k].current))
  {
    var b := s.batches[k];
    WeededParts(c, w, s, k);
    var answers := Merges(c, w, s, k).answers;
    WeededKeeps(c, s, k, Onto(w, s, k), Pick(b.current, answers, true), Pick(b.current, answers, false));
  }

  lemma BuiltOk(c: Config, w: World, s: State, k: nat)
    requires BuildPre(c, s, k) && !w.broken(|s.batches[k].pending|) && Weeded(c, w, s, k).batches[k].current != []
    ensures Inv(c, Build(c, w, s, k))
    ensures Evolves(s, Build(c, w, s, k), k)
    ensures Credit(Build(c, w, s, k).batches[k]) <= Credit(s.batches[k])
  {
    var s1 := Weeded(c, w, s, k);
    WeededOk(c, w, s, k);
    InstallOk(c, s1, k);
    KeepsThenEvolves(s, s1, Build(c, w, s, k), k);
  }

  lemma BrokenOk(c: Config, w: World, s: State, k: nat)
    requires BuildPre(c, s, k) && w.broken(|s.batches[k].pending|)
    ensures Inv(c, Build(c, w, s, k))
    ensures Evolves(s, Build(c, w, s, k), k)
    ensures Credit(Build(c, w, s, k).batches[k]) <= Credit(s.batches[k])
  {
    CoreTarget(c, s, k, Onto(w, s, k));
  }

  /** From any good state about to build, a build ends in a good state: under
      test, still forming, or finished. */
  lemma {:induction false} BuildOk(c: Config, w: World, s: State, k: nat)
    requires BuildPre(c, s, k)
    ensures Inv(c, Build(c, w, s, k))
    ensures Evolves(s, Build(c, w, s, k), k)
    ensures Credit(Build(c, w, s, k).batches[k]) <= Credit(s.batches[k])
    decreases |s.batches[k].pending|, 1
  {
    if w.broken(|s.batches[k].pending|) {
      BrokenOk(c, w, s, k);
    } else if Weeded(c, w, s, k).batches[k].current != [] {
      BuiltOk(c, w, s, k);
    } else {
      var s1 := Weeded(c, w, s, k);
      WeededOk(c, w, s, k);
      OwedNat(s.batches[k].pending);
      NextOk(c, w, s1, k);
      KeepsThenEvolves(s, s1, Build(c, w, s, k), k);
    }
  }

  lemma {:induction false} NextOk(c: Config, w: World, s: State, k: nat)
    requires NextPre(c, s, k)
    ensures Inv(c, Next(c, w, s, k))
    ensures Evolves(s, Next(c, w, s, k), k)
    ensures Credit(Next(c, w, s, k).batches[k]) <= NextCredit(s.batches[k])
    decreases |s.batches[k].pending|, 0
  {
    var b := s.batches[k];
    if b.pending != [] {
      PopPre(c, s, k);
      BuildOk(c, w, Put(s, k, b.Pop()), k);
      KeepsThenEvolves(s, Put(s, k, b.Pop()), Next(c, w, s, k), k);
    } else {
      FinishOk(c, s, k);
    }
  }
}
