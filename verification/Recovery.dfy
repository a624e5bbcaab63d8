/** Crashes. The program can stop between any two writes to the store; the
    states it can leave behind are weaker than the ones between two steps. What
    they all share is enough for ReconcileLive to restore the routing, and to
    account for every member whose queue row is still there. */
module Recovery {
  import opened Lists
  import opened Commits
  import opened Stacking
  import opened Model
  import opened Invariants
  import opened Transitions
  import opened Routing

  /** First in, first out, and nothing twice: the part of the accounting that no
      crash disturbs. */
  ghost predicate Apart(b: Batch) { Unique(b.members) && Sub(b.Line(), b.members) }

  /** Only current members of batch `k` carry a commit, not necessarily the right
      one; a row that names a batch names `k`, and does so exactly if it is that of
      a member in play. */
  ghost predicate Fits(rows: Rows, k: nat, b: Batch) {
    forall i :: i in rows ==>
      && (rows[i].sha.Some? ==> i in b.current)
      && (rows[i].batch.Some? ==> rows[i].batch.value == k)
      && (rows[i].batch.Some? <==> b.InPlay(i))
  }

  /** What holds while batch `k` is worked on, with its row as it is in memory. */
  ghost predicate Midway(s: State, k: nat) {
    && k + 1 == |s.batches|
    && (forall j :: 0 <= j < k ==> s.batches[j].phase.Done?)
    && s.batches[k].Live()
    && Apart(s.batches[k])
    && Fits(s.rows, k, s.batches[k])
    && (forall i :: i in s.rows ==> i < s.next)
    && (forall i: Id :: s.batches[k].InPlay(i) ==> i < s.next)
  }

  ghost predicate AtRest(s: State) {
    && (forall j :: 0 <= j < |s.batches| ==> s.batches[j].phase.Done?)
    && (forall i :: i in s.rows ==> i < s.next && s.rows[i].sha.None? && s.rows[i].batch.None?)
  }

  predicate HasSha(b: Batch) { b.phase.Testing? ==> b.sha.Some? }

  /** What every state between two writes satisfies. */
  ghost predicate Recoverable(s: State) {
    if HasLive(s) then Midway(s, |s.batches| - 1) && HasSha(s.batches[|s.batches| - 1]) else AtRest(s)
  }

  lemma UniqueCat(a: seq<Id>, b: seq<Id>)
    requires Unique(a + b)
    ensures Unique(a) && Unique(b)
    ensures forall i :: i in a ==> i !in b
  {
    forall i
      ensures multiset(a)[i] + multiset(b)[i] <= 1
    {
      assert multiset(a + b)[i] == multiset(a)[i] + multiset(b)[i];
      if i !in a + b { assert i !in multiset(a + b); }
    }
  }

  lemma ApartParts(b: Batch)
    requires Apart(b)
    ensures forall i :: i in b.current ==> i !in Upcoming(b.pending)
  {
    SubUnique(b.Line(), b.members);
    assert b.Line() == b.landed + (b.current + Upcoming(b.pending));
    UniqueCat(b.landed, b.current + Upcoming(b.pending));
    UniqueCat(b.current, Upcoming(b.pending));
  }

  /** A crash between two steps leaves such a state. */
  lemma InvIsRecoverable(c: Config, s: State)
    requires Inv(c, s)
    ensures Recoverable(s)
  {
    if HasLive(s) {
      LiveFits(c, s, |s.batches| - 1);
      LiveAlone(c, s, |s.batches| - 1);
    } else {
      forall j | 0 <= j < |s.batches|
        ensures s.batches[j].phase.Done?
      {
        assert Closed(c, s, s.batches[j]);
      }
    }
  }

  lemma LiveFits(c: Config, s: State, k: nat)
    requires Core(c, s, k)
    ensures Fits(s.rows, k, s.batches[k]) && forall i :: i in s.rows ==> i < s.next
  {
    assert Linked(s, k);
    forall i | i in s.rows && s.rows[i].sha.Some?
      ensures i in s.batches[k].current
    {
      assert s.batches[k].InPlay(i);
    }
  }

  lemma LiveAlone(c: Config, s: State, k: nat)
    requires Core(c, s, k)
    ensures forall j :: 0 <= j < k ==> s.batches[j].phase.Done?
  {
    forall j | 0 <= j < k
      ensures s.batches[j].phase.Done?
    {
      assert Closed(c, s, s.batches[j]);
    }
  }

  // ----- single writes ------------------------------------------------------

  /** Deleting rows and clearing commits is harmless at any moment. */
  lemma FewerCarriers(s: State, rows: Rows)
    requires Recoverable(s)
    requires forall i :: i in rows ==>
      i in s.rows && rows[i].batch == s.rows[i].batch && (rows[i].sha.Some? ==> s.rows[i].sha.Some?)
    ensures Recoverable(s.(rows := rows))
  {
  }

  /** Members of the live batch that are current may be routed at any moment. */
  lemma StampedFits(s: State, id: Id, sha: Commit)
    requires Recoverable(s) && HasLive(s) && id in s.batches[|s.batches| - 1].current
    ensures Recoverable(s.(rows := Stamped(s.rows, [id], sha)))
  {
  }

  /** The row of a batch that is worked on may be saved at any moment. */
  lemma SavedFits(s: State, k: nat)
    requires Midway(s, k) && HasSha(s.batches[k])
    ensures Recoverable(s)
  {
  }

  /** And when nobody is left, it may be saved as done. */
  lemma FinishedFits(s: State, k: nat)
    requires Midway(s, k) && s.batches[k].current == [] && s.batches[k].pending == []
    ensures Recoverable(Put(s, k, s.batches[k].Finish()))
  {
    assert forall i :: !s.batches[k].InPlay(i);
  }

  // ----- work in progress ---------------------------------------------------

  lemma LiveMidway(s: State, k: nat)
    requires Recoverable(s) && k < |s.batches| && s.batches[k].Live()
    ensures Midway(s, k) && HasSha(s.batches[k])
  {
  }

  /** `Midway` when rows only go away, and nobody whose row stays leaves play. */
  lemma MidwayFrom(s: State, s': State, k: nat)
    requires Midway(s, k) && k + 1 == |s'.batches| && s.next <= s'.next
    requires forall j :: 0 <= j < k ==> s'.batches[j] == s.batches[j]
    requires s'.batches[k].Live() && Apart(s'.batches[k])
    requires forall i :: i in s'.rows ==> i in s.rows && s'.rows[i].batch == s.rows[i].batch
    requires forall i :: i in s'.rows && s'.rows[i].sha.Some? ==> i in s'.batches[k].current
    requires forall i: Id :: s'.batches[k].InPlay(i) ==> s.batches[k].InPlay(i)
    requires forall i :: i in s'.rows && s.batches[k].InPlay(i) ==> s'.batches[k].InPlay(i)
    ensures Midway(s', k)
  {
  }

  /** Only the members, where they are, and being live matter. */
  lemma SameMidway(s: State, k: nat, b: Batch, b': Batch)
    requires k < |s.batches| && Midway(Put(s, k, b), k) && b'.Live()
    requires b'.members == b.members && b'.landed == b.landed && b'.current == b.current && b'.pending == b.pending
    ensures Midway(Put(s, k, b'), k)
  {
    assert forall j :: 0 <= j < k ==> Put(s, k, b).batches[j] == s.batches[j] == Put(s, k, b').batches[j];
    assert b'.Line() == b.Line();
    assert forall i: Id :: b'.InPlay(i) == b.InPlay(i);
    MidwayFrom(Put(s, k, b), Put(s, k, b'), k);
  }

  lemma TargetMidway(s: State, k: nat, tip: Commit)
    requires Midway(s, k)
    ensures Midway(s.(target := tip), k)
  {
  }

  /** The phase of a live row does not matter. */
  lemma MidwayPhase(s: State, k: nat, b: Batch, phase: Phase)
    requires k < |s.batches| && Midway(Put(s, k, b), k) && !phase.Done?
    ensures Midway(Put(s, k, b.(phase := phase)), k)
  {
    SameMidway(s, k, b, b.(phase := phase));
  }

  /** Nor do the counters. */
  lemma CountMidway(s: State, k: nat, b: Batch, b': Batch)
    requires k < |s.batches| && Midway(Put(s, k, b), k)
    requires b' == b.(ffRetries := b'.ffRetries, extra := b'.extra)
    ensures Midway(Put(s, k, b'), k)
  {
    SameMidway(s, k, b, b');
  }

  lemma BuiltMidway(s: State, k: nat, b: Batch, tip: Commit, onto: Commit)
    requires k < |s.batches| && Midway(Put(s, k, b), k)
    ensures Midway(Put(s, k, b.Built(tip, onto)), k)
  {
    SameMidway(s, k, b, b.Built(tip, onto));
  }

  lemma DrainedRows(s: State, k: nat)
    requires Midway(s, k)
    ensures var b := s.batches[k];
            forall i :: i in s.rows && i !in Existing(s.rows, b.current + Concat(b.pending)) ==>
              s.rows[i].sha.None? && s.rows[i].batch.None?
  {
    var b := s.batches[k];
    ExistingFacts(s.rows, b.current + Concat(b.pending));
    ConcatIsUpcoming(b.pending);
    assert forall i :: i in Concat(b.pending) <==> i in multiset(Concat(b.pending));
    assert forall i :: i in Upcoming(b.pending) <==> i in multiset(Upcoming(b.pending));
  }

  lemma DrainMidway(s: State, k: nat)
    requires Midway(s, k)
    ensures Midway(Model.EjectCurrent(Put(s, k, s.batches[k].Drain()), k), k)
  {
    var s' := Model.EjectCurrent(Put(s, k, s.batches[k].Drain()), k);
    DrainedRows(s, k);
    DrainedSub(s.batches[k]);
    assert s'.batches[k].Line() == s.batches[k].landed;
    assert Fits(s'.rows, k, s'.batches[k]);
  }

  lemma DrainedSub(b: Batch)
    requires Apart(b)
    ensures Sub(b.landed, b.members)
  {
    SubRefl(b.landed);
    SubWiden(b.landed, b.landed, b.current + Upcoming(b.pending));
    assert b.Line() == b.landed + (b.current + Upcoming(b.pending));
    SubTrans(b.landed, b.Line(), b.members);
  }

  lemma SplitApart(b: Batch)
    ensures b.Split().Line() == b.Line()
    ensures forall i :: b.Split().InPlay(i) <==> b.InPlay(i)
    ensures forall i :: i in b.current <==> i in b.current[..|b.current| / 2] || i in b.current[|b.current| / 2..]
  {
    var left, right := b.current[..|b.current| / 2], b.current[|b.current| / 2..];
    UpcomingPush(b.pending, right);
    assert b.current == left + right;
    assert b.Split().Line() == b.landed + (left + right) + Upcoming(b.pending);
  }

  lemma SplitMidway(s: State, k: nat)
    requires Midway(s, k)
    ensures Midway(AfterSplit(s, k), k)
  {
    SplitApart(s.batches[k]);
    assert Fits(AfterSplit(s, k).rows, k, AfterSplit(s, k).batches[k]);
  }

  lemma DiscardMidway(s: State, k: nat, id: Id)
    requires Midway(s, k) && id !in s.rows
    ensures Midway(Put(s, k, s.batches[k].Discard(id)), k)
  {
    hide Apart, Batch.InPlay, Batch.Discard;
    var b := s.batches[k];
    DiscardApart(b, id);
    MidwayFrom(s, Put(s, k, b.Discard(id)), k);
  }

  lemma DiscardApart(b: Batch, id: Id)
    requires Apart(b)
    ensures Apart(b.Discard(id)) && (b.Live() ==> b.Discard(id).Live())
    ensures forall i: Id :: b.Discard(id).InPlay(i) <==> b.InPlay(i) && i != id
    ensures forall i: Id :: i in b.Discard(id).current <==> i in b.current && i != id
  {
    WithoutFilters(b.current, id);
    WithoutFilters(Upcoming(b.pending), id);
    TrimUpcoming(b.pending, id);
    DiscardSub(b, id);
  }

  // ----- the steps of a build -----------------------------------------------

  lemma {:induction false} ExistingFacts(rows: Rows, ids: seq<Id>)
    ensures Sub(Existing(rows, ids), ids)
    ensures forall i :: i in Existing(rows, ids) <==> i in ids && i in rows
  {
    if ids != [] {
      var n := |ids| - 1;
      ExistingFacts(rows, ids[..n]);
      assert ids == ids[..n] + [ids[n]];
      if ids[n] in rows {
        SubRefl([ids[n]]);
        SubCat(Existing(rows, ids[..n]), ids[..n], [ids[n]], [ids[n]]);
      } else {
        SubWiden(Existing(rows, ids[..n]), ids[..n], [ids[n]]);
      }
    }
  }

  lemma ApartNarrow(b: Batch, kept: seq<Id>, lost: seq<Id>)
    requires Apart(b) && Sub(kept, b.current)
    ensures Apart(b.Narrow(kept, lost))
  {
    NarrowSub(b, kept, lost);
  }

  lemma ApartPop(b: Batch)
    requires Apart(b) && b.pending != [] && b.current == []
    ensures Apart(b.Pop()) && forall i :: b.Pop().InPlay(i) <==> b.InPlay(i)
  {
    PopLine(b);
    assert Upcoming(b.pending) == b.pending[|b.pending| - 1] + Upcoming(b.pending[..|b.pending| - 1]);
  }

  /** The next slice of a batch with nobody current. */
  lemma PopMidway(s: State, k: nat)
    requires Midway(s, k) && s.batches[k].pending != [] && s.batches[k].current == []
    ensures Midway(Put(s, k, s.batches[k].Pop()), k)
  {
    ApartPop(s.batches[k]);
  }

  lemma PickedOf(ids: seq<Id>, answers: seq<Answer>)
    requires |ids| == |answers|
    ensures forall i :: i in ids ==> i in Pick(ids, answers, true) || i in Pick(ids, answers, false)
    ensures forall i :: i in Pick(ids, answers, true) || i in Pick(ids, answers, false) ==> i in ids
    ensures Sub(Pick(ids, answers, true), ids)
  {
    PickSub(ids, answers, true);
    PickSplits(ids, answers);
    forall i
      ensures i in ids <==> i in Pick(ids, answers, true) || i in Pick(ids, answers, false)
    {
      assert i in ids <==> i in multiset(ids);
    }
  }

  lemma SubIn(a: seq<Id>, b: seq<Id>)
    requires Sub(a, b)
    ensures forall i :: i in a ==> i in b
  {
    SubMultiset(a, b);
    forall i | i in a
      ensures i in b
    {
      assert i in multiset(b);
    }
  }

  /** Ejecting rows that are current, while the rest that has a row stays. */
  lemma EjectMidway(s: State, k: nat, kept: seq<Id>, lost: seq<Id>)
    requires Midway(s, k) && Sub(kept, s.batches[k].current)
    requires forall i :: i in s.batches[k].current && i in s.rows ==> i in kept || i in lost
    ensures Midway(Eject(s, k, kept, lost), k)
  {
    var b := s.batches[k];
    ApartNarrow(b, kept, lost);
    SubIn(kept, b.current);
    MidwayFrom(s, Eject(s, k, kept, lost), k);
  }

  lemma WeededMidway(c: Config, w: World, s: State, k: nat)
    requires Midway(s, k)
    ensures Midway(Weeded(c, w, s, k), k)
  {
    var b := s.batches[k];
    var entries := Existing(s.rows, b.current);
    var answers := Merges(c, w, s, k).answers;
    ExistingFacts(s.rows, b.current);
    PickedOf(entries, answers);
    SubTrans(Pick(entries, answers, true), entries, b.current);
    EjectMidway(s.(target := Onto(w, s, k)), k, Pick(entries, answers, true), Pick(entries, answers, false));
  }

  lemma EjectCurrentMidway(s: State, k: nat)
    requires Midway(s, k)
    ensures Midway(EjectCurrent(s, k), k)
  {
    ExistingFacts(s.rows, s.batches[k].current);
    EjectMidway(s, k, [], Existing(s.rows, s.batches[k].current));
  }

  lemma LandMidway(s: State, k: nat, sha: Commit)
    requires Midway(s, k)
    ensures Midway(LandCurrent(s, k, sha), k)
  {
    assert s.batches[k].Land().Line() == s.batches[k].Line();
    MidwayFrom(s, LandCurrent(s, k, sha), k);
  }

  lemma InstallRecovers(s: State, k: nat, tip: Commit)
    requires Midway(s, k)
    ensures Recoverable(Install(s, k, tip)) && RoutesRight(Install(s, k, tip))
  {
    var b := s.batches[k];
    var s' := Install(s, k, tip);
    assert s'.batches[k].Line() == b.Line();
    assert forall i :: s'.batches[k].InPlay(i) <==> b.InPlay(i);
  }

  lemma {:induction false} BuildRecovers(c: Config, w: World, s: State, k: nat)
    requires Midway(s, k) && s.batches[k].phase.Forming?
    ensures Recoverable(Build(c, w, s, k)) && RoutesRight(Build(c, w, s, k))
    decreases |s.batches[k].pending|, 1
  {
    if w.broken(|s.batches[k].pending|) {
      SavedFits(s.(target := Onto(w, s, k)), k);
    } else {
      var s1 := Weeded(c, w, s, k);
      WeededMidway(c, w, s, k);
      if s1.batches[k].current == [] {
        NextRecovers(c, w, s1, k);
      } else {
        InstallRecovers(s1, k, Merges(c, w, s, k).tip);
      }
    }
  }

  lemma {:induction false} NextRecovers(c: Config, w: World, s: State, k: nat)
    requires Midway(s, k) && s.batches[k].current == []
    ensures Recoverable(Next(c, w, s, k)) && RoutesRight(Next(c, w, s, k))
    decreases |s.batches[k].pending|, 0
  {
    if s.batches[k].pending != [] {
      PopMidway(s, k);
      BuildRecovers(c, w, Put(s, k, s.batches[k].Pop()), k);
    } else {
      FinishedFits(s, k);
    }
  }

  /** Wherever the program stopped, reconciling at the next start leaves exactly
      the current members with a row carrying the commit under test, so that a
      result about it finds its batch again. */
  lemma ReconcileRoutes(c: Config, w: World, s: State)
    requires Recoverable(s)
    ensures Recoverable(OnReconcile(c, w, s)) && RoutesRight(OnReconcile(c, w, s))
  {
    if HasLive(s) {
      var k := |s.batches| - 1;
      if s.batches[k].phase.Forming? { BuildRecovers(c, w, s, k); } else { RestampRecovers(s, k); }
    }
  }

  lemma RestampRecovers(s: State, k: nat)
    requires Midway(s, k) && HasSha(s.batches[k]) && s.batches[k].phase.Testing?
    ensures var s' := s.(rows := Stamped(s.rows, s.batches[k].current, s.batches[k].sha.value));
            Recoverable(s') && RoutesRight(s')
  {
  }

  // ----- what accounting remains --------------------------------------------

  /** At every moment of a crash, a row that names a batch names the live one and
      is current or waiting there, once: no crash strands a row. */
  lemma CrashStrandsNobody(s: State, i: Id)
    requires Recoverable(s) && i in s.rows && s.rows[i].batch.Some?
    ensures HasLive(s) && s.rows[i].batch.value == |s.batches| - 1
    ensures var b := s.batches[|s.batches| - 1];
            b.InPlay(i) && (i in b.current ==> i !in Upcoming(b.pending)) && Sub(b.Line(), b.members)
  {
    ApartParts(s.batches[|s.batches| - 1]);
  }

  /** Every row of the batch is still there afterwards, or its member is noted as
      ejected; and what was noted before stays noted. */
  ghost predicate Accounts(s: State, s': State, k: nat)
    requires k < |s.batches|
  {
    && k < |s'.batches|
    && s'.batches[k].landed == s.batches[k].landed
    && (forall i :: i in s.batches[k].ejected ==> i in s'.batches[k].ejected)
    && (forall i :: i in s.rows ==>
          (i in s'.rows && s'.rows[i].batch == s.rows[i].batch) || i in s'.batches[k].ejected)
  }

  lemma {:induction false} BuildAccounts(c: Config, w: World, s: State, k: nat)
    requires k < |s.batches|
    ensures Accounts(s, Build(c, w, s, k), k)
    decreases |s.batches[k].pending|, 1
  {
    if !w.broken(|s.batches[k].pending|) {
      var s1 := Weeded(c, w, s, k);
      if s1.batches[k].current == [] { NextAccounts(c, w, s1, k); }
    }
  }

  lemma {:induction false} NextAccounts(c: Config, w: World, s: State, k: nat)
    requires k < |s.batches|
    ensures Accounts(s, Next(c, w, s, k), k)
    decreases |s.batches[k].pending|, 0
  {
    var b := s.batches[k];
    if b.pending != [] { BuildAccounts(c, w, Put(s, k, b.Pop()), k); }
  }

  /** After reconciling, every member whose row the crash left in the queue is
      under test, waiting, or noted as ejected. */
  lemma ReconcileAccounts(c: Config, w: World, s: State, i: Id)
    requires Recoverable(s) && i in s.rows && s.rows[i].batch.Some?
    ensures var k, s' := |s.batches| - 1, OnReconcile(c, w, s);
            k < |s'.batches| && (s'.batches[k].InPlay(i) || i in s'.batches[k].ejected)
  {
    var k, s' := |s.batches| - 1, OnReconcile(c, w, s);
    ReconcileRoutes(c, w, s);
    BuildAccounts(c, w, s, k);
    if i in s'.rows && s'.rows[i].batch.Some? { CrashStrandsNobody(s', i); }
  }
}
