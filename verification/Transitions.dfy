/** Every entry point keeps the invariant, and what each may change. */
module Transitions {
  import opened Lists
  import opened Commits
  import opened Checks
  import opened Model
  import opened Invariants

  /** One verdict or build on batch `k`: nothing outside the batch moves, the
      tip only grows, landing appends, and the accounted members are conserved. */
  ghost predicate Onward(s: State, s': State, k: nat)
    requires k < |s.batches|
  {
    && IsAncestor(s.target, s'.target)
    && s'.next == s.next
    && |s'.batches| == |s.batches|
    && (forall j :: 0 <= j < |s.batches| && j != k ==> s'.batches[j] == s.batches[j])
    && (forall i :: i in s'.rows ==> i in s.rows)
    && (forall i :: i in s.rows && s.rows[i].batch.None? ==> i in s'.rows && s'.rows[i] == s.rows[i])
    && var b, b' := s.batches[k], s'.batches[k];
       && b'.members == b.members
       && b.landed <= b'.landed
       && b.ejected <= b'.ejected
       && b'.Account() == b.Account()
       && b.builds <= b'.builds
  }

  /** And a batch under test afterwards is testing a newer build. */
  ghost predicate Progresses(s: State, s': State, k: nat)
    requires k < |s.batches|
  {
    Onward(s, s', k) && (s'.batches[k].phase.Testing? ==> s.batches[k].builds < s'.batches[k].builds)
  }

  lemma OnwardThenEvolves(s: State, t: State, u: State, k: nat)
    requires k < |s.batches| && Onward(s, t, k) && Evolves(t, u, k)
    ensures Progresses(s, u, k)
  {
    AncestorTrans(s.target, t.target, u.target);
  }

  // ----- landing ------------------------------------------------------------

  lemma LandBatch(b: Batch)
    requires Accounted(b)
    ensures Accounted(b.Land()) && b.Land().Account() == b.Account()
  {
    assert b.Land().Line() == b.Line();
    assert multiset(b.landed + b.current) == multiset(b.landed) + multiset(b.current);
  }

  /** `Linked` when rows disappear together with their members, and the others
      keep their batch and state. */
  lemma LinkedSub(s: State, s': State, k: nat)
    requires k < |s.batches| && k < |s'.batches| && Linked(s, k) && s'.next == s.next
    requires forall i :: i in s'.rows ==>
      i in s.rows && s'.rows[i].batch == s.rows[i].batch && s'.rows[i].state == s.rows[i].state &&
      (s'.rows[i].sha.Some? ==> s.rows[i].sha.Some?)
    requires forall i :: s'.batches[k].InPlay(i) <==> s.batches[k].InPlay(i) && i in s'.rows
    requires forall i :: i in Upcoming(s'.batches[k].pending) && i in s'.rows ==> s'.rows[i].sha.None?
    ensures Linked(s', k)
  {
  }

  lemma LandLinked(s: State, k: nat, sha: Commit)
    requires k < |s.batches| && Linked(s, k) && Accounted(s.batches[k])
    ensures Linked(LandCurrent(s, k, sha), k)
  {
    var b := s.batches[k];
    UniqueParts(b);
    forall i
      ensures b.Land().InPlay(i) <==> b.InPlay(i) && i !in b.current
      ensures i in b.current ==> b.InPlay(i)
    {
    }
    LinkedSub(s, LandCurrent(s, k, sha), k);
  }

  lemma LandCore(c: Config, s: State, k: nat, sha: Commit)
    requires Core(c, s, k) && IsAncestor(s.target, sha)
    requires forall h :: h in Heads(c, s.batches[k].current) ==> IsAncestor(h, sha)
    ensures Core(c, LandCurrent(s, k, sha), k)
  {
    var b := s.batches[k];
    LandBatch(b);
    HeadsIn(c, b.current);
    TargetGrows(c, s, b, sha);
    LandLinked(s, k, sha);
    CoreFrom(c, s, LandCurrent(s, k, sha), k);
  }

  lemma LandOk(c: Config, s: State, k: nat)
    requires LiveOk(c, s, k) && s.batches[k].phase.Testing?
    requires IsAncestor(s.target, s.batches[k].sha.value)
    ensures var s' := LandCurrent(s, k, s.batches[k].sha.value);
            NextPre(c, s', k) && Onward(s, s', k)
  {
    var b := s.batches[k];
    FoldContains(c.noop, b.base, Heads(c, b.current));
    LandCore(c, s, k, b.sha.value);
    LandBatch(b);
    assert forall i :: i in b.current ==> b.InPlay(i);
  }

  // ----- fast-forward refused -----------------------------------------------

  /** Counters and phase may change freely as far as `Core` is concerned. */
  lemma RaceOk(c: Config, s: State, k: nat)
    requires LiveOk(c, s, k) && s.batches[k].phase.Testing?
    ensures Core(c, Put(s, k, s.batches[k].Race()), k)
    ensures s.batches[k].ffRetries + 1 < MAX_FF_RETRIES ==>
              && BuildPre(c, Put(s, k, s.batches[k].Race().Rebuilding()), k)
              && Onward(s, Put(s, k, s.batches[k].Race().Rebuilding()), k)
              && Credit(s.batches[k].Race().Rebuilding()) < Credit(s.batches[k])
  {
    var b := s.batches[k];
    assert b.Race().Line() == b.Line();
    assert b.Race().Rebuilding().Line() == b.Line();
    CorePut(c, s, k, b.Race());
    CorePut(c, s, k, b.Race().Rebuilding());
  }

  /** All current members ejected: the stack is next. */
  lemma GiveUpOk(c: Config, s: State, k: nat)
    requires Core(c, s, k) && s.batches[k].current != []
    requires s.batches[k].builds + 2 * |s.batches[k].current| - 2 + Owed(s.batches[k].pending) <= Budget(s.batches[k])
    requires Paid(s.batches[k], 0)
    ensures NextPre(c, EjectCurrent(s, k), k) && Keeps(s, EjectCurrent(s, k), k)
    ensures NextCredit(EjectCurrent(s, k).batches[k]) < 1 + 3 * Owed(s.batches[k].pending) + 2 - Races(s.batches[k])
  {
    EjectAllCore(c, s, k);
    OwedNat(s.batches[k].pending);
  }

  // ----- red builds ---------------------------------------------------------

  lemma SplitLine(b: Batch)
    requires Accounted(b)
    ensures b.Split().Line() == b.Line() && Sub(b.Split().Line(), b.members)
    ensures Upcoming(b.Split().pending) == b.current[|b.current| / 2..] + Upcoming(b.pending)
  {
    hide Batch.Account;
    var mid := |b.current| / 2;
    var left, right := b.current[..mid], b.current[mid..];
    UpcomingPush(b.pending, right);
    assert b.current == left + right;
    assert b.Split().Line() == b.landed + (left + right) + Upcoming(b.pending);
  }

  lemma SplitAccount(b: Batch)
    ensures b.Split().Account() == b.Account()
  {
    var mid := |b.current| / 2;
    var left, right := b.current[..mid], b.current[mid..];
    UpcomingPush(b.pending, right);
    assert multiset(b.current) == multiset(left) + multiset(right) by { assert b.current == left + right; }
    assert multiset(right + Upcoming(b.pending)) == multiset(right) + multiset(Upcoming(b.pending));
  }

  lemma SplitShape(b: Batch)
    requires |b.current| >= 2 && [] !in b.pending
    ensures var b' := b.Split();
            && b'.current != [] && [] !in b'.pending
            && (forall i :: b'.InPlay(i) <==> b.InPlay(i))
            && (forall i :: i in Upcoming(b'.pending) <==> i in b.current[|b.current| / 2..] || i in Upcoming(b.pending))
            && Due(b') == 2 * |b.current| - 2 + Owed(b.pending)
  {
    var mid := |b.current| / 2;
    var left, right := b.current[..mid], b.current[mid..];
    UpcomingPush(b.pending, right);
    assert forall i :: i in b.current <==> i in left || i in right by { assert b.current == left + right; }
    assert (b.pending + [right])[..|b.pending|] == b.pending;
  }

  lemma SplitBatch(b: Batch)
    requires Accounted(b)
    ensures Accounted(b.Split()) && b.Split().Account() == b.Account()
  {
    hide Batch.Account;
    SplitLine(b);
    SplitAccount(b);
  }

  function AfterSplit(s: State, k: nat): State
    requires k < |s.batches|
  {
    var b := s.batches[k];
    Put(s, k, b.Split()).(rows := Unrouted(s.rows, b.current[|b.current| / 2..]))
  }

  lemma SplitLinked(s: State, k: nat)
    requires k < |s.batches| && Linked(s, k) && Accounted(s.batches[k])
    requires |s.batches[k].current| >= 2 && [] !in s.batches[k].pending
    ensures Linked(AfterSplit(s, k), k)
  {
    hide Batch.Account, Owed, Upcoming;
    var b, s' := s.batches[k], AfterSplit(s, k);
    SplitShape(b);
    forall i | i in s'.rows && s'.rows[i].batch.Some?
      ensures s'.batches[k].InPlay(i)
    {
      assert b.InPlay(i);
    }
    forall i | s'.batches[k].InPlay(i)
      ensures i in s'.rows && s'.rows[i].batch == Some(k)
    {
      assert b.InPlay(i);
    }
  }

  lemma SplitCore(c: Config, s: State, k: nat)
    requires Core(c, s, k) && |s.batches[k].current| >= 2
    requires s.batches[k].splits < s.batches[k].builds && !Capped(c, s.batches[k])
    ensures Core(c, AfterSplit(s, k), k)
  {
    hide Batch.Account, Linked, Owed;
    SplitBatch(s.batches[k]);
    SplitShape(s.batches[k]);
    SplitLinked(s, k);
    CoreFrom(c, s, AfterSplit(s, k), k);
  }

  lemma SplitOk(c: Config, s: State, k: nat)
    requires LiveOk(c, s, k) && s.batches[k].phase.Testing?
    requires |s.batches[k].current| >= 2 && !Capped(c, s.batches[k])
    ensures BuildPre(c, AfterSplit(s, k), k) && Onward(s, AfterSplit(s, k), k)
    ensures Credit(s.batches[k].Split()) < Credit(s.batches[k])
  {
    hide Batch.Account, Linked, Owed;
    SplitBatch(s.batches[k]);
    SplitShape(s.batches[k]);
    SplitCore(c, s, k);
    SplitRest(s, k);
  }

  /** A split touches no row outside the batch. */
  lemma SplitRest(s: State, k: nat)
    requires k < |s.batches| && Linked(s, k)
    ensures forall i :: i in s.rows && s.rows[i].batch.None? ==>
              i in AfterSplit(s, k).rows && AfterSplit(s, k).rows[i] == s.rows[i]
  {
  }

  function Drained(b: Batch): Batch { b.Drain().Narrow([], b.current + Concat(b.pending)) }

  lemma DrainBatch(b: Batch)
    requires Accounted(b)
    ensures Accounted(Drained(b)) && Drained(b).Account() == b.Account()
    ensures forall i :: i in b.current + Concat(b.pending) <==> b.InPlay(i)
  {
    var b' := Drained(b);
    var all := b.current + Concat(b.pending);
    ConcatIsUpcoming(b.pending);
    assert forall i :: i in Concat(b.pending) <==> i in multiset(Concat(b.pending));
    assert forall i :: i in Upcoming(b.pending) <==> i in multiset(Upcoming(b.pending));
    assert multiset(all) == multiset(b.current) + multiset(Upcoming(b.pending));
    assert multiset(b.ejected + all) == multiset(b.ejected) + multiset(all);
    SubRefl(b.landed);
    SubWiden(b.landed, b.landed, b.current + Upcoming(b.pending));
    assert b.Line() == b.landed + (b.current + Upcoming(b.pending));
    assert b'.Line() == b.landed;
    SubTrans(b'.Line(), b.Line(), b.members);
  }

  lemma CapLinked(s: State, k: nat)
    requires k < |s.batches| && Linked(s, k) && Accounted(s.batches[k])
    ensures var s' := EjectCurrent(Put(s, k, s.batches[k].Drain()), k);
            Linked(s', k) && s'.batches[k] == Drained(s.batches[k])
  {
    var b := s.batches[k];
    DrainBatch(b);
    ExistingAll(s.rows, b.current + Concat(b.pending));
    LinkedSub(s, EjectCurrent(Put(s, k, b.Drain()), k), k);
  }

  lemma CapCore(c: Config, s: State, k: nat)
    requires Core(c, s, k)
    ensures Core(c, EjectCurrent(Put(s, k, s.batches[k].Drain()), k), k)
  {
    DrainBatch(s.batches[k]);
    CapLinked(s, k);
    CoreFrom(c, s, EjectCurrent(Put(s, k, s.batches[k].Drain()), k), k);
  }

  lemma CapOnward(s: State, k: nat)
    requires k < |s.batches| && Linked(s, k) && Accounted(s.batches[k])
    ensures Onward(s, EjectCurrent(Put(s, k, s.batches[k].Drain()), k), k)
  {
    var b := s.batches[k];
    CapLinked(s, k);
    DrainBatch(b);
    ExistingAll(s.rows, b.current + Concat(b.pending));
  }

  /** The cap: current and all waiting members are ejected at once. */
  lemma CapOk(c: Config, s: State, k: nat)
    requires LiveOk(c, s, k)
    ensures var s' := EjectCurrent(Put(s, k, s.batches[k].Drain()), k);
            NextPre(c, s', k) && Onward(s, s', k) && s'.batches[k] == Drained(s.batches[k])
  {
    CapOnward(s, k);
    CapLinked(s, k);
    CapCore(c, s, k);
    OwedNat(s.batches[k].pending);
  }

  // ----- removal ------------------------------------------------------------

  lemma {:induction false} TrimShrinks(p: seq<seq<Id>>, x: Id)
    requires [] !in p
    ensures |Trim(p, x)| <= |p| && Owed(Trim(p, x)) <= Owed(p)
  {
    if p != [] {
      var n := |p| - 1;
      assert p[n] in p;
      assert forall s :: s in p[..n] ==> s in p;
      TrimShrinks(p[..n], x);
      WithoutFilters(p[n], x);
      SubMultiset(Without(p[n], x), p[n]);
      var rest, top := Trim(p[..n], x), Without(p[n], x);
      if top != [] {
        assert (rest + [top])[..|rest|] == rest;
      }
    }
  }

  lemma UniqueWithout(s: seq<Id>, x: Id)
    requires Unique(s)
    ensures |Without(s, x)| == if x in s then |s| - 1 else |s|
  {
    WithoutFilters(s, x);
    assert |Without(s, x)| == |multiset(Without(s, x))|;
    assert |s| == |multiset(s)|;
    if x in s {
      assert multiset(s)[x] == 1;
      assert multiset(s) == multiset(s)[x := 0] + multiset{x};
    } else {
      assert Without(s, x) == s;
    }
  }

  lemma DiscardSub(b: Batch, id: Id)
    requires Sub(b.Line(), b.members)
    ensures Sub(b.Discard(id).Line(), b.members)
  {
    var b' := b.Discard(id);
    WithoutFilters(b.current, id);
    WithoutFilters(Upcoming(b.pending), id);
    TrimUpcoming(b.pending, id);
    SubRefl(b.landed);
    SubCat(b.landed, b.landed, b'.current, b.current);
    SubCat(b.landed + b'.current, b.landed + b.current, Upcoming(b'.pending), Upcoming(b.pending));
    SubTrans(b'.Line(), b.Line(), b.members);
  }

  lemma DiscardShape(b: Batch, id: Id)
    requires Unique(b.current) && [] !in b.pending
    ensures var b' := b.Discard(id);
            && [] !in b'.pending
            && (forall i :: b'.InPlay(i) <==> b.InPlay(i) && i != id)
            && (forall i :: i in Upcoming(b'.pending) ==> i in Upcoming(b.pending))
            && |b'.current| == (if id in b.current then |b.current| - 1 else |b.current|)
            && (id !in b.current ==> b'.current == b.current)
            && |b'.pending| <= |b.pending| && Owed(b'.pending) <= Owed(b.pending)
  {
    WithoutFilters(b.current, id);
    WithoutFilters(Upcoming(b.pending), id);
    TrimUpcoming(b.pending, id);
    TrimShrinks(b.pending, id);
    UniqueWithout(b.current, id);
  }

  /** Taking out an element that occurs once. */
  lemma MinusOne(s: seq<Id>, id: Id)
    requires Unique(s) && id in s
    ensures multiset(Without(s, id)) + multiset{id} == multiset(s)
  {
    WithoutFilters(s, id);
    assert multiset(s)[id] == 1;
    assert multiset(s) == multiset(s)[id := 0] + multiset{id};
  }

  lemma OneFromFirst(l: multiset<Id>, cur: multiset<Id>, cur': multiset<Id>, up: multiset<Id>, e: multiset<Id>, id: Id)
    requires cur' + multiset{id} == cur
    ensures l + cur' + up + (e + multiset{id}) == l + cur + up + e
  {
  }

  lemma OneFromSecond(l: multiset<Id>, cur: multiset<Id>, up: multiset<Id>, up': multiset<Id>, e: multiset<Id>, id: Id)
    requires up' + multiset{id} == up
    ensures l + cur + up' + (e + multiset{id}) == l + cur + up + e
  {
  }

  lemma DiscardedParts(b: Batch, id: Id)
    ensures b.Discard(id).Account()
         == multiset(b.landed) + multiset(Without(b.current, id)) + multiset(Without(Upcoming(b.pending), id))
            + (multiset(b.ejected) + multiset{id})
  {
    TrimUpcoming(b.pending, id);
    assert multiset(b.ejected + [id]) == multiset(b.ejected) + multiset{id};
  }

  lemma DiscardAccount(b: Batch, id: Id)
    requires Unique(b.current) && Unique(Upcoming(b.pending))
    requires id in b.current ==> id !in Upcoming(b.pending)
    ensures b.Discard(id).Account() == if b.InPlay(id) then b.Account() else b.Account() + multiset{id}
  {
    var l, e := multiset(b.landed), multiset(b.ejected);
    var cur, up := multiset(b.current), multiset(Upcoming(b.pending));
    DiscardedParts(b, id);
    if id in b.current {
      WithoutAbsent(Upcoming(b.pending), id);
      MinusOne(b.current, id);
      OneFromFirst(l, cur, multiset(Without(b.current, id)), up, e, id);
    } else if id in Upcoming(b.pending) {
      WithoutAbsent(b.current, id);
      MinusOne(Upcoming(b.pending), id);
      OneFromSecond(l, cur, up, multiset(Without(Upcoming(b.pending), id)), e, id);
    } else {
      WithoutAbsent(b.current, id);
      WithoutAbsent(Upcoming(b.pending), id);
      assert l + cur + up + (e + multiset{id}) == (l + cur + up + e) + multiset{id};
    }
  }

  lemma DiscardAccounted(b: Batch, id: Id)
    requires Accounted(b)
    ensures Accounted(b.Discard(id))
    ensures b.Discard(id).Account() == if b.InPlay(id) then b.Account() else b.Account() + multiset{id}
  {
    hide Batch.Account;
    UniqueParts(b);
    DiscardSub(b, id);
    DiscardAccount(b, id);
  }

  lemma DiscardBatch(b: Batch, id: Id)
    requires Accounted(b) && [] !in b.pending
    ensures var b' := b.Discard(id);
            && Accounted(b')
            && [] !in b'.pending
            && (forall i :: b'.InPlay(i) <==> b.InPlay(i) && i != id)
            && (forall i :: i in Upcoming(b'.pending) ==> i in Upcoming(b.pending))
            && |b'.current| == (if id in b.current then |b.current| - 1 else |b.current|)
            && (id !in b.current ==> b'.current == b.current)
            && |b'.pending| <= |b.pending| && Owed(b'.pending) <= Owed(b.pending)
  {
    hide Batch.Account, Owed;
    UniqueParts(b);
    DiscardAccounted(b, id);
    DiscardShape(b, id);
  }

  lemma DiscardLinked(s: State, k: nat, id: Id)
    requires k < |s.batches| && Linked(s, k) && Accounted(s.batches[k]) && [] !in s.batches[k].pending
    ensures Linked(Discarded(s, k, s.batches[k].Discard(id), id), k)
  {
    var s' := Discarded(s, k, s.batches[k].Discard(id), id);
    DiscardBatch(s.batches[k], id);
    assert forall i :: i in s'.rows <==> i in s.rows && i != id;
    assert forall i :: i in s'.rows ==> s'.rows[i] == s.rows[i];
    LinkedSub(s, s', k);
  }

  /** Why the caller has to take the row out first: were it left behind, it would
      name a batch that does not know it any more. */
  lemma RowMustGo(c: Config, s: State, k: nat, id: Id)
    requires LiveOk(c, s, k) && s.batches[k].InPlay(id)
    ensures id in s.rows && !Linked(Put(s, k, s.batches[k].Discard(id)), k)
    ensures Linked(Discarded(s, k, s.batches[k].Discard(id), id), k)
  {
    var b := s.batches[k];
    DiscardBatch(b, id);
    DiscardLinked(s, k, id);
    assert !b.Discard(id).InPlay(id);
  }

  /** The row goes and the batch forgets the id: the rest is in order. */
  lemma DiscardCore(c: Config, s: State, k: nat, id: Id)
    requires Core(c, s, k)
    ensures Core(c, Discarded(s, k, s.batches[k].Discard(id), id), k)
  {
    DiscardBatch(s.batches[k], id);
    DiscardLinked(s, k, id);
    CoreFrom(c, s, Discarded(s, k, s.batches[k].Discard(id), id), k);
  }

  /** Nobody current was touched: the batch goes on as it was. */
  lemma DiscardWaiting(c: Config, s: State, k: nat, id: Id)
    requires LiveOk(c, s, k) && id !in s.batches[k].current
    ensures LiveOk(c, Put(s.(rows := Dequeued(s.rows, [id])), k, s.batches[k].Discard(id)), k)
  {
    var b := s.batches[k];
    var s' := Put(s.(rows := Dequeued(s.rows, [id])), k, b.Discard(id));
    DiscardBatch(b, id);
    DiscardCore(c, s, k, id);
    if b.phase.Testing? {
      assert Tested(c, s', k);
    }
  }

  /** What a removal may change: the removed id is noted as ejected, a second
      time if it was not in play any more. */
  ghost predicate Removal(s: State, s': State, k: nat, id: Id)
    requires k < |s.batches|
  {
    && IsAncestor(s.target, s'.target)
    && s'.next == s.next
    && |s'.batches| == |s.batches|
    && (forall j :: 0 <= j < |s.batches| && j != k ==> s'.batches[j] == s.batches[j])
    && (forall i :: i in s'.rows ==> i in s.rows)
    && var b, b' := s.batches[k], s'.batches[k];
       && b'.members == b.members
       && b'.landed == b.landed
       && b'.Account() == (if b.InPlay(id) then b.Account() else b.Account() + multiset{id})
       && b.builds <= b'.builds
       && (b'.phase.Testing? && b'.builds == b.builds ==>
             b.phase.Testing? && b'.sha == b.sha && b'.current == b.current)
       && (id in b.current ==> Credit(b') < Credit(b))
  }

  lemma DiscardNone(c: Config, s: State, k: nat, id: Id)
    requires LiveOk(c, s, k) && id in s.batches[k].current && s.batches[k].Discard(id).current == []
    ensures NextPre(c, Discarded(s, k, s.batches[k].Discard(id), id), k)
    ensures NextCredit(s.batches[k].Discard(id)) < Credit(s.batches[k])
  {
    var b := s.batches[k];
    DiscardBatch(b, id);
    DiscardCore(c, s, k, id);
    OwedNat(b.pending);
  }

  lemma DiscardSome(c: Config, s: State, k: nat, id: Id)
    requires LiveOk(c, s, k) && id in s.batches[k].current && s.batches[k].Discard(id).current != []
    ensures BuildPre(c, Put(Discarded(s, k, s.batches[k].Discard(id), id), k, s.batches[k].Discard(id).Rebuilding()), k)
    ensures Credit(s.batches[k].Discard(id).Rebuilding()) < Credit(s.batches[k])
  {
    var b := s.batches[k];
    var b' := b.Discard(id);
    DiscardBatch(b, id);
    DiscardCore(c, s, k, id);
    assert b'.Rebuilding().Line() == b'.Line();
    CorePut(c, Discarded(s, k, b', id), k, b'.Rebuilding());
  }

  /** The state with the row gone and the batch row adjusted. */
  function Discarded(s: State, k: nat, b': Batch, id: Id): State
    requires k < |s.batches|
  {
    Put(s.(rows := Dequeued(s.rows, [id])), k, b')
  }

  lemma EvolvesIsRemoval(s: State, k: nat, id: Id, t: State, s': State)
    requires k < |s.batches| && k < |t.batches|
    requires t.target == s.target && t.next == s.next && |t.batches| == |s.batches|
    requires forall j :: 0 <= j < |s.batches| && j != k ==> t.batches[j] == s.batches[j]
    requires forall i :: i in t.rows ==> i in s.rows
    requires t.batches[k].members == s.batches[k].members && t.batches[k].landed == s.batches[k].landed
    requires t.batches[k].Account() ==
             if s.batches[k].InPlay(id) then s.batches[k].Account() else s.batches[k].Account() + multiset{id}
    requires t.batches[k].builds == s.batches[k].builds
    requires Evolves(t, s', k)
    requires Credit(s'.batches[k]) < Credit(s.batches[k])
    ensures Removal(s, s', k, id)
  {
  }

  lemma RemoveLastOk(c: Config, w: World, s: State, k: nat, id: Id)
    requires LiveOk(c, s, k) && id in s.batches[k].current && s.batches[k].Discard(id).current == []
    ensures var s' := Next(c, w, Discarded(s, k, s.batches[k].Discard(id), id), k);
            Inv(c, s') && Removal(s, s', k, id)
  {
    var s1 := Discarded(s, k, s.batches[k].Discard(id), id);
    hide Batch.Account, Core, Credit, NextCredit, BuildPre;
    DiscardAccounted(s.batches[k], id);
    DiscardNone(c, s, k, id);
    NextOk(c, w, s1, k);
    EvolvesIsRemoval(s, k, id, s1, Next(c, w, s1, k));
  }

  lemma RebuildPre(c: Config, w: World, s: State, k: nat, id: Id)
    requires LiveOk(c, s, k) && id in s.batches[k].current && s.batches[k].Discard(id).current != []
    ensures var b' := s.batches[k].Discard(id).Rebuilding();
            && BuildPre(c, Discarded(s, k, b', id), k)
            && Credit(b') < Credit(s.batches[k])
            && b'.Account() ==
               (if s.batches[k].InPlay(id) then s.batches[k].Account() else s.batches[k].Account() + multiset{id})
  {
    var b := s.batches[k];
    DiscardAccounted(b, id);
    DiscardSome(c, s, k, id);
    hide Accounted, Core, Credit, BuildPre, Upcoming, Without, Trim;
    PutTwice(s.(rows := Dequeued(s.rows, [id])), k, b.Discard(id), b.Discard(id).Rebuilding());
    assert b.Discard(id).Rebuilding().Account() == b.Discard(id).Account();
  }

  lemma RemoveAndRebuildOk(c: Config, w: World, s: State, k: nat, id: Id)
    requires LiveOk(c, s, k) && id in s.batches[k].current && s.batches[k].Discard(id).current != []
    ensures var s' := Build(c, w, Discarded(s, k, s.batches[k].Discard(id).Rebuilding(), id), k);
            Inv(c, s') && Removal(s, s', k, id)
  {
    var s2 := Discarded(s, k, s.batches[k].Discard(id).Rebuilding(), id);
    hide Batch.Account, BuildPre, Core, Credit, Inv, Evolves, Removal;
    RebuildPre(c, w, s, k, id);
    BuildOk(c, w, s2, k);
    EvolvesIsRemoval(s, k, id, s2, Build(c, w, s2, k));
  }

  lemma WaitingRemoval(s: State, k: nat, id: Id)
    requires k < |s.batches| && Accounted(s.batches[k]) && id !in s.batches[k].current
    ensures Removal(s, Discarded(s, k, s.batches[k].Discard(id), id), k, id)
  {
    DiscardAccounted(s.batches[k], id);
    WithoutAbsent(s.batches[k].current, id);
    hide Batch.Account, Accounted, Credit, Upcoming, Without, Trim;
    assert s.batches[k].Discard(id).current == s.batches[k].current;
  }

  lemma RemoveWaitingOk(c: Config, s: State, k: nat, id: Id)
    requires LiveOk(c, s, k) && id !in s.batches[k].current
    ensures var s' := Discarded(s, k, s.batches[k].Discard(id), id);
            Inv(c, s') && Removal(s, s', k, id)
  {
    assert Accounted(s.batches[k]);
    hide Removal, Tested, Linked, Accounted;
    WaitingRemoval(s, k, id);
    DiscardWaiting(c, s, k, id);
  }

  lemma RemoveOk(c: Config, w: World, s: State, k: nat, id: Id)
    requires LiveOk(c, s, k)
    ensures var s' := OnMemberRemoved(c, w, s.(rows := Dequeued(s.rows, [id])), k, id);
            Inv(c, s') && Removal(s, s', k, id)
  {
    var b := s.batches[k];
    if id in b.current {
      assert Put(Discarded(s, k, b.Discard(id), id), k, b.Discard(id).Rebuilding())
          == Discarded(s, k, b.Discard(id).Rebuilding(), id);
      if b.Discard(id).current == [] {
        RemoveLastOk(c, w, s, k, id);
      } else {
        RemoveAndRebuildOk(c, w, s, k, id);
      }
    } else {
      RemoveWaitingOk(c, s, k, id);
    }
  }

  // ----- verdicts -----------------------------------------------------------

  lemma DeniedOk(c: Config, w: World, s: State, k: nat)
    requires LiveOk(c, s, k) && s.batches[k].phase.Testing?
    ensures var s' := Next(c, w, EjectCurrent(s, k), k);
            Inv(c, s') && Progresses(s, s', k) && Credit(s'.batches[k]) < Credit(s.batches[k])
  {
    GiveUpOk(c, s, k);
    NextOk(c, w, EjectCurrent(s, k), k);
    OnwardThenEvolves(s, EjectCurrent(s, k), Next(c, w, EjectCurrent(s, k), k), k);
  }

  lemma LandedOk(c: Config, w: World, s: State, k: nat)
    requires LiveOk(c, s, k) && s.batches[k].phase.Testing?
    requires IsAncestor(s.target, s.batches[k].sha.value)
    ensures var s' := Next(c, w, LandCurrent(s, k, s.batches[k].sha.value), k);
            Inv(c, s') && Progresses(s, s', k) && Credit(s'.batches[k]) < Credit(s.batches[k])
  {
    var s1 := LandCurrent(s, k, s.batches[k].sha.value);
    LandOk(c, s, k);
    NextOk(c, w, s1, k);
    OnwardThenEvolves(s, s1, Next(c, w, s1, k), k);
    OwedNat(s.batches[k].pending);
  }

  lemma RetryOk(c: Config, w: World, s: State, k: nat)
    requires LiveOk(c, s, k) && s.batches[k].phase.Testing?
    requires s.batches[k].ffRetries + 1 < MAX_FF_RETRIES
    ensures var s' := Build(c, w, Put(s, k, s.batches[k].Race().Rebuilding()), k);
            Inv(c, s') && Progresses(s, s', k) && Credit(s'.batches[k]) < Credit(s.batches[k])
  {
    var s1 := Put(s, k, s.batches[k].Race().Rebuilding());
    RaceOk(c, s, k);
    BuildOk(c, w, s1, k);
    OnwardThenEvolves(s, s1, Build(c, w, s1, k), k);
  }

  lemma NoRetryOk(c: Config, w: World, s: State, k: nat)
    requires LiveOk(c, s, k) && s.batches[k].phase.Testing?
    requires s.batches[k].ffRetries + 1 >= MAX_FF_RETRIES
    ensures var s' := Next(c, w, EjectCurrent(Put(s, k, s.batches[k].Race()), k), k);
            Inv(c, s') && Progresses(s, s', k) && Credit(s'.batches[k]) < Credit(s.batches[k])
  {
    var s1 := Put(s, k, s.batches[k].Race());
    RaceOk(c, s, k);
    GiveUpOk(c, s1, k);
    NextOk(c, w, EjectCurrent(s1, k), k);
    OnwardThenEvolves(s, EjectCurrent(s1, k), Next(c, w, EjectCurrent(s1, k), k), k);
  }

  lemma PassOk(c: Config, w: World, push: Push, s: State, k: nat)
    requires LiveOk(c, s, k) && s.batches[k].phase.Testing?
    ensures var s' := HandlePass(c, w, push, s, k);
            && Inv(c, s')
            && (push.Unavailable? ==> s' == s)
            && (!push.Unavailable? ==> Progresses(s, s', k) && Credit(s'.batches[k]) < Credit(s.batches[k]))
  {
    assert Inv(c, s);
    hide Inv, LiveOk, Progresses, Credit, Next, Build, EjectCurrent, LandCurrent;
    match push
    case Unavailable =>
    case Denied => DeniedOk(c, w, s, k);
    case Reach =>
      if IsAncestor(s.target, s.batches[k].sha.value) {
        LandedOk(c, w, s, k);
      } else {
        var b := s.batches[k];
        assert Put(Put(s, k, b.Race()), k, b.Race().Rebuilding()) == Put(s, k, b.Race().Rebuilding());
        if b.ffRetries + 1 < MAX_FF_RETRIES {
          RetryOk(c, w, s, k);
        } else {
          NoRetryOk(c, w, s, k);
        }
      }
  }

  lemma FailOk(c: Config, w: World, s: State, k: nat)
    requires LiveOk(c, s, k) && s.batches[k].phase.Testing?
    ensures var s' := HandleFail(c, w, s, k);
            Inv(c, s') && Progresses(s, s', k) && Credit(s'.batches[k]) < Credit(s.batches[k])
  {
    var b := s.batches[k];
    OwedNat(b.pending);
    if |b.current| == 1 {
      GiveUpOk(c, s, k);
      NextOk(c, w, EjectCurrent(s, k), k);
      OnwardThenEvolves(s, EjectCurrent(s, k), HandleFail(c, w, s, k), k);
    } else if Capped(c, b) {
      var s1 := EjectCurrent(Put(s, k, b.Drain()), k);
      CapOk(c, s, k);
      NextOk(c, w, s1, k);
      OnwardThenEvolves(s, s1, HandleFail(c, w, s, k), k);
    } else {
      SplitOk(c, s, k);
      BuildOk(c, w, AfterSplit(s, k), k);
      OnwardThenEvolves(s, AfterSplit(s, k), HandleFail(c, w, s, k), k);
    }
  }

  // ----- forming ------------------------------------------------------------

  lemma {:induction false} QueuedHeadFacts(rows: Rows, upTo: Id, max: nat)
    ensures var r := QueuedHead(rows, upTo, max);
            && |r| <= max
            && (forall i :: i in r ==> i < upTo && i in rows && rows[i].state.Queued?)
            && (forall a, b :: 0 <= a < b < |r| ==> r[a] < r[b])
  {
    if upTo > 0 {
      QueuedHeadFacts(rows, upTo - 1, max);
      var r := QueuedHead(rows, upTo - 1, max);
      assert forall a :: 0 <= a < |r| ==> r[a] in r;
    }
  }

  /** A queued row is taken unless the limit was reached by older ones. */
  lemma {:induction false} QueuedHeadOldest(rows: Rows, upTo: Id, max: nat)
    ensures var r := QueuedHead(rows, upTo, max);
            forall i :: i < upTo && i in rows && rows[i].state.Queued? && i !in r ==>
              |r| == max && forall j :: j in r ==> j < i
  {
    if upTo > 0 {
      QueuedHeadOldest(rows, upTo - 1, max);
      QueuedHeadFacts(rows, upTo - 1, max);
    }
  }

  lemma {:induction false} AscendingUnique(s: seq<Id>)
    requires forall a, b :: 0 <= a < b < |s| ==> s[a] < s[b]
    ensures Unique(s)
  {
    if s != [] {
      var n := |s| - 1;
      AscendingUnique(s[..n]);
      assert s == s[..n] + [s[n]];
      forall x | x in s
        ensures multiset(s)[x] == 1
      {
        assert multiset(s) == multiset(s[..n]) + multiset{s[n]};
        if x == s[n] {
          assert x !in s[..n];
        } else {
          assert x in s[..n];
        }
      }
    }
  }

  function Adopted(c: Config, s: State): State {
    var ids := QueuedHead(s.rows, s.next, Limit(c));
    s.(rows := Claimed(s.rows, ids, |s.batches|), batches := s.batches + [NewBatch(ids, s.target)])
  }

  lemma AdoptedRows(c: Config, s: State)
    requires Idle(c, s)
    ensures Linked(Adopted(c, s), |s.batches|)
  {
    QueuedHeadFacts(s.rows, s.next, Limit(c));
  }

  lemma AdoptOk(c: Config, s: State)
    requires Idle(c, s) && QueuedHead(s.rows, s.next, Limit(c)) != []
    ensures BuildPre(c, Adopted(c, s), |s.batches|)
  {
    var ids := QueuedHead(s.rows, s.next, Limit(c));
    var k := |s.batches|;
    var s' := Adopted(c, s);
    var b := s'.batches[k];
    QueuedHeadFacts(s.rows, s.next, Limit(c));
    AscendingUnique(ids);
    SubRefl(ids);
    AdoptedRows(c, s);
    assert b.Line() == ids;
    assert Accounted(b);
    assert Sound(c, s', b);
    forall j | 0 <= j < k
      ensures Closed(c, s', s'.batches[j])
    {
      assert s'.batches[j] == s.batches[j];
      assert Closed(c, s, s.batches[j]);
    }
  }

  // ----- the rest -----------------------------------------------------------

  lemma TargetOk(c: Config, s: State, t: Commit)
    requires Inv(c, s) && IsAncestor(s.target, t)
    ensures Inv(c, s.(target := t))
  {
    var s' := s.(target := t);
    if HasLive(s) {
      var k := |s.batches| - 1;
      CoreTarget(c, s, k, t);
      if s.batches[k].phase.Testing? {
        AncestorTrans(s.batches[k].base, s.target, t);
        assert Tested(c, s', k);
      }
    } else {
      forall j | 0 <= j < |s.batches|
        ensures Closed(c, s', s'.batches[j])
      {
        assert Closed(c, s, s.batches[j]);
        TargetGrows(c, s, s.batches[j], t);
      }
    }
  }

  lemma ClosedAnyRows(c: Config, s: State, b: Batch, rows: Rows, next: Id)
    requires Closed(c, s, b) && s.next <= next
    ensures Closed(c, s.(rows := rows, next := next), b)
  {
  }

  lemma LiveRowsOk(c: Config, s: State, k: nat, rows: Rows, next: Id)
    requires LiveOk(c, s, k) && s.next <= next
    requires Linked(s.(rows := rows, next := next), k)
    requires forall i :: i in s.batches[k].current && i in rows ==> i in s.rows && rows[i] == s.rows[i]
    ensures LiveOk(c, s.(rows := rows, next := next), k)
  {
  }

  /** Rows that belong to no batch may come, go and change state. */
  lemma RowsOk(c: Config, s: State, rows: Rows, next: Id)
    requires Inv(c, s) && s.next <= next
    requires forall i :: i in rows ==> i < next
    requires forall i :: i in rows && !(i in s.rows && s.rows[i].batch.Some?) ==> rows[i].batch.None? && rows[i].sha.None?
    requires forall i :: i in s.rows && s.rows[i].batch.Some? ==> i in rows && rows[i] == s.rows[i]
    ensures Inv(c, s.(rows := rows, next := next))
  {
    var s' := s.(rows := rows, next := next);
    if HasLive(s) {
      var k := |s.batches| - 1;
      assert Linked(s', k);
      assert forall i :: i in s.batches[k].current ==> s.batches[k].InPlay(i);
      LiveRowsOk(c, s, k, rows, next);
    } else {
      forall j | 0 <= j < |s.batches|
        ensures Closed(c, s', s'.batches[j])
      {
        ClosedAnyRows(c, s, s.batches[j], rows, next);
      }
    }
  }

  lemma FreshIsLast(c: Config, s: State, snap: Snapshot)
    requires Inv(c, s) && Fresh(s, snap)
    ensures HasLive(s) && snap.batch == |s.batches| - 1
  {
  }

  lemma SavedOk(c: Config, s: State, snap: Snapshot, context: string, result: Result)
    requires Inv(c, s) && Fresh(s, snap) && Of(result, s.batches[snap.batch])
    ensures Inv(c, Saved(s, snap.id, context, result))
  {
    var k := |s.batches| - 1;
    FreshIsLast(c, s, snap);
    var s' := Saved(s, snap.id, context, result);
    forall j | 0 <= j < k
      ensures Closed(c, s', s'.batches[j])
    {
      assert Closed(c, s, s.batches[j]);
    }
    assert Linked(s', k);
    assert Sound(c, s', s'.batches[k]);
    assert Tested(c, s', k);
  }

  lemma CheckOk(c: Config, s: State, snap: Snapshot, context: string, state: CheckState,
                required: Option<seq<string>>, timedOut: bool, push: Push, w: World)
    requires Inv(c, s)
    ensures Inv(c, OnCheck(c, s, snap, context, state, required, timedOut, push, w))
  {
    hide LiveOk, Idle, Progresses, Credit, HandlePass, HandleFail;
    if Fresh(s, snap) {
      var result := Result(state, snap.sha.value, s.batches[snap.batch].builds);
      SavedOk(c, s, snap, context, result);
      FreshIsLast(c, s, snap);
      var s1 := Saved(s, snap.id, context, result);
      if required.Some? {
        match Judge(Standings(s1.rows[snap.id].checks), required.value)
        case Passes => PassOk(c, w, push, s1, snap.batch);
        case Fails => FailOk(c, w, s1, snap.batch);
        case Waits => if timedOut { FailOk(c, w, s1, snap.batch); }
      }
    }
  }

  lemma LiveIsLast(c: Config, s: State, k: nat)
    requires Inv(c, s) && k < |s.batches| && s.batches[k].Live()
    ensures HasLive(s) && k == |s.batches| - 1
  {
  }

  lemma FormOk(c: Config, w: World, s: State)
    requires Inv(c, s)
    ensures Inv(c, OnForm(c, w, s))
  {
    if HasLive(s) {
      var k := |s.batches| - 1;
      if s.batches[k].phase.Forming? { BuildOk(c, w, s, k); }
    } else if QueuedHead(s.rows, s.next, Limit(c)) != [] {
      AdoptOk(c, s);
      BuildOk(c, w, Adopted(c, s), |s.batches|);
    }
  }

  lemma OnRemoveOk(c: Config, w: World, s: State, id: Id, snapBatch: Option<nat>)
    requires Inv(c, s)
    ensures Inv(c, OnRemove(c, w, s, id, snapBatch))
  {
    var batch := if id in s.rows then s.rows[id].batch else snapBatch;
    if batch.Some? && batch.value < |s.batches| && s.batches[batch.value].Live() {
      hide LiveOk, Idle, Removal, Build, Next;
      LiveIsLast(c, s, batch.value);
      RemoveOk(c, w, s, batch.value, id);
    } else {
      RowsOk(c, s, Dequeued(s.rows, [id]), s.next);
    }
  }

  lemma ReconcileOk(c: Config, w: World, s: State)
    requires Inv(c, s)
    ensures Inv(c, OnReconcile(c, w, s))
  {
    hide Batch.Account, Evolves, Build;
    if HasLive(s) {
      var k := |s.batches| - 1;
      var b := s.batches[k];
      if b.phase.Forming? {
        BuildOk(c, w, s, k);
      } else if b.sha.Some? {
        assert Stamped(s.rows, b.current, b.sha.value) == s.rows;
      }
    }
  }

  lemma NewRowOk(c: Config, s: State, id: Id)
    requires Inv(c, s) && id == s.next
    ensures Inv(c, s.(rows := s.rows[id := Row(Queued, None, None, map[])], next := id + 1))
  {
    assert id !in s.rows;
    RowsOk(c, s, s.rows[id := Row(Queued, None, None, map[])], id + 1);
  }

  lemma EnqueueOk(c: Config, s: State)
    requires Inv(c, s)
    ensures Inv(c, Step(c, s, Enqueue))
  {
    hide Inv, OnForm, OnCheck, OnRemove, OnReconcile, OnPromote, HandleFail;
    NewRowOk(c, s, s.next);
  }

  lemma TimeoutOk(c: Config, s: State, k: nat, elapsed: bool, w: World)
    requires Inv(c, s)
    ensures Inv(c, Step(c, s, Timeout(k, elapsed, w)))
  {
    if k < |s.batches| && s.batches[k].phase.Testing? {
      LiveIsLast(c, s, k);
      FailOk(c, w, s, k);
    }
  }

  /** Every step from a good state leads to a good state, whatever the event. */
  lemma StepOk(c: Config, s: State, e: Event)
    requires Inv(c, s)
    ensures Inv(c, Step(c, s, e))
  {
    match e
    case Enqueue => EnqueueOk(c, s);
    case Promote => RowsOk(c, s, OnPromote(s).rows, s.next);
    case FormAndBuild(w) => FormOk(c, w, s);
    case Check(snap, context, state, required, timedOut, push, w) =>
      CheckOk(c, s, snap, context, state, required, timedOut, push, w);
    case Timeout(k, elapsed, w) => TimeoutOk(c, s, k, elapsed, w);
    case Remove(id, snapBatch, w) => OnRemoveOk(c, w, s, id, snapBatch);
    case Reconcile(w) => ReconcileOk(c, w, s);
    case OutsidePush(commit) => TargetOk(c, s, Outside(s.target, commit));
  }

  /** Every reachable state is good. */
  lemma {:induction false} RunOk(c: Config, tip: Commit, events: seq<Event>)
    ensures Inv(c, Run(c, Initial(tip), events))
  {
    if events != [] {
      RunOk(c, tip, events[..|events| - 1]);
      StepOk(c, Run(c, Initial(tip), events[..|events| - 1]), events[|events| - 1]);
    }
  }
}
