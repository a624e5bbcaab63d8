/** What a build does, member by member, and why, from any tables that a crash can
    leave. A build goes down the stack: slices none of whose heads merges are
    ejected whole, until one of them merges at least one head, or the forge fails
    as a whole, or the stack is empty. */
module Causes {
  import opened Lists
  import opened Commits
  import opened Checks
  import opened Stacking
  import opened Model
  import opened Invariants
  import opened Transitions
  import opened Guarantees
  import opened Landing
  import opened Bisection
  import opened Recovery
  import opened Aftermath

  // ----- the outcome of a build, by the height at which it ends -------------

  /** The slice at height `h` of the stack; the members to be built are on top. */
  function Slice(b: Batch, h: nat): seq<Id>
    requires h <= |b.pending|
  {
    if h < |b.pending| then b.pending[h] else b.current
  }

  /** Those of its members that have a row; without a crash, all of them. */
  function Here(s: State, k: nat, h: nat): seq<Id>
    requires k < |s.batches| && h <= |s.batches[k].pending|
  {
    Existing(s.rows, Slice(s.batches[k], h))
  }

  /** The same for the slices above height `h`, from the top. */
  function Above(s: State, k: nat, h: int): seq<Id>
    requires k < |s.batches| && -1 <= h <= |s.batches[k].pending|
    decreases |s.batches[k].pending| - h
  {
    if h == |s.batches[k].pending| then [] else Above(s, k, h + 1) + Here(s, k, h + 1)
  }

  /** The tip that the build of the slice at height `h` starts from, others
      having pushed before each build. */
  function TipAt(w: World, target: Commit, top: nat, h: nat): Commit
    requires h <= top
    decreases top - h
  {
    Outside(if h == top then target else TipAt(w, target, top, h + 1), w.drift(h))
  }

  /** The forge answers, and none of the heads merges. */
  ghost predicate Refuses(c: Config, w: World, tip: Commit, ids: seq<Id>, h: nat) {
    !w.broken(h) && forall p :: 0 <= p < |ids| ==> !w.merge(h)(p, tip, c.head(ids[p])).Clean?
  }

  /** Exactly these rows are gone, and the others are untouched. */
  ghost predicate Less(rows: Rows, rows': Rows, gone: seq<Id>) {
    && (forall i :: i in rows' <==> i in rows && i !in gone)
    && (forall i :: i in rows' ==> rows'[i] == rows[i])
  }

  function SetRow(s: State, k: nat, b: Batch): State
    requires k < |s.batches|
  {
    s.(batches := s.batches[k := b])
  }

  /** The row of a batch that is over. */
  function Over(b: Batch): Batch {
    b.(phase := Done, current := [], pending := [],
       flaky := b.ejected == [] && b.builds > 1 && |b.landed| == |b.members|)
  }

  /** Every slice was refused: all are ejected and the batch is done. */
  ghost predicate EndsDone(s: State, k: nat, s': State)
    requires k < |s.batches|
  {
    var b := s.batches[k];
    && s' == SetRow(s, k, Over(b.(ejected := b.ejected + Above(s, k, -1)))).(target := s'.target, rows := s'.rows)
    && Less(s.rows, s'.rows, Above(s, k, -1))
  }

  /** The forge failed as a whole at height `h`: that slice stays to be built. */
  ghost predicate EndsBroken(s: State, k: nat, s': State, h: nat)
    requires k < |s.batches| && h <= |s.batches[k].pending|
  {
    var b := s.batches[k];
    && s' == SetRow(s, k, b.(current := Slice(b, h), pending := b.pending[..h], ejected := b.ejected + Above(s, k, h)))
             .(target := s'.target, rows := s'.rows)
    && Less(s.rows, s'.rows, Above(s, k, h))
  }

  /** Some heads of the slice at height `h` merged, and those are under test. */
  ghost predicate EndsTested(c: Config, w: World, s: State, k: nat, s': State, h: nat)
    requires k < |s.batches| && h <= |s.batches[k].pending|
  {
    var b, ids, tip := s.batches[k], Here(s, k, h), s'.target;
    var answers := Stacked(c.noop, tip, Heads(c, ids), w.merge(h)).answers;
    var kept, lost := Pick(ids, answers, true), Pick(ids, answers, false);
    var sha := Fold(c.noop, tip, Heads(c, kept));
    && kept != []
    && s' == SetRow(s, k, b.(phase := Testing, current := kept, pending := b.pending[..h],
                             ejected := b.ejected + (Above(s, k, h) + lost),
                             sha := Some(sha), builds := b.builds + 1, base := tip)).(target := tip, rows := s'.rows)
    && (forall i :: i in s'.rows <==> i in s.rows && i !in Above(s, k, h) && i !in lost)
    && (forall i :: i in s'.rows ==>
          s'.rows[i] == if i in kept then s.rows[i].(sha := Some(sha), checks := map[]) else s.rows[i])
  }

  /** The build ends at height `h`, after every slice above was refused; below
      zero, when there is no slice left. */
  ghost predicate Ends(c: Config, w: World, s: State, k: nat, s': State, h: int)
    requires k < |s.batches|
  {
    var top := |s.batches[k].pending|;
    && -1 <= h <= top
    && (forall g :: h < g <= top ==> Refuses(c, w, TipAt(w, s.target, top, g), Here(s, k, g), g))
    && s'.target == TipAt(w, s.target, top, if h < 0 then 0 else h)
    && if h < 0 then EndsDone(s, k, s')
       else if w.broken(h) then EndsBroken(s, k, s', h)
       else EndsTested(c, w, s, k, s', h)
  }

  // ----- one slice ----------------------------------------------------------

  lemma {:induction false} NonePicked<T>(items: seq<T>, answers: seq<Answer>)
    requires |items| == |answers| && Pick(items, answers, true) == []
    ensures Pick(items, answers, false) == items
    ensures forall p :: 0 <= p < |answers| ==> !answers[p].Clean?
  {
    if items != [] {
      var n := |items| - 1;
      NonePicked(items[..n], answers[..n]);
      assert items == items[..n] + [items[n]];
    }
  }

  /** While nothing merges, the tip stays, and the answers are those to it. */
  lemma {:induction false} RefusedAnswers(noop: bool, base: Commit, heads: seq<Commit>, oracle: Oracle)
    requires forall a :: a in Stacked(noop, base, heads, oracle).answers ==> !a.Clean?
    ensures Stacked(noop, base, heads, oracle).tip == base
    ensures forall p :: 0 <= p < |heads| ==> !oracle(p, base, heads[p]).Clean?
  {
    if heads != [] {
      var n := |heads| - 1;
      var r, before := Stacked(noop, base, heads, oracle), Stacked(noop, base, heads[..n], oracle);
      assert r.answers[n] in r.answers;
      assert forall a :: a in before.answers ==> a in r.answers;
      RefusedAnswers(noop, base, heads[..n], oracle);
    }
  }

  lemma {:induction false} HeadsAt(c: Config, ids: seq<Id>, p: nat)
    requires p < |ids|
    ensures Heads(c, ids)[p] == c.head(ids[p])
  {
    if p < |ids| - 1 { HeadsAt(c, ids[..|ids| - 1], p); }
  }

  lemma SliceRefused(c: Config, w: World, tip: Commit, ids: seq<Id>, h: nat)
    requires !w.broken(h)
    requires Pick(ids, Stacked(c.noop, tip, Heads(c, ids), w.merge(h)).answers, true) == []
    ensures Refuses(c, w, tip, ids, h)
    ensures Pick(ids, Stacked(c.noop, tip, Heads(c, ids), w.merge(h)).answers, false) == ids
  {
    var answers := Stacked(c.noop, tip, Heads(c, ids), w.merge(h)).answers;
    NonePicked(ids, answers);
    RefusedAnswers(c.noop, tip, Heads(c, ids), w.merge(h));
    forall p | 0 <= p < |ids|
      ensures !w.merge(h)(p, tip, c.head(ids[p])).Clean?
    {
      HeadsAt(c, ids, p);
    }
  }

  // ----- down the stack -----------------------------------------------------

  /** The state in which the next slice is built, once the top one was refused. */
  ghost predicate OneDown(w: World, s: State, k: nat, t: State)
    requires k < |s.batches|
  {
    var b, top := s.batches[k], |s.batches[k].pending|;
    && top > 0
    && t == SetRow(s, k, b.(current := b.pending[top - 1], pending := b.pending[..top - 1],
                            ejected := b.ejected + Here(s, k, top)))
            .(target := TipAt(w, s.target, top, top), rows := t.rows)
    && Less(s.rows, t.rows, Here(s, k, top))
    && forall i :: i in b.current ==> i !in Upcoming(b.pending)
  }

  lemma {:induction false} TipDown(w: World, target: Commit, top: nat, g: nat)
    requires g < top
    ensures TipAt(w, TipAt(w, target, top, top), top - 1, g) == TipAt(w, target, top, g)
    decreases top - g
  {
    if g < top - 1 { TipDown(w, target, top, g + 1); }
  }

  lemma {:induction false} ExistingLess(rows: Rows, rows': Rows, gone: seq<Id>, ids: seq<Id>)
    requires Less(rows, rows', gone) && forall i :: i in ids ==> i !in gone
    ensures Existing(rows', ids) == Existing(rows, ids)
  {
    if ids != [] { ExistingLess(rows, rows', gone, ids[..|ids| - 1]); }
  }

  lemma {:induction false} SliceWaits(p: seq<seq<Id>>, g: nat)
    requires g < |p|
    ensures forall i :: i in p[g] ==> i in Upcoming(p)
  {
    if g < |p| - 1 { SliceWaits(p[..|p| - 1], g); }
  }

  lemma HereDown(w: World, s: State, k: nat, t: State, g: nat)
    requires k < |s.batches| && OneDown(w, s, k, t) && g < |s.batches[k].pending|
    ensures Here(t, k, g) == Here(s, k, g) && Slice(t.batches[k], g) == Slice(s.batches[k], g)
  {
    var b, top := s.batches[k], |s.batches[k].pending|;
    SliceWaits(b.pending, g);
    ExistingFacts(s.rows, b.current);
    ExistingLess(s.rows, t.rows, Here(s, k, top), b.pending[g]);
  }

  lemma {:induction false} AboveDown(w: World, s: State, k: nat, t: State, h: int)
    requires k < |s.batches| && OneDown(w, s, k, t) && -1 <= h < |s.batches[k].pending|
    ensures Above(s, k, h) == Here(s, k, |s.batches[k].pending|) + Above(t, k, h)
    decreases |s.batches[k].pending| - h
  {
    var top := |s.batches[k].pending|;
    if h < top - 1 {
      AboveDown(w, s, k, t, h + 1);
      HereDown(w, s, k, t, h + 1);
    } else {
      assert Above(s, k, h) == [] + Here(s, k, top);
    }
  }

  lemma RefusedAbove(c: Config, w: World, s: State, k: nat, t: State, h: int)
    requires k < |s.batches| && OneDown(w, s, k, t) && -1 <= h < |s.batches[k].pending|
    requires var top := |s.batches[k].pending|;
             && Refuses(c, w, TipAt(w, s.target, top, top), Here(s, k, top), top)
             && forall g :: h < g <= top - 1 ==> Refuses(c, w, TipAt(w, t.target, top - 1, g), Here(t, k, g), g)
    ensures var top := |s.batches[k].pending|;
            forall g :: h < g <= top ==> Refuses(c, w, TipAt(w, s.target, top, g), Here(s, k, g), g)
  {
    hide Refuses, Here;
    var top := |s.batches[k].pending|;
    forall g | h < g <= top
      ensures Refuses(c, w, TipAt(w, s.target, top, g), Here(s, k, g), g)
    {
      if g < top {
        TipDown(w, s.target, top, g);
        HereDown(w, s, k, t, g);
      }
    }
  }

  lemma LessLess(a: Rows, b: Rows, d: Rows, x: seq<Id>, y: seq<Id>)
    requires Less(a, b, x) && Less(b, d, y)
    ensures Less(a, d, x + y)
  {
  }

  lemma DoneDown(w: World, s: State, k: nat, t: State, s': State)
    requires k < |s.batches| && OneDown(w, s, k, t) && EndsDone(t, k, s')
    ensures EndsDone(s, k, s')
  {
    var b, here := s.batches[k], Here(s, k, |s.batches[k].pending|);
    AboveDown(w, s, k, t, -1);
    LessLess(s.rows, t.rows, s'.rows, here, Above(t, k, -1));
    assert b.ejected + here + Above(t, k, -1) == b.ejected + Above(s, k, -1);
    hide Above, Less, Here;
    assert s.batches[k := t.batches[k]][k := s'.batches[k]] == s.batches[k := s'.batches[k]];
  }

  lemma BrokenDown(w: World, s: State, k: nat, t: State, s': State, h: nat)
    requires k < |s.batches| && OneDown(w, s, k, t) && h < |s.batches[k].pending| && EndsBroken(t, k, s', h)
    ensures EndsBroken(s, k, s', h)
  {
    var b, here := s.batches[k], Here(s, k, |s.batches[k].pending|);
    AboveDown(w, s, k, t, h);
    HereDown(w, s, k, t, h);
    LessLess(s.rows, t.rows, s'.rows, here, Above(t, k, h));
    assert b.ejected + here + Above(t, k, h) == b.ejected + Above(s, k, h);
    hide Above, Less, Here;
    assert t.batches[k].pending[..h] == b.pending[..h];
    assert s.batches[k := t.batches[k]][k := s'.batches[k]] == s.batches[k := s'.batches[k]];
  }

  lemma TestedDown(c: Config, w: World, s: State, k: nat, t: State, s': State, h: nat)
    requires k < |s.batches| && OneDown(w, s, k, t) && h < |s.batches[k].pending| && EndsTested(c, w, t, k, s', h)
    ensures EndsTested(c, w, s, k, s', h)
  {
    hide Pick, Stacked, Fold, Heads, Existing;
    var b, here := s.batches[k], Here(s, k, |s.batches[k].pending|);
    var ids := Here(s, k, h);
    var lost := Pick(ids, Stacked(c.noop, s'.target, Heads(c, ids), w.merge(h)).answers, false);
    AboveDown(w, s, k, t, h);
    HereDown(w, s, k, t, h);
    assert b.ejected + here + (Above(t, k, h) + lost) == b.ejected + (Above(s, k, h) + lost);
    assert t.batches[k].pending[..h] == b.pending[..h];
    assert s.batches[k := t.batches[k]][k := s'.batches[k]] == s.batches[k := s'.batches[k]];
  }

  lemma EndsDown(c: Config, w: World, s: State, k: nat, t: State, s': State, h: int)
    requires k < |s.batches| && OneDown(w, s, k, t) && Ends(c, w, t, k, s', h)
    requires var top := |s.batches[k].pending|; Refuses(c, w, TipAt(w, s.target, top, top), Here(s, k, top), top)
    ensures Ends(c, w, s, k, s', h)
  {
    hide Refuses, EndsDone, EndsBroken, EndsTested, Here, Upcoming;
    RefusedAbove(c, w, s, k, t, h);
    TipDown(w, s.target, |s.batches[k].pending|, if h < 0 then 0 else h);
    if h < 0 { DoneDown(w, s, k, t, s'); }
    else if w.broken(h) { BrokenDown(w, s, k, t, s', h); }
    else { TestedDown(c, w, s, k, t, s', h); }
  }

  // ----- the build ----------------------------------------------------------

  ghost predicate ToBuild(s: State, k: nat)
    requires k < |s.batches|
  {
    Midway(s, k) && s.batches[k].phase.Forming?
  }

  lemma TopBroken(c: Config, w: World, s: State, k: nat)
    requires k < |s.batches| && w.broken(|s.batches[k].pending|)
    ensures Ends(c, w, s, k, Build(c, w, s, k), |s.batches[k].pending|)
  {
    var b := s.batches[k];
    assert b.pending[..|b.pending|] == b.pending;
    assert b.ejected + Above(s, k, |b.pending|) == b.ejected;
    assert s.batches[k := b] == s.batches;
  }

  lemma UniqueHere(s: State, k: nat)
    requires k < |s.batches| && Midway(s, k)
    ensures Unique(Here(s, k, |s.batches[k].pending|))
  {
    var b := s.batches[k];
    SubUnique(b.Line(), b.members);
    assert b.Line() == b.landed + (b.current + Upcoming(b.pending));
    UniqueCat(b.landed, b.current + Upcoming(b.pending));
    UniqueCat(b.current, Upcoming(b.pending));
    ExistingFacts(s.rows, b.current);
    SubUnique(Existing(s.rows, b.current), b.current);
  }

  /** The members that did not merge are out. */
  lemma TopWeeded(c: Config, w: World, s: State, k: nat)
    requires k < |s.batches| && Midway(s, k)
    ensures var b, top := s.batches[k], |s.batches[k].pending|;
            var tip, ids := TipAt(w, s.target, top, top), Here(s, k, top);
            var answers := Stacked(c.noop, tip, Heads(c, ids), w.merge(top)).answers;
            var kept, lost := Pick(ids, answers, true), Pick(ids, answers, false);
            var t := Weeded(c, w, s, k);
            && t == SetRow(s, k, b.(current := kept, ejected := b.ejected + lost)).(target := tip, rows := t.rows)
            && Less(s.rows, t.rows, lost)
            && Merges(c, w, s, k).tip == Fold(c.noop, tip, Heads(c, kept))
            && (forall i :: i in kept ==> i !in lost)
  {
    hide Midway, Existing, Stacked, Fold, Heads, Pick, Unique;
    var top := |s.batches[k].pending|;
    var tip, ids := TipAt(w, s.target, top, top), Here(s, k, top);
    UniqueHere(s, k);
    StackSplits(c, tip, ids, w.merge(top));
    var answers := Stacked(c.noop, tip, Heads(c, ids), w.merge(top)).answers;
    PartsApart(ids, Pick(ids, answers, true), Pick(ids, answers, false));
  }

  lemma TopTested(c: Config, w: World, s: State, k: nat)
    requires k < |s.batches| && Midway(s, k) && !w.broken(|s.batches[k].pending|)
    requires Weeded(c, w, s, k).batches[k].current != []
    ensures Ends(c, w, s, k, Build(c, w, s, k), |s.batches[k].pending|)
  {
    hide Pick, Stacked, Fold, Heads, Midway, Existing, Weeded, Merges;
    TopWeeded(c, w, s, k);
    var b, top := s.batches[k], |s.batches[k].pending|;
    var t, s' := Weeded(c, w, s, k), Build(c, w, s, k);
    assert b.pending[..top] == b.pending;
    var tip, ids := TipAt(w, s.target, top, top), Here(s, k, top);
    var lost := Pick(ids, Stacked(c.noop, tip, Heads(c, ids), w.merge(top)).answers, false);
    assert Above(s, k, top) + lost == lost;
    assert s' == Install(t, k, Merges(c, w, s, k).tip);
    assert s.batches[k := t.batches[k]][k := s'.batches[k]] == s.batches[k := s'.batches[k]];
    assert EndsTested(c, w, s, k, s', top);
  }

  lemma TopRefused(c: Config, w: World, s: State, k: nat)
    requires k < |s.batches| && Midway(s, k) && !w.broken(|s.batches[k].pending|)
    requires Weeded(c, w, s, k).batches[k].current == []
    ensures var b, top, t := s.batches[k], |s.batches[k].pending|, Weeded(c, w, s, k);
            && Refuses(c, w, TipAt(w, s.target, top, top), Here(s, k, top), top)
            && t == SetRow(s, k, b.(current := [], ejected := b.ejected + Here(s, k, top)))
                    .(target := TipAt(w, s.target, top, top), rows := t.rows)
            && Less(s.rows, t.rows, Here(s, k, top))
  {
    hide Pick, Stacked, Fold, Heads, Midway, Weeded, Existing, Merges;
    TopWeeded(c, w, s, k);
    var top := |s.batches[k].pending|;
    SliceRefused(c, w, TipAt(w, s.target, top, top), Here(s, k, top), top);
  }

  lemma LastRefused(c: Config, w: World, s: State, k: nat)
    requires k < |s.batches| && Midway(s, k) && !w.broken(0) && s.batches[k].pending == []
    requires Weeded(c, w, s, k).batches[k].current == []
    ensures Ends(c, w, s, k, Build(c, w, s, k), -1)
  {
    TopRefused(c, w, s, k);
    hide Midway, EndsDone, Refuses;
    LastDone(s, k, Weeded(c, w, s, k), TipAt(w, s.target, 0, 0));
    assert Build(c, w, s, k) == Put(Weeded(c, w, s, k), k, Weeded(c, w, s, k).batches[k].Finish());
  }

  lemma LastDone(s: State, k: nat, t: State, tip: Commit)
    requires k < |s.batches| && s.batches[k].pending == []
    requires var b := s.batches[k];
             && t == SetRow(s, k, b.(current := [], ejected := b.ejected + Here(s, k, 0))).(target := tip, rows := t.rows)
             && Less(s.rows, t.rows, Here(s, k, 0))
    ensures EndsDone(s, k, Put(t, k, t.batches[k].Finish()))
  {
    hide Here;
    var b := s.batches[k];
    assert Above(s, k, -1) == [] + Here(s, k, 0) == Here(s, k, 0);
    assert t.batches[k].Finish() == Over(b.(ejected := b.ejected + Above(s, k, -1)));
    assert s.batches[k := t.batches[k]][k := t.batches[k].Finish()] == s.batches[k := t.batches[k].Finish()];
  }

  /** The outcome of every build, whatever the forge answers. */
  lemma {:induction false} BuildEnds(c: Config, w: World, s: State, k: nat) returns (h: int)
    requires k < |s.batches| && ToBuild(s, k)
    ensures Ends(c, w, s, k, Build(c, w, s, k), h)
    decreases |s.batches[k].pending|
  {
    var b := s.batches[k];
    if w.broken(|b.pending|) {
      TopBroken(c, w, s, k);
      h := |b.pending|;
    } else if Weeded(c, w, s, k).batches[k].current != [] {
      TopTested(c, w, s, k);
      h := |b.pending|;
    } else if b.pending == [] {
      LastRefused(c, w, s, k);
      h := -1;
    } else {
      hide Midway, Ends, OneDown, Refuses, Weeded;
      var t := Weeded(c, w, s, k);
      NextDown(c, w, s, k);
      TopRefused(c, w, s, k);
      h := BuildEnds(c, w, Put(t, k, t.batches[k].Pop()), k);
      EndsDown(c, w, s, k, Put(t, k, t.batches[k].Pop()), Build(c, w, s, k), h);
    }
  }

  lemma NextDown(c: Config, w: World, s: State, k: nat)
    requires k < |s.batches| && ToBuild(s, k) && !w.broken(|s.batches[k].pending|) && s.batches[k].pending != []
    requires Weeded(c, w, s, k).batches[k].current == []
    ensures var t := Weeded(c, w, s, k);
            && k < |t.batches| && t.batches[k].pending == s.batches[k].pending
            && var t' := Put(t, k, t.batches[k].Pop());
               && ToBuild(t', k) && OneDown(w, s, k, t') && Build(c, w, s, k) == Build(c, w, t', k)
  {
    var t := Weeded(c, w, s, k);
    WeededMidway(c, w, s, k);
    PopMidway(t, k);
    ApartParts(s.batches[k]);
    TopRefused(c, w, s, k);
    hide Midway, Weeded, Here, Less;
    var b' := t.batches[k].Pop();
    assert s.batches[k].phase.Forming?;
    assert s.batches[k := t.batches[k]][k := b'] == s.batches[k := b'];
  }

  // ----- one step -----------------------------------------------------------

  /** The state with this row for the batch and these queue rows gone. */
  ghost predicate With(s: State, k: nat, b': Batch, gone: seq<Id>, t: State)
    requires k < |s.batches|
  {
    && t == s.(rows := t.rows, batches := s.batches[k := b'])
    && Less(s.rows, t.rows, gone)
  }

  /** A build leads from here to there. */
  ghost predicate BuildsTo(c: Config, w: World, t: State, k: nat, s': State)
    requires k < |t.batches|
  {
    exists h :: Ends(c, w, t, k, s', h)
  }

  lemma BuildLeads(c: Config, w: World, t: State, k: nat)
    requires k < |t.batches| && ToBuild(t, k)
    ensures BuildsTo(c, w, t, k, Build(c, w, t, k))
  {
    var h := BuildEnds(c, w, t, k);
  }

  /** Nobody is on the branch any more: the next slice is built, or the batch is
      over. */
  ghost predicate GoesOn(c: Config, w: World, t: State, k: nat, s': State)
    requires k < |t.batches|
  {
    var b, n := t.batches[k], |t.batches[k].pending| - 1;
    if b.pending == [] then s' == SetRow(t, k, Over(b))
    else BuildsTo(c, w, SetRow(t, k, b.(phase := Forming, current := b.pending[n], pending := b.pending[..n])), k, s')
  }

  /** Those members who have a row are ejected, and the queue loses their rows. */
  ghost predicate Ejects(s: State, k: nat, b: Batch, ids: seq<Id>, t: State)
    requires k < |s.batches|
  {
    var out := Existing(s.rows, ids);
    With(s, k, b.(current := [], ejected := b.ejected + out), out, t)
  }

  /** The first half stays on the branch, the second waits on top of the stack,
      and its rows carry no commit. */
  ghost predicate Halves(s: State, k: nat, t: State)
    requires k < |s.batches|
  {
    var b, mid := s.batches[k], |s.batches[k].current| / 2;
    && t == s.(rows := t.rows, batches := s.batches[k := b.(phase := Forming, current := b.current[..mid],
              pending := b.pending + [b.current[mid..]], splits := b.splits + 1)])
    && t.rows.Keys == s.rows.Keys
    && forall i :: i in t.rows ==> t.rows[i] == if i in b.current[mid..] then s.rows[i].(sha := None) else s.rows[i]
  }

  ghost predicate RedEffect(c: Config, w: World, s: State, k: nat, s': State)
    requires k < |s.batches|
  {
    var b := s.batches[k];
    if |b.current| == 1 then
      exists t :: Ejects(s, k, b, b.current, t) && GoesOn(c, w, t, k, s')
    else if c.bisectMax > 0 && b.builds >= c.bisectMax then
      exists t :: Ejects(s, k, b.(pending := []), b.current + Concat(b.pending), t) && GoesOn(c, w, t, k, s')
    else
      exists t :: Halves(s, k, t) && BuildsTo(c, w, t, k, s')
  }

  ghost predicate GreenEffect(c: Config, w: World, push: Push, s: State, k: nat, s': State)
    requires k < |s.batches| && s.batches[k].sha.Some?
  {
    var b := s.batches[k];
    match push
    case Unavailable => s' == s
    case Denied =>
      exists t :: Ejects(s, k, b, b.current, t) && GoesOn(c, w, t, k, s')
    case Reach =>
      if IsAncestor(s.target, b.sha.value) then
        exists t :: With(s.(target := b.sha.value), k,
                         b.(current := [], landed := b.landed + b.current, ffRetries := 0), b.current, t)
                    && GoesOn(c, w, t, k, s')
      else if b.ffRetries < 2 then
        BuildsTo(c, w, SetRow(s, k, b.(phase := Forming, ffRetries := b.ffRetries + 1, extra := b.extra + 1)), k, s')
      else
        exists t :: Ejects(s, k, b.(ffRetries := b.ffRetries + 1), b.current, t) && GoesOn(c, w, t, k, s')
  }

  ghost predicate RemovalEffect(c: Config, w: World, s: State, k: nat, id: Id, s': State)
    requires k < |s.batches|
  {
    var b := s.batches[k];
    var b' := b.(current := Without(b.current, id), pending := Trim(b.pending, id), ejected := b.ejected + [id]);
    if id !in b.current then With(s, k, b', [id], s')
    else if b'.current == [] then exists t :: With(s, k, b', [id], t) && GoesOn(c, w, t, k, s')
    else
      var again := b'.(phase := Forming, extra := if b.phase.Testing? then b.extra + 1 else b.extra);
      exists t :: With(s, k, again, [id], t) && BuildsTo(c, w, t, k, s')
  }

  // ----- the operations have these effects ----------------------------------

  lemma GoneLess(rows: Rows, ids: seq<Id>)
    ensures Less(rows, Dequeued(rows, ids), ids)
  {
  }

  lemma CurrentOut(s: State, k: nat)
    requires k < |s.batches|
    ensures Ejects(s, k, s.batches[k], s.batches[k].current, EjectCurrent(s, k))
  {
    hide Existing;
    GoneLess(s.rows, Existing(s.rows, s.batches[k].current));
  }

  lemma NextGoesOn(c: Config, w: World, t: State, k: nat)
    requires k < |t.batches| && Midway(t, k) && t.batches[k].current == []
    ensures GoesOn(c, w, t, k, Next(c, w, t, k))
  {
    var b := t.batches[k];
    if b.pending != [] {
      PopMidway(t, k);
      hide Midway, BuildsTo;
      BuildLeads(c, w, Put(t, k, b.Pop()), k);
    }
  }

  /** Whoever is on the branch is ejected, and the batch goes on. */
  lemma GivesUp(c: Config, w: World, s: State, k: nat)
    requires k < |s.batches| && Midway(s, k)
    ensures var t := EjectCurrent(s, k);
            Ejects(s, k, s.batches[k], s.batches[k].current, t) && GoesOn(c, w, t, k, Next(c, w, t, k))
  {
    hide Midway, Ejects, GoesOn;
    CurrentOut(s, k);
    EjectCurrentMidway(s, k);
    NextGoesOn(c, w, EjectCurrent(s, k), k);
  }

  lemma RedIs(c: Config, w: World, s: State, k: nat)
    requires k < |s.batches| && Midway(s, k) && s.batches[k].phase.Testing?
    ensures RedEffect(c, w, s, k, HandleFail(c, w, s, k))
  {
    hide Midway, Ejects, GoesOn, BuildsTo, Halves;
    var b := s.batches[k];
    if |b.current| == 1 { GivesUp(c, w, s, k); }
    else if Capped(c, b) { CappedIs(c, w, s, k); }
    else { SplitIs(c, w, s, k); }
  }

  lemma CappedIs(c: Config, w: World, s: State, k: nat)
    requires k < |s.batches| && Midway(s, k)
    ensures var b, t := s.batches[k], EjectCurrent(Put(s, k, s.batches[k].Drain()), k);
            && Ejects(s, k, b.(pending := []), b.current + Concat(b.pending), t)
            && GoesOn(c, w, t, k, Next(c, w, t, k))
  {
    hide Midway, GoesOn, Existing;
    var b, s1 := s.batches[k], Put(s, k, s.batches[k].Drain());
    DrainMidway(s, k);
    NextGoesOn(c, w, EjectCurrent(s1, k), k);
    GoneLess(s.rows, Existing(s.rows, b.current + Concat(b.pending)));
    assert EjectCurrent(s1, k).batches == s.batches[k := EjectCurrent(s1, k).batches[k]];
  }

  lemma SplitIs(c: Config, w: World, s: State, k: nat)
    requires k < |s.batches| && Midway(s, k)
    ensures Halves(s, k, AfterSplit(s, k)) && BuildsTo(c, w, AfterSplit(s, k), k, Build(c, w, AfterSplit(s, k), k))
  {
    hide Midway, BuildsTo;
    SplitMidway(s, k);
    BuildLeads(c, w, AfterSplit(s, k), k);
  }

  lemma GreenIs(c: Config, w: World, push: Push, s: State, k: nat)
    requires k < |s.batches| && Midway(s, k) && s.batches[k].phase.Testing? && s.batches[k].sha.Some?
    ensures GreenEffect(c, w, push, s, k, HandlePass(c, w, push, s, k))
  {
    hide Midway, Ejects, GoesOn, BuildsTo, IsAncestor, With;
    match push
    case Unavailable =>
    case Denied => GivesUp(c, w, s, k);
    case Reach =>
      if IsAncestor(s.target, s.batches[k].sha.value) { LandingIs(c, w, s, k); }
      else if s.batches[k].ffRetries + 1 < MAX_FF_RETRIES { RetryIs(c, w, s, k); }
      else { GivingUpIs(c, w, s, k); }
  }

  lemma LandingIs(c: Config, w: World, s: State, k: nat)
    requires k < |s.batches| && Midway(s, k) && s.batches[k].sha.Some?
    ensures var b, t := s.batches[k], LandCurrent(s, k, s.batches[k].sha.value);
            && With(s.(target := b.sha.value), k,
                    b.(current := [], landed := b.landed + b.current, ffRetries := 0), b.current, t)
            && GoesOn(c, w, t, k, Next(c, w, t, k))
  {
    hide Midway, GoesOn;
    var b := s.batches[k];
    LandMidway(s, k, b.sha.value);
    NextGoesOn(c, w, LandCurrent(s, k, b.sha.value), k);
    GoneLess(s.rows, b.current);
  }

  lemma RetryIs(c: Config, w: World, s: State, k: nat)
    requires k < |s.batches| && Midway(s, k) && s.batches[k].phase.Testing?
    ensures var b, t := s.batches[k], Put(Put(s, k, s.batches[k].Race()), k, s.batches[k].Race().Rebuilding());
            && t == SetRow(s, k, b.(phase := Forming, ffRetries := b.ffRetries + 1, extra := b.extra + 1))
            && BuildsTo(c, w, t, k, Build(c, w, t, k))
  {
    hide Midway, BuildsTo;
    var b := s.batches[k];
    RaceMidway(s, k);
    PutTwice(s, k, b.Race(), b.Race().Rebuilding());
    BuildLeads(c, w, Put(s, k, b.Race().Rebuilding()), k);
  }

  lemma GivingUpIs(c: Config, w: World, s: State, k: nat)
    requires k < |s.batches| && Midway(s, k)
    ensures var b, t := s.batches[k], EjectCurrent(Put(s, k, s.batches[k].Race()), k);
            Ejects(s, k, b.(ffRetries := b.ffRetries + 1), b.current, t) && GoesOn(c, w, t, k, Next(c, w, t, k))
  {
    hide Midway, GoesOn, Existing;
    var b, s1 := s.batches[k], Put(s, k, s.batches[k].Race());
    RaceMidway(s, k);
    GivesUp(c, w, s1, k);
    assert EjectCurrent(s1, k).batches == s.batches[k := EjectCurrent(s1, k).batches[k]];
  }

  lemma RemovalIs(c: Config, w: World, s: State, k: nat, id: Id)
    requires k < |s.batches| && Midway(s, k) && s.batches[k].Live()
    ensures RemovalEffect(c, w, s, k, id, OnMemberRemoved(c, w, s.(rows := Dequeued(s.rows, [id])), k, id))
  {
    hide Midway, GoesOn, BuildsTo, OnMemberRemoved, Without, Trim;
    var b := s.batches[k];
    RemovedIs(c, w, s, k, id);
    DiscardedMidway(s, k, id);
    GoneLess(s.rows, [id]);
    if id in b.current {
      if b.Discard(id).current == [] {
        NextGoesOn(c, w, Discarded(s, k, b.Discard(id), id), k);
        assert With(s, k, b.Discard(id), [id], Discarded(s, k, b.Discard(id), id));
      } else {
        BuildLeads(c, w, Discarded(s, k, b.Discard(id).Rebuilding(), id), k);
        assert With(s, k, b.Discard(id).Rebuilding(), [id], Discarded(s, k, b.Discard(id).Rebuilding(), id));
      }
    }
  }

  // ----- every event --------------------------------------------------------

  /** These queued rows are claimed for a new batch. */
  ghost predicate Claims(s: State, ids: seq<Id>, t: State) {
    var k := |s.batches|;
    && t == s.(rows := t.rows, batches := s.batches +
               [Batch(Forming, ids, ids, [], [], [], None, 0, 0, false, s.target, 0, 0)])
    && t.rows.Keys == s.rows.Keys
    && forall i :: i in t.rows ==>
         t.rows[i] == if i in ids then s.rows[i].(state := InTesting, batch := Some(k)) else s.rows[i]
  }

  ghost predicate FormEffect(c: Config, w: World, s: State, s': State) {
    if HasLive(s) then
      if s.batches[|s.batches| - 1].phase.Forming? then BuildsTo(c, w, s, |s.batches| - 1, s') else s' == s
    else
      var ids := QueuedHead(s.rows, s.next, Limit(c));
      if ids == [] then s' == s
      else exists t :: Claims(s, ids, t) && BuildsTo(c, w, t, |s.batches|, s')
  }

  /** A forming batch is built; the members under test get their commit again. */
  ghost predicate ReconcileEffect(c: Config, w: World, s: State, s': State) {
    if !HasLive(s) then s' == s
    else
      var k := |s.batches| - 1;
      var b := s.batches[k];
      if b.phase.Forming? then BuildsTo(c, w, s, k, s')
      else
        && b.sha.Some? && s' == s.(rows := s'.rows) && s'.rows.Keys == s.rows.Keys
        && forall i :: i in s.rows ==> s'.rows[i] == if i in b.current then s.rows[i].(sha := b.sha) else s.rows[i]
  }

  /** The result is on record under its context, and nothing else is changed. */
  function WithResult(s: State, id: Id, context: string, result: Result): State
    requires id in s.rows
  {
    s.(rows := s.rows[id := s.rows[id].(checks := s.rows[id].checks[context := result])])
  }

  ghost predicate CheckEffect(c: Config, s: State, e: Event, s': State)
    requires e.Check?
  {
    var k := e.snap.batch;
    if !(k < |s.batches| && s.batches[k].phase.Testing? && e.snap.sha.Some? && e.snap.sha == s.batches[k].sha
         && e.snap.id in s.rows)
    then s' == s
    else
      var result := Result(e.state, e.snap.sha.value, s.batches[k].builds);
      var s1 := WithResult(s, e.snap.id, e.context, result);
      match Decision(s, e)
      case Passes => GreenEffect(c, e.w, e.push, s1, k, s')
      case Fails => RedEffect(c, e.w, s1, k, s')
      case Waits => if e.required.Some? && e.timedOut then RedEffect(c, e.w, s1, k, s') else s' == s1
  }

  /** What is on record for a check once the result is kept. */
  function OnRecord(s: State, e: Event, context: string): Option<CheckState>
    requires e.Check? && e.snap.id in s.rows
  {
    var checks := s.rows[e.snap.id].checks;
    if context == e.context then Some(e.state)
    else if context in checks then Some(checks[context].state)
    else None
  }

  /** The verdict on the member's own record: with required checks, all of them have
      succeeded, or one of them is red; without, one of any kind. */
  lemma DecisionIs(s: State, e: Event)
    requires e.Check? && Fresh(s, e.snap)
    ensures e.required.None? ==> Decision(s, e).Waits?
    ensures e.required.Some? && e.required.value != [] ==>
              && (Decision(s, e).Fails? <==> exists x :: x in e.required.value && IsRed(OnRecord(s, e, x)))
              && (Decision(s, e).Passes? <==> forall x :: x in e.required.value ==> OnRecord(s, e, x) == Some(Success))
    ensures e.required == Some([]) ==>
              && (Decision(s, e).Passes? <==> exists x :: OnRecord(s, e, x) == Some(Success))
              && (Decision(s, e).Fails? <==> !Decision(s, e).Passes? && exists x :: IsRed(OnRecord(s, e, x)))
  {
    var m := Standings(Recorded(s, e).rows[e.snap.id].checks);
    assert forall x :: OnRecord(s, e, x) == if x in m then Some(m[x]) else None;
    if e.required.Some? && e.required.value != [] { assert e.required.value[0] in e.required.value; }
  }

  predicate IsRed(result: Option<CheckState>) { result == Some(Failure) || result == Some(CheckState.Error) }

  /** The row is that of the queue's head. */
  ghost predicate Oldest(rows: Rows, i: Id) { i in rows && forall j :: j in rows ==> i <= j }

  /** Exactly a queued head changes, and it skips testing. */
  ghost predicate PromoteEffect(s: State, s': State) {
    && s' == s.(rows := s'.rows) && s'.rows.Keys == s.rows.Keys
    && forall i :: i in s.rows ==>
         s'.rows[i] == if s.rows[i].state.Queued? && Oldest(s.rows, i) then s.rows[i].(state := Succeeded) else s.rows[i]
  }

  /** What a step does, for every event. */
  ghost predicate Effect(c: Config, s: State, e: Event, s': State) {
    match e
    case Enqueue =>
      && s' == s.(next := s.next + 1, rows := s'.rows)
      && Less(s'.rows, s.rows, [s.next]) && s.next in s'.rows && s'.rows[s.next] == Row(Queued, None, None, map[])
    case Promote => PromoteEffect(s, s')
    case FormAndBuild(w) => FormEffect(c, w, s, s')
    case Check(_, _, _, _, _, _, _) => CheckEffect(c, s, e, s')
    case Timeout(k, elapsed, w) =>
      if k < |s.batches| && elapsed && s.batches[k].phase.Testing? then RedEffect(c, w, s, k, s') else s' == s
    case Remove(id, _, w) =>
      var k := ReportedTo(s, e);
      if k.Some? && k.value < |s.batches| && s.batches[k.value].Live() then RemovalEffect(c, w, s, k.value, id, s')
      else s' == s.(rows := s'.rows) && Less(s.rows, s'.rows, [id])
    case Reconcile(w) => ReconcileEffect(c, w, s, s')
    case OutsidePush(commit) => s' == s.(target := if IsAncestor(s.target, commit) then commit else s.target)
  }

  lemma ClaimsIs(c: Config, s: State)
    ensures Claims(s, QueuedHead(s.rows, s.next, Limit(c)), Adopted(c, s))
  {
  }

  lemma FormIs(c: Config, w: World, s: State)
    requires Recoverable(s)
    ensures FormEffect(c, w, s, OnForm(c, w, s))
  {
    hide BuildsTo, Ends, Build, Claims, Midway;
    if HasLive(s) {
      if s.batches[|s.batches| - 1].phase.Forming? { BuildLeads(c, w, s, |s.batches| - 1); }
    } else if QueuedHead(s.rows, s.next, Limit(c)) != [] {
      AdoptMidway(c, s);
      ClaimsIs(c, s);
      BuildLeads(c, w, Adopted(c, s), |s.batches|);
    }
  }

  lemma CheckIs(c: Config, s: State, e: Event)
    requires Recoverable(s) && e.Check?
    ensures CheckEffect(c, s, e, Step(c, s, e))
  {
    hide Recoverable, Midway, GreenEffect, RedEffect, HandlePass, HandleFail;
    if Fresh(s, e.snap) {
      var s1, k := Recorded(s, e), e.snap.batch;
      RecordedRecovers(s, e);
      LiveIsLastToo(s1, k);
      GreenIs(c, e.w, e.push, s1, k);
      RedIs(c, e.w, s1, k);
    }
  }

  lemma TimeoutIs(c: Config, s: State, e: Event)
    requires Recoverable(s) && e.Timeout?
    ensures Effect(c, s, e, Step(c, s, e))
  {
    hide Recoverable, Midway, RedEffect;
    if e.batch < |s.batches| && e.elapsed && s.batches[e.batch].phase.Testing? {
      LiveIsLastToo(s, e.batch);
      RedIs(c, e.w, s, e.batch);
    }
  }

  lemma RemoveIs(c: Config, s: State, e: Event)
    requires Recoverable(s) && e.Remove?
    ensures Effect(c, s, e, Step(c, s, e))
  {
    hide Recoverable, Midway, RemovalEffect;
    var k := ReportedTo(s, e);
    if k.Some? && k.value < |s.batches| && s.batches[k.value].Live() {
      LiveIsLastToo(s, k.value);
      RemovalIs(c, e.w, s, k.value, e.id);
    } else {
      GoneLess(s.rows, [e.id]);
    }
  }

  lemma ReconcileIs(c: Config, s: State, w: World)
    requires Recoverable(s)
    ensures ReconcileEffect(c, w, s, OnReconcile(c, w, s))
  {
    hide BuildsTo, Ends, Build, Midway;
    if HasLive(s) && s.batches[|s.batches| - 1].phase.Forming? { BuildLeads(c, w, s, |s.batches| - 1); }
  }

  lemma EnqueueIs(c: Config, s: State)
    requires Recoverable(s)
    ensures Effect(c, s, Enqueue, Step(c, s, Enqueue))
  {
    assert s.next !in s.rows;
  }

  lemma PromoteIs(s: State)
    ensures PromoteEffect(s, OnPromote(s))
  {
  }

  /** Every step has this effect, and no other, between two steps of a run and
      after a crash at any write. */
  lemma StepEffect(c: Config, s: State, e: Event)
    requires Recoverable(s)
    ensures Effect(c, s, e, Step(c, s, e))
  {
    hide Recoverable, OnForm, OnPromote, OnReconcile, FormEffect, CheckEffect, ReconcileEffect, PromoteEffect, BuildsTo;
    match e
    case Enqueue => EnqueueIs(c, s);
    case Promote => PromoteIs(s);
    case FormAndBuild(w) => FormIs(c, w, s);
    case Check(_, _, _, _, _, _, _) => CheckIs(c, s, e);
    case Timeout(_, _, _) => TimeoutIs(c, s, e);
    case Remove(_, _, _) => RemoveIs(c, s, e);
    case Reconcile(w) => ReconcileIs(c, s, w);
    case OutsidePush(_) =>
  }

  /** Without a crash there is nothing to restore: every row already carries what
      reconciling would write, and everybody in play has a row. */
  lemma NothingToRestore(c: Config, s: State, w: World)
    requires Inv(c, s) && HasLive(s)
    ensures var b := s.batches[|s.batches| - 1];
            && (b.phase.Testing? ==> Step(c, s, Reconcile(w)) == s)
            && forall i :: b.InPlay(i) ==> i in s.rows
  {
    hide Inv, Stamped;
    var k := |s.batches| - 1;
    AnyBatch(c, s, k);
    if s.batches[k].phase.Testing? { StampedAlready(c, s, k); }
  }

  lemma StampedAlready(c: Config, s: State, k: nat)
    requires k < |s.batches| && LiveOk(c, s, k) && s.batches[k].phase.Testing?
    ensures s.batches[k].sha.Some? && Stamped(s.rows, s.batches[k].current, s.batches[k].sha.value) == s.rows
  {
  }

  // ----- why a member is ejected --------------------------------------------

  /** In the build from `t`, the question asked in turn `p` at height `g` was about
      this member, and the answer was not clean. */
  ghost predicate Unclean(c: Config, w: World, t: State, k: nat, g: nat, p: nat, i: Id)
    requires k < |t.batches| && g <= |t.batches[k].pending|
  {
    var ids, tip := Here(t, k, g), TipAt(w, t.target, |t.batches[k].pending|, g);
    && !w.broken(g) && p < |ids| && ids[p] == i
    && !Stacked(c.noop, tip, Heads(c, ids), w.merge(g)).answers[p].Clean?
  }

  /** The same for some question that was asked: the build went down to height `h`. */
  ghost predicate Asked(c: Config, w: World, t: State, k: nat, h: int, i: Id)
    requires k < |t.batches|
  {
    exists g: nat, p: nat :: h <= g <= |t.batches[k].pending| && Unclean(c, w, t, k, g, p, i)
  }

  /** In the build that led to this state, which did not fail as a whole when the
      member's turn came, the forge refused to merge it. */
  ghost predicate Refused(c: Config, w: World, k: nat, s': State, i: Id) {
    exists t: State, h: int ::
      k < |t.batches| && i !in t.batches[k].ejected && Ends(c, w, t, k, s', h) && Asked(c, w, t, k, h, i)
  }

  lemma {:induction false} AboveIn(s: State, k: nat, h: int, i: Id)
    requires k < |s.batches| && -1 <= h <= |s.batches[k].pending| && i in Above(s, k, h)
    ensures exists g :: h < g <= |s.batches[k].pending| && i in Here(s, k, g)
    decreases |s.batches[k].pending| - h
  {
    if i !in Here(s, k, h + 1) { AboveIn(s, k, h + 1, i); }
  }

  /** Each answer is the forge's answer to its head, on the tip reached so far. */
  lemma {:induction false} AnswerAt(noop: bool, base: Commit, heads: seq<Commit>, oracle: Oracle, p: nat)
    requires p < |heads|
    ensures Stacked(noop, base, heads, oracle).answers[p]
         == oracle(p, Stacked(noop, base, heads[..p], oracle).tip, heads[p])
    decreases |heads|
  {
    var n := |heads| - 1;
    if p < n {
      assert heads[..n][..p] == heads[..p];
      AnswerAt(noop, base, heads[..n], oracle, p);
    }
  }

  /** Exactly the items with that kind of answer are picked. */
  lemma {:induction false} PickMeaning<T>(items: seq<T>, answers: seq<Answer>, clean: bool, x: T)
    requires |items| == |answers|
    ensures x in Pick(items, answers, clean) <==>
            exists p :: 0 <= p < |items| && items[p] == x && (answers[p].Clean? <==> clean)
  {
    if items != [] {
      var n := |items| - 1;
      PickMeaning(items[..n], answers[..n], clean, x);
      assert items == items[..n] + [items[n]];
      if p :| 0 <= p < |items| && items[p] == x && (answers[p].Clean? <==> clean) {
        assert p < n ==> items[..n][p] == x && answers[..n][p] == answers[p];
      }
    }
  }

  /** Where no head merges onto the base, no answer is clean. */
  lemma {:induction false} AllRefused(noop: bool, base: Commit, heads: seq<Commit>, oracle: Oracle)
    requires forall p :: 0 <= p < |heads| ==> !oracle(p, base, heads[p]).Clean?
    ensures Stacked(noop, base, heads, oracle).tip == base
    ensures forall p :: 0 <= p < |heads| ==> !Stacked(noop, base, heads, oracle).answers[p].Clean?
  {
    if heads != [] { AllRefused(noop, base, heads[..|heads| - 1], oracle); }
  }

  lemma AboveAsked(c: Config, w: World, t: State, k: nat, h: int, i: Id)
    requires k < |t.batches| && -1 <= h <= |t.batches[k].pending| && i in Above(t, k, h)
    requires var top := |t.batches[k].pending|;
             forall g :: h < g <= top ==> Refuses(c, w, TipAt(w, t.target, top, g), Here(t, k, g), g)
    ensures Asked(c, w, t, k, h, i)
  {
    var top := |t.batches[k].pending|;
    AboveIn(t, k, h, i);
    var g :| h < g <= top && i in Here(t, k, g);
    var ids, tip := Here(t, k, g), TipAt(w, t.target, top, g);
    assert Refuses(c, w, tip, ids, g);
    var p :| 0 <= p < |ids| && ids[p] == i;
    forall q | 0 <= q < |ids|
      ensures !w.merge(g)(q, tip, Heads(c, ids)[q]).Clean?
    {
      HeadsAt(c, ids, q);
    }
    AllRefused(c.noop, tip, Heads(c, ids), w.merge(g));
    assert Unclean(c, w, t, k, g, p, i);
  }

  lemma LostAsked(c: Config, w: World, t: State, k: nat, h: nat, i: Id)
    requires k < |t.batches| && h <= |t.batches[k].pending| && !w.broken(h)
    requires var ids, tip := Here(t, k, h), TipAt(w, t.target, |t.batches[k].pending|, h);
             i in Pick(ids, Stacked(c.noop, tip, Heads(c, ids), w.merge(h)).answers, false)
    ensures Asked(c, w, t, k, h, i)
  {
    var ids, tip := Here(t, k, h), TipAt(w, t.target, |t.batches[k].pending|, h);
    var answers := Stacked(c.noop, tip, Heads(c, ids), w.merge(h)).answers;
    PickMeaning(ids, answers, false, i);
    var p :| 0 <= p < |ids| && ids[p] == i && !answers[p].Clean?;
    assert Unclean(c, w, t, k, h, p, i);
  }

  /** A build ejects only members whose merge the forge refused. */
  lemma EndsBlames(c: Config, w: World, t: State, k: nat, s': State, h: int, i: Id)
    requires k < |t.batches| && Ends(c, w, t, k, s', h)
    requires i in s'.batches[k].ejected && i !in t.batches[k].ejected
    ensures Refused(c, w, k, s', i)
  {
    hide Refuses, Pick, Stacked, Heads, Existing, Above, Asked;
    if i in Above(t, k, h) { AboveAsked(c, w, t, k, h, i); } else { LostAsked(c, w, t, k, h, i); }
  }

  lemma BuildBlames(c: Config, w: World, t: State, k: nat, s': State, i: Id)
    requires k < |t.batches| && BuildsTo(c, w, t, k, s') && k < |s'.batches|
    requires i in s'.batches[k].ejected && i !in t.batches[k].ejected
    ensures Refused(c, w, k, s', i)
  {
    hide Ends, Refused;
    var h :| Ends(c, w, t, k, s', h);
    EndsBlames(c, w, t, k, s', h, i);
  }

  lemma GoingOnBlames(c: Config, w: World, t: State, k: nat, s': State, i: Id)
    requires k < |t.batches| && GoesOn(c, w, t, k, s') && k < |s'.batches|
    requires i in s'.batches[k].ejected && i !in t.batches[k].ejected
    ensures Refused(c, w, k, s', i)
  {
    hide BuildsTo, Refused;
    var b, n := t.batches[k], |t.batches[k].pending| - 1;
    if b.pending != [] {
      BuildBlames(c, w, SetRow(t, k, b.(phase := Forming, current := b.pending[n], pending := b.pending[..n])), k, s', i);
    }
  }

  /** What `Ejects` and then going on adds to the ejected: those members who have a
      row, and whoever a later build refuses. */
  lemma OutBlames(c: Config, w: World, s: State, k: nat, b: Batch, ids: seq<Id>, t: State, s': State, i: Id)
    requires k < |s.batches| && Ejects(s, k, b, ids, t) && GoesOn(c, w, t, k, s') && k < |s'.batches|
    requires i in s'.batches[k].ejected && i !in b.ejected
    ensures (i in ids && i in s.rows) || Refused(c, w, k, s', i)
  {
    hide GoesOn, Refused, Existing, Less;
    ExistingFacts(s.rows, ids);
    if i !in t.batches[k].ejected { GoingOnBlames(c, w, t, k, s', i); }
  }

  /** The batch's build failed, or CI was silent for too long. */
  ghost predicate Red(s: State, e: Event, k: nat) {
    && k < |s.batches| && s.batches[k].phase.Testing?
    && match e
       case Check(snap, _, _, required, timedOut, _, _) =>
         && Fresh(s, snap) && snap.batch == k
         && (Decision(s, e).Fails? || (Decision(s, e).Waits? && required.Some? && timedOut))
       case Timeout(j, elapsed, _) => j == k && elapsed
       case _ => false
  }

  ghost predicate Green(s: State, e: Event, k: nat) {
    e.Check? && k < |s.batches| && Fresh(s, e.snap) && e.snap.batch == k && Decision(s, e).Passes?
  }

  /** A red verdict ejects the member: it was tested alone, or the cap fired. */
  ghost predicate FallsRed(c: Config, s: State, k: nat, i: Id)
    requires k < |s.batches|
  {
    var b := s.batches[k];
    i in s.rows && (b.current == [i] || (|b.current| != 1 && c.bisectMax > 0 && b.builds >= c.bisectMax && b.InPlay(i)))
  }

  /** A green one does: its branch could not be pushed, for good or for the third time. */
  ghost predicate FallsGreen(s: State, k: nat, push: Push, i: Id)
    requires k < |s.batches| && s.batches[k].sha.Some?
  {
    var b := s.batches[k];
    && i in s.rows && i in b.current
    && (push.Denied? || (push.Reach? && !IsAncestor(s.target, b.sha.value) && b.ffRetries >= 2))
  }

  /** The event itself ejects the member: by its verdict, or it was removed. */
  ghost predicate Direct(c: Config, s: State, e: Event, k: nat, i: Id)
    requires k < |s.batches|
  {
    || (Red(s, e, k) && FallsRed(c, s, k, i))
    || (Green(s, e, k) && FallsGreen(s, k, e.push, i))
    || (Addresses(s, e, k) && e.id == i)
  }

  /** Why the event ejects a member: by itself, or because a build that it started
      had the merge refused. */
  ghost predicate Ejecting(c: Config, s: State, e: Event, k: nat, i: Id) {
    || (k < |s.batches| && Direct(c, s, e, k, i))
    || (!e.Enqueue? && !e.Promote? && !e.OutsidePush? && Refused(c, e.w, k, Step(c, s, e), i))
  }

  lemma RedBlames(c: Config, w: World, s: State, k: nat, s': State, i: Id)
    requires k < |s.batches| && RedEffect(c, w, s, k, s') && k < |s'.batches|
    requires i in s'.batches[k].ejected && i !in s.batches[k].ejected
    ensures FallsRed(c, s, k, i) || Refused(c, w, k, s', i)
  {
    hide FallsRed, Refused;
    var b := s.batches[k];
    if |b.current| == 1 { AloneBlames(c, w, s, k, s', i); }
    else if c.bisectMax > 0 && b.builds >= c.bisectMax { CapBlames(c, w, s, k, s', i); }
    else { SplitBlames(c, w, s, k, s', i); }
  }

  lemma AloneBlames(c: Config, w: World, s: State, k: nat, s': State, i: Id)
    requires k < |s.batches| && RedEffect(c, w, s, k, s') && k < |s'.batches| && |s.batches[k].current| == 1
    requires i in s'.batches[k].ejected && i !in s.batches[k].ejected
    ensures FallsRed(c, s, k, i) || Refused(c, w, k, s', i)
  {
    hide BuildsTo, GoesOn, Refused, Less, Existing, Halves;
    var b := s.batches[k];
    var t :| Ejects(s, k, b, b.current, t) && GoesOn(c, w, t, k, s');
    OutBlames(c, w, s, k, b, b.current, t, s', i);
  }

  lemma CapBlames(c: Config, w: World, s: State, k: nat, s': State, i: Id)
    requires k < |s.batches| && RedEffect(c, w, s, k, s') && k < |s'.batches| && |s.batches[k].current| != 1
    requires c.bisectMax > 0 && s.batches[k].builds >= c.bisectMax
    requires i in s'.batches[k].ejected && i !in s.batches[k].ejected
    ensures FallsRed(c, s, k, i) || Refused(c, w, k, s', i)
  {
    hide BuildsTo, GoesOn, Refused, Less, Existing, Halves, Concat, Upcoming;
    var b := s.batches[k];
    var t :| Ejects(s, k, b.(pending := []), b.current + Concat(b.pending), t) && GoesOn(c, w, t, k, s');
    ConcatIn(b.pending, i);
    OutBlames(c, w, s, k, b.(pending := []), b.current + Concat(b.pending), t, s', i);
  }

  lemma SplitBlames(c: Config, w: World, s: State, k: nat, s': State, i: Id)
    requires k < |s.batches| && RedEffect(c, w, s, k, s') && k < |s'.batches| && |s.batches[k].current| != 1
    requires !(c.bisectMax > 0 && s.batches[k].builds >= c.bisectMax)
    requires i in s'.batches[k].ejected && i !in s.batches[k].ejected
    ensures Refused(c, w, k, s', i)
  {
    hide BuildsTo, GoesOn, Refused, Ejects;
    var t :| Halves(s, k, t) && BuildsTo(c, w, t, k, s');
    BuildBlames(c, w, t, k, s', i);
  }

  lemma ConcatIn(p: seq<seq<Id>>, i: Id)
    ensures i in Concat(p) <==> i in Upcoming(p)
  {
    ConcatIsUpcoming(p);
    assert i in Concat(p) <==> i in multiset(Concat(p));
    assert i in Upcoming(p) <==> i in multiset(Upcoming(p));
  }

  lemma GreenBlames(c: Config, w: World, push: Push, s: State, k: nat, s': State, i: Id)
    requires k < |s.batches| && s.batches[k].sha.Some? && GreenEffect(c, w, push, s, k, s') && k < |s'.batches|
    requires i in s'.batches[k].ejected && i !in s.batches[k].ejected
    ensures FallsGreen(s, k, push, i) || Refused(c, w, k, s', i)
  {
    hide BuildsTo, GoesOn, Refused, Less, Existing;
    var b := s.batches[k];
    match push
    case Unavailable =>
    case Denied =>
      var t :| Ejects(s, k, b, b.current, t) && GoesOn(c, w, t, k, s');
      OutBlames(c, w, s, k, b, b.current, t, s', i);
    case Reach =>
      if IsAncestor(s.target, b.sha.value) {
        var t :| With(s.(target := b.sha.value), k,
                      b.(current := [], landed := b.landed + b.current, ffRetries := 0), b.current, t)
                 && GoesOn(c, w, t, k, s');
        GoingOnBlames(c, w, t, k, s', i);
      } else if b.ffRetries < 2 {
        var again := b.(phase := Forming, ffRetries := b.ffRetries + 1, extra := b.extra + 1);
        BuildBlames(c, w, SetRow(s, k, again), k, s', i);
      } else {
        var t :| Ejects(s, k, b.(ffRetries := b.ffRetries + 1), b.current, t) && GoesOn(c, w, t, k, s');
        OutBlames(c, w, s, k, b.(ffRetries := b.ffRetries + 1), b.current, t, s', i);
      }
  }

  lemma RemovalBlames(c: Config, w: World, s: State, k: nat, id: Id, s': State, i: Id)
    requires k < |s.batches| && RemovalEffect(c, w, s, k, id, s') && k < |s'.batches|
    requires i in s'.batches[k].ejected && i !in s.batches[k].ejected
    ensures i == id || Refused(c, w, k, s', i)
  {
    hide BuildsTo, GoesOn, Refused, Less;
    var b := s.batches[k];
    var b' := b.(current := Without(b.current, id), pending := Trim(b.pending, id), ejected := b.ejected + [id]);
    if id in b.current {
      if b'.current == [] {
        var t :| With(s, k, b', [id], t) && GoesOn(c, w, t, k, s');
        if i != id { GoingOnBlames(c, w, t, k, s', i); }
      } else {
        var again := b'.(phase := Forming, extra := if b.phase.Testing? then b.extra + 1 else b.extra);
        var t :| With(s, k, again, [id], t) && BuildsTo(c, w, t, k, s');
        if i != id { BuildBlames(c, w, t, k, s', i); }
      }
    }
  }

  lemma CheckBlames(c: Config, s: State, e: Event, k: nat, s': State, i: Id)
    requires e.Check? && CheckEffect(c, s, e, s') && k < |s.batches| && e.snap.batch == k && k < |s'.batches|
    requires i in s'.batches[k].ejected && i !in s.batches[k].ejected
    ensures Direct(c, s, e, k, i) || Refused(c, e.w, k, s', i)
  {
    hide GreenEffect, RedEffect, Refused, Decision;
    if Fresh(s, e.snap) {
      var s1 := WithResult(s, e.snap.id, e.context, Result(e.state, e.snap.sha.value, s.batches[k].builds));
      match Decision(s, e)
      case Passes => GreenBlames(c, e.w, e.push, s1, k, s', i);
      case Fails => RedBlames(c, e.w, s1, k, s', i);
      case Waits => if s' != s1 { RedBlames(c, e.w, s1, k, s', i); }
    }
  }

  lemma FormBlames(c: Config, w: World, s: State, k: nat, s': State, i: Id)
    requires FormEffect(c, w, s, s') && k < |s'.batches| && i in s'.batches[k].ejected
    requires k < |s.batches| ==> i !in s.batches[k].ejected
    ensures Refused(c, w, k, s', i)
  {
    hide Refused, Ends;
    if HasLive(s) {
      BuildSparesOthers(c, w, s, |s.batches| - 1, s');
      BuildBlames(c, w, s, |s.batches| - 1, s', i);
    } else {
      var ids := QueuedHead(s.rows, s.next, Limit(c));
      assert ids != [];
      var t :| Claims(s, ids, t) && BuildsTo(c, w, t, |s.batches|, s');
      BuildSparesOthers(c, w, t, |s.batches|, s');
      BuildBlames(c, w, t, |s.batches|, s', i);
    }
  }

  lemma BuildSparesOthers(c: Config, w: World, t: State, k: nat, s': State)
    requires k < |t.batches| && BuildsTo(c, w, t, k, s')
    ensures |s'.batches| == |t.batches| && forall j :: 0 <= j < |t.batches| && j != k ==> s'.batches[j] == t.batches[j]
  {
  }

  /** The cause of every ejection, in every state of every run and after every
      crash: the event itself, or a merge that the forge refused in a build that did
      not fail as a whole. */
  lemma CauseOfEjection(c: Config, s: State, e: Event, k: nat, i: Id)
    requires Recoverable(s) && k < |Step(c, s, e).batches| && i in Step(c, s, e).batches[k].ejected
    requires k < |s.batches| ==> i !in s.batches[k].ejected
    ensures Ejecting(c, s, e, k, i)
  {
    var s' := Step(c, s, e);
    StepEffect(c, s, e);
    StepSpares(c, s, e, k);
    hide Recoverable, Refused, Step, FormEffect, CheckEffect, RedEffect, RemovalEffect, ReconcileEffect, BuildsTo,
      PromoteEffect, FallsRed, FallsGreen;
    match e
    case FormAndBuild(w) => FormBlames(c, w, s, k, s', i);
    case Check(_, _, _, _, _, _, _) => CheckBlames(c, s, e, k, s', i);
    case Timeout(_, _, w) => RedBlames(c, w, s, k, s', i);
    case Remove(id, _, w) => RemovalBlames(c, w, s, k, id, s', i);
    case Reconcile(w) => ReconcileBlames(c, w, s, k, s', i);
    case _ =>
  }

  /** Over whole runs, from the start or from any tables a crash can leave: for every
      member that is noted as ejected there was such an event. */
  lemma {:induction false} EjectedWhy(c: Config, s: State, events: seq<Event>, k: nat, i: Id)
    requires Recoverable(s) && k < |Run(c, s, events).batches| && i in Run(c, s, events).batches[k].ejected
    requires k < |s.batches| ==> i !in s.batches[k].ejected
    ensures exists t :: 0 <= t < |events| && Ejecting(c, Run(c, s, events[..t]), events[t], k, i)
  {
    hide Recoverable, Step, Ejecting;
    if events != [] {
      var n := |events| - 1;
      var before := Run(c, s, events[..n]);
      RunRecovers(c, s, events[..n]);
      if k < |before.batches| && i in before.batches[k].ejected {
        EjectedWhy(c, s, events[..n], k, i);
        var t :| 0 <= t < n && Ejecting(c, Run(c, s, events[..n][..t]), events[..n][t], k, i);
        assert events[..n][..t] == events[..t];
      } else {
        CauseOfEjection(c, before, events[n], k, i);
      }
    }
  }

  lemma ReconcileBlames(c: Config, w: World, s: State, k: nat, s': State, i: Id)
    requires ReconcileEffect(c, w, s, s') && k == |s.batches| - 1 && k < |s'.batches|
    requires i in s'.batches[k].ejected && i !in s.batches[k].ejected
    ensures Refused(c, w, k, s', i)
  {
    hide Refused, BuildsTo;
    if HasLive(s) && s.batches[k].phase.Forming? { BuildBlames(c, w, s, k, s', i); }
  }

  /** Only the live batch, or the new one, changes; and only if the event is about it. */
  lemma StepSpares(c: Config, s: State, e: Event, k: nat)
    requires Recoverable(s) && k < |Step(c, s, e).batches|
    requires k < |s.batches| ==> Step(c, s, e).batches[k] != s.batches[k]
    ensures !e.Enqueue? && !e.Promote? && !e.OutsidePush?
    ensures k < |s.batches| ==> s.batches[k].Live() && k == |s.batches| - 1
    ensures k >= |s.batches| ==> e.FormAndBuild?
    ensures e.Check? ==> k < |s.batches| && e.snap.batch == k
    ensures e.Timeout? ==> k < |s.batches| && e.batch == k && e.elapsed && s.batches[k].phase.Testing?
    ensures e.Remove? ==> Addresses(s, e, k)
    ensures e.Reconcile? ==> k < |s.batches| && s.batches[k].phase.Forming?
  {
    if k < |s.batches| {
      if !s.batches[k].Live() { DoneStays(c, s, e, k); }
      LiveIsLastToo(s, k);
      StepSparesLive(c, s, e, k);
    }
  }

  lemma StepSparesLive(c: Config, s: State, e: Event, k: nat)
    requires Recoverable(s) && k < |s.batches| && s.batches[k].Live() && k == |s.batches| - 1
    requires k < |Step(c, s, e).batches| && Step(c, s, e).batches[k] != s.batches[k]
    ensures !e.Enqueue? && !e.Promote? && !e.OutsidePush?
    ensures e.Check? ==> e.snap.batch == k
    ensures e.Timeout? ==> e.batch == k && e.elapsed && s.batches[k].phase.Testing?
    ensures e.Remove? ==> Addresses(s, e, k)
    ensures e.Reconcile? ==> s.batches[k].phase.Forming?
  {
    hide Build, Next, HandlePass, HandleFail, Midway;
    match e
    case Check(_, _, _, _, _, _, _) => if Fresh(s, e.snap) { LiveIsLastToo(s, e.snap.batch); }
    case Timeout(j, _, w) => if j < |s.batches| { OtherBatch(c, w, s, j, k); IdleFails(c, w, s, j); }
    case Remove(_, _, _) => if !Addresses(s, e, k) { NotReported(c, s, e, k); }
    case _ =>
  }

  lemma IdleFails(c: Config, w: World, s: State, j: nat)
    requires j < |s.batches|
    ensures !s.batches[j].phase.Testing? ==> HandleFail(c, w, s, j) == s
  {
  }

  // ----- and every cause ejects ---------------------------------------------

  /** What a build and a pop leave alone, and what they only add to. */
  ghost predicate Adds(b: Batch, b': Batch) {
    && b'.members == b.members && b'.landed == b.landed
    && b.ejected <= b'.ejected && forall i :: i in b.ejected ==> i in b'.ejected
  }

  lemma BuildAdds(c: Config, w: World, t: State, k: nat, s': State)
    requires k < |t.batches| && BuildsTo(c, w, t, k, s')
    ensures k < |s'.batches| && Adds(t.batches[k], s'.batches[k])
  {
  }

  lemma GoingOnAdds(c: Config, w: World, t: State, k: nat, s': State)
    requires k < |t.batches| && GoesOn(c, w, t, k, s')
    ensures k < |s'.batches| && Adds(t.batches[k], s'.batches[k])
  {
    hide BuildsTo;
    var b, n := t.batches[k], |t.batches[k].pending| - 1;
    if b.pending != [] {
      BuildAdds(c, w, SetRow(t, k, b.(phase := Forming, current := b.pending[n], pending := b.pending[..n])), k, s');
    }
  }

  lemma OutAdds(c: Config, w: World, s: State, k: nat, b: Batch, ids: seq<Id>, t: State, s': State)
    requires k < |s.batches| && Ejects(s, k, b, ids, t) && GoesOn(c, w, t, k, s')
    ensures k < |s'.batches| && s'.batches[k].landed == b.landed
    ensures forall i :: i in ids && i in s.rows ==> i in s'.batches[k].ejected
  {
    hide GoesOn, Existing, Less;
    ExistingFacts(s.rows, ids);
    GoingOnAdds(c, w, t, k, s');
  }

  lemma RedEjects(c: Config, w: World, s: State, k: nat, s': State, i: Id)
    requires k < |s.batches| && RedEffect(c, w, s, k, s')
    ensures k < |s'.batches| && s'.batches[k].landed == s.batches[k].landed
    ensures FallsRed(c, s, k, i) ==> i in s'.batches[k].ejected
  {
    hide BuildsTo, GoesOn, Less, Existing;
    var b := s.batches[k];
    if |b.current| == 1 {
      var t :| Ejects(s, k, b, b.current, t) && GoesOn(c, w, t, k, s');
      OutAdds(c, w, s, k, b, b.current, t, s');
    } else if c.bisectMax > 0 && b.builds >= c.bisectMax {
      var t :| Ejects(s, k, b.(pending := []), b.current + Concat(b.pending), t) && GoesOn(c, w, t, k, s');
      ConcatIn(b.pending, i);
      OutAdds(c, w, s, k, b.(pending := []), b.current + Concat(b.pending), t, s');
    } else {
      var t :| Halves(s, k, t) && BuildsTo(c, w, t, k, s');
      BuildAdds(c, w, t, k, s');
    }
  }

  lemma GreenEjects(c: Config, w: World, push: Push, s: State, k: nat, s': State, i: Id)
    requires k < |s.batches| && s.batches[k].sha.Some? && GreenEffect(c, w, push, s, k, s')
    ensures k < |s'.batches|
    ensures var b := s.batches[k];
            && s'.batches[k].landed
               == (if push.Reach? && IsAncestor(s.target, b.sha.value) then b.landed + b.current else b.landed)
            && (FallsGreen(s, k, push, i) ==> i in s'.batches[k].ejected)
  {
    hide BuildsTo, GoesOn, Less, Existing;
    var b := s.batches[k];
    match push
    case Unavailable =>
    case Denied =>
      var t :| Ejects(s, k, b, b.current, t) && GoesOn(c, w, t, k, s');
      OutAdds(c, w, s, k, b, b.current, t, s');
    case Reach =>
      if IsAncestor(s.target, b.sha.value) {
        var t :| With(s.(target := b.sha.value), k,
                      b.(current := [], landed := b.landed + b.current, ffRetries := 0), b.current, t)
                 && GoesOn(c, w, t, k, s');
        GoingOnAdds(c, w, t, k, s');
      } else if b.ffRetries < 2 {
        BuildAdds(c, w, SetRow(s, k, b.(phase := Forming, ffRetries := b.ffRetries + 1, extra := b.extra + 1)), k, s');
      } else {
        var t :| Ejects(s, k, b.(ffRetries := b.ffRetries + 1), b.current, t) && GoesOn(c, w, t, k, s');
        OutAdds(c, w, s, k, b.(ffRetries := b.ffRetries + 1), b.current, t, s');
      }
  }

  lemma RemovalEjects(c: Config, w: World, s: State, k: nat, id: Id, s': State)
    requires k < |s.batches| && RemovalEffect(c, w, s, k, id, s')
    ensures k < |s'.batches| && s'.batches[k].landed == s.batches[k].landed && id in s'.batches[k].ejected
  {
    hide BuildsTo, GoesOn, Less;
    var b := s.batches[k];
    var b' := b.(current := Without(b.current, id), pending := Trim(b.pending, id), ejected := b.ejected + [id]);
    if id in b.current {
      if b'.current == [] {
        var t :| With(s, k, b', [id], t) && GoesOn(c, w, t, k, s');
        GoingOnAdds(c, w, t, k, s');
      } else {
        var again := b'.(phase := Forming, extra := if b.phase.Testing? then b.extra + 1 else b.extra);
        var t :| With(s, k, again, [id], t) && BuildsTo(c, w, t, k, s');
        BuildAdds(c, w, t, k, s');
      }
    }
  }

  lemma CheckEjects(c: Config, s: State, e: Event, k: nat, s': State, i: Id)
    requires e.Check? && CheckEffect(c, s, e, s') && k < |s.batches| && e.snap.batch == k && Fresh(s, e.snap)
    ensures k < |s'.batches|
    ensures s'.batches[k].landed
         == if Lands(s, e) then s.batches[k].landed + s.batches[k].current else s.batches[k].landed
    ensures Direct(c, s, e, k, i) ==> i in s'.batches[k].ejected
  {
    hide GreenEffect, RedEffect, Decision;
    var s1 := WithResult(s, e.snap.id, e.context, Result(e.state, e.snap.sha.value, s.batches[k].builds));
    match Decision(s, e)
    case Passes => GreenEjects(c, e.w, e.push, s1, k, s', i);
    case Fails => RedEjects(c, e.w, s1, k, s', i);
    case Waits => if e.required.Some? && e.timedOut { RedEjects(c, e.w, s1, k, s', i); }
  }

  /** What lands: at a landing exactly the members under test, and nobody at any
      other event. And whatever the event itself ejects is ejected. */
  lemma LandedAndEjected(c: Config, s: State, e: Event, k: nat, i: Id)
    requires Recoverable(s) && k < |s.batches|
    ensures k < |Step(c, s, e).batches|
    ensures var b, b' := s.batches[k], Step(c, s, e).batches[k];
            && b'.landed == (if Lands(s, e) && e.snap.batch == k then b.landed + b.current else b.landed)
            && (Direct(c, s, e, k, i) ==> i in b'.ejected)
  {
    if s.batches[k].Live() {
      LiveIsLastToo(s, k);
      LiveNotes(c, s, e, k);
      StepEffect(c, s, e);
      LiveEffects(c, s, e, k, i);
    } else {
      DoneStays(c, s, e, k);
    }
  }

  lemma LiveEffects(c: Config, s: State, e: Event, k: nat, i: Id)
    requires Recoverable(s) && k < |s.batches| && s.batches[k].Live() && Effect(c, s, e, Step(c, s, e))
    requires k < |Step(c, s, e).batches| && k == |s.batches| - 1
    ensures var b, b' := s.batches[k], Step(c, s, e).batches[k];
            && b'.landed == (if Lands(s, e) && e.snap.batch == k then b.landed + b.current else b.landed)
            && (Direct(c, s, e, k, i) ==> i in b'.ejected)
  {
    var s' := Step(c, s, e);
    hide Recoverable, Step, CheckEffect, RedEffect, RemovalEffect, BuildsTo, Decision, FallsRed, FallsGreen;
    match e
    case FormAndBuild(w) => if s.batches[k].phase.Forming? { BuildAdds(c, w, s, k, s'); }
    case Check(_, _, _, _, _, _, _) => CheckEffects(c, s, e, k, s', i);
    case Timeout(j, elapsed, w) => TimeoutEffects(c, s, e, k, s', i);
    case Remove(id, _, w) => RemoveEffects(c, s, e, k, s', i);
    case Reconcile(w) => if s.batches[k].phase.Forming? { BuildAdds(c, w, s, k, s'); }
    case _ =>
  }

  lemma CheckEffects(c: Config, s: State, e: Event, k: nat, s': State, i: Id)
    requires Recoverable(s) && k < |s.batches| && s.batches[k].Live() && e.Check? && CheckEffect(c, s, e, s')
    ensures k < |s'.batches|
    ensures var b, b' := s.batches[k], s'.batches[k];
            && b'.landed == (if Lands(s, e) && e.snap.batch == k then b.landed + b.current else b.landed)
            && (Direct(c, s, e, k, i) ==> i in b'.ejected)
  {
    if Fresh(s, e.snap) {
      LiveIsLastToo(s, k);
      LiveIsLastToo(s, e.snap.batch);
      CheckEjects(c, s, e, k, s', i);
    }
  }

  lemma TimeoutEffects(c: Config, s: State, e: Event, k: nat, s': State, i: Id)
    requires Recoverable(s) && k < |s.batches| && s.batches[k].Live() && e.Timeout? && Effect(c, s, e, s')
    ensures k < |s'.batches| && s'.batches[k].landed == s.batches[k].landed
    ensures Direct(c, s, e, k, i) ==> i in s'.batches[k].ejected
  {
    hide Recoverable, Midway, RedEffect;
    if e.batch < |s.batches| && e.elapsed && s.batches[e.batch].phase.Testing? {
      LiveIsLastToo(s, k);
      LiveIsLastToo(s, e.batch);
      RedEjects(c, e.w, s, k, s', i);
    }
  }

  lemma RemoveEffects(c: Config, s: State, e: Event, k: nat, s': State, i: Id)
    requires Recoverable(s) && k < |s.batches| && s.batches[k].Live() && e.Remove? && Effect(c, s, e, s')
    ensures k < |s'.batches| && s'.batches[k].landed == s.batches[k].landed
    ensures Direct(c, s, e, k, i) ==> i in s'.batches[k].ejected
  {
    LiveIsLastToo(s, k);
    if Addresses(s, e, k) {
      RemovalEjects(c, e.w, s, k, e.id, s');
    } else if ReportedTo(s, e).Some? && ReportedTo(s, e).value < |s.batches| && s.batches[ReportedTo(s, e).value].Live() {
      LiveIsLastToo(s, ReportedTo(s, e).value);
    }
  }

  // ----- a build that fails as a whole blames nobody ------------------------

  /** Building a forming batch fails as a whole: nothing happens to the batch and
      to the queue. */
  lemma WholeFailureKeeps(c: Config, s: State, e: Event)
    requires Recoverable(s) && HasLive(s) && s.batches[|s.batches| - 1].phase.Forming?
    requires (e.FormAndBuild? || e.Reconcile?) && e.w.broken(|s.batches[|s.batches| - 1].pending|)
    ensures Step(c, s, e).rows == s.rows && Step(c, s, e).batches == s.batches
  {
    var k, s' := |s.batches| - 1, Step(c, s, e);
    StepEffect(c, s, e);
    hide Recoverable, Step, Ends;
    var h :| Ends(c, e.w, s, k, s', h);
    BrokenAtTop(c, e.w, s, k, s', h);
  }

  lemma BrokenAtTop(c: Config, w: World, s: State, k: nat, s': State, h: int)
    requires k < |s.batches| && Ends(c, w, s, k, s', h) && w.broken(|s.batches[k].pending|)
    ensures s'.rows == s.rows && s'.batches == s.batches
  {
    var b, top := s.batches[k], |s.batches[k].pending|;
    assert h < top ==> Refuses(c, w, TipAt(w, s.target, top, top), Here(s, k, top), top);
    assert b.pending[..top] == b.pending && b.ejected + Above(s, k, top) == b.ejected;
    assert s.batches[k := b] == s.batches;
    assert s'.rows == s.rows;
  }

  /** And the next build that the forge cooperates with tests exactly the same
      members. */
  lemma FailedBuildIsRetried(c: Config, s: State, e: Event, w: World)
    requires Inv(c, s) && HasLive(s) && s.batches[|s.batches| - 1].phase.Forming?
    requires (e.FormAndBuild? || e.Reconcile?) && e.w.broken(|s.batches[|s.batches| - 1].pending|)
    requires Cooperates(w)
    ensures var k, s1 := |s.batches| - 1, Step(c, s, e);
            var b, s2 := s.batches[k], Step(c, s1, FormAndBuild(w));
            && |s2.batches| == |s.batches|
            && s2.batches[k] == b.(phase := Testing, builds := b.builds + 1, base := s1.target,
                                   sha := Some(Fold(c.noop, s1.target, Heads(c, b.current))))
            && s2.target == s1.target && forall i :: b.InPlay(i) ==> i in s2.rows
  {
    hide Inv, Recoverable, LiveOk, BuildPre, Cooperates, Step, Build;
    var k, s1 := |s.batches| - 1, Step(c, s, e);
    InvIsRecoverable(c, s);
    WholeFailureKeeps(c, s, e);
    StepOk(c, s, e);
    ReadyToBuild(c, s1, k);
    CleanBuild(c, w, s1, k);
    var s2 := Step(c, s1, FormAndBuild(w));
    StepOk(c, s1, FormAndBuild(w));
    FormingIsBuilt(c, w, s1);
    NothingToRestore(c, s2, w);
  }

  lemma FormingIsBuilt(c: Config, w: World, s: State)
    requires HasLive(s) && s.batches[|s.batches| - 1].phase.Forming?
    ensures Step(c, s, FormAndBuild(w)) == Build(c, w, s, |s.batches| - 1)
  {
  }

  lemma ReadyToBuild(c: Config, s: State, k: nat)
    requires Inv(c, s) && k < |s.batches| && s.batches[k].phase.Forming?
    ensures BuildPre(c, s, k)
  {
    AnyBatch(c, s, k);
  }

  /** The same when the batch is new: everybody is claimed, nobody ejected. */
  lemma WholeFailureForms(c: Config, s: State, w: World)
    requires Recoverable(s) && !HasLive(s) && QueuedHead(s.rows, s.next, Limit(c)) != [] && w.broken(0)
    ensures var ids, s' := QueuedHead(s.rows, s.next, Limit(c)), Step(c, s, FormAndBuild(w));
            && s'.rows.Keys == s.rows.Keys && |s'.batches| == |s.batches| + 1
            && var b := s'.batches[|s.batches|];
               && b.phase.Forming? && b.members == ids && b.current == ids && b.pending == []
               && b.landed == [] && b.ejected == []
  {
    var ids, s', k := QueuedHead(s.rows, s.next, Limit(c)), Step(c, s, FormAndBuild(w)), |s.batches|;
    StepEffect(c, s, FormAndBuild(w));
    hide Recoverable, Step, Ends;
    var t :| Claims(s, ids, t) && BuildsTo(c, w, t, k, s');
    var h :| Ends(c, w, t, k, s', h);
    BrokenAtTop(c, w, t, k, s', h);
  }
}
