/** The outcome of merging a list of heads onto a base: which heads merged,
    which conflicted or failed, and the resulting tip. */
module Stacking {
  import opened Lists
  import opened Commits

  /** The forge's answer to one merge attempt. */
  datatype Answer = Clean | Conflict | Failed

  /** Answers may depend on the position, the tip merged onto and the head. */
  type Oracle = (nat, Commit, Commit) -> Answer

  datatype Steps = Steps(answers: seq<Answer>, tip: Commit)

  /** Heads are tried in order; one that does not merge leaves the tip alone. */
  function Stacked(noop: bool, base: Commit, heads: seq<Commit>, oracle: Oracle): (r: Steps)
    ensures |r.answers| == |heads|
  {
    if heads == [] then Steps([], base)
    else
      var n := |heads| - 1;
      var sofar := Stacked(noop, base, heads[..n], oracle);
      var answer := oracle(n, sofar.tip, heads[n]);
      Steps(sofar.answers + [answer],
            if answer.Clean? then Join(noop, sofar.tip, heads[n]) else sofar.tip)
  }

  /** The items whose attempt was clean, or those whose attempt was not. */
  function Pick<T>(items: seq<T>, answers: seq<Answer>, clean: bool): (r: seq<T>)
    requires |items| == |answers|
  {
    if items == [] then []
    else
      var n := |items| - 1;
      Pick(items[..n], answers[..n], clean) +
      (if answers[n].Clean? == clean then [items[n]] else [])
  }

  /** The tip is the fold of exactly the heads that merged, in order, however
      many others conflicted or failed before or between them. */
  lemma {:induction false} StackedIsFold(noop: bool, base: Commit, heads: seq<Commit>, oracle: Oracle)
    ensures var r := Stacked(noop, base, heads, oracle);
            r.tip == Fold(noop, base, Pick(heads, r.answers, true))
  {
    if heads != [] {
      var n := |heads| - 1;
      var r := Stacked(noop, base, heads, oracle);
      StackedIsFold(noop, base, heads[..n], oracle);
      var p := Pick(heads[..n], r.answers[..n], true);
      assert r.answers[..n] == Stacked(noop, base, heads[..n], oracle).answers;
      if r.answers[n].Clean? {
        assert (p + [heads[n]])[..|p|] == p;
      } else {
        assert p + [] == p;
      }
    }
  }

  lemma {:induction false} PickSub<T>(items: seq<T>, answers: seq<Answer>, clean: bool)
    requires |items| == |answers|
    ensures Sub(Pick(items, answers, clean), items)
  {
    if items != [] {
      var n := |items| - 1;
      var p := Pick(items[..n], answers[..n], clean);
      PickSub(items[..n], answers[..n], clean);
      assert items == items[..n] + [items[n]];
      if answers[n].Clean? == clean {
        SubRefl([items[n]]);
        SubCat(p, items[..n], [items[n]], [items[n]]);
      } else {
        SubWiden(p, items[..n], [items[n]]);
        assert p + [] == p;
      }
    }
  }

  /** Every item is picked on exactly one side. */
  lemma {:induction false} PickSplits<T>(items: seq<T>, answers: seq<Answer>)
    requires |items| == |answers|
    ensures multiset(Pick(items, answers, true)) + multiset(Pick(items, answers, false)) == multiset(items)
  {
    if items != [] {
      var n := |items| - 1;
      PickSplits(items[..n], answers[..n]);
      assert items == items[..n] + [items[n]];
    }
  }

  lemma {:induction false} AllClean(noop: bool, base: Commit, heads: seq<Commit>, oracle: Oracle)
    requires forall i: nat, t, h :: oracle(i, t, h).Clean?
    ensures forall a :: a in Stacked(noop, base, heads, oracle).answers ==> a.Clean?
  {
    if heads != [] {
      AllClean(noop, base, heads[..|heads| - 1], oracle);
    }
  }

  lemma {:induction false} PickAll<T>(items: seq<T>, answers: seq<Answer>)
    requires |items| == |answers|
    requires forall a :: a in answers ==> a.Clean?
    ensures Pick(items, answers, true) == items && Pick(items, answers, false) == []
  {
    if items != [] {
      var n := |items| - 1;
      PickAll(items[..n], answers[..n]);
      assert items == items[..n] + [items[n]];
    }
  }
}
