/** The two ways of stacking heads onto a base: one clone that merges locally
    and pushes once (internal/gitea), and a branch on the remote that is created
    and then advanced merge by merge (internal/github). */
module Forges {
  import opened Lists
  import opened Commits
  import opened Stacking
  import opened Model

  /** The merge endpoint's reply: a new commit, nothing to do, a conflict, or
      some other failure. */
  datatype Reply = Created(sha: Commit) | Contained | Conflicting | Broken

  /** Where an attempt that fails for another reason than a conflict fails:
      before the branch exists, once it is at the base, or after the merge call. */
  datatype Stage = BeforeRef | AfterRef

  /** What one attempt reports: a tip, a conflict, or an error. */
  datatype Attempt = Tip(sha: Commit) | Conflicts | Errs

  function Reported(answer: Answer, tip: Commit): Attempt {
    match answer
    case Clean => Tip(tip)
    case Conflict => Conflicts
    case Failed => Errs
  }

  datatype Update = Updated | NotFastForward | PushDenied | Unreachable

  class Remote {
    var refs: map<string, Commit>

    /** A ref update. Without force it is refused unless the new commit
        descends from the present one, so no history is ever discarded. */
    method FastForward(branch: string, sha: Commit, push: Push) returns (r: Update)
      modifies this
      ensures r.Updated? <==> branch in old(refs) && push.Reach? && IsAncestor(old(refs)[branch], sha)
      ensures r.NotFastForward? <==> branch in old(refs) && push.Reach? && !IsAncestor(old(refs)[branch], sha)
      ensures r.PushDenied? <==> branch in old(refs) && push.Denied?
      ensures refs == if r.Updated? then old(refs)[branch := sha] else old(refs)
      ensures branch in old(refs) ==> branch in refs && IsAncestor(old(refs)[branch], refs[branch])
    {
      if branch !in refs || push.Unavailable? {
        return Unreachable;
      }
      if push.Denied? {
        return PushDenied;
      }
      if !IsAncestor(refs[branch], sha) {
        return NotFastForward;
      }
      refs := refs[branch := sha];
      return Updated;
    }

    /** A push by somebody else, refused if it would discard history. */
    method OutsidePush(branch: string, proposed: Commit)
      requires branch in refs
      modifies this
      ensures refs == old(refs)[branch := Outside(old(refs)[branch], proposed)]
    {
      refs := refs[branch := Outside(refs[branch], proposed)];
    }

    method DeleteBranch(branch: string)
      modifies this
      ensures refs == old(refs) - {branch}
    {
      refs := refs - {branch};
    }

    /** The merge endpoint. A failed merge leaves the branch where it was. */
    method Merge(branch: string, head: Commit, answer: Answer) returns (r: Reply)
      requires branch in refs
      modifies this
      ensures answer.Clean? ==> refs == old(refs)[branch := Join(true, old(refs)[branch], head)]
      ensures !answer.Clean? ==> refs == old(refs)
      ensures answer.Clean? ==> r == if IsAncestor(head, old(refs)[branch]) then Contained else Created(refs[branch])
      ensures answer.Conflict? ==> r == Conflicting
      ensures answer.Failed? ==> r == Broken
    {
      match answer
      case Conflict => return Conflicting;
      case Failed => return Broken;
      case Clean =>
        if IsAncestor(head, refs[branch]) {
          assert refs[branch := refs[branch]] == refs;
          return Contained;
        }
        var sha := Commit.Merge(refs[branch], head);
        refs := refs[branch := sha];
        return Created(sha);
    }

    /** Point the branch at the base, whatever it was, and merge one head. */
    method CreateMergeBranch(base: string, head: Commit, branch: string, answer: Answer, stage: Stage)
      returns (r: Attempt)
      requires base in refs && base != branch
      modifies this
      ensures r == Reported(answer, Join(true, old(refs)[base], head))
      ensures (r.Tip? <==> answer.Clean?) && (r.Conflicts? <==> answer.Conflict?) && (r.Errs? <==> answer.Failed?)
      ensures r.Tip? ==> refs == old(refs)[branch := r.sha]
      ensures forall x :: x != branch ==> (x in refs <==> x in old(refs)) && (x in refs ==> refs[x] == old(refs)[x])
    {
      var baseSha := refs[base];
      if answer.Failed? && stage.BeforeRef? {
        return Errs;
      }
      // Created, or forced back to the base if an earlier attempt left it.
      refs := refs[branch := baseSha];
      var reply := Merge(branch, head, answer);
      match reply
      case Conflicting => return Conflicts;
      case Broken => return Errs;
      case Contained => return Tip(baseSha);
      case Created(sha) => return Tip(sha);
    }

    method MergeInto(branch: string, head: Commit, answer: Answer) returns (r: Attempt)
      requires branch in refs
      modifies this
      ensures r == Reported(answer, Join(true, old(refs)[branch], head))
      ensures (r.Tip? <==> answer.Clean?) && (r.Conflicts? <==> answer.Conflict?) && (r.Errs? <==> answer.Failed?)
      ensures refs == if r.Tip? then old(refs)[branch := r.sha] else old(refs)
    {
      var reply := Merge(branch, head, answer);
      match reply
      case Conflicting => return Conflicts;
      case Broken => return Errs;
      case Contained => return Tip(refs[branch]);
      case Created(sha) => return Tip(sha);
    }

    /** The engine's loop over a forge without a stacking operation: seed the
        branch with the first head that merges, then merge into it. */
    method Stack(base: string, heads: seq<Commit>, branch: string, oracle: Oracle, stages: nat -> Stage)
      returns (tip: Option<Commit>, answers: seq<Answer>)
      requires base in refs && base != branch
      modifies this
      ensures answers == Stacked(true, old(refs)[base], heads, oracle).answers
      ensures tip == TipOf(true, old(refs)[base], heads, oracle)
      ensures base in refs && refs[base] == old(refs)[base]
      ensures tip.Some? ==> branch in refs && refs[branch] == tip.value
    {
      tip, answers := None, [];
      ghost var onto := refs[base];
      for i := 0 to |heads|
        invariant base in refs && refs[base] == onto
        invariant answers == Stacked(true, onto, heads[..i], oracle).answers
        invariant tip == TipOf(true, onto, heads[..i], oracle)
        invariant tip.Some? ==> branch in refs && refs[branch] == tip.value
      {
        TipStep(true, onto, heads[..i + 1], oracle);
        assert heads[..i + 1][..i] == heads[..i];
        ghost var sofar := Stacked(true, onto, heads[..i], oracle).tip;
        var attempt: Attempt;
        if tip.None? {
          attempt := CreateMergeBranch(base, heads[i], branch, oracle(i, refs[base], heads[i]), stages(i));
        } else {
          attempt := MergeInto(branch, heads[i], oracle(i, tip.value, heads[i]));
        }
        match attempt
        case Tip(sha) => tip, answers := Some(sha), answers + [Clean];
        case Conflicts => answers := answers + [Conflict];
        case Errs => answers := answers + [Failed];
      }
      assert heads[..|heads|] == heads;
    }
  }

  predicate AnyClean(answers: seq<Answer>) { exists a :: a in answers && a.Clean? }

  /** The tip, if any head merged at all. */
  function TipOf(noop: bool, base: Commit, heads: seq<Commit>, oracle: Oracle): Option<Commit> {
    var r := Stacked(noop, base, heads, oracle);
    if AnyClean(r.answers) then Some(r.tip) else None
  }

  lemma {:induction false} NoneClean(noop: bool, base: Commit, heads: seq<Commit>, oracle: Oracle)
    requires !AnyClean(Stacked(noop, base, heads, oracle).answers)
    ensures Stacked(noop, base, heads, oracle).tip == base
  {
    if heads != [] {
      var r := Stacked(noop, base, heads, oracle);
      assert r.answers[|heads| - 1] in r.answers;
      assert forall a :: a in Stacked(noop, base, heads[..|heads| - 1], oracle).answers ==> a in r.answers;
      NoneClean(noop, base, heads[..|heads| - 1], oracle);
    }
  }

  /** What one more head does to the tip. */
  lemma TipStep(noop: bool, base: Commit, heads: seq<Commit>, oracle: Oracle)
    requires heads != []
    ensures var n := |heads| - 1;
            var before := TipOf(noop, base, heads[..n], oracle);
            var sofar := Stacked(noop, base, heads[..n], oracle);
            && sofar.tip == (if before.Some? then before.value else base)
            && var answer := oracle(n, sofar.tip, heads[n]);
               && Stacked(noop, base, heads, oracle).answers == sofar.answers + [answer]
               && TipOf(noop, base, heads, oracle)
                  == if answer.Clean? then Some(Join(noop, sofar.tip, heads[n])) else before
  {
  }

  /** A clone that merges in memory. Every clean merge makes a commit, even of
      a head that is already contained. */
  class Clone {
    const origin: Remote

    constructor (origin: Remote)
      ensures this.origin == origin
    {
      this.origin := origin;
    }

    /** StackMerges. A failure of the clone or of the final push is not blamed
        on any head: there is no result then, and no branch moves. */
    method StackMerges(base: string, heads: seq<Commit>, branch: string, oracle: Oracle, reachable: bool)
      returns (ok: bool, tip: Option<Commit>, steps: array<Answer>)
      requires base in origin.refs && base != branch
      modifies origin
      ensures ok <==> reachable
      ensures ok ==> steps[..] == Stacked(false, old(origin.refs)[base], heads, oracle).answers
      ensures ok ==> tip == TipOf(false, old(origin.refs)[base], heads, oracle)
      ensures origin.refs ==
              if ok && tip.Some? then old(origin.refs)[branch := tip.value] else old(origin.refs)
    {
      tip := None;
      steps := new Answer[|heads|](_ => Clean);
      if !reachable {
        return false, None, steps;
      }
      var current := origin.refs[base];
      ghost var onto := current;
      for i := 0 to |heads|
        invariant origin.refs == old(origin.refs)
        invariant current == Stacked(false, onto, heads[..i], oracle).tip
        invariant steps[..i] == Stacked(false, onto, heads[..i], oracle).answers
        invariant tip == TipOf(false, onto, heads[..i], oracle)
      {
        TipStep(false, onto, heads[..i + 1], oracle);
        assert heads[..i + 1][..i] == heads[..i];
        steps[i] := oracle(i, current, heads[i]);
        assert steps[..i + 1] == steps[..i] + [steps[i]];
        if steps[i].Clean? {
          current := Commit.Merge(current, heads[i]);
          tip := Some(current);
        }
      }
      assert heads[..|heads|] == heads;
      assert steps[..|heads|] == steps[..];
      if tip.Some? {
        origin.refs := origin.refs[branch := tip.value];
      }
      ok := true;
    }
  }

  // ----- the two forms compared ---------------------------------------------

  function Depth(c: Commit): nat {
    match c
    case Merge(p, _) => 1 + Depth(p)
    case _ => 0
  }

  /** No head is contained in the tip it is merged into. */
  predicate AllNew(base: Commit, heads: seq<Commit>) {
    forall i :: 0 <= i < |heads| ==> !IsAncestor(heads[i], Fold(true, base, heads[..i]))
  }

  lemma AllNewSnoc(base: Commit, heads: seq<Commit>, head: Commit)
    ensures AllNew(base, heads + [head]) <==> AllNew(base, heads) && !IsAncestor(head, Fold(true, base, heads))
  {
    var all := heads + [head];
    assert all[..|heads|] == heads;
    forall i | 0 <= i < |heads|
      ensures all[i] == heads[i] && all[..i] == heads[..i]
    {
    }
  }

  lemma {:induction false} FoldDepths(base: Commit, heads: seq<Commit>)
    ensures Depth(Fold(false, base, heads)) == Depth(base) + |heads|
    ensures Depth(Fold(true, base, heads)) <= Depth(base) + |heads|
    ensures if AllNew(base, heads) then Fold(true, base, heads) == Fold(false, base, heads)
            else Depth(Fold(true, base, heads)) < Depth(base) + |heads|
  {
    if heads != [] {
      var n := |heads| - 1;
      FoldDepths(base, heads[..n]);
      AllNewSnoc(base, heads[..n], heads[n]);
      assert heads == heads[..n] + [heads[n]];
    }
  }

  /** Merging through the remote's endpoint and merging in the clone lead to the
      same tip exactly when no head was already contained in the branch; the
      clone makes an extra commit for each one that was. */
  lemma FormsAgreeIff(base: Commit, heads: seq<Commit>)
    ensures Fold(true, base, heads) == Fold(false, base, heads) <==> AllNew(base, heads)
  {
    FoldDepths(base, heads);
  }

  /** Two tips that differ: the first PR's head is built on the second's, so the
      second is contained already when its turn comes. */
  lemma ContainedHeadDiffers()
    ensures var one := Pushed(Root(0), 1);
            var two := Pushed(one, 2);
            && Fold(true, Root(0), [two, one]) == Commit.Merge(Root(0), two)
            && Fold(false, Root(0), [two, one]) == Commit.Merge(Commit.Merge(Root(0), two), one)
  {
    var one := Pushed(Root(0), 1);
    var two := Pushed(one, 2);
    var heads := [two, one];
    assert heads[..1] == [two] && [two][..0] == [];
    assert Fold(true, Root(0), [two]) == Commit.Merge(Root(0), two);
    assert Fold(false, Root(0), [two]) == Commit.Merge(Root(0), two);
  }

  /** If the answer does not depend on the tip, both forms report the same
      outcome for every head, however many conflict or fail, and the tips are
      equal exactly when no merged head was already contained. */
  lemma {:induction false} StacksAgree(base: Commit, heads: seq<Commit>, oracle: Oracle)
    requires forall i: nat, t, u, h :: oracle(i, t, h) == oracle(i, u, h)
    ensures var remote, clone := Stacked(true, base, heads, oracle), Stacked(false, base, heads, oracle);
            && remote.answers == clone.answers
            && (remote.tip == clone.tip <==> AllNew(base, Pick(heads, remote.answers, true)))
  {
    SameAnswers(base, heads, oracle);
    StackedIsFold(true, base, heads, oracle);
    StackedIsFold(false, base, heads, oracle);
    FormsAgreeIff(base, Pick(heads, Stacked(true, base, heads, oracle).answers, true));
  }

  lemma {:induction false} SameAnswers(base: Commit, heads: seq<Commit>, oracle: Oracle)
    requires forall i: nat, t, u, h :: oracle(i, t, h) == oracle(i, u, h)
    ensures Stacked(true, base, heads, oracle).answers == Stacked(false, base, heads, oracle).answers
  {
    if heads != [] { SameAnswers(base, heads[..|heads| - 1], oracle); }
  }

  /** For any oracle at all, the runs coincide as long as nothing merged was
      contained already. */
  lemma {:induction false} StacksCoincide(base: Commit, heads: seq<Commit>, oracle: Oracle)
    requires AllNew(base, Pick(heads, Stacked(true, base, heads, oracle).answers, true))
    ensures Stacked(true, base, heads, oracle) == Stacked(false, base, heads, oracle)
  {
    if heads != [] {
      var n := |heads| - 1;
      var r := Stacked(true, base, heads, oracle);
      var before := Pick(heads[..n], r.answers[..n], true);
      var all := Pick(heads, r.answers, true);
      assert r.answers[..n] == Stacked(true, base, heads[..n], oracle).answers;
      assert before == all[..|before|];
      forall i | 0 <= i < |before|
        ensures !IsAncestor(before[i], Fold(true, base, before[..i]))
      {
        assert before[i] == all[i] && before[..i] == all[..i];
      }
      StackedIsFold(true, base, heads[..n], oracle);
      StacksCoincide(base, heads[..n], oracle);
      if r.answers[n].Clean? {
        assert all[|before|] == heads[n];
        assert all[..|before|] == before;
      }
    }
  }
}
