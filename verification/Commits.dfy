/** Commits as terms, and the ancestry and merge operations the forges perform
    on them. A PR head is any commit; an outsider may push anything on top of
    a commit. */
module Commits {

  datatype Commit =
    | Root(n: nat)
    | Pushed(parent: Commit, tag: nat)
    | Merge(parent: Commit, head: Commit)

  /** `a` is reachable from `c` through parents. */
  predicate IsAncestor(a: Commit, c: Commit) {
    a == c ||
    match c
    case Root(_) => false
    case Pushed(p, _) => IsAncestor(a, p)
    case Merge(p, h) => IsAncestor(a, p) || IsAncestor(a, h)
  }

  lemma {:induction false} AncestorTrans(a: Commit, b: Commit, c: Commit)
    requires IsAncestor(a, b) && IsAncestor(b, c)
    ensures IsAncestor(a, c)
    decreases c
  {
    if b != c {
      match c
      case Pushed(p, _) => AncestorTrans(a, b, p);
      case Merge(p, h) =>
        if IsAncestor(b, p) { AncestorTrans(a, b, p); } else { AncestorTrans(a, b, h); }
    }
  }

  predicate IsParent(p: Commit, c: Commit) {
    match c
    case Root(_) => false
    case Pushed(q, _) => p == q
    case Merge(q, h) => p == q || p == h
  }

  /** A walk through the history: every commit is a parent of the one before. */
  ghost predicate IsWalk(walk: seq<Commit>, from: Commit, to: Commit) {
    && walk != [] && walk[0] == from && walk[|walk| - 1] == to
    && forall i :: 0 < i < |walk| ==> IsParent(walk[i], walk[i - 1])
  }

  lemma {:induction false} WalkToAncestor(a: Commit, c: Commit) returns (walk: seq<Commit>)
    requires IsAncestor(a, c)
    ensures IsWalk(walk, c, a)
    decreases c
  {
    if a == c {
      walk := [c];
    } else {
      var p := match c case Pushed(q, _) => q case Merge(q, h) => if IsAncestor(a, q) then q else h;
      var rest := WalkToAncestor(a, p);
      walk := [c] + rest;
    }
  }

  lemma {:induction false} WalkedIsAncestor(a: Commit, c: Commit, walk: seq<Commit>)
    requires IsWalk(walk, c, a)
    ensures IsAncestor(a, c)
    decreases |walk|
  {
    if |walk| > 1 {
      assert IsParent(walk[1], walk[0]);
      WalkedIsAncestor(a, walk[1], walk[1..]);
    }
  }

  /** Reachable means that there is such a walk. */
  lemma AncestorIsReachable(a: Commit, c: Commit)
    ensures IsAncestor(a, c) <==> exists walk :: IsWalk(walk, c, a)
  {
    if IsAncestor(a, c) {
      var walk := WalkToAncestor(a, c);
    }
    if walk :| IsWalk(walk, c, a) {
      WalkedIsAncestor(a, c, walk);
    }
  }

  /** The tip after a successful merge of `head` into `tip`. A forge whose merge
      endpoint answers "already contained" (`noop`) leaves the tip alone then;
      a forge that merges with plain git always creates a merge commit. */
  function Join(noop: bool, tip: Commit, head: Commit): (r: Commit)
    ensures IsAncestor(tip, r) && IsAncestor(head, r)
  {
    if noop && IsAncestor(head, tip) then tip else Merge(tip, head)
  }

  /** The tip after merging every head in order onto `base`. */
  function Fold(noop: bool, base: Commit, heads: seq<Commit>): (r: Commit)
  {
    if heads == [] then base
    else Join(noop, Fold(noop, base, heads[..|heads| - 1]), heads[|heads| - 1])
  }

  lemma {:induction false} FoldContains(noop: bool, base: Commit, heads: seq<Commit>)
    ensures IsAncestor(base, Fold(noop, base, heads))
    ensures forall h :: h in heads ==> IsAncestor(h, Fold(noop, base, heads))
  {
    if heads != [] {
      var n := |heads| - 1;
      var tip := Fold(noop, base, heads[..n]);
      FoldContains(noop, base, heads[..n]);
      AncestorTrans(base, tip, Fold(noop, base, heads));
      forall h | h in heads
        ensures IsAncestor(h, Fold(noop, base, heads))
      {
        if h in heads[..n] {
          AncestorTrans(h, tip, Fold(noop, base, heads));
        }
      }
    }
  }

  lemma {:induction false} FoldCat(noop: bool, base: Commit, a: seq<Commit>, b: seq<Commit>)
    ensures Fold(noop, base, a + b) == Fold(noop, Fold(noop, base, a), b)
    decreases |b|
  {
    if b == [] {
      assert a + b == a;
    } else {
      var n := |b| - 1;
      FoldCat(noop, base, a, b[..n]);
      assert (a + b)[..|a + b| - 1] == a + b[..n];
    }
  }

  /** A push by somebody else. The forge accepts it only if it does not discard
      the current tip. */
  function Outside(tip: Commit, proposed: Commit): (r: Commit)
    ensures IsAncestor(tip, r)
  {
    if IsAncestor(tip, proposed) then proposed else tip
  }
}
