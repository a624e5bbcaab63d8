/** Sequence facts shared by the whole model: order-preserving subsequences,
    duplicate-freedom through multisets, and the pending stack read from its top. */
module Lists {

  datatype Option<+T> = None | Some(value: T)

  /** `a` can be obtained from `b` by deleting elements, keeping the order. */
  predicate Sub<T(==)>(a: seq<T>, b: seq<T>)
    decreases |b|
  {
    if a == [] then true
    else if b == [] then false
    else (a[0] == b[0] && Sub(a[1..], b[1..])) || Sub(a, b[1..])
  }

  /** No element occurs twice. */
  ghost predicate Unique<T>(s: seq<T>) {
    forall x :: x in s ==> multiset(s)[x] == 1
  }

  lemma {:induction false} SubRefl<T>(a: seq<T>)
    ensures Sub(a, a)
  {
    if a != [] {
      SubRefl(a[1..]);
    }
  }

  lemma {:induction false} SubTail<T>(a: seq<T>, b: seq<T>)
    requires a != [] && Sub(a, b)
    ensures Sub(a[1..], b)
    decreases |b|
  {
    if a[0] == b[0] && Sub(a[1..], b[1..]) {
      if a[1..] != [] {
        assert Sub(a[1..], b);
      }
    } else {
      SubTail(a, b[1..]);
    }
  }

  lemma {:induction false} SubTrans<T>(a: seq<T>, b: seq<T>, c: seq<T>)
    requires Sub(a, b) && Sub(b, c)
    ensures Sub(a, c)
    decreases |b| + |c|
  {
    if a == [] {
    } else if b[0] == c[0] && Sub(b[1..], c[1..]) {
      if a[0] == b[0] && Sub(a[1..], b[1..]) {
        SubTrans(a[1..], b[1..], c[1..]);
      } else {
        SubTrans(a, b[1..], c[1..]);
      }
    } else {
      SubTrans(a, b, c[1..]);
    }
  }

  lemma {:induction false} SubPrepend<T>(x: seq<T>, a: seq<T>, b: seq<T>)
    requires Sub(a, b)
    ensures Sub(a, x + b)
    decreases |x|
  {
    if x == [] {
      assert x + b == b;
    } else {
      SubPrepend(x[1..], a, b);
      assert (x + b)[1..] == x[1..] + b;
    }
  }

  lemma {:induction false} SubCat<T>(a: seq<T>, b: seq<T>, c: seq<T>, d: seq<T>)
    requires Sub(a, b) && Sub(c, d)
    ensures Sub(a + c, b + d)
    decreases |b|
  {
    if a == [] {
      assert a + c == c;
      SubPrepend(b, c, d);
    } else {
      assert (b + d)[1..] == b[1..] + d;
      assert (a + c)[1..] == a[1..] + c;
      if a[0] == b[0] && Sub(a[1..], b[1..]) {
        SubCat(a[1..], b[1..], c, d);
      } else {
        SubCat(a, b[1..], c, d);
      }
    }
  }

  /** Narrowing one stretch of a list narrows the list. */
  lemma SubMiddle<T>(x: seq<T>, a: seq<T>, b: seq<T>, y: seq<T>)
    requires Sub(a, b)
    ensures Sub(x + a + y, x + b + y)
  {
    SubRefl(x);
    SubRefl(y);
    SubCat(x, x, a, b);
    SubCat(x + a, x + b, y, y);
  }

  lemma {:induction false} SubMultiset<T>(a: seq<T>, b: seq<T>)
    requires Sub(a, b)
    ensures multiset(a) <= multiset(b) && |a| <= |b|
    decreases |b|
  {
    if a != [] {
      assert b == [b[0]] + b[1..];
      if a[0] == b[0] && Sub(a[1..], b[1..]) {
        SubMultiset(a[1..], b[1..]);
        assert a == [a[0]] + a[1..];
      } else {
        SubMultiset(a, b[1..]);
      }
    }
  }

  /** The only subsequence of full length is the list itself. */
  lemma {:induction false} SubFull<T>(a: seq<T>, b: seq<T>)
    requires Sub(a, b) && |a| == |b|
    ensures a == b
    decreases |b|
  {
    if a != [] {
      if a[0] == b[0] && Sub(a[1..], b[1..]) {
        SubFull(a[1..], b[1..]);
      } else {
        SubMultiset(a, b[1..]);
        assert false;
      }
    }
  }

  lemma SubUnique<T>(a: seq<T>, b: seq<T>)
    requires Sub(a, b) && Unique(b)
    ensures Unique(a)
  {
    SubMultiset(a, b);
    forall x | x in a
      ensures multiset(a)[x] == 1
    {
      assert x in multiset(a);
      assert multiset(a)[x] <= multiset(b)[x];
      assert x in b;
    }
  }

  /** `s` without any occurrence of `x`. */
  function Without<T(==)>(s: seq<T>, x: T): (r: seq<T>)
  {
    if s == [] then []
    else if s[|s| - 1] == x then Without(s[..|s| - 1], x)
    else Without(s[..|s| - 1], x) + [s[|s| - 1]]
  }

  lemma {:induction false} WithoutSub<T>(s: seq<T>, x: T)
    ensures Sub(Without(s, x), s)
  {
    if s != [] {
      var n := |s| - 1;
      WithoutSub(s[..n], x);
      assert s == s[..n] + [s[n]];
      if s[n] == x {
        SubWiden(Without(s[..n], x), s[..n], [x]);
      } else {
        SubRefl([s[n]]);
        SubCat(Without(s[..n], x), s[..n], [s[n]], [s[n]]);
      }
    }
  }

  lemma {:induction false} WithoutCounts<T>(s: seq<T>, x: T)
    ensures multiset(Without(s, x)) == multiset(s)[x := 0]
  {
    if s != [] {
      var n := |s| - 1;
      WithoutCounts(s[..n], x);
      assert s == s[..n] + [s[n]];
      assert multiset(s) == multiset(s[..n]) + multiset{s[n]};
    }
  }

  lemma {:induction false} WithoutAbsent<T>(s: seq<T>, x: T)
    requires x !in s
    ensures Without(s, x) == s
  {
    if s != [] {
      var n := |s| - 1;
      WithoutAbsent(s[..n], x);
      assert s == s[..n] + [s[n]];
    }
  }

  lemma WithoutFilters<T>(s: seq<T>, x: T)
    ensures Sub(Without(s, x), s)
    ensures forall y :: y in Without(s, x) <==> y in s && y != x
    ensures multiset(Without(s, x)) == multiset(s)[x := 0]
    ensures x !in s ==> Without(s, x) == s
  {
    WithoutSub(s, x);
    WithoutCounts(s, x);
    forall y
      ensures y in Without(s, x) <==> y in s && y != x
    {
      assert y in Without(s, x) <==> y in multiset(Without(s, x));
      assert y in s <==> y in multiset(s);
    }
    if x !in s { WithoutAbsent(s, x); }
  }

  lemma {:induction false} SubWiden<T>(a: seq<T>, b: seq<T>, c: seq<T>)
    requires Sub(a, b)
    ensures Sub(a, b + c)
  {
    assert Sub<T>([], c);
    SubCat(a, b, [], c);
    assert a + [] == a;
  }

  /** Every id of the stack of slices, in the order in which the slices are
      popped: the last slice first. */
  function Upcoming<T>(p: seq<seq<T>>): (r: seq<T>)
  {
    if p == [] then [] else p[|p| - 1] + Upcoming(p[..|p| - 1])
  }

  /** The same ids read from the bottom of the stack. */
  function Concat<T>(p: seq<seq<T>>): (r: seq<T>)
  {
    if p == [] then [] else Concat(p[..|p| - 1]) + p[|p| - 1]
  }

  lemma {:induction false} ConcatIsUpcoming<T>(p: seq<seq<T>>)
    ensures multiset(Concat(p)) == multiset(Upcoming(p))
  {
    if p != [] {
      ConcatIsUpcoming(p[..|p| - 1]);
    }
  }

  /** Of two stacks put on top of each other the upper one pops first, */
  lemma {:induction false} UpcomingCat<T>(p: seq<seq<T>>, q: seq<seq<T>>)
    ensures Upcoming(p + q) == Upcoming(q) + Upcoming(p)
    decreases |q|
  {
    if q == [] {
      assert p + q == p;
    } else {
      var n := |q| - 1;
      UpcomingCat(p, q[..n]);
      assert (p + q)[..|p + q| - 1] == p + q[..n];
    }
  }

  /** and from the bottom the lower one is read first. */
  lemma {:induction false} ConcatCat<T>(p: seq<seq<T>>, q: seq<seq<T>>)
    ensures Concat(p + q) == Concat(p) + Concat(q)
    decreases |q|
  {
    if q == [] {
      assert p + q == p;
    } else {
      var n := |q| - 1;
      ConcatCat(p, q[..n]);
      assert (p + q)[..|p + q| - 1] == p + q[..n];
    }
  }

  lemma OneSlice<T>(s: seq<T>)
    ensures Upcoming([s]) == s && Concat([s]) == s
  {
    assert s + [] == s;
  }

  lemma UpcomingPush<T>(p: seq<seq<T>>, s: seq<T>)
    ensures Upcoming(p + [s]) == s + Upcoming(p)
  {
  }

  /** What is left of a stack once `x` is gone: each slice without it, and no
      empty slice. */
  function Trim<T(==)>(p: seq<seq<T>>, x: T): (r: seq<seq<T>>)
  {
    if p == [] then []
    else
      var rest := Trim(p[..|p| - 1], x);
      var top := Without(p[|p| - 1], x);
      if top == [] then rest else rest + [top]
  }

  /** Each slice is trimmed by itself, and where it was. */
  lemma {:induction false} TrimCat<T>(p: seq<seq<T>>, q: seq<seq<T>>, x: T)
    ensures Trim(p + q, x) == Trim(p, x) + Trim(q, x)
    decreases |q|
  {
    if q == [] {
      assert p + q == p;
    } else {
      var n := |q| - 1;
      TrimCat(p, q[..n], x);
      assert (p + q)[..|p + q| - 1] == p + q[..n];
    }
  }

  lemma TrimOne<T>(s: seq<T>, x: T)
    ensures Trim([s], x) == if forall y :: y in s ==> y == x then [] else [Without(s, x)]
  {
    WithoutFilters(s, x);
    var top := Without(s, x);
    assert Trim([s], x) == if top == [] then [] else [top];
    assert top != [] <==> exists y :: y in s && y != x by {
      if top != [] {
        var y := top[0];
        assert y in multiset(top);
        assert y in s && y != x;
      }
      if y :| y in s && y != x { assert y in top; }
    }
  }

  lemma {:induction false} TrimIsWithout<T>(p: seq<seq<T>>, x: T)
    ensures Upcoming(Trim(p, x)) == Without(Upcoming(p), x)
  {
    if p != [] {
      var n := |p| - 1;
      var top := Without(p[n], x);
      TrimIsWithout(p[..n], x);
      WithoutCat(p[n], Upcoming(p[..n]), x);
      UpcomingPush(Trim(p[..n], x), top);
    }
  }

  lemma {:induction false} TrimSlices<T>(p: seq<seq<T>>, x: T)
    ensures forall s :: s in Trim(p, x) ==> s != [] && x !in s
  {
    if p != [] {
      TrimSlices(p[..|p| - 1], x);
      WithoutFilters(p[|p| - 1], x);
    }
  }

  lemma {:induction false} TrimAbsent<T>(p: seq<seq<T>>, x: T)
    requires x !in Upcoming(p) && [] !in p
    ensures Trim(p, x) == p
  {
    if p != [] {
      var n := |p| - 1;
      assert p[n] in p;
      assert forall s :: s in p[..n] ==> s in p;
      TrimAbsent(p[..n], x);
      WithoutAbsent(p[n], x);
      assert p == p[..n] + [p[n]];
    }
  }

  lemma TrimUpcoming<T>(p: seq<seq<T>>, x: T)
    ensures Upcoming(Trim(p, x)) == Without(Upcoming(p), x)
    ensures forall s :: s in Trim(p, x) ==> s != [] && x !in s
    ensures x !in Upcoming(p) && [] !in p ==> Trim(p, x) == p
  {
    TrimIsWithout(p, x);
    TrimSlices(p, x);
    if x !in Upcoming(p) && [] !in p { TrimAbsent(p, x); }
  }

  lemma {:induction false} WithoutCat<T>(a: seq<T>, b: seq<T>, x: T)
    ensures Without(a + b, x) == Without(a, x) + Without(b, x)
    decreases |b|
  {
    if b == [] {
      assert a + b == a;
    } else {
      var n := |b| - 1;
      WithoutCat(a, b[..n], x);
      assert (a + b)[..|a + b| - 1] == a + b[..n];
    }
  }
}
