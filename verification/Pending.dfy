/** The pending stack as the program holds it in memory: a slice of slices that
    `drop` compacts in place, over its own backing arrays. */
module Pending {
  import opened Lists
  import opened Model

  /** A Go slice: the first `len` elements of a backing array. */
  datatype Slice = Slice(data: array<Id>, len: nat)

  function Elements(s: Slice): (r: seq<Id>)
    requires s.len <= s.data.Length
    reads s.data
  {
    s.data[..s.len]
  }

  /** slices.DeleteFunc with equality to `x`: what stays moves to the front of
      the same backing array, the rest of the old length is cleared. */
  method DeleteFunc(s: Slice, x: Id) returns (r: Slice)
    requires s.len <= s.data.Length
    modifies s.data
    ensures r.data == s.data && r.len <= s.len
    ensures Elements(r) == Without(old(Elements(s)), x)
    ensures forall k :: r.len <= k < s.len ==> s.data[k] == 0
    ensures s.data[s.len..] == old(s.data[s.len..])
  {
    var i := 0;
    ghost var was := Elements(s);
    for j := 0 to s.len
      invariant i <= j
      invariant s.data[..i] == Without(was[..j], x)
      invariant s.data[j..] == old(s.data[j..])
    {
      assert was[..j + 1][..j] == was[..j];
      assert s.data[j..][0] == old(s.data[j..])[0];
      assert was[j] == s.data[j];
      ghost var rest := s.data[j + 1..];
      assert rest == s.data[j..][1..] && old(s.data[j + 1..]) == old(s.data[j..])[1..];
      if s.data[j] != x {
        s.data[i] := s.data[j];
        i := i + 1;
      }
      assert s.data[j + 1..] == rest;
    }
    assert was[..s.len] == was;
    for k := i to s.len
      invariant forall m :: i <= m < k ==> s.data[m] == 0
      invariant s.data[..i] == Without(was, x)
      invariant s.data[s.len..] == old(s.data[s.len..])
    {
      s.data[k] := 0;
    }
    r := Slice(s.data, i);
  }

  /** Inner slices within bounds, no two sharing a backing array. */
  ghost predicate Separate(ss: seq<Slice>) {
    && (forall i :: 0 <= i < |ss| ==> ss[i].len <= ss[i].data.Length)
    && (forall i, j :: 0 <= i < j < |ss| ==> ss[i].data != ss[j].data)
  }

  ghost function Backing(ss: seq<Slice>): set<array<Id>> { set s | s in ss :: s.data }

  ghost function Values(ss: seq<Slice>): (r: seq<seq<Id>>)
    requires forall i :: 0 <= i < |ss| ==> ss[i].len <= ss[i].data.Length
    reads Backing(ss)
    ensures |r| == |ss|
  {
    if ss == [] then [] else Values(ss[..|ss| - 1]) + [Elements(ss[|ss| - 1])]
  }

  lemma {:induction false} ValuesAt(ss: seq<Slice>, i: nat)
    requires forall i :: 0 <= i < |ss| ==> ss[i].len <= ss[i].data.Length
    requires i < |ss|
    ensures Values(ss)[i] == Elements(ss[i])
  {
    if i < |ss| - 1 { ValuesAt(ss[..|ss| - 1], i); }
  }

  /** The first `n` slots of `p` hold `values`, over backing arrays of `was`, in
      order; `from` says which of the first `i`. */
  ghost predicate Holds(p: array<Slice>, n: nat, i: nat, was: seq<Slice>, from: seq<nat>, values: seq<seq<Id>>)
    reads p, Backing(was)
  {
    && n <= i <= |was| == p.Length && |from| == |values| == n
    && (forall k :: 0 <= k < n ==> from[k] < i)
    && (forall k, m :: 0 <= k < m < n ==> from[k] < from[m])
    && (forall k :: 0 <= k < n ==> was[from[k]] in was && Slot(p[k], was[from[k]].data, values[k]))
  }

  /** The slice lies at the start of the array and holds the value. */
  ghost predicate Slot(s: Slice, data: array<Id>, value: seq<Id>)
    reads data
  {
    s.data == data && s.len <= data.Length && data[..s.len] == value
  }

  lemma HoldsValues(p: array<Slice>, n: nat, was: seq<Slice>, from: seq<nat>, values: seq<seq<Id>>)
    requires Separate(was) && Holds(p, n, |was|, was, from, values)
    ensures Separate(p[..n]) && Backing(p[..n]) <= Backing(was) && Values(p[..n]) == values
  {
    var ss := p[..n];
    forall k | 0 <= k < n
      ensures Values(ss)[k] == values[k] && ss[k].data in Backing(was)
    {
      assert Slot(p[k], was[from[k]].data, values[k]);
      ValuesAt(ss, k);
    }
  }

  /** From slot `i` on nothing has been touched yet. */
  ghost predicate Untouched(p: array<Slice>, i: nat, was: seq<Slice>, values: seq<seq<Id>>)
    reads p, Backing(was)
  {
    && p.Length == |was| == |values|
    && forall k :: i <= k < p.Length ==> p[k] == was[k] && was[k] in was && Slot(was[k], was[k].data, values[k])
  }

  lemma TrimMore(values: seq<seq<Id>>, i: nat, id: Id)
    requires i < |values|
    ensures var rest, top := Trim(values[..i], id), Without(values[i], id);
            Trim(values[..i + 1], id) == if top == [] then rest else rest + [top]
  {
    assert values[..i + 1][..i] == values[..i];
  }

  /** Shrinking slice `i` in place leaves the finished slots and the later
      slices alone. */
  method Shrink(p: array<Slice>, i: nat, n: nat, id: Id, ghost was: seq<Slice>, ghost values: seq<seq<Id>>,
                ghost from: seq<nat>, ghost out: seq<seq<Id>>)
    returns (t: Slice)
    requires n <= i < p.Length && Separate(was)
    requires Untouched(p, i, was, values) && Holds(p, n, i, was, from, out)
    modifies was[i].data
    ensures Untouched(p, i + 1, was, values) && Holds(p, n, i, was, from, out)
    ensures Slot(t, was[i].data, Without(values[i], id))
  {
    assert Slot(was[i], was[i].data, values[i]);
    t := DeleteFunc(p[i], id);
    forall k | 0 <= k < n
      ensures Slot(p[k], was[from[k]].data, out[k])
    {
      assert old(Slot(p[k], was[from[k]].data, out[k]));
    }
    forall k | i < k < p.Length
      ensures Slot(was[k], was[k].data, values[k])
    {
      assert old(Slot(was[k], was[k].data, values[k]));
    }
  }

  /** Appending to the result overwrites a slot that has been read already. */
  method Keep(p: array<Slice>, i: nat, n: nat, t: Slice, ghost was: seq<Slice>, ghost values: seq<seq<Id>>,
              ghost from: seq<nat>, ghost out: seq<seq<Id>>, ghost value: seq<Id>)
    requires n <= i < p.Length
    requires Untouched(p, i + 1, was, values) && Holds(p, n, i, was, from, out)
    requires was[i] in was && Slot(t, was[i].data, value)
    modifies p
    ensures Untouched(p, i + 1, was, values)
    ensures Holds(p, n + 1, i + 1, was, from + [i], out + [value])
  {
    p[n] := t;
    forall k | 0 <= k < n
      ensures from[k] < i && Slot(p[k], was[from[k]].data, out[k])
    {
      assert old(Slot(p[k], was[from[k]].data, out[k]));
    }
    assert Slot(p[n], was[i].data, value);
  }

  /** One slice of the loop below: shrink it, and keep it unless it is empty. */
  method CompactOne(p: array<Slice>, i: nat, n: nat, id: Id, ghost was: seq<Slice>, ghost values: seq<seq<Id>>,
                    ghost from: seq<nat>, ghost out: seq<seq<Id>>)
    returns (n': nat, ghost from': seq<nat>, ghost out': seq<seq<Id>>)
    requires i < p.Length && Separate(was)
    requires Untouched(p, i, was, values) && Holds(p, n, i, was, from, out)
    modifies p, was[i].data
    ensures Untouched(p, i + 1, was, values) && Holds(p, n', i + 1, was, from', out')
    ensures var top := Without(values[i], id); out' == if top == [] then out else out + [top]
  {
    ghost var top := Without(values[i], id);
    var t := Shrink(p, i, n, id, was, values, from, out);
    n', from', out' := n, from, out;
    if t.len > 0 {
      Keep(p, i, n, t, was, values, from, out, top);
      n', from', out' := n + 1, from + [i], out + [top];
    }
  }

  /** The loop of pendingStack.drop: the results overwrite the front of the
      stack while its inner slices shrink in place. */
  method Compact(p: array<Slice>, id: Id, ghost was: seq<Slice>, ghost values: seq<seq<Id>>)
    returns (n: nat, ghost from: seq<nat>)
    requires Separate(was) && Untouched(p, 0, was, values)
    modifies p, Backing(was)
    ensures Holds(p, n, p.Length, was, from, Trim(values, id))
  {
    n, from := 0, [];
    ghost var out := [];
    for i := 0 to p.Length
      invariant Untouched(p, i, was, values)
      invariant Holds(p, n, i, was, from, out)
      invariant out == Trim(values[..i], id)
    {
      assert was[i] in was;
      TrimMore(values, i, id);
      n, from, out := CompactOne(p, i, n, id, was, values, from, out);
    }
    assert values[..p.Length] == values;
  }

  /** pendingStack.drop leaves the stack without the id and without empty slices. */
  method Drop(p: array<Slice>, id: Id) returns (n: nat)
    requires Separate(p[..])
    modifies p, Backing(p[..])
    ensures n <= p.Length && Separate(p[..n])
    ensures Backing(p[..n]) <= old(Backing(p[..]))
    ensures Values(p[..n]) == Trim(old(Values(p[..])), id)
  {
    ghost var was, values := p[..], Values(p[..]);
    forall k | 0 <= k < |was| ensures Elements(was[k]) == values[k] { ValuesAt(was, k); }
    ghost var from;
    assert forall k :: 0 <= k < |was| ==> was[k] in was;
    n, from := Compact(p, id, was, values);
    HoldsValues(p, n, was, from, Trim(values, id));
  }

  // ----- from the stored row and back ---------------------------------------

  lemma {:induction false} ValuesFrom(ss: seq<Slice>, values: seq<seq<Id>>)
    requires |ss| == |values|
    requires forall k :: 0 <= k < |ss| ==> Slot(ss[k], ss[k].data, values[k]) && ss[k].len <= ss[k].data.Length
    ensures Values(ss) == values
  {
    forall k | 0 <= k < |ss|
      ensures Values(ss)[k] == values[k]
    {
      assert Slot(ss[k], ss[k].data, values[k]);
      ValuesAt(ss, k);
    }
  }

  /** loadPending: every slice gets a backing array of its own. */
  method Load(raw: seq<seq<Id>>) returns (p: array<Slice>)
    ensures fresh(p) && fresh(Backing(p[..])) && Separate(p[..])
    ensures Values(p[..]) == raw
  {
    var none := new Id[0];
    p := new Slice[|raw|](_ => Slice(none, 0));
    for i := 0 to |raw|
      invariant fresh(p) && p.Length == |raw|
      invariant forall k :: 0 <= k < i ==> fresh(p[k].data) && Slot(p[k], p[k].data, raw[k])
      invariant forall k, m :: 0 <= k < m < i ==> p[k].data != p[m].data
    {
      var data := new Id[|raw[i]|](k requires 0 <= k < |raw[i]| => raw[i][k]);
      assert data[..] == raw[i];
      p[i] := Slice(data, |raw[i]|);
      assert Slot(p[i], data, raw[i]);
    }
    ValuesFrom(p[..], raw);
  }

  /** pendingStack.bytes: the value that is written to the row. */
  method Bytes(p: array<Slice>, n: nat) returns (raw: seq<seq<Id>>)
    requires n <= p.Length && Separate(p[..n])
    ensures raw == Values(p[..n])
  {
    raw := [];
    for i := 0 to n
      invariant |raw| == i
      invariant forall k :: 0 <= k < i ==> raw[k] == Values(p[..n])[k]
    {
      ValuesAt(p[..n], i);
      raw := raw + [p[i].data[..p[i].len]];
    }
  }

  /** What OnMemberRemoved does to the stored stack. */
  method Remove(raw: seq<seq<Id>>, id: Id) returns (r: seq<seq<Id>>)
    ensures r == Trim(raw, id)
  {
    var p := Load(raw);
    var n := Drop(p, id);
    r := Bytes(p, n);
  }

  /** What OnMemberRemoved does to the members under test. */
  method Delete(ids: seq<Id>, id: Id) returns (r: seq<Id>)
    ensures r == Without(ids, id)
  {
    var data := new Id[|ids|](k requires 0 <= k < |ids| => ids[k]);
    assert data[..] == ids;
    assert Elements(Slice(data, |ids|)) == ids;
    var s := DeleteFunc(Slice(data, |ids|), id);
    r := data[..s.len];
  }
}
