/**
 * Sequences as the pipelines use them: a mask keeps the elements that pass,
 * in order; a map applies one function to every element, in order; and the
 * two loops that build a list by appending and that rewrite an array in place.
 */
module Seqs {
  /** A boolean mask `df[mask]`: the rows that pass, in frame order. */
  function Filter<T>(s: seq<T>, keep: T -> bool): (r: seq<T>)
    ensures |r| <= |s|
    ensures forall i :: 0 <= i < |r| ==> r[i] in s && keep(r[i])
    ensures forall i :: 0 <= i < |s| && keep(s[i]) ==> s[i] in r
  {
    if s == [] then []
    else
      assert forall i :: 1 <= i < |s| ==> s[i] == s[1..][i - 1];
      (if keep(s[0]) then [s[0]] else []) + Filter(s[1..], keep)
  }

  /** Filtering a concatenation filters each part: the rows that pass keep their order. */
  lemma {:induction false} FilterAppend<T>(a: seq<T>, b: seq<T>, keep: T -> bool)
    ensures Filter(a + b, keep) == Filter(a, keep) + Filter(b, keep)
  {
    if a == [] {
      assert a + b == b;
    } else {
      assert (a + b)[0] == a[0] && (a + b)[1..] == a[1..] + b;
      FilterAppend(a[1..], b, keep);
    }
  }

  /** A mask and its negation split the frame: every row lands in exactly one of the two parts. */
  lemma {:induction false} FilterPartition<T>(s: seq<T>, keep: T -> bool, drop: T -> bool)
    requires forall x :: drop(x) == !keep(x)
    ensures multiset(Filter(s, keep)) + multiset(Filter(s, drop)) == multiset(s)
    ensures |Filter(s, keep)| + |Filter(s, drop)| == |s|
  {
    if s != [] {
      FilterPartition(s[1..], keep, drop);
      assert s == [s[0]] + s[1..];
    }
  }

  /** `.apply(f)` over the rows: one result per row, in frame order. */
  function Map<T, U>(s: seq<T>, f: T -> U): (r: seq<U>)
    ensures |r| == |s|
    ensures forall i :: 0 <= i < |s| ==> r[i] == f(s[i])
  {
    seq(|s|, i requires 0 <= i < |s| => f(s[i]))
  }

  lemma MapAppend<T, U>(a: seq<T>, b: seq<T>, f: T -> U)
    ensures Map(a + b, f) == Map(a, f) + Map(b, f)
  {
  }

  /** A mask every row passes keeps the frame as it is. */
  lemma {:induction false} FilterAll<T>(s: seq<T>, keep: T -> bool)
    requires forall i :: 0 <= i < |s| ==> keep(s[i])
    ensures Filter(s, keep) == s
  {
    if s != [] {
      FilterAll(s[1..], keep);
    }
  }

  /** A mask no row passes gives an empty frame. */
  lemma {:induction false} FilterNone<T>(s: seq<T>, keep: T -> bool)
    requires forall i :: 0 <= i < |s| ==> !keep(s[i])
    ensures Filter(s, keep) == []
  {
    if s != [] {
      FilterNone(s[1..], keep);
    }
  }

  lemma AppendAssoc<T>(a: seq<T>, b: seq<T>, c: seq<T>)
    ensures a + b + c == a + (b + c)
  {
  }

  /** `for x in s: out.append(f(x))`: one result per element, in order. */
  method AppendEach<T, U>(s: seq<T>, f: T -> U) returns (out: seq<U>)
    ensures out == Map(s, f)
  {
    out := [];
    for i := 0 to |s|
      invariant out == Map(s[..i], f)
    {
      assert s[..i + 1] == s[..i] + [s[i]];
      MapAppend(s[..i], [s[i]], f);
      out := out + [f(s[i])];
    }
    assert s[..|s|] == s;
  }

  /**
   * `a[col] = <expression over the element>`: every element of the array is
   * replaced, in place, by `f` of that element.
   */
  method UpdateAll<T>(a: array<T>, f: T -> T)
    modifies a
    ensures forall j :: 0 <= j < a.Length ==> a[j] == f(old(a[j]))
  {
    var i := 0;
    while i < a.Length
      invariant 0 <= i <= a.Length
      invariant forall j :: 0 <= j < i ==> a[j] == f(old(a[j]))
      invariant forall j :: i <= j < a.Length ==> a[j] == old(a[j])
    {
      a[i] := f(a[i]);
      i := i + 1;
    }
  }

  /** `a.loc[mask, col] = v` in place: the elements that satisfy `mask` are rewritten by `f`. */
  method UpdateWhere<T>(a: array<T>, mask: T -> bool, f: T -> T)
    modifies a
    ensures forall j :: 0 <= j < a.Length ==> a[j] == if mask(old(a[j])) then f(old(a[j])) else old(a[j])
  {
    var i := 0;
    while i < a.Length
      invariant 0 <= i <= a.Length
      invariant forall j :: 0 <= j < i ==> a[j] == if mask(old(a[j])) then f(old(a[j])) else old(a[j])
      invariant forall j :: i <= j < a.Length ==> a[j] == old(a[j])
    {
      if mask(a[i]) {
        a[i] := f(a[i]);
      }
      i := i + 1;
    }
  }

  /** The keys do not increase along `s`. */
  predicate Descending<T>(s: seq<T>, key: T -> int) {
    forall i, j :: 0 <= i < j < |s| ==> key(s[i]) >= key(s[j])
  }

  /** `x` placed before the first element whose key is not above its own. */
  function InsertDescending<T>(x: T, s: seq<T>, key: T -> int): seq<T> {
    if s == [] || key(x) >= key(s[0]) then [x] + s
    else [s[0]] + InsertDescending(x, s[1..], key)
  }

  /** `sort_values(ascending=False)` by `key`. */
  function SortDescending<T>(s: seq<T>, key: T -> int): seq<T> {
    if s == [] then [] else InsertDescending(s[0], SortDescending(s[1..], key), key)
  }

  lemma {:induction false} InsertDescendingElements<T>(x: T, s: seq<T>, key: T -> int)
    ensures multiset(InsertDescending(x, s, key)) == multiset(s) + multiset{x}
  {
    if s != [] && key(x) < key(s[0]) {
      InsertDescendingElements(x, s[1..], key);
      assert s == [s[0]] + s[1..];
    }
  }

  lemma {:induction false} InsertDescendingBounded<T>(x: T, s: seq<T>, key: T -> int, bound: int)
    requires key(x) <= bound && forall i :: 0 <= i < |s| ==> key(s[i]) <= bound
    ensures forall i :: 0 <= i < |InsertDescending(x, s, key)| ==> key(InsertDescending(x, s, key)[i]) <= bound
  {
    if s != [] && key(x) < key(s[0]) {
      InsertDescendingBounded(x, s[1..], key, bound);
    }
  }

  lemma {:induction false} InsertDescendingOrder<T>(x: T, s: seq<T>, key: T -> int)
    requires Descending(s, key)
    ensures Descending(InsertDescending(x, s, key), key)
  {
    if s != [] && key(x) < key(s[0]) {
      var rest := InsertDescending(x, s[1..], key);
      InsertDescendingOrder(x, s[1..], key);
      InsertDescendingBounded(x, s[1..], key, key(s[0]));
      var r := [s[0]] + rest;
      forall i, j | 0 <= i < j < |r| ensures key(r[i]) >= key(r[j]) {
        assert r[j] == rest[j - 1];
        if i > 0 {
          assert r[i] == rest[i - 1];
        }
      }
    }
  }

  /** Sorting keeps the elements, each as often, and leaves the keys non-increasing. */
  lemma {:induction false} SortDescendingSorted<T>(s: seq<T>, key: T -> int)
    ensures multiset(SortDescending(s, key)) == multiset(s)
    ensures Descending(SortDescending(s, key), key)
  {
    if s != [] {
      SortDescendingSorted(s[1..], key);
      InsertDescendingElements(s[0], SortDescending(s[1..], key), key);
      InsertDescendingOrder(s[0], SortDescending(s[1..], key), key);
      assert s == [s[0]] + s[1..];
    }
  }
}
