/** Occurrence counts of the values in a column, as `Series.value_counts()` gives them. */
module Counting {

  /** Each distinct value of the column, with the number of rows holding it. */
  function ValueCounts(col: seq<string>): (m: map<string, nat>)
    ensures m.Keys == set i | 0 <= i < |col| :: col[i]
    ensures forall v :: v in m ==> m[v] == multiset(col)[v] && m[v] >= 1
  {
    map v | v in multiset(col) :: multiset(col)[v]
  }

  /** A non-empty column holding a single value counts every row under that value. */
  lemma {:induction false} ConstantColumnCounts(col: seq<string>, v: string)
    requires col != [] && forall i :: 0 <= i < |col| ==> col[i] == v
    ensures ValueCounts(col) == map[v := |col|]
  {
    ConstantMultiset(col, v);
    assert col[0] == v;
  }

  lemma {:induction false} ConstantMultiset(col: seq<string>, v: string)
    requires forall i :: 0 <= i < |col| ==> col[i] == v
    ensures multiset(col)[v] == |col|
    ensures forall w :: w != v ==> multiset(col)[w] == 0
  {
    if col != [] {
      assert col == col[..|col| - 1] + [col[|col| - 1]];
      ConstantMultiset(col[..|col| - 1], v);
    }
  }
}
