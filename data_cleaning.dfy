/**
 * Cleaning of the report frame: an empty frame is returned as it is, and
 * otherwise only the first row of each ticket key is kept, in frame order.
 */
module DataCleaning {
  import opened Tickets

  /** No earlier row of the frame has the key of row `i`: `duplicated()` is false there. */
  predicate IsFirstOfKey(df: Frame, i: int) {
    0 <= i < |df| && forall j :: 0 <= j < i ==> df[j].key != df[i].key
  }

  /**
   * The positions below `n` that `drop_duplicates(subset=['key'])` keeps:
   * exactly the rows no earlier row shares a key with, in increasing order.
   */
  function KeptRows(df: Frame, n: nat): (ix: seq<nat>)
    requires n <= |df|
    ensures |ix| <= n
    ensures forall k :: 0 <= k < |ix| ==> ix[k] < n
    ensures forall k, l :: 0 <= k < l < |ix| ==> ix[k] < ix[l]
  {
    if n == 0 then []
    else KeptRows(df, n - 1) + (if IsFirstOfKey(df, n - 1) then [n - 1] else [])
  }

  /** Every kept position holds the first row of its key. */
  lemma {:induction false} KeptRowsAreFirst(df: Frame, n: nat)
    requires n <= |df|
    ensures forall k :: 0 <= k < |KeptRows(df, n)| ==> IsFirstOfKey(df, KeptRows(df, n)[k])
  {
    if n > 0 {
      KeptRowsAreFirst(df, n - 1);
    }
  }

  /** Every first row of a key is kept. */
  lemma {:induction false} KeptRowsComplete(df: Frame, n: nat, i: int)
    requires n <= |df| && 0 <= i < n && IsFirstOfKey(df, i)
    ensures i in KeptRows(df, n)
  {
    if i < n - 1 {
      KeptRowsComplete(df, n - 1, i);
    }
  }

  /** `drop_duplicates(subset=['key'], ignore_index=True)`: the kept rows, renumbered. */
  function Dedup(df: Frame): Frame {
    var ix := KeptRows(df, |df|);
    seq(|ix|, k requires 0 <= k < |ix| => df[ix[k]])
  }

  /** Every row has a first row of its key at or before it. */
  lemma {:induction false} FirstOfKeyBefore(df: Frame, i: int) returns (j: int)
    requires 0 <= i < |df|
    ensures 0 <= j <= i && IsFirstOfKey(df, j) && df[j].key == df[i].key
    decreases i
  {
    if IsFirstOfKey(df, i) {
      j := i;
    } else {
      var e :| 0 <= e < i && df[e].key == df[i].key;
      j := FirstOfKeyBefore(df, e);
    }
  }

  /**
   * The deduplicated frame holds every key of the frame exactly once, in the
   * first row that key has, and never more rows than the frame.
   */
  lemma DedupKeepsKeys(df: Frame)
    ensures |Dedup(df)| <= |df|
    ensures UniqueKeys(Dedup(df))
    ensures Keys(Dedup(df)) == Keys(df)
  {
    var ix := KeptRows(df, |df|);
    var r := Dedup(df);
    KeptRowsAreFirst(df, |df|);
    forall k, l | 0 <= k < l < |r| ensures r[k].key != r[l].key {
      assert ix[k] < ix[l] && IsFirstOfKey(df, ix[l]);
    }
    forall key | key in Keys(df) ensures key in Keys(r) {
      var i :| 0 <= i < |df| && df[i].key == key;
      var j := FirstOfKeyBefore(df, i);
      KeptRowsComplete(df, |df|, j);
      var k :| 0 <= k < |ix| && ix[k] == j;
      assert r[k].key == key;
    }
  }

  /** `clean_dataframe`: an empty frame is returned unchanged, any other one is deduplicated by key. */
  function CleanDataframe(df: Frame): (r: Frame)
    ensures df == [] ==> r == []
  {
    if df == [] then df else Dedup(df)
  }

  /** When the keys are unique every row is the first of its key and all positions are kept. */
  lemma {:induction false} KeptRowsOfUnique(df: Frame, n: nat)
    requires n <= |df| && UniqueKeys(df)
    ensures |KeptRows(df, n)| == n
    ensures forall k :: 0 <= k < n ==> KeptRows(df, n)[k] == k
  {
    if n > 0 {
      KeptRowsOfUnique(df, n - 1);
      assert IsFirstOfKey(df, n - 1) by {
        forall j | 0 <= j < n - 1 ensures df[j].key != df[n - 1].key {
        }
      }
      var prev := KeptRows(df, n - 1);
      assert KeptRows(df, n) == prev + [n - 1];
      forall k | 0 <= k < n ensures KeptRows(df, n)[k] == k {
        if k < n - 1 {
          assert KeptRows(df, n)[k] == prev[k];
        }
      }
    }
  }

  /** A frame whose keys are already unique is left as it is. */
  lemma DedupOfUnique(df: Frame)
    requires UniqueKeys(df)
    ensures Dedup(df) == df
  {
    KeptRowsOfUnique(df, |df|);
    var r := Dedup(df);
    assert |r| == |df|;
    forall k | 0 <= k < |df| ensures r[k] == df[k] {
    }
  }

  /** Cleaning twice gives the same frame as cleaning once. */
  lemma CleanIdempotent(df: Frame)
    ensures CleanDataframe(CleanDataframe(df)) == CleanDataframe(df)
  {
    if df != [] {
      DedupKeepsKeys(df);
      DedupOfUnique(Dedup(df));
    }
  }

  /** Cleaning keeps every key and never adds rows; a non-empty frame stays non-empty. */
  lemma CleanKeepsKeys(df: Frame)
    ensures Keys(CleanDataframe(df)) == Keys(df)
    ensures UniqueKeys(CleanDataframe(df))
    ensures |CleanDataframe(df)| <= |df|
    ensures CleanDataframe(df) == [] <==> df == []
  {
    if df != [] {
      DedupKeepsKeys(df);
      assert df[0].key in Keys(df);
    }
  }

  /** Every row of a cleaned frame is a row of the frame it came from. */
  lemma CleanRowsComeFromFrame(df: Frame, i: int)
    requires 0 <= i < |CleanDataframe(df)|
    ensures CleanDataframe(df)[i] == df[KeptRows(df, |df|)[i]]
  {
  }
}
