/**
 * The cancelled column: a row is flagged when one of the cancellation keywords
 * occurs, as a substring, in its lower-cased summary or in its lower-cased
 * status.
 */
module Cancelled {
  import opened Text
  import opened Config
  import opened Tickets

  /** `any(kw in s for kw in kws)`. */
  function AnyKeywordIn(kws: seq<string>, s: string): (b: bool)
    ensures b <==> exists k :: 0 <= k < |kws| && Contains(s, kws[k])
  {
    if kws == [] then false
    else
      assert forall k :: 1 <= k < |kws| ==> kws[k] == kws[1..][k - 1];
      Contains(s, kws[0]) || AnyKeywordIn(kws[1..], s)
  }

  /** The mask `detect_cancelled` computes for one row. */
  function CancelledMask(summary: string, status: string): (b: bool)
    ensures b <==>
      exists k :: 0 <= k < |CANCELLED_KEYWORDS|
        && (Contains(Lower(summary), CANCELLED_KEYWORDS[k]) || Contains(Lower(status), CANCELLED_KEYWORDS[k]))
  {
    AnyKeywordIn(CANCELLED_KEYWORDS, Lower(summary)) || AnyKeywordIn(CANCELLED_KEYWORDS, Lower(status))
  }

  /** Matching is by substring: words that merely contain a keyword are flagged. */
  lemma SubstringsAreFlagged()
    ensures CancelledMask("Disclosed credentials", "Open")
    ensures CancelledMask("Alert unresolved", "In Progress")
  {
    var s1 := Lower("Disclosed credentials");
    assert s1[3..9] == "closed";
    assert OccursAt(s1, CANCELLED_KEYWORDS[2], 3);
    var s2 := Lower("Alert unresolved");
    assert s2[8..16] == "resolved";
    assert OccursAt(s2, CANCELLED_KEYWORDS[1], 8);
  }

  /** Keywords are never empty, so an empty summary with an empty status is not flagged. */
  lemma EmptyTextIsNotFlagged()
    ensures !CancelledMask("", "")
  {
    CancelledKeywordsWellFormed();
    assert Lower("") == [];
    forall k | 0 <= k < |CANCELLED_KEYWORDS| ensures !Contains([], CANCELLED_KEYWORDS[k]) {
      EmptyContainsOnlyEmpty(CANCELLED_KEYWORDS[k]);
    }
  }

  /** Flagging ignores the letter case of summary and status. */
  lemma MaskIgnoresCase(summary: string, status: string)
    ensures CancelledMask(Lower(summary), Lower(status)) == CancelledMask(summary, status)
  {
    LowerIdempotent(summary);
    LowerIdempotent(status);
  }

  /**
   * `detect_cancelled(df)`: writes the mask into the `cancelled` column of the
   * frame it is given; rows and every other column are left as they are.
   */
  method DetectCancelled(a: array<Record>)
    modifies a
    ensures forall i :: 0 <= i < a.Length ==>
      a[i] == old(a[i]).(cancelled := CancelledMask(old(a[i]).summary, old(a[i]).status))
  {
    var i := 0;
    while i < a.Length
      invariant 0 <= i <= a.Length
      invariant forall j :: 0 <= j < i ==> a[j] == old(a[j]).(cancelled := CancelledMask(old(a[j]).summary, old(a[j]).status))
      invariant forall j :: i <= j < a.Length ==> a[j] == old(a[j])
    {
      a[i] := a[i].(cancelled := CancelledMask(a[i].summary, a[i].status));
      i := i + 1;
    }
  }
}
