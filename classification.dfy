/**
 * Priority classification of the report frame: every priority value is looked
 * up in the priority table, and a value the table does not know becomes
 * "Unknown". The frame's rows are rewritten in place.
 */
module Classification {
  import opened Config
  import opened Tickets

  /** One priority value after `.map(PRIORITY_MAP).fillna('Unknown')`. */
  function NormalizePriority(v: string): (r: string)
    ensures r in PRIORITY_CODES
    ensures v in PRIORITY_MAP ==> r == PRIORITY_MAP[v]
    ensures v !in PRIORITY_MAP ==> r == "Unknown"
  {
    if v in PRIORITY_MAP then PRIORITY_MAP[v] else "Unknown"
  }

  /** A normalised priority is not a key of the table, so normalising it again gives "Unknown". */
  lemma NormalizeCodeIsUnknown(v: string)
    requires v in PRIORITY_CODES
    ensures NormalizePriority(v) == "Unknown"
  {
    PriorityMapKeysAndValuesDisjoint();
  }

  /** Normalisation is not idempotent: applied twice it sends every value to "Unknown". */
  lemma NormalizeTwiceIsUnknown(v: string)
    ensures NormalizePriority(NormalizePriority(v)) == "Unknown"
    ensures NormalizePriority("Highest") == "P1" && NormalizePriority("P1") == "Unknown"
  {
    NormalizeCodeIsUnknown(NormalizePriority(v));
  }

  /** The row with its priority normalised and nothing else changed. */
  function Reclassified(r: Record): Record {
    r.(priority := NormalizePriority(r.priority))
  }

  /** The frame `classify_priorities` leaves behind: same rows, same order, priorities normalised. */
  function ClassifyFrame(df: Frame): (r: Frame)
    ensures |r| == |df|
    ensures forall i :: 0 <= i < |r| ==> r[i].priority == NormalizePriority(df[i].priority)
    ensures forall i :: 0 <= i < |r| ==> r[i].priority in PRIORITY_CODES
    ensures forall i :: 0 <= i < |r| ==> r[i] == df[i].(priority := r[i].priority)
  {
    seq(|df|, i requires 0 <= i < |df| => Reclassified(df[i]))
  }

  /** Classifying keeps the keys, so a deduplicated frame stays deduplicated. */
  lemma ClassifyKeepsKeys(df: Frame)
    ensures Keys(ClassifyFrame(df)) == Keys(df)
    ensures UniqueKeys(df) ==> UniqueKeys(ClassifyFrame(df))
  {
    var r := ClassifyFrame(df);
    forall k | k in Keys(df) ensures k in Keys(r) {
      var i :| 0 <= i < |df| && df[i].key == k;
      assert r[i].key == k;
    }
  }

  /**
   * `classify_priorities(df)`: writes the normalised priority into every row of
   * the frame it is given; an empty frame is left as it is.
   */
  method ClassifyPriorities(a: array<Record>)
    modifies a
    ensures a[..] == ClassifyFrame(old(a[..]))
  {
    var i := 0;
    while i < a.Length
      invariant 0 <= i <= a.Length
      invariant forall j :: 0 <= j < i ==> a[j] == Reclassified(old(a[j]))
      invariant forall j :: i <= j < a.Length ==> a[j] == old(a[j])
    {
      a[i] := Reclassified(a[i]);
      i := i + 1;
    }
  }
}
