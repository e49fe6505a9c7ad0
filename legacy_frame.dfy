/**
 * The frame the legacy pipeline works on: the rows of a Jira CSV dump as
 * pandas loads them, where every cell is either a string or missing (NaN),
 * plus the two columns the pipeline adds, `Alert Type` and `Priority Level`.
 */
module LegacyFrame {
  import opened Seqs

  /** One cell of the dump: a string, or NaN. */
  datatype Cell = Null | Text(s: string)

  /** `str(x)` and `.astype(str)`: a missing cell reads as "nan". */
  function StrOf(c: Cell): (r: string)
    ensures c.Text? ==> r == c.s
    ensures c.Null? ==> r == "nan"
  {
    if c.Null? then "nan" else c.s
  }

  /** `.fillna(d)` on one cell. */
  function FillCell(c: Cell, d: string): (r: Cell)
    ensures r.Text?
    ensures c.Text? ==> r == c
    ensures c.Null? ==> r == Text(d)
  {
    if c.Null? then Text(d) else c
  }

  /**
   * One row. `other` holds the dump columns the pipeline never reads
   * (Created, Updated, ...). `alertType` and `priorityLevel` are Null until
   * `classify_alerts` and `define_priority` have added them.
   */
  datatype Row = Row(
    issueKey: Cell,
    summary: Cell,
    status: Cell,
    priority: Cell,
    assignee: Cell,
    other: seq<Cell>,
    alertType: Cell,
    priorityLevel: Cell)

  type Frame = seq<Row>

  /** Every column of the dump is missing in this row. */
  predicate AllNull(r: Row) {
    r.issueKey.Null? && r.summary.Null? && r.status.Null? && r.priority.Null? && r.assignee.Null?
    && forall k :: 0 <= k < |r.other| ==> r.other[k].Null?
  }

  /** The projection `[['Issue key', 'Summary']]` of one row. */
  datatype Entry = Entry(key: Cell, summary: Cell)

  function Project(df: Frame): seq<Entry> {
    seq(|df|, i requires 0 <= i < |df| => Entry(df[i].issueKey, df[i].summary))
  }

  /** The projection lists exactly the key and summary of each row. */
  lemma ProjectedEntries(df: Frame)
    ensures forall e :: e in Project(df) ==> exists r :: r in df && e == Entry(r.issueKey, r.summary)
    ensures forall r :: r in df ==> Entry(r.issueKey, r.summary) in Project(df)
  {
    forall r | r in df ensures Entry(r.issueKey, r.summary) in Project(df) {
      var i :| 0 <= i < |df| && df[i] == r;
      assert Project(df)[i] == Entry(r.issueKey, r.summary);
    }
  }

}
