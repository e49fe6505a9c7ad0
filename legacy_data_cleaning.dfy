/**
 * `clean_data` of the legacy pipeline: rows in which every cell is missing are
 * dropped, the missing Summary, Assignee and Priority cells are filled with
 * defaults, and those three columns are lower-cased and stripped.
 */
module LegacyCleaning {
  import opened Text
  import opened Seqs
  import opened LegacyFrame

  /** `.str.lower().str.strip()` on one string. */
  function NormalText(x: string): string {
    Strip(Lower(x))
  }

  /** The result holds no upper-case letter and no whitespace at either end. */
  lemma NormalTextIsNormal(x: string)
    ensures NoUpper(NormalText(x)) && IsStripped(NormalText(x))
  {
    StripLowerCommute(x);
    LowerHasNoUpper(Strip(x));
  }

  /** Lower-casing and stripping a second time changes nothing. */
  lemma NormalTextIdempotent(x: string)
    ensures NormalText(NormalText(x)) == NormalText(x)
  {
    var n := NormalText(x);
    NormalTextIsNormal(x);
    LowerOfNoUpper(n);
    StripOfStripped(n);
  }

  /** `.str.lower().str.strip()` on one cell: NaN stays NaN. */
  function NormalCell(c: Cell): Cell {
    if c.Null? then Null else Text(NormalText(c.s))
  }

  /** A row with at least one present cell: the rows `dropna(how='all')` keeps. */
  predicate HasValue(r: Row) {
    !AllNull(r)
  }

  /** The three text columns `clean_data` rewrites. */
  datatype TextColumn = SummaryColumn | AssigneeColumn | PriorityColumn {
    function Get(r: Row): Cell {
      match this
      case SummaryColumn => r.summary
      case AssigneeColumn => r.assignee
      case PriorityColumn => r.priority
    }

    function Set(r: Row, c: Cell): Row {
      match this
      case SummaryColumn => r.(summary := c)
      case AssigneeColumn => r.(assignee := c)
      case PriorityColumn => r.(priority := c)
    }
  }

  /** `df[col] = df[col].fillna(d)` on one row. */
  function Fill(r: Row, col: TextColumn, d: string): Row {
    col.Set(r, FillCell(col.Get(r), d))
  }

  /** `df[col] = df[col].str.lower().str.strip()` on one row. */
  function Normalise(r: Row, col: TextColumn): Row {
    col.Set(r, NormalCell(col.Get(r)))
  }

  /** Lines 11-13. */
  function FilledRow(r: Row): Row {
    Fill(Fill(Fill(r, SummaryColumn, ""), AssigneeColumn, "Unassigned"), PriorityColumn, "Medium")
  }

  /** Lines 16-18. */
  function NormalisedRow(r: Row): Row {
    Normalise(Normalise(Normalise(r, SummaryColumn), AssigneeColumn), PriorityColumn)
  }

  function CleanRow(r: Row): Row {
    NormalisedRow(FilledRow(r))
  }

  /** The frame `clean_data` returns. */
  function CleanFrame(df: Frame): Frame {
    Map(Filter(df, HasValue), CleanRow)
  }

  /**
   * `clean_data(df)`: `dropna` gives a new frame, into which the fills and
   * then the normalisations are written column by column.
   */
  method CleanData(df: Frame) returns (out: Frame)
    ensures out == CleanFrame(df)
  {
    var kept := Filter(df, HasValue);
    var a := new Row[|kept|](i requires 0 <= i < |kept| => kept[i]);
    UpdateAll(a, r => Fill(r, SummaryColumn, ""));
    UpdateAll(a, r => Fill(r, AssigneeColumn, "Unassigned"));
    UpdateAll(a, r => Fill(r, PriorityColumn, "Medium"));
    UpdateAll(a, r => Normalise(r, SummaryColumn));
    UpdateAll(a, r => Normalise(r, AssigneeColumn));
    UpdateAll(a, r => Normalise(r, PriorityColumn));
    out := a[..];
    assert out == Map(kept, CleanRow);
  }

  /**
   * A cleaned frame holds exactly the rows that had a value, in their order,
   * and its Summary, Assignee and Priority are present, lower-case and stripped.
   */
  lemma CleanedRows(df: Frame)
    ensures |CleanFrame(df)| == |Filter(df, HasValue)|
    ensures forall i :: 0 <= i < |CleanFrame(df)| ==> IsCleanRow(CleanFrame(df)[i])
  {
    var kept := Filter(df, HasValue);
    forall i | 0 <= i < |kept| ensures IsCleanRow(CleanFrame(df)[i]) {
      CleanRowIsClean(kept[i]);
    }
  }

  /** Summary, Assignee and Priority present, lower-case and stripped. */
  predicate IsCleanRow(r: Row) {
    HasValue(r) && r.summary.Text? && r.assignee.Text? && r.priority.Text?
    && NoUpper(r.summary.s) && IsStripped(r.summary.s)
    && NoUpper(r.assignee.s) && IsStripped(r.assignee.s)
    && NoUpper(r.priority.s) && IsStripped(r.priority.s)
  }

  lemma CleanRowIsClean(r: Row)
    ensures IsCleanRow(CleanRow(r))
  {
    NormalTextIsNormal(FillCell(r.summary, "").s);
    NormalTextIsNormal(FillCell(r.assignee, "Unassigned").s);
    NormalTextIsNormal(FillCell(r.priority, "Medium").s);
  }

  /** Dropping keeps the surviving rows in frame order: cleaning distributes over concatenation. */
  lemma CleanAppend(a: Frame, b: Frame)
    ensures CleanFrame(a + b) == CleanFrame(a) + CleanFrame(b)
  {
    FilterAppend(a, b, HasValue);
    MapAppend(Filter(a, HasValue), Filter(b, HasValue), CleanRow);
  }

  /** The defaults: missing cells end as "", "unassigned" and "medium". */
  lemma CleanRowDefaults(r: Row)
    ensures r.summary.Null? ==> CleanRow(r).summary == Text("")
    ensures r.assignee.Null? ==> CleanRow(r).assignee == Text("unassigned")
    ensures r.priority.Null? ==> CleanRow(r).priority == Text("medium")
  {
    DefaultsAreNormal();
  }

  lemma DefaultsAreNormal()
    ensures NormalText("") == "" && NormalText("Unassigned") == "unassigned" && NormalText("Medium") == "medium"
  {
    assert Lower("Unassigned") == "unassigned";
    StripOfStripped("unassigned");
    assert Lower("Medium") == "medium";
    StripOfStripped("medium");
    assert Lower("") == "";
    StripOfStripped("");
  }

  /** Present cells are lower-cased and stripped; every other column is left as it is. */
  lemma CleanRowNormalises(r: Row)
    ensures r.summary.Text? ==> CleanRow(r).summary == Text(NormalText(r.summary.s))
    ensures r.assignee.Text? ==> CleanRow(r).assignee == Text(NormalText(r.assignee.s))
    ensures r.priority.Text? ==> CleanRow(r).priority == Text(NormalText(r.priority.s))
    ensures CleanRow(r).(summary := r.summary, assignee := r.assignee, priority := r.priority) == r
  {
  }

  /** Cleaning a cleaned frame changes nothing. */
  lemma CleanDataIdempotent(df: Frame)
    ensures CleanFrame(CleanFrame(df)) == CleanFrame(df)
  {
    var c := CleanFrame(df);
    CleanedRows(df);
    FilterAll(c, HasValue);
    forall i | 0 <= i < |c| ensures CleanRow(c[i]) == c[i] {
      var kept := Filter(df, HasValue);
      NormalTextIdempotent(FillCell(kept[i].summary, "").s);
      NormalTextIdempotent(FillCell(kept[i].assignee, "Unassigned").s);
      NormalTextIdempotent(FillCell(kept[i].priority, "Medium").s);
    }
  }
}
