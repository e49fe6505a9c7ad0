/**
 * The data the legacy charts are drawn from: the reasons read back from the
 * cancellation file, the split of the frame into alerts and user requests,
 * the alert-type by priority-level table, the colour of each level and the
 * list of P1 alerts. The drawing itself is not modelled.
 */
module LegacyVisualization {
  import opened Wrappers
  import opened Text
  import opened Seqs
  import opened Counting
  import opened LegacyFrame
  import opened LegacyClassification
  import opened LegacyMain

  // ----- the cancellation reasons file, read back -----

  /** The field texts `read_csv` reads as NaN by default. */
  const NA_STRINGS: set<string> := {
    "", "#N/A", "#N/A N/A", "#NA", "-1.#IND", "-1.#QNAN", "-NaN", "-nan", "1.#IND", "1.#QNAN",
    "<NA>", "N/A", "NA", "NULL", "NaN", "None", "n/a", "nan", "null"}

  function ParseField(f: string): Cell {
    if f in NA_STRINGS then Null else Text(f)
  }

  /** A frame read from a delimited file: its column names and its rows of cells. */
  datatype Table = Table(columns: seq<string>, rows: seq<seq<Cell>>)

  /** One data line; a line with fewer fields than the header is padded with NaN. */
  function ParseRow(fields: seq<string>, width: nat): (cells: seq<Cell>)
    requires |fields| <= width
    ensures |cells| == width
    ensures forall j :: 0 <= j < |fields| ==> cells[j] == ParseField(fields[j])
    ensures forall j :: |fields| <= j < width ==> cells[j] == Null
  {
    seq(width, j requires 0 <= j < width => if j < |fields| then ParseField(fields[j]) else Null)
  }

  /**
   * A line the python engine of `read_csv` keeps: one with more than one
   * field, or whose single field is not whitespace only. Empty lines and
   * whitespace-only lines are skipped, before the header as after it.
   */
  predicate NonBlank(line: string) {
    |Split(line, '\t')| > 1 || Strip(line) != ""
  }

  /** The empty line, and so the empty piece after the last newline, is skipped. */
  lemma EmptyLineIsBlank()
    ensures !NonBlank("")
  {
    assert Split("", '\t') == [""];
    assert Strip("") == "";
  }

  /**
   * `pd.read_csv(file, sep='\t', engine='python')` on the text of a file:
   * blank lines are skipped, the first line kept names the columns. None
   * where pandas raises: a file without any kept line, or a line with more
   * fields than the header.
   */
  function ReadTsv(text: string): Option<Table> {
    var lines := Filter(Split(text, '\n'), NonBlank);
    if lines == [] then None
    else
      var columns := Split(lines[0], '\t');
      var body := lines[1..];
      if exists k :: 0 <= k < |body| && |Split(body[k], '\t')| > |columns| then None
      else Some(Table(columns, seq(|body|, k requires 0 <= k < |body| => ParseRow(Split(body[k], '\t'), |columns|))))
  }

  /** The position of the first column named `name`, which `df[name]` reads. */
  function ColumnIndex(columns: seq<string>, name: string): (j: nat)
    requires name in columns
    ensures j < |columns| && columns[j] == name
    ensures forall k :: 0 <= k < j ==> columns[k] != name
  {
    if columns[0] == name then 0 else 1 + ColumnIndex(columns[1..], name)
  }

  /** The present cells of the Reason column: `value_counts` leaves NaN out. */
  function PresentReasons(t: Table): seq<string>
    requires "Reason" in t.columns
  {
    var j := ColumnIndex(t.columns, "Reason");
    var cells := Map(t.rows, (row: seq<Cell>) => if j < |row| then row[j] else Null);
    Map(Filter(cells, (c: Cell) => c.Text?), StrOf)
  }

  /** Where `plot_cancellation_reasons` stops, or the counts it draws. */
  datatype ReasonsOutcome =
    | FileMissing
    | ReadFails
    | EmptyOrMalformed
    | NoReasons
    | ReasonChart(counts: map<string, nat>)

  /**
   * `plot_cancellation_reasons`: None stands for a file that does not exist.
   * The chart shows each reason with the number of lines that give it.
   */
  function PlotCancellationReasons(file: Option<string>): (o: ReasonsOutcome)
    ensures o.ReasonChart? ==> forall r :: r in o.counts ==> o.counts[r] >= 1
  {
    if file.None? then FileMissing
    else
      match ReadTsv(file.value)
      case None => ReadFails
      case Some(t) =>
        if t.rows == [] || "Reason" !in t.columns then EmptyOrMalformed
        else
          var reasons := PresentReasons(t);
          if reasons == [] then NoReasons else ReasonChart(ValueCounts(reasons))
  }

  /** A field the tab-separated file carries unchanged: no tab and no newline in it. */
  predicate PlainField(x: string) {
    '\t' !in x && '\n' !in x
  }

  /**
   * Reading back a file written line by line gives the header's columns and
   * one parsed row per line, provided no line is blank, holds a newline or
   * has more fields than the header.
   */
  lemma {:induction false} ReadWrittenTable(header: string, body: seq<string>)
    requires NonBlank(header) && '\n' !in header
    requires forall k :: 0 <= k < |body| ==>
      NonBlank(body[k]) && '\n' !in body[k] && |Split(body[k], '\t')| <= |Split(header, '\t')|
    ensures ReadTsv(Terminated([header] + body)).Some?
    ensures var t := ReadTsv(Terminated([header] + body)).value;
      t.columns == Split(header, '\t') && |t.rows| == |body|
      && forall k :: 0 <= k < |body| ==> t.rows[k] == ParseRow(Split(body[k], '\t'), |Split(header, '\t')|)
  {
    var lines := [header] + body;
    assert Filter(Split(Terminated(lines), '\n'), NonBlank) == lines by {
      assert forall k :: 0 <= k < |lines| ==> NonBlank(lines[k]) && '\n' !in lines[k] by {
        assert forall k :: 1 <= k < |lines| ==> lines[k] == body[k - 1];
      }
      WrittenLines(lines);
    }
    assert lines[0] == header && lines[1..] == body;
  }

  /** Splitting the written text at newlines and skipping blank lines gives the lines back. */
  lemma {:induction false} WrittenLines(lines: seq<string>)
    requires forall k :: 0 <= k < |lines| ==> NonBlank(lines[k]) && '\n' !in lines[k]
    ensures Filter(Split(Terminated(lines), '\n'), NonBlank) == lines
  {
    assert Split(Terminated(lines), '\n') == lines + [""] by {
      SplitTerminated(lines);
    }
    assert Filter(lines + [""], NonBlank) == Filter(lines, NonBlank) + Filter([""], NonBlank) by {
      FilterAppend(lines, [""], NonBlank);
    }
    assert Filter(lines, NonBlank) == lines by {
      FilterAll(lines, NonBlank);
    }
    assert Filter([""], NonBlank) == [] by {
      EmptyLineIsBlank();
      FilterNone([""], NonBlank);
    }
  }

  lemma HeaderIsOneLine()
    ensures NonBlank(HEADER) && '\n' !in HEADER
  {
    assert '\n' !in HEADER by {
      assert HEADER == "Ticket ID" + "\tSummary" + "\tReason";
      assert '\n' !in "Ticket ID" && '\n' !in "\tSummary" && '\n' !in "\tReason";
    }
    HeaderFields();
    FieldsMakeNonBlank(HEADER);
  }

  /** A line with a tab holds more than one field, so it is kept. */
  lemma FieldsMakeNonBlank(line: string)
    requires |Split(line, '\t')| > 1
    ensures NonBlank(line)
  {
  }

  /** The columns of the cancellation file. */
  const CANCELLATION_COLUMNS: seq<string> := ["Ticket ID", "Summary", "Reason"]

  /** One parsed line of the cancellation file. */
  function TicketRow(e: Entry): seq<Cell> {
    [ParseField(StrOf(e.key)), ParseField(StrOf(e.summary)), Text(NO_REASON)]
  }

  lemma TicketLineParses(e: Entry)
    requires PlainField(StrOf(e.key)) && PlainField(StrOf(e.summary))
    ensures NonBlank(TicketLine(e)) && '\n' !in TicketLine(e)
    ensures |Split(TicketLine(e), '\t')| == 3 && ParseRow(Split(TicketLine(e), '\t'), 3) == TicketRow(e)
  {
    TicketLineFields(e);
    assert '\n' !in NO_REASON && |NO_REASON| == 18;
    assert forall x :: x in NA_STRINGS ==> |x| != 18;
  }

  /**
   * Reading back the text `generate_cancellation_file` writes gives its three
   * columns and, per ticket, the key and summary (as `read_csv` parses them)
   * and the placeholder reason.
   */
  lemma ReadCancellationText(tickets: seq<Entry>)
    requires forall k :: 0 <= k < |tickets| ==> PlainField(StrOf(tickets[k].key)) && PlainField(StrOf(tickets[k].summary))
    ensures ReadTsv(Terminated([HEADER] + Map(tickets, TicketLine))) ==
      Some(Table(CANCELLATION_COLUMNS, Map(tickets, TicketRow)))
  {
    var body := Map(tickets, TicketLine);
    var columns := Split(HEADER, '\t');
    assert columns == CANCELLATION_COLUMNS && |columns| == 3 by {
      HeaderFields();
    }
    assert NonBlank(HEADER) && '\n' !in HEADER by {
      HeaderIsOneLine();
    }
    forall k | 0 <= k < |body|
      ensures NonBlank(body[k]) && '\n' !in body[k] && |Split(body[k], '\t')| <= |columns|
      ensures ParseRow(Split(body[k], '\t'), |columns|) == TicketRow(tickets[k])
    {
      TicketLineParses(tickets[k]);
    }
    ReadWrittenTable(HEADER, body);
    var t := ReadTsv(Terminated([HEADER] + body)).value;
    assert t.rows == Map(tickets, TicketRow);
  }

  /** The Reason column of a table whose rows all give one reason. */
  lemma ConstantReasons(columns: seq<string>, rows: seq<seq<Cell>>, j: nat, reason: string)
    requires j < |columns| && columns[j] == "Reason" && forall k :: 0 <= k < j ==> columns[k] != "Reason"
    requires forall k :: 0 <= k < |rows| ==> j < |rows[k]| && rows[k][j] == Text(reason)
    ensures PresentReasons(Table(columns, rows)) == seq(|rows|, k => reason)
  {
    assert ColumnIndex(columns, "Reason") == j;
    var cells := Map(rows, (row: seq<Cell>) => if j < |row| then row[j] else Null);
    FilterAll(cells, (c: Cell) => c.Text?);
  }

  /** A table whose every row gives the same reason draws one bar, as tall as the table is long. */
  lemma OneReasonChart(text: string, t: Table, reason: string)
    requires ReadTsv(text) == Some(t) && t.rows != [] && "Reason" in t.columns
    requires PresentReasons(t) == seq(|t.rows|, k => reason)
    ensures PlotCancellationReasons(Some(text)) == ReasonChart(map[reason := |t.rows|])
  {
    ConstantColumnCounts(seq(|t.rows|, k => reason), reason);
  }

  lemma ReasonIsThirdColumn()
    ensures "Reason" in CANCELLATION_COLUMNS && ColumnIndex(CANCELLATION_COLUMNS, "Reason") == 2
  {
    assert CANCELLATION_COLUMNS[2] == "Reason";
  }

  /**
   * Until reasons are typed in, the chart drawn from the written file counts
   * every listed ticket under "No Reason Provided".
   */
  lemma CancellationFileChart(df: Frame)
    requires CancellationFile(df).Some?
    requires forall e :: e in CanceledTickets(Map(df, FillAssigneeRow)) ==> PlainField(StrOf(e.key)) && PlainField(StrOf(e.summary))
    ensures PlotCancellationReasons(CancellationFile(df)) ==
      ReasonChart(map[NO_REASON := |CanceledTickets(Map(df, FillAssigneeRow))|])
  {
    var tickets := CanceledTickets(Map(df, FillAssigneeRow));
    var text := Terminated([HEADER] + Map(tickets, TicketLine));
    assert CancellationFile(df) == Some(text);
    var rows := Map(tickets, TicketRow);
    assert ReadTsv(text) == Some(Table(CANCELLATION_COLUMNS, rows)) by {
      assert forall k :: 0 <= k < |tickets| ==> tickets[k] in tickets;
      ReadCancellationText(tickets);
    }
    assert PresentReasons(Table(CANCELLATION_COLUMNS, rows)) == seq(|rows|, k => NO_REASON) by {
      ReasonIsThirdColumn();
      ConstantReasons(CANCELLATION_COLUMNS, rows, 2, NO_REASON);
    }
    ReasonIsThirdColumn();
    OneReasonChart(text, Table(CANCELLATION_COLUMNS, rows), NO_REASON);
  }

  /** The lines `read_csv` keeps from a file of one line and an optional whitespace-only line. */
  lemma {:induction false} KeptLines(header: string, blank: string)
    requires '\n' !in header && '\n' !in blank && !NonBlank(blank)
    ensures Filter(Split(Terminated([header]), '\n'), NonBlank) == Filter([header], NonBlank)
    ensures Filter(Split(Terminated([header, blank]), '\n'), NonBlank) == Filter([header], NonBlank)
  {
    EmptyLineIsBlank();
    assert Split(Terminated([header]), '\n') == [header] + [""] by {
      SplitTerminated([header]);
    }
    assert Filter([header] + [""], NonBlank) == Filter([header], NonBlank) by {
      FilterAppend([header], [""], NonBlank);
      FilterNone([""], NonBlank);
    }
    assert Split(Terminated([header, blank]), '\n') == [header] + [blank, ""] by {
      SplitTerminated([header, blank]);
    }
    assert Filter([header] + [blank, ""], NonBlank) == Filter([header], NonBlank) by {
      FilterAppend([header], [blank, ""], NonBlank);
      FilterNone([blank, ""], NonBlank);
    }
  }

  /**
   * A file that does not exist, or that holds only its header, draws nothing;
   * a whitespace-only line after the header is skipped, so it adds no row,
   * and a file whose only line is whitespace cannot be read at all.
   */
  lemma ReasonGuards(header: string, blank: string)
    requires '\n' !in header && '\n' !in blank && !NonBlank(blank)
    ensures PlotCancellationReasons(None) == FileMissing
    ensures NonBlank(header) ==>
      PlotCancellationReasons(Some(Terminated([header]))) == EmptyOrMalformed
    ensures NonBlank(header) ==>
      PlotCancellationReasons(Some(Terminated([header, blank]))) == EmptyOrMalformed
    ensures !NonBlank(header) ==> PlotCancellationReasons(Some(Terminated([header]))) == ReadFails
  {
    KeptLines(header, blank);
    if NonBlank(header) {
      assert Filter([header], NonBlank) == [header];
    } else {
      assert Filter([header], NonBlank) == [] by {
        FilterNone([header], NonBlank);
      }
    }
  }

  // ----- alerts and user requests -----

  const USER_REQUEST_TYPES: seq<string> :=
    ["Team Change Request", "Change Request", "Password Reset Request", "User Provisioning Request"]

  /** `df['Alert Type'].isin(user_request_types)`: a missing type is not in the list. */
  predicate IsUserRequest(r: Row) {
    r.alertType.Text? && r.alertType.s in USER_REQUEST_TYPES
  }

  /** The rows `plot_alert_types_with_priority` draws. */
  function AlertsView(df: Frame): Frame {
    Filter(df, (r: Row) => !IsUserRequest(r))
  }

  /** The rows `plot_user_requests_by_priority` draws. */
  function UserRequestsView(df: Frame): Frame {
    Filter(df, IsUserRequest)
  }

  /** The two views split the frame: every row is drawn in exactly one of them. */
  lemma ViewsPartition(df: Frame)
    ensures multiset(AlertsView(df)) + multiset(UserRequestsView(df)) == multiset(df)
    ensures forall r :: r in UserRequestsView(df) ==> IsUserRequest(r)
    ensures forall r :: r in AlertsView(df) ==> !IsUserRequest(r)
  {
    FilterPartition(df, IsUserRequest, (r: Row) => !IsUserRequest(r));
  }

  // ----- the alert type by priority level table -----

  /** The columns the table is reindexed to, in order. */
  const LEVELS: seq<string> := ["P1", "P2", "P3", "Cancelled", "Other"]

  /** `groupby(['Alert Type', 'Priority Level']).size()` at (t, l); rows missing either are not grouped. */
  function Count(df: Frame, t: string, l: string): nat {
    if df == [] then 0
    else (if df[0].alertType == Text(t) && df[0].priorityLevel == Text(l) then 1 else 0) + Count(df[1..], t, l)
  }

  /** `alert_totals` at t: the grouped rows of type t, over every level, before the reindex. */
  function Total(df: Frame, t: string): nat {
    if df == [] then 0
    else (if df[0].alertType == Text(t) && df[0].priorityLevel.Text? then 1 else 0) + Total(df[1..], t)
  }

  /** The grouped rows of type t whose level the reindex drops. */
  function Dropped(df: Frame, t: string): nat {
    if df == [] then 0
    else
      var r := df[0];
      (if r.alertType == Text(t) && r.priorityLevel.Text? && r.priorityLevel.s !in LEVELS then 1 else 0)
      + Dropped(df[1..], t)
  }

  function Sum(xs: seq<nat>): nat {
    if xs == [] then 0 else xs[0] + Sum(xs[1..])
  }

  /** One row of the table: the count under each of the five columns, 0 where no row has the pair. */
  function LevelCounts(df: Frame, t: string): (cs: seq<nat>)
    ensures |cs| == |LEVELS|
  {
    Map(LEVELS, (l: string) => Count(df, t, l))
  }

  /** A cell is 0 exactly when no row has that type and that level. */
  lemma {:induction false} CountZero(df: Frame, t: string, l: string)
    ensures Count(df, t, l) == 0 <==>
      forall i :: 0 <= i < |df| ==> !(df[i].alertType == Text(t) && df[i].priorityLevel == Text(l))
  {
    if df != [] {
      CountZero(df[1..], t, l);
      assert forall i :: 1 <= i < |df| ==> df[i] == df[1..][i - 1];
    }
  }

  lemma SumOfFive(xs: seq<nat>)
    requires |xs| == 5
    ensures Sum(xs) == xs[0] + xs[1] + xs[2] + xs[3] + xs[4]
  {
    assert Sum(xs[4..]) == xs[4] by {
      assert xs[4..][1..] == [];
    }
    assert xs[3..][1..] == xs[4..];
    assert Sum(xs[3..]) == xs[3] + Sum(xs[4..]);
    assert xs[2..][1..] == xs[3..];
    assert Sum(xs[2..]) == xs[2] + Sum(xs[3..]);
    assert xs[1..][1..] == xs[2..];
    assert Sum(xs[1..]) == xs[1] + Sum(xs[2..]);
  }

  lemma LevelCountsSum(df: Frame, t: string)
    ensures Sum(LevelCounts(df, t)) ==
      Count(df, t, "P1") + Count(df, t, "P2") + Count(df, t, "P3") + Count(df, t, "Cancelled") + Count(df, t, "Other")
  {
    var cs := LevelCounts(df, t);
    SumOfFive(cs);
    assert LEVELS[0] == "P1" && LEVELS[1] == "P2" && LEVELS[2] == "P3" && LEVELS[3] == "Cancelled" && LEVELS[4] == "Other";
  }

  /**
   * What a bar shows and what orders the bars differ: the five drawn counts
   * plus the rows whose level was dropped make up the row total.
   */
  lemma {:induction false} DrawnPlusDroppedIsTotal(df: Frame, t: string)
    ensures Sum(LevelCounts(df, t)) + Dropped(df, t) == Total(df, t)
  {
    LevelCountsSum(df, t);
    FiveCountsPlusDropped(df, t);
  }

  lemma {:induction false} FiveCountsPlusDropped(df: Frame, t: string)
    ensures Count(df, t, "P1") + Count(df, t, "P2") + Count(df, t, "P3") + Count(df, t, "Cancelled")
      + Count(df, t, "Other") + Dropped(df, t) == Total(df, t)
  {
    if df != [] {
      FiveCountsPlusDropped(df[1..], t);
    }
  }

  /** The alert types that form a group, each once, in an order `SortByTotal` then fixes. */
  function GroupTypes(df: Frame): (ts: seq<string>)
    ensures forall t :: multiset(ts)[t] == if Total(df, t) > 0 then 1 else 0
  {
    if df == [] then []
    else
      var ts := GroupTypes(df[1..]);
      var r := df[0];
      if r.alertType.Text? && r.priorityLevel.Text? && r.alertType.s !in ts then [r.alertType.s] + ts else ts
  }

  /** Totals do not increase along `ts`. */
  predicate ByTotal(df: Frame, ts: seq<string>) {
    forall i, j :: 0 <= i < j < |ts| ==> Total(df, ts[i]) >= Total(df, ts[j])
  }

  /** `alert_totals.sort_values(ascending=False)`. */
  function SortByTotal(df: Frame, ts: seq<string>): seq<string> {
    SortDescending(ts, (t: string) => Total(df, t))
  }

  /** The sorted types are the same types, each as often, in order of non-increasing total. */
  lemma SortByTotalSorted(df: Frame, ts: seq<string>)
    ensures multiset(SortByTotal(df, ts)) == multiset(ts)
    ensures ByTotal(df, SortByTotal(df, ts))
  {
    SortDescendingSorted(ts, (t: string) => Total(df, t));
  }

  /** The table drawn: one row per alert type, the five level columns. */
  datatype CrossTab = CrossTab(types: seq<string>, cells: seq<seq<nat>>)

  /** The table `_plot_alerts_by_priority` draws from the rows it is given. */
  function PriorityCrossTab(df: Frame): (x: CrossTab)
    ensures forall t :: multiset(x.types)[t] == if Total(df, t) > 0 then 1 else 0
    ensures ByTotal(df, x.types)
    ensures |x.cells| == |x.types|
    ensures forall i :: 0 <= i < |x.types| ==>
      (|x.cells[i]| == |LEVELS| && forall j :: 0 <= j < |LEVELS| ==> x.cells[i][j] == Count(df, x.types[i], LEVELS[j]))
  {
    var types := SortByTotal(df, GroupTypes(df));
    SortByTotalSorted(df, GroupTypes(df));
    CrossTab(types, Map(types, (t: string) => LevelCounts(df, t)))
  }

  /**
   * Levels outside the five columns ("P4", "Unknown" and unmapped
   * priorities) are dropped from the table although they count in the total
   * that orders it.
   */
  lemma LowAndUnknownAreDropped(r: Row)
    requires !IsCancelledStatus(r.status)
    requires MappedLevel(r.priority) in {"P4", "Unknown"}
    ensures PriorityLevel(r) !in LEVELS
  {
  }

  // ----- colours -----

  const PRIORITY_COLORS: map<string, string> :=
    map["P1" := "#E74C3C", "P2" := "#E67E22", "P3" := "#F1C40F", "Cancelled" := "#3498DB", "Other" := "#95A5A6"]

  const FALLBACK_COLOR := "#95A5A6"

  /** `priority_colors.get(label, '#95A5A6')`. */
  function ColorFor(level: string): string {
    if level in PRIORITY_COLORS then PRIORITY_COLORS[level] else FALLBACK_COLOR
  }

  /** The pie's colours, one per label in the order of the counts. */
  function PieColors(labels: seq<string>): (cs: seq<string>)
    ensures |cs| == |labels|
    ensures forall i :: 0 <= i < |labels| ==> cs[i] == ColorFor(labels[i])
  {
    Map(labels, ColorFor)
  }

  /** The bars' colours: each of the five columns gets its own colour from the table. */
  lemma BarColors()
    ensures Map(LEVELS, ColorFor) == ["#E74C3C", "#E67E22", "#F1C40F", "#3498DB", "#95A5A6"]
  {
  }

  /** Grey marks "Other" and every label the table does not know, so "P4" looks like "Other". */
  lemma GreyIsOtherOrUnknown(level: string)
    ensures ColorFor(level) == FALLBACK_COLOR <==> level == "Other" || level !in PRIORITY_COLORS
  {
  }

  // ----- P1 alerts -----

  predicate IsP1(r: Row) {
    r.priorityLevel == Text("P1")
  }

  /** `plot_p1_alerts`: the key and summary of each P1 row, in frame order; None when there is none. */
  function P1Alerts(df: Frame): Option<seq<Entry>> {
    var p1 := Project(Filter(df, IsP1));
    if p1 == [] then None else Some(p1)
  }

  /** The list is absent exactly when no row is a P1 alert. */
  lemma P1AlertsNone(df: Frame)
    ensures P1Alerts(df).None? <==> forall i :: 0 <= i < |df| ==> !IsP1(df[i])
  {
    if forall i :: 0 <= i < |df| ==> !IsP1(df[i]) {
      FilterNone(df, IsP1);
    } else {
      var i :| 0 <= i < |df| && IsP1(df[i]);
      assert df[i] in Filter(df, IsP1);
    }
  }

  /** Each listed entry is the key and summary of a P1 row, and every P1 row is listed. */
  lemma P1AlertsListed(df: Frame)
    requires P1Alerts(df).Some?
    ensures forall e :: e in P1Alerts(df).value ==> exists r :: r in df && IsP1(r) && e == Entry(r.issueKey, r.summary)
    ensures forall r :: r in df && IsP1(r) ==> Entry(r.issueKey, r.summary) in P1Alerts(df).value
  {
    ProjectedEntries(Filter(df, IsP1));
  }

  /** After `define_priority`, a row with a cancelled status is never a P1 alert, whatever its priority. */
  lemma CancelledIsNeverP1(r: Row)
    ensures IsP1(r.(priorityLevel := Text(PriorityLevel(r)))) <==>
      !IsCancelledStatus(r.status) && MappedLevel(r.priority) == "P1"
  {
  }
}
