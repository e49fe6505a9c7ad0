/**
 * `generate_cancellation_file` of the legacy pipeline: the tickets cancelled
 * by one of the watched assignees are listed, one tab-separated line each,
 * under a header, so that a reason can be typed in by hand later.
 */
module LegacyMain {
  import opened Wrappers
  import opened Text
  import opened Seqs
  import opened Patterns
  import opened LegacyFrame
  import opened LegacyCleaning
  import opened LegacyClassification

  /** The alternatives of the Assignee pattern; each `.` is a regular-expression wildcard. */
  const ASSIGNEE_ALTERNATIVES: seq<string> :=
    ["oleg.kolomiets.contractor", "max.ivanchenko", "arthur holubov", "unassigned"]

  const ASSIGNEE_PATTERN := WildcardAlternatives(ASSIGNEE_ALTERNATIVES)

  /** The default written into a missing Assignee before the selection. */
  const UNASSIGNED := "Unassigned"

  /** The one Status, after lower-casing, that selects a ticket. */
  const CANCELED := "canceled"

  const HEADER := "Ticket ID\tSummary\tReason"

  /** The placeholder written in the Reason column of every line. */
  const NO_REASON := "No Reason Provided"

  /** `df['Assignee'].fillna('Unassigned')` on one row. */
  function FillAssigneeRow(r: Row): Row {
    r.(assignee := FillCell(r.assignee, UNASSIGNED))
  }

  /** `df['Status'].str.lower() == 'canceled'`: a missing Status compares as False. */
  predicate IsCanceled(status: Cell) {
    status.Text? && Lower(status.s) == CANCELED
  }

  /** `df['Assignee'].str.contains(pattern, na=False)`: case-sensitive, anywhere in the text. */
  predicate AssigneeMatches(assignee: Cell) {
    assignee.Text? && Search(ASSIGNEE_PATTERN, assignee.s).Some?
  }

  /** The mask of lines 24-27. */
  predicate Selected(r: Row) {
    IsCanceled(r.status) && AssigneeMatches(r.assignee)
  }

  /** `df[mask][['Issue key', 'Summary']]`. */
  function CanceledTickets(df: Frame): seq<Entry> {
    Project(Filter(df, Selected))
  }

  /** The f-string of line 40, without its newline; a missing cell prints as "nan". */
  function TicketLine(e: Entry): string {
    StrOf(e.key) + "\t" + StrOf(e.summary) + "\t" + NO_REASON
  }

  /**
   * The lines the file receives, given the frame as the caller passes it:
   * None when nothing is selected (no file is written), otherwise the header
   * and one line per selected ticket, in frame order.
   */
  function CancellationLines(df: Frame): Option<seq<string>> {
    var tickets := CanceledTickets(Map(df, FillAssigneeRow));
    if tickets == [] then None else Some([HEADER] + Map(tickets, TicketLine))
  }

  /** The text of the file written, if one is. */
  function CancellationFile(df: Frame): Option<string> {
    match CancellationLines(df)
    case None => None
    case Some(lines) => Some(Terminated(lines))
  }

  /**
   * `generate_cancellation_file(df, output_file)`: the Assignee fill is
   * written into the caller's frame; then, unless nothing is selected, the
   * header and the ticket lines are written one after the other.
   */
  method GenerateCancellationFile(a: array<Row>) returns (file: Option<string>)
    modifies a
    ensures forall j :: 0 <= j < a.Length ==> a[j] == FillAssigneeRow(old(a[j]))
    ensures file == CancellationFile(old(a[..]))
  {
    UpdateAll(a, FillAssigneeRow);
    assert a[..] == Map(old(a[..]), FillAssigneeRow);
    var tickets := CanceledTickets(a[..]);
    if tickets == [] {
      file := None;
    } else {
      var text := WriteTickets(tickets);
      file := Some(text);
    }
  }

  /** Lines 37-40: the header, then one line per ticket, each followed by a newline. */
  method WriteTickets(tickets: seq<Entry>) returns (text: string)
    ensures text == Terminated([HEADER] + Map(tickets, TicketLine))
  {
    text := HEADER + "\n";
    assert text == Terminated([HEADER]);
    for i := 0 to |tickets|
      invariant text == Terminated([HEADER] + Map(tickets[..i], TicketLine))
    {
      var written := [HEADER] + Map(tickets[..i], TicketLine);
      TerminatedSnoc(written, TicketLine(tickets[i]));
      assert [HEADER] + Map(tickets[..i + 1], TicketLine) == written + [TicketLine(tickets[i])];
      text := text + TicketLine(tickets[i]) + "\n";
    }
    assert tickets[..|tickets|] == tickets;
  }

  // ----- the selection -----

  /** The Assignee test is a regular-expression search: some alternative, its dots matching any character, occurs in the text. */
  lemma AssigneeMatchesIff(c: Cell)
    ensures AssigneeMatches(c) <==>
      c.Text? && exists a, i :: a in ASSIGNEE_ALTERNATIVES && WildOccursAt(c.s, a, i)
  {
    if c.Text? {
      WildcardSearch(ASSIGNEE_ALTERNATIVES, c.s);
    }
  }

  /** The dots are wildcards: a name spelled with other separators still matches. */
  lemma DotsMatchAnyCharacter(x: string)
    requires x == "oleg_kolomiets_contractor"
    ensures AssigneeMatches(Text(x))
  {
    assert WildOccursAt(x, ASSIGNEE_ALTERNATIVES[0], 0);
    AssigneeMatchesIff(Text(x));
  }

  /** The search is case-sensitive: the filled default "Unassigned" matches no alternative. */
  lemma FilledDefaultDoesNotMatch(x: string)
    requires x == UNASSIGNED
    ensures !AssigneeMatches(Text(x))
  {
    AssigneeMatchesIff(Text(x));
    forall a, i | a in ASSIGNEE_ALTERNATIVES
      ensures !WildOccursAt(x, a, i)
    {
      if a == ASSIGNEE_ALTERNATIVES[3] && i == 0 {
        assert x[0] != a[0];
      }
    }
  }

  /** So a ticket whose Assignee is still missing when the file is generated is never selected. */
  lemma MissingAssigneeNotSelected(r: Row)
    requires r.assignee.Null?
    ensures !Selected(FillAssigneeRow(r))
  {
    FilledDefaultDoesNotMatch(UNASSIGNED);
  }

  /**
   * In `main`, `clean_data` runs first and turns a missing Assignee into
   * "unassigned", which the last alternative matches.
   */
  lemma CleanedMissingAssigneeMatches(r: Row)
    requires r.assignee.Null?
    ensures AssigneeMatches(CleanRow(r).assignee)
  {
    CleanRowDefaults(r);
    var x := CleanRow(r).assignee.s;
    assert WildOccursAt(x, ASSIGNEE_ALTERNATIVES[3], 0);
    AssigneeMatchesIff(CleanRow(r).assignee);
  }

  /** After `clean_data` no Assignee is missing, so the fill changes nothing. */
  lemma FillAfterCleaningChangesNothing(df: Frame)
    ensures Map(CleanFrame(df), FillAssigneeRow) == CleanFrame(df)
  {
    CleanedRows(df);
  }

  /**
   * Only "canceled" selects. Every selected ticket's status is one that
   * `define_priority` turns into the "Cancelled" level, but "cancelled",
   * "closed" and "resolved" tickets, although cancelled there, are not listed.
   */
  lemma SelectedStatusIsCancelled(r: Row)
    ensures Selected(r) ==> IsCancelledStatus(r.status) && PriorityLevel(r) == "Cancelled"
    ensures r.status.Text? && Lower(r.status.s) in CANCELLED_STATUSES - {CANCELED} ==> !Selected(r)
  {
  }

  // ----- the file -----

  /**
   * A file is written exactly when some row, after the fill, is selected; it
   * has one line per selected row after the header.
   */
  lemma CancellationLinesShape(df: Frame)
    ensures CancellationLines(df).None? <==>
      forall i :: 0 <= i < |df| ==> !Selected(FillAssigneeRow(df[i]))
    ensures CancellationLines(df).Some? ==>
      var lines := CancellationLines(df).value;
      |lines| == 1 + |Filter(Map(df, FillAssigneeRow), Selected)| && lines[0] == HEADER
  {
    var filled := Map(df, FillAssigneeRow);
    if forall i :: 0 <= i < |df| ==> !Selected(filled[i]) {
      FilterNone(filled, Selected);
    } else {
      var i :| 0 <= i < |df| && Selected(filled[i]);
      assert filled[i] in Filter(filled, Selected);
    }
  }

  /**
   * A ticket line holds three tab-separated fields: the key, the summary and
   * the placeholder reason, provided neither key nor summary holds a tab.
   */
  lemma TicketLineFields(e: Entry)
    requires '\t' !in StrOf(e.key) && '\t' !in StrOf(e.summary)
    ensures Split(TicketLine(e), '\t') == [StrOf(e.key), StrOf(e.summary), NO_REASON]
  {
    var parts := [StrOf(e.key), StrOf(e.summary), NO_REASON];
    assert '\t' !in NO_REASON;
    assert Join(parts, '\t') == TicketLine(e) by {
      assert parts[1..][1..] == [NO_REASON];
      assert Join(parts[1..], '\t') == StrOf(e.summary) + "\t" + NO_REASON;
      AppendAssoc(StrOf(e.key) + "\t", StrOf(e.summary) + "\t", NO_REASON);
    }
    SplitJoin(parts, '\t');
  }

  /** The header splits into the three column names. */
  lemma HeaderFields()
    ensures Split(HEADER, '\t') == ["Ticket ID", "Summary", "Reason"]
  {
    var parts := ["Ticket ID", "Summary", "Reason"];
    assert Join(parts, '\t') == HEADER by {
      assert parts[1..][1..] == ["Reason"];
    }
    SplitJoin(parts, '\t');
  }
}
