/**
 * The Jira side of the report: searches run page by page against an abstract
 * page source, with an optional time-limited cache per query template; issues
 * become report records (defaults, extracted cluster and namespace, cancelled
 * flag), the frame is cleaned and its priorities classified; and the counts
 * behind the report (P1 tickets, priority distribution, triage ratio, weekly
 * trend) are derived from them. Times are whole seconds from an injected clock.
 */
module JiraHandler {
  import opened Wrappers
  import opened Seqs
  import opened Text
  import opened Patterns
  import opened Config
  import opened Tickets
  import opened DataCleaning
  import opened Classification
  import opened Cancelled
  import opened Counting

  // ----- extraction of cluster and namespace -----

  /**
   * `_extract_pattern(summary, key)`: capture group 1 of the leftmost match of
   * the pattern configured for `key`, and "Unknown" when no pattern is
   * configured or it does not match.
   */
  function ExtractPattern(summary: string, key: string): (r: string)
    ensures key !in EXTRACTION_PATTERNS ==> r == "Unknown"
    ensures key in EXTRACTION_PATTERNS && Search(EXTRACTION_PATTERNS[key], summary).None? ==> r == "Unknown"
    ensures r != "Unknown" ==> IsToken(r) && Contains(summary, r)
  {
    if key !in EXTRACTION_PATTERNS then "Unknown"
    else
      var m := Search(EXTRACTION_PATTERNS[key], summary);
      if m.None? then "Unknown"
      else
        PrefixedTokenCapture(EXTRACTION_PATTERNS[key].prefixes, summary);
        m.value
  }

  /** The extracted value comes from the leftmost position at which the pattern matches. */
  lemma ExtractIsLeftmost(summary: string, key: string, i: int)
    requires key in EXTRACTION_PATTERNS && IsLeftmost(EXTRACTION_PATTERNS[key], summary, i)
    ensures ExtractPattern(summary, key) == MatchAt(EXTRACTION_PATTERNS[key], summary, i).value
  {
    SearchIsLeftmost(EXTRACTION_PATTERNS[key], summary, i);
  }

  /** With no letters in it a prefix cannot be found, so an empty summary extracts "Unknown". */
  lemma ExtractFromEmptySummary(key: string)
    ensures ExtractPattern("", key) == "Unknown"
  {
    if key in EXTRACTION_PATTERNS {
      var r := Search(EXTRACTION_PATTERNS[key], "");
      if r.Some? {
        PrefixedTokenCapture(EXTRACTION_PATTERNS[key].prefixes, "");
      }
    }
  }

  /** `ns` is not anchored to a word start: inside "transactions" it is followed by "a", so the next "ns" wins. */
  lemma NamespaceFoundInsideWord()
    ensures ExtractPattern("transactions foo", "namespace") == "foo"
  {
    var s := "transactions foo";
    var p := EXTRACTION_PATTERNS["namespace"];
    assert p == PrefixedToken(["namespace", "ns"]);
    assert NoUpper(s);
    LowerOfNoUpper(s);
    forall j | 0 <= j < 10 ensures MatchAt(p, s, j).None? {
      NoNamespacePrefixBefore10(s, j);
    }
    NamespaceMatchAt10(s);
    assert IsLeftmost(p, s, 10);
    ExtractIsLeftmost(s, "namespace", 10);
  }

  lemma NoNamespacePrefixBefore10(s: string, j: int)
    requires s == "transactions foo" && 0 <= j < 10
    ensures MatchAt(PrefixedToken(["namespace", "ns"]), s, j).None?
  {
    var ps := ["namespace", "ns"];
    if j == 3 {
      NsWithoutTokenAt3(s);
    } else {
      NoPrefixAt(s, j);
    }
    assert !PrefixTokenAt(s, ps[0], j) && !PrefixTokenAt(s, ps[1], j);
    assert FirstPrefixToken(s, j, ps).None?;
  }

  /** Inside "transactions" the "ns" at 3 is followed by a letter, not a separator. */
  lemma NsWithoutTokenAt3(s: string)
    requires s == "transactions foo"
    ensures !PrefixAt(s, "namespace", 3) && TokenAfter(s, 5).None?
  {
    assert NoUpper(s);
    MismatchNotPrefix(s, "namespace", 3, 1);
    assert Run(s, 5, Separator) == 0;
  }

  lemma NoPrefixAt(s: string, j: int)
    requires s == "transactions foo" && 0 <= j < 10 && j != 3
    ensures !PrefixAt(s, "namespace", j) && !PrefixAt(s, "ns", j)
  {
    assert NoUpper(s);
    MismatchNotPrefix(s, "ns", j, 0);
    if j + 9 <= |s| {
      MismatchNotPrefix(s, "namespace", j, 0);
    }
  }

  lemma NamespaceMatchAt10(s: string)
    requires s == "transactions foo"
    ensures MatchAt(PrefixedToken(["namespace", "ns"]), s, 10) == Some("foo")
  {
    var ps := ["namespace", "ns"];
    NamespacePrefixAt10(s);
    TokenAfterAt12(s);
    assert PrefixTokenAt(s, ps[1], 10);
    assert ps[1..] == ["ns"];
    assert FirstPrefixToken(s, 10, ps[1..]) == TokenAfter(s, 12);
    assert FirstPrefixToken(s, 10, ps) == FirstPrefixToken(s, 10, ps[1..]);
  }

  lemma NamespacePrefixAt10(s: string)
    requires s == "transactions foo"
    ensures !PrefixAt(s, "namespace", 10) && PrefixAt(s, "ns", 10)
  {
    LowerOfNoUpper(s);
    LowerSlice(s, 10, 12);
    assert s[10..12] == "ns";
  }

  lemma TokenAfterAt12(s: string)
    requires s == "transactions foo"
    ensures TokenAfter(s, 12) == Some("foo")
  {
    assert Run(s, 16, TokenChar) == 0;
    assert Run(s, 13, TokenChar) == 3;
    assert Run(s, 13, Separator) == 0;
    assert Run(s, 12, Separator) == 1;
    assert RunText(s, 13, TokenChar) == "foo";
    assert TryToken(s, 12, 1) == Some("foo");
  }

  // ----- one issue becomes one record -----

  /** `any(kw in lower_summary or kw in status.lower() for kw in kws)`. */
  function AnyKeywordInEither(kws: seq<string>, a: string, b: string): bool {
    if kws == [] then false
    else Contains(a, kws[0]) || Contains(b, kws[0]) || AnyKeywordInEither(kws[1..], a, b)
  }

  lemma {:induction false} EitherIsUnionOfAny(kws: seq<string>, a: string, b: string)
    ensures AnyKeywordInEither(kws, a, b) == (AnyKeywordIn(kws, a) || AnyKeywordIn(kws, b))
  {
    if kws != [] {
      EitherIsUnionOfAny(kws[1..], a, b);
    }
  }

  /** The cancelled flag of one record. */
  function CancelledFlag(summary: string, status: string): bool {
    AnyKeywordInEither(CANCELLED_KEYWORDS, Lower(summary), Lower(status))
  }

  /** The per-record flag and the column mask of `detect_cancelled` agree on every summary and status. */
  lemma FlagAgreesWithDetectCancelled(summary: string, status: string)
    ensures CancelledFlag(summary, status) == CancelledMask(summary, status)
  {
    EitherIsUnionOfAny(CANCELLED_KEYWORDS, Lower(summary), Lower(status));
  }

  /** `PRIORITY_MAP.get(raw, raw)`. */
  function MapOrKeep(raw: string): (r: string)
    ensures raw in PRIORITY_MAP ==> r == PRIORITY_MAP[raw]
    ensures raw !in PRIORITY_MAP ==> r == raw
  {
    if raw in PRIORITY_MAP then PRIORITY_MAP[raw] else raw
  }

  /** The record `_to_dataframe` builds for one issue. */
  function BuildRecord(issue: Issue): (r: Record)
    ensures r.key == issue.key && r.created == issue.created
    ensures r.summary == issue.summary.GetOr("") && r.status == issue.status.GetOr("Unknown")
    ensures r.assignee == issue.assignee.GetOr("Unassigned")
    ensures r.priority == MapOrKeep(issue.priority.GetOr("Unassigned"))
    ensures r.priority in PRIORITY_CODES || r.priority !in PRIORITY_MAP
    ensures r.cancelled == CancelledMask(r.summary, r.status)
    ensures r.cluster == ExtractPattern(r.summary, "cluster") && r.namespace == ExtractPattern(r.summary, "namespace")
  {
    var summary := issue.summary.GetOr("");
    var status := issue.status.GetOr("Unknown");
    FlagAgreesWithDetectCancelled(summary, status);
    PriorityMapKeysAndValuesDisjoint();
    Record(
      issue.key,
      summary,
      MapOrKeep(issue.priority.GetOr("Unassigned")),
      status,
      issue.created,
      ExtractPattern(summary, "cluster"),
      ExtractPattern(summary, "namespace"),
      issue.assignee.GetOr("Unassigned"),
      CancelledFlag(summary, status))
  }

  /** Defaults for missing fields: an issue with none of them gives an empty, unflagged, "Unknown" record. */
  lemma RecordDefaults(key: string)
    ensures BuildRecord(Issue(key, None, None, None, None, None))
         == Record(key, "", "Unknown", "Unknown", None, "Unknown", "Unknown", "Unassigned", false)
  {
    ExtractFromEmptySummary("cluster");
    ExtractFromEmptySummary("namespace");
    EmptyTextIsNotFlaggedWithStatus();
  }

  /** A record without summary and with status "Unknown" is not flagged. */
  lemma EmptyTextIsNotFlaggedWithStatus()
    ensures !CancelledMask("", "Unknown")
  {
    var u := Lower("Unknown");
    assert u == "unknown";
    CancelledKeywordsWellFormed();
    assert 'c' !in u && 'r' !in u;
    MissingCharNotContained(u, "cancelled", 'c');
    MissingCharNotContained(u, "resolved", 'r');
    MissingCharNotContained(u, "closed", 'c');
    forall k | 0 <= k < |CANCELLED_KEYWORDS| ensures !Contains(Lower(""), CANCELLED_KEYWORDS[k]) {
      EmptyContainsOnlyEmpty(CANCELLED_KEYWORDS[k]);
    }
  }

  /**
   * The priority is mapped once when the record is built and again by the
   * classification, whose table has no normalised value as a key: whatever
   * the raw priority, the record ends up "Unknown".
   */
  lemma DoubleMappingGivesUnknown(raw: string)
    ensures NormalizePriority(MapOrKeep(raw)) == "Unknown"
  {
    if raw in PRIORITY_MAP {
      PriorityMapKeysAndValuesDisjoint();
      NormalizeCodeIsUnknown(MapOrKeep(raw));
    }
  }

  // ----- issues become the report frame -----

  function IssueKeys(issues: seq<Issue>): set<string> {
    set i | 0 <= i < |issues| :: issues[i].key
  }

  /** One record per issue, in issue order. */
  function Records(issues: seq<Issue>): (df: Frame)
    ensures |df| == |issues| && forall i :: 0 <= i < |issues| ==> df[i] == BuildRecord(issues[i])
  {
    Map(issues, BuildRecord)
  }

  /** The frame `_to_dataframe` returns for a batch of issues. */
  function FrameOf(issues: seq<Issue>): Frame {
    ClassifyFrame(CleanDataframe(Records(issues)))
  }

  /**
   * The report frame holds one row per distinct issue key, never more rows than
   * issues, is empty only for no issues, and has every priority "Unknown".
   */
  lemma FrameOfFacts(issues: seq<Issue>)
    ensures var df := FrameOf(issues);
      && |df| <= |issues| && (df == [] <==> issues == [])
      && UniqueKeys(df) && Keys(df) == IssueKeys(issues)
      && forall i :: 0 <= i < |df| ==> df[i].priority == "Unknown"
  {
    var records := Records(issues);
    var df := FrameOf(issues);
    CleanKeepsKeys(records);
    ClassifyKeepsKeys(CleanDataframe(records));
    RecordKeys(issues, records);
    forall i | 0 <= i < |df| ensures df[i].priority == "Unknown" {
      UnknownAfterPipeline(issues, records, i);
    }
  }

  /**
   * `_to_dataframe(issues)`: one record per issue, the first record of each key
   * kept, priorities classified. Every priority ends up "Unknown".
   */
  method ToDataFrame(issues: seq<Issue>) returns (df: Frame)
    ensures df == FrameOf(issues)
    ensures |df| <= |issues| && (df == [] <==> issues == [])
    ensures UniqueKeys(df) && Keys(df) == IssueKeys(issues)
    ensures forall i :: 0 <= i < |df| ==> df[i].priority == "Unknown"
  {
    FrameOfFacts(issues);
    var records := AppendEach(issues, BuildRecord);
    var cleaned := CleanDataframe(records);
    var a := new Record[|cleaned|](j requires 0 <= j < |cleaned| => cleaned[j]);
    assert a[..] == cleaned;
    ClassifyPriorities(a);
    df := a[..];
  }

  lemma RecordKeys(issues: seq<Issue>, records: Frame)
    requires records == Records(issues)
    ensures Keys(records) == IssueKeys(issues)
  {
    forall k | k in IssueKeys(issues) ensures k in Keys(records) {
      var i :| 0 <= i < |issues| && issues[i].key == k;
      assert records[i].key == k;
    }
  }

  lemma UnknownAfterPipeline(issues: seq<Issue>, records: Frame, i: int)
    requires records == Records(issues)
    requires 0 <= i < |ClassifyFrame(CleanDataframe(records))|
    ensures ClassifyFrame(CleanDataframe(records))[i].priority == "Unknown"
  {
    var cleaned := CleanDataframe(records);
    CleanRowsComeFromFrame(records, i);
    var k := KeptRows(records, |records|)[i];
    var raw := issues[k].priority.GetOr("Unassigned");
    DoubleMappingGivesUnknown(raw);
  }

  // ----- pagination -----

  /** What a search is for: a JQL text, or the creation window of a weekly count. */
  datatype Query = Jql(text: string) | CreatedWindow(project: string, from: int, until: int)

  /**
   * The Jira search as a pure function of query, offset and page size. The
   * server holds finitely many results: from offset `bound` on it returns none.
   */
  datatype PageSource = PageSource(search: (Query, nat, nat) -> seq<Issue>, bound: nat)

  /** `search_issues(jql_str=q, startAt=startAt, maxResults=JIRA_PAGE_SIZE)`. */
  function Page(src: PageSource, q: Query, startAt: nat): seq<Issue> {
    if startAt >= src.bound then [] else src.search(q, startAt, JIRA_PAGE_SIZE)
  }

  /**
   * The issues the paging loop collects from offset `startAt`: pages in order,
   * stopping after an empty page or one shorter than the page size.
   */
  function Collect(src: PageSource, q: Query, startAt: nat): seq<Issue>
    decreases if startAt <= src.bound then src.bound - startAt else 0
  {
    var page := Page(src, q, startAt);
    if page == [] then []
    else if |page| < JIRA_PAGE_SIZE then page
    else page + Collect(src, q, startAt + JIRA_PAGE_SIZE)
  }

  /** The paging loop of `_fetch_issues` and `get_weekly_trend`. */
  method FetchAllPages(src: PageSource, q: Query) returns (all: seq<Issue>)
    ensures all == Collect(src, q, 0)
  {
    var startAt: nat := 0;
    all := [];
    while true
      invariant all + Collect(src, q, startAt) == Collect(src, q, 0)
      decreases if startAt <= src.bound then src.bound - startAt else 0
    {
      var issues := Page(src, q, startAt);
      CollectStep(src, q, startAt);
      if issues == [] {
        assert all + [] == all;
        break;
      }
      if |issues| < JIRA_PAGE_SIZE {
        all := all + issues;
        break;
      }
      AppendAssoc(all, issues, Collect(src, q, startAt + JIRA_PAGE_SIZE));
      all := all + issues;
      startAt := startAt + JIRA_PAGE_SIZE;
    }
  }

  /** One page of the paging loop: an empty or short page ends the collection, a full one continues it. */
  lemma CollectStep(src: PageSource, q: Query, startAt: nat)
    ensures Page(src, q, startAt) == [] ==> Collect(src, q, startAt) == []
    ensures Page(src, q, startAt) != [] && |Page(src, q, startAt)| < JIRA_PAGE_SIZE
      ==> Collect(src, q, startAt) == Page(src, q, startAt)
    ensures |Page(src, q, startAt)| >= JIRA_PAGE_SIZE ==>
      startAt < src.bound
      && Collect(src, q, startAt) == Page(src, q, startAt) + Collect(src, q, startAt + JIRA_PAGE_SIZE)
  {
  }

  function Min(a: int, b: int): int {
    if a <= b then a else b
  }

  /** The server answers every offset with the matching slice of `items`, as Jira does. */
  ghost predicate ServesSlices(src: PageSource, q: Query, items: seq<Issue>) {
    forall s: nat :: Page(src, q, s) == items[Min(s, |items|)..Min(s + JIRA_PAGE_SIZE, |items|)]
  }

  /** Paging through a server that serves slices of `items` collects exactly `items`, in order. */
  lemma {:induction false} CollectGathersAll(src: PageSource, q: Query, items: seq<Issue>, s: nat)
    requires ServesSlices(src, q, items) && s <= |items|
    ensures Collect(src, q, s) == items[s..]
    decreases |items| - s
  {
    var page := Page(src, q, s);
    assert page == items[s..Min(s + JIRA_PAGE_SIZE, |items|)];
    if page == [] {
      assert s == |items|;
    } else if |page| < JIRA_PAGE_SIZE {
      assert page == items[s..];
    } else {
      assert s + JIRA_PAGE_SIZE <= |items|;
      CollectGathersAll(src, q, items, s + JIRA_PAGE_SIZE);
      assert items[s..] == page + items[s + JIRA_PAGE_SIZE..];
    }
  }

  // ----- the fetch with its cache -----

  /** The exceptions the handler lets through. */
  datatype FetchError =
    | ValueError(template: string)
    | KeyError(name: string)
    | AttributeError

  /** A cached search result with the time it was stored. */
  datatype CacheEntry = CacheEntry(stamp: int, data: seq<Issue>)

  /** A fetch result together with the cache it leaves behind. */
  datatype FetchOutcome = FetchOutcome(result: Result<seq<Issue>, FetchError>, cache: map<string, CacheEntry>)

  /** The cached entry for `key` is younger than the cache's time to live. */
  predicate Fresh(cache: map<string, CacheEntry>, key: string, now: int) {
    key in cache && now - cache[key].stamp < CACHE_TTL_SECONDS
  }

  /** What `_fetch_issues(key)` returns at time `now`, and the cache afterwards. */
  function FetchSpec(useApi: bool, caching: bool, cache: map<string, CacheEntry>, key: string, src: PageSource, now: int)
    : FetchOutcome
  {
    if !useApi then FetchOutcome(Ok([]), cache)
    else if key !in JQL_TEMPLATES || JQL_TEMPLATES[key] == [] then FetchOutcome(Err(ValueError(key)), cache)
    else match Format(JQL_TEMPLATES[key], FORMAT_ARGS)
      case MissingKey(name) => FetchOutcome(Err(KeyError(name)), cache)
      case Formatted(jql) =>
        if caching && Fresh(cache, key, now) then FetchOutcome(Ok(cache[key].data), cache)
        else
          var all := Collect(src, Jql(jql), 0);
          FetchOutcome(Ok(all), if caching then cache[key := CacheEntry(now, all)] else cache)
  }

  /** With the API switched off nothing is fetched, whatever the template key, and the cache is untouched. */
  lemma FetchWhenDisabled(caching: bool, cache: map<string, CacheEntry>, key: string, src: PageSource, now: int)
    ensures FetchSpec(false, caching, cache, key, src, now) == FetchOutcome(Ok([]), cache)
  {
  }

  /** An unknown template key raises ValueError before the cache is looked at or a page is fetched. */
  lemma FetchUnknownTemplate(caching: bool, cache: map<string, CacheEntry>, key: string, src: PageSource, now: int)
    requires key !in JQL_TEMPLATES
    ensures FetchSpec(true, caching, cache, key, src, now) == FetchOutcome(Err(ValueError(key)), cache)
  {
  }

  /** The cluster and namespace templates raise KeyError when they are formatted, before any fetch. */
  lemma FetchScopedTemplates(caching: bool, cache: map<string, CacheEntry>, src: PageSource, now: int)
    ensures FetchSpec(true, caching, cache, "cluster_alerts", src, now) == FetchOutcome(Err(KeyError("cluster")), cache)
    ensures FetchSpec(true, caching, cache, "namespace_alerts", src, now) == FetchOutcome(Err(KeyError("namespace")), cache)
  {
    ScopedTemplatesRaiseKeyError();
  }

  /**
   * For a report query with caching on: the cached data is returned, and the
   * cache kept as it is, exactly when the entry exists and is fresh; otherwise
   * the pages are fetched and the entry is overwritten with them and the time.
   */
  lemma FetchCacheBehaviour(cache: map<string, CacheEntry>, key: string, src: PageSource, now: int)
    requires key in REPORT_QUERIES
    ensures var o := FetchSpec(true, true, cache, key, src, now);
      && (Fresh(cache, key, now) ==> o == FetchOutcome(Ok(cache[key].data), cache))
      && (!Fresh(cache, key, now) ==> exists jql :: o == FetchOutcome(Ok(Collect(src, Jql(jql), 0)),
                                                         cache[key := CacheEntry(now, Collect(src, Jql(jql), 0))]))
      && (o.cache == cache <==> Fresh(cache, key, now))
  {
    ReportTemplatesFormat();
    var o := FetchSpec(true, true, cache, key, src, now);
    if !Fresh(cache, key, now) {
      assert o.cache[key].stamp == now;
      if key in cache {
        assert cache[key].stamp != now;
      }
    }
  }

  /**
   * Within the time to live a repeated fetch returns what the first one
   * fetched, even when the server's answers have changed in between.
   */
  lemma FetchRepeatWithinTtl(cache: map<string, CacheEntry>, key: string, src1: PageSource, src2: PageSource, t1: int, t2: int)
    requires key in REPORT_QUERIES && !Fresh(cache, key, t1)
    requires t1 <= t2 < t1 + CACHE_TTL_SECONDS
    ensures var o1 := FetchSpec(true, true, cache, key, src1, t1);
      FetchSpec(true, true, o1.cache, key, src2, t2).result == o1.result
  {
    ReportTemplatesFormat();
  }

  /** Metrics of the initial-troubleshooting board: total, untriaged and the triaged percentage. */
  datatype Metrics = Metrics(total: nat, untriaged: nat, percent: real)

  /**
   * The triaged percentage: 100 when there are no tasks or none untriaged,
   * otherwise the triaged share of the total, not clamped.
   */
  function TriagePercent(total: nat, untriaged: nat): (p: real)
    ensures (total == 0 || untriaged == 0) <==> p == 100.0
    ensures 0 < untriaged <= total ==> 0.0 <= p < 100.0
    ensures 0 < total < untriaged ==> p < 0.0
  {
    if total == 0 || untriaged == 0 then 100.0
    else
      var share := (total - untriaged) as real / total as real;
      ShareBounds((total - untriaged) as real, total as real);
      share * 100.0
  }

  lemma MulPositive(q: real, t: real)
    requires t > 0.0
    ensures q < 0.0 ==> q * t < 0.0
    ensures q >= 1.0 ==> q * t >= t
  {
  }

  /** A share of a positive total lies in [0, 1) when the part is below the total, and is negative for a negative part. */
  lemma ShareBounds(a: real, t: real)
    requires t > 0.0
    ensures 0.0 <= a < t ==> 0.0 <= a / t < 1.0
    ensures a < 0.0 ==> a / t < 0.0
  {
    var q := a / t;
    assert q * t == a;
    MulPositive(q, t);
  }

  lemma TriagePercentHalf()
    ensures TriagePercent(10, 5) == 50.0 && TriagePercent(0, 3) == 100.0 && TriagePercent(4, 6) == -50.0
  {
  }

  /** One week of the trend: its first second and the number of issues created in it. */
  datatype WeekCount = WeekCount(weekStart: int, count: nat)

  /** `timedelta(days=7)`, in seconds. */
  const WEEK: int := 7 * 24 * 60 * 60

  /** The query of the week starting at `start`. */
  function WeekQuery(start: int): Query {
    CreatedWindow(JIRA_PROJECT, start, start + WEEK)
  }

  predicate IsP1Ticket(x: Record) {
    x.priority == "P1"
  }

  /**
   * `df[df['priority'] == PRIORITY_MAP.get('Highest', 'Highest')]`: the rows
   * whose priority is P1, in frame order.
   */
  function P1Rows(df: Frame): (r: Frame)
    ensures r == Filter(df, IsP1Ticket)
    ensures forall i :: 0 <= i < |r| ==> r[i].priority == "P1"
    ensures forall x :: x in df && x.priority == "P1" ==> x in r
  {
    if df == [] then []
    else if df[0].priority == MapOrKeepHighest() then [df[0]] + P1Rows(df[1..])
    else P1Rows(df[1..])
  }

  /** `PRIORITY_MAP.get('Highest', 'Highest')`. */
  function MapOrKeepHighest(): (r: string)
    ensures r == "P1"
  {
    MapOrKeep("Highest")
  }

  /** No report frame holds a P1 ticket, so the P1 selection is always empty. */
  lemma NoP1Tickets(issues: seq<Issue>)
    ensures P1Rows(FrameOf(issues)) == []
  {
    var df := FrameOf(issues);
    var records := Records(issues);
    forall i | 0 <= i < |df| ensures df[i].priority != "P1" {
      UnknownAfterPipeline(issues, records, i);
    }
    NoP1Rows(df);
  }

  lemma {:induction false} NoP1Rows(df: Frame)
    requires forall i :: 0 <= i < |df| ==> df[i].priority != "P1"
    ensures P1Rows(df) == []
  {
    if df != [] {
      NoP1Rows(df[1..]);
    }
  }

  /** The priority distribution of any report frame: every ticket counted under "Unknown". */
  lemma PriorityDistributionIsUnknown(issues: seq<Issue>)
    requires issues != []
    ensures ValueCounts(Values(FrameOf(issues), PriorityColumn)) == map["Unknown" := |FrameOf(issues)|]
  {
    FrameOfFacts(issues);
    ConstantColumnCounts(Values(FrameOf(issues), PriorityColumn), "Unknown");
  }

  /** The columns whose distribution the report shows. */
  datatype Column = PriorityColumn | ClusterColumn | NamespaceColumn {
    function Name(): string {
      match this
      case PriorityColumn => "priority"
      case ClusterColumn => "cluster"
      case NamespaceColumn => "namespace"
    }

    function Of(r: Record): string {
      match this
      case PriorityColumn => r.priority
      case ClusterColumn => r.cluster
      case NamespaceColumn => r.namespace
    }
  }

  /** The values of one column of a frame, in row order. */
  function Values(df: Frame, c: Column): (col: seq<string>)
    ensures |col| == |df| && forall i :: 0 <= i < |df| ==> col[i] == c.Of(df[i])
  {
    seq(|df|, i requires 0 <= i < |df| => c.Of(df[i]))
  }

  /**
   * What `get_p1_tickets()` gives for a fetch result: the error passed on,
   * KeyError for no issues (the frame has no columns), else the P1 rows.
   */
  function P1Result(res: Result<seq<Issue>, FetchError>): Result<Frame, FetchError> {
    match res
    case Err(e) => Err(e)
    case Ok(issues) => if issues == [] then Err(KeyError("priority")) else Ok(P1Rows(FrameOf(issues)))
  }

  /** What a distribution getter gives for a fetch result. */
  function DistributionResult(res: Result<seq<Issue>, FetchError>, c: Column): Result<map<string, nat>, FetchError> {
    match res
    case Err(e) => Err(e)
    case Ok(issues) => if issues == [] then Err(KeyError(c.Name())) else Ok(ValueCounts(Values(FrameOf(issues), c)))
  }

  /** Whatever was fetched, a priority distribution has the single key "Unknown". */
  lemma PriorityDistributionKeys(res: Result<seq<Issue>, FetchError>)
    ensures DistributionResult(res, PriorityColumn).Ok? ==> DistributionResult(res, PriorityColumn).value.Keys == {"Unknown"}
  {
    if res.Ok? && res.value != [] {
      PriorityDistributionIsUnknown(res.value);
    }
  }

  /** The report frame is empty exactly for no issues. */
  lemma FrameOfEmpty(issues: seq<Issue>)
    ensures FrameOf(issues) == [] <==> issues == []
  {
    CleanKeepsKeys(Records(issues));
  }

  /** The report handler: whether the Jira API is on, whether results are cached, and the cache. */
  class Handler {
    const useApi: bool
    const caching: bool
    var cache: map<string, CacheEntry>

    /** Without caching the cache stays empty. */
    ghost predicate Valid()
      reads this
    {
      !caching ==> cache == map[]
    }

    constructor(useApi: bool, caching: bool)
      ensures this.useApi == useApi && this.caching == caching
      ensures cache == map[] && Valid()
    {
      this.useApi := useApi;
      this.caching := caching;
      cache := map[];
    }

    /** `_fetch_issues(key)` at time `now`. */
    method FetchIssues(key: string, src: PageSource, now: int) returns (r: Result<seq<Issue>, FetchError>)
      requires Valid()
      modifies this
      ensures Valid()
      ensures FetchOutcome(r, cache) == FetchSpec(useApi, caching, old(cache), key, src, now)
    {
      if !useApi {
        return Ok([]);
      }
      if key !in JQL_TEMPLATES || JQL_TEMPLATES[key] == [] {
        return Err(ValueError(key));
      }
      var jql := Format(JQL_TEMPLATES[key], FORMAT_ARGS);
      if jql.MissingKey? {
        return Err(KeyError(jql.name));
      }
      if caching && key in cache {
        var entry := cache[key];
        var age := now - entry.stamp;
        if age < CACHE_TTL_SECONDS {
          return Ok(entry.data);
        }
      }
      var all := FetchAllPages(src, Jql(jql.text));
      if caching {
        cache := cache[key := CacheEntry(now, all)];
      }
      return Ok(all);
    }

    /** `get_all_tickets()`. */
    method GetAllTickets(src: PageSource, now: int) returns (r: Result<Frame, FetchError>)
      requires Valid()
      modifies this
      ensures Valid()
      ensures var o := FetchSpec(useApi, caching, old(cache), "all_tickets", src, now);
        cache == o.cache
        && (o.result.Err? ==> r == Err(o.result.error))
        && (o.result.Ok? ==> r == Ok(FrameOf(o.result.value)))
    {
      var issues := FetchIssues("all_tickets", src, now);
      if issues.Err? {
        return Err(issues.error);
      }
      var df := ToDataFrame(issues.value);
      return Ok(df);
    }

    /** `get_unclassified_tickets()`. */
    method GetUnclassifiedTickets(src: PageSource, now: int) returns (r: Result<Frame, FetchError>)
      requires Valid()
      modifies this
      ensures Valid()
      ensures var o := FetchSpec(useApi, caching, old(cache), "unclassified_tickets", src, now);
        cache == o.cache
        && (o.result.Err? ==> r == Err(o.result.error))
        && (o.result.Ok? ==> r == Ok(FrameOf(o.result.value)))
    {
      var issues := FetchIssues("unclassified_tickets", src, now);
      if issues.Err? {
        return Err(issues.error);
      }
      var df := ToDataFrame(issues.value);
      return Ok(df);
    }

    /**
     * `get_p1_tickets()`: the rows whose priority is "P1". A frame built from no
     * issues has no columns, so selecting on its priority raises KeyError; any
     * other frame has no P1 row.
     */
    method GetP1Tickets(src: PageSource, now: int) returns (r: Result<Frame, FetchError>)
      requires Valid()
      modifies this
      ensures Valid()
      ensures r.Ok? ==> r.value == []
      ensures var o := FetchSpec(useApi, caching, old(cache), "all_tickets", src, now);
        cache == o.cache && r == P1Result(o.result)
    {
      ghost var o := FetchSpec(useApi, caching, cache, "all_tickets", src, now);
      var all := GetAllTickets(src, now);
      if all.Err? {
        return Err(all.error);
      }
      FrameOfEmpty(o.result.value);
      var df := all.value;
      if df == [] {
        return Err(KeyError("priority"));
      }
      NoP1Tickets(o.result.value);
      return Ok(P1Rows(df));
    }

    /**
     * `get_priority_distribution()`, `get_cluster_distribution()` and
     * `get_namespace_distribution()`: `value_counts()` of one column of the
     * all-tickets frame; a frame built from no issues has no columns and raises
     * KeyError. The priority distribution of any batch has the single key "Unknown".
     */
    method GetDistribution(src: PageSource, now: int, c: Column) returns (r: Result<map<string, nat>, FetchError>)
      requires Valid()
      modifies this
      ensures Valid()
      ensures c == PriorityColumn && r.Ok? ==> r.value.Keys == {"Unknown"}
      ensures var o := FetchSpec(useApi, caching, old(cache), "all_tickets", src, now);
        cache == o.cache && r == DistributionResult(o.result, c)
    {
      ghost var o := FetchSpec(useApi, caching, cache, "all_tickets", src, now);
      var all := GetAllTickets(src, now);
      if all.Err? {
        return Err(all.error);
      }
      FrameOfEmpty(o.result.value);
      if all.value == [] {
        r := Err(KeyError(c.Name()));
      } else {
        r := Ok(ValueCounts(Values(all.value, c)));
      }
      PriorityDistributionKeys(o.result);
    }

    /** `get_initial_troubleshooting_metrics()`: both board queries, then the triage ratio. */
    method GetInitialTroubleshootingMetrics(src: PageSource, now: int) returns (r: Result<Metrics, FetchError>)
      requires Valid()
      modifies this
      ensures Valid()
      ensures r.Ok? ==> r.value.percent == TriagePercent(r.value.total, r.value.untriaged)
      ensures var o1 := FetchSpec(useApi, caching, old(cache), "isd_board_total", src, now);
        var o2 := FetchSpec(useApi, caching, o1.cache, "isd_board_untriaged", src, now);
        (o1.result.Err? ==> r == Err(o1.result.error) && cache == o1.cache)
        && (o1.result.Ok? && o2.result.Err? ==> r == Err(o2.result.error) && cache == o2.cache)
        && (o1.result.Ok? && o2.result.Ok? ==>
              cache == o2.cache
              && r == Ok(Metrics(|o1.result.value|, |o2.result.value|, TriagePercent(|o1.result.value|, |o2.result.value|))))
    {
      var totalIssues := FetchIssues("isd_board_total", src, now);
      if totalIssues.Err? {
        return Err(totalIssues.error);
      }
      var untriagedIssues := FetchIssues("isd_board_untriaged", src, now);
      if untriagedIssues.Err? {
        return Err(untriagedIssues.error);
      }
      var total := |totalIssues.value|;
      var untriaged := |untriagedIssues.value|;
      var percent: real;
      if total == 0 || untriaged == 0 {
        percent := 100.0;
      } else {
        percent := (total - untriaged) as real / total as real * 100.0;
      }
      return Ok(Metrics(total, untriaged, percent));
    }

    /**
     * `get_weekly_trend(weeks)`: for `weeks >= 1`, exactly `weeks` contiguous
     * seven-day windows, oldest first, the first starting `weeks` weeks before
     * `now` and the last ending at `now`, each with the number of issues its
     * pages hold. No windows for `weeks <= 0`; without the API the first search
     * fails because there is no client.
     */
    method GetWeeklyTrend(src: PageSource, now: int, weeks: int) returns (r: Result<seq<WeekCount>, FetchError>)
      ensures weeks <= 0 ==> r == Ok([])
      ensures weeks >= 1 && !useApi ==> r == Err(AttributeError)
      ensures weeks >= 1 && useApi ==> r.Ok? && |r.value| == weeks
      ensures weeks >= 1 && useApi ==> forall i :: 0 <= i < weeks ==>
        r.value[i] == WeekCount(now - (weeks - i) * WEEK, |Collect(src, WeekQuery(now - (weeks - i) * WEEK), 0)|)
    {
      var endDate := now;
      var startDate := now - weeks * WEEK;
      var trend: seq<WeekCount> := [];
      var current := startDate;
      assert weeks >= 1 ==> startDate < endDate by {
        if weeks >= 1 {
          assert weeks * WEEK >= WEEK;
        }
      }
      while current < endDate
        invariant current == startDate + |trend| * WEEK
        invariant !useApi ==> trend == []
        invariant weeks <= 0 ==> trend == []
        invariant weeks >= 1 ==> |trend| <= weeks
        invariant forall i :: 0 <= i < |trend| ==>
          trend[i] == WeekCount(now - (weeks - i) * WEEK, |Collect(src, WeekQuery(now - (weeks - i) * WEEK), 0)|)
        decreases endDate - current
      {
        if !useApi {
          return Err(AttributeError);
        }
        var weekEnd := current + WEEK;
        var allIssues := FetchAllPages(src, WeekQuery(current));
        trend := trend + [WeekCount(current, |allIssues|)];
        current := weekEnd;
      }
      return Ok(trend);
    }
  }
}
