/**
 * The report configuration: Jira paging and cache settings, the JQL query
 * templates, the summary-extraction patterns, the priority table and the
 * keywords that mark a ticket as cancelled. Environment overrides are not
 * modelled; each constant holds the default the configuration falls back to.
 */
module Config {
  import opened Wrappers
  import opened Text
  import opened Patterns

  /** The Jira API is used instead of static dumps. */
  const USE_JIRA_API: bool := true
  /** Issues requested per search call. */
  const JIRA_PAGE_SIZE: nat := 50
  /** Seconds before a Jira request times out. */
  const JIRA_REQUEST_TIMEOUT: real := 10.0
  const JIRA_PROJECT: string := "ISD"
  /** Length of the reporting window, in days. */
  const REPORT_DAYS: nat := 7
  /** Age, in seconds, below which a cached search result is reused. */
  const CACHE_TTL_SECONDS: int := 3600

  // ----- JQL templates and `str.format` -----

  /** A piece of a format string: literal text, or a `{name}` placeholder. */
  datatype Segment = Lit(text: string) | Field(name: string)

  type Template = seq<Segment>

  /** `str.format` either yields a text or raises KeyError for a placeholder without a value. */
  datatype FormatOutcome = Formatted(text: string) | MissingKey(name: string)

  predicate Unbound(g: Segment, args: map<string, string>) {
    g.Field? && g.name !in args
  }

  /**
   * `template.format(**args)`: placeholders are filled from left to right and the
   * first one without a value raises KeyError.
   */
  function Format(t: Template, args: map<string, string>): (r: FormatOutcome)
    ensures r.MissingKey? <==> exists k :: 0 <= k < |t| && Unbound(t[k], args)
    ensures r.MissingKey? ==>
      exists k :: 0 <= k < |t| && Unbound(t[k], args) && r.name == t[k].name
        && forall j :: 0 <= j < k ==> !Unbound(t[j], args)
  {
    if t == [] then Formatted("")
    else
      var rest := Format(t[1..], args);
      assert forall k :: 1 <= k < |t| ==> t[k] == t[1..][k - 1];
      match t[0]
      case Lit(x) =>
        if rest.MissingKey? then
          ghost var k :| 0 <= k < |t| - 1 && Unbound(t[1..][k], args) && rest.name == t[1..][k].name
            && forall j :: 0 <= j < k ==> !Unbound(t[1..][j], args);
          assert Unbound(t[k + 1], args);
          rest
        else Formatted(x + rest.text)
      case Field(n) =>
        if n !in args then MissingKey(n)
        else if rest.MissingKey? then
          ghost var k :| 0 <= k < |t| - 1 && Unbound(t[1..][k], args) && rest.name == t[1..][k].name
            && forall j :: 0 <= j < k ==> !Unbound(t[1..][j], args);
          assert Unbound(t[k + 1], args);
          rest
        else Formatted(args[n] + rest.text)
  }

  function DigitChar(d: nat): char
    requires d < 10
  {
    ('0' as int + d) as char
  }

  /** The number a string of decimal digits denotes, most significant digit first. */
  function DecimalValue(s: string): nat
    requires forall i :: 0 <= i < |s| ==> IsDigit(s[i])
  {
    if s == [] then 0
    else
      assert IsDigit(s[|s| - 1]);
      DecimalValue(s[..|s| - 1]) * 10 + (s[|s| - 1] as int - '0' as int)
  }

  /** `str(n)` for a natural number: a non-empty string of digits that denotes `n`. */
  function Decimal(n: nat): (r: string)
    ensures |r| >= 1 && forall i :: 0 <= i < |r| ==> IsDigit(r[i])
    ensures DecimalValue(r) == n
  {
    if n < 10 then [DigitChar(n)]
    else
      var init := Decimal(n / 10);
      var r := init + [DigitChar(n % 10)];
      assert r[..|r| - 1] == init;
      r
  }

  /** The keyword arguments every template is formatted with. */
  const FORMAT_ARGS: map<string, string> := map["project" := JIRA_PROJECT, "days" := Decimal(REPORT_DAYS)]

  const QUEUE_FILTER_SET: string := " AND \"NOC Representative[User Picker (single user)]\" != EMPTY"
  const QUEUE_FILTER_EMPTY: string := " AND \"NOC Representative[User Picker (single user)]\" = EMPTY"
  const RECENT: Template := [Lit(" AND created >= -"), Field("days"), Lit("d")]
  const NEWEST_FIRST: Segment := Lit(" ORDER BY createdDate DESC")

  const JQL_TEMPLATES: map<string, Template> := map[
    "all_tickets" :=
      [Lit("project = "), Field("project")] + RECENT + [NEWEST_FIRST],
    "p1_tickets" :=
      [Lit("project = "), Field("project"), Lit(" AND priority = Highest")] + RECENT + [NEWEST_FIRST],
    "unclassified_tickets" :=
      [Lit("project = "), Field("project")] + RECENT
      + [Lit(" AND priority NOT IN (Highest, High, Medium)"), NEWEST_FIRST],
    "isd_board_total" :=
      [Lit("project = "), Field("project"), Lit(QUEUE_FILTER_SET)] + RECENT + [NEWEST_FIRST],
    "isd_board_untriaged" :=
      [Lit("project = "), Field("project"),
       Lit(" AND (summary ~ \"Password reset request\" OR summary ~ \"Team Change\""
         + " OR summary ~ \"Outage\" OR summary ~ \"Troubleshooting\""
         + " OR summary ~ \"Wiz finding\" OR summary ~ \"Triggered on\")"
         + " AND type IN (\"Service Request\", \"Service Request with Approvals\", Incident)"
         + QUEUE_FILTER_EMPTY)]
      + RECENT + [NEWEST_FIRST],
    "cluster_alerts" :=
      [Lit("project = "), Field("project"), Lit(" AND text ~ \""), Field("cluster"), Lit("\"" + QUEUE_FILTER_EMPTY)]
      + RECENT + [NEWEST_FIRST],
    "namespace_alerts" :=
      [Lit("project = "), Field("project"), Lit(" AND text ~ \""), Field("namespace"), Lit("\"" + QUEUE_FILTER_EMPTY)]
      + RECENT + [NEWEST_FIRST]
  ]

  /** Formatting a literal segment prefixes its text. */
  lemma FormatLit(x: string, t: Template, args: map<string, string>, text: string)
    requires Format(t, args) == Formatted(text)
    ensures Format([Lit(x)] + t, args) == Formatted(x + text)
  {
    assert ([Lit(x)] + t)[1..] == t;
  }

  /** Formatting a bound placeholder prefixes its value. */
  lemma FormatField(n: string, t: Template, args: map<string, string>, text: string)
    requires n in args && Format(t, args) == Formatted(text)
    ensures Format([Field(n)] + t, args) == Formatted(args[n] + text)
  {
    assert ([Field(n)] + t)[1..] == t;
  }

  /** The all-tickets query as it is sent to Jira: the project and day count filled in. */
  lemma AllTicketsQuery()
    ensures Format(JQL_TEMPLATES["all_tickets"], FORMAT_ARGS)
         == Formatted("project = " + ("ISD" + (" AND created >= -" + ("7" + ("d" + " ORDER BY createdDate DESC")))))
  {
    var a := FORMAT_ARGS;
    assert a["project"] == "ISD" && a["days"] == "7";
    var e: Template := [];
    var s5 := " ORDER BY createdDate DESC";
    assert Format(e, a) == Formatted([]);
    FormatLit(s5, e, a, []);
    assert s5 + [] == s5;
    var t5: Template := [Lit(s5)] + e;
    FormatLit("d", t5, a, s5);
    var t4 := [Lit("d")] + t5;
    FormatField("days", t4, a, "d" + s5);
    var t3 := [Field("days")] + t4;
    FormatLit(" AND created >= -", t3, a, "7" + ("d" + s5));
    var t2 := [Lit(" AND created >= -")] + t3;
    FormatField("project", t2, a, " AND created >= -" + ("7" + ("d" + s5)));
    var t1 := [Field("project")] + t2;
    FormatLit("project = ", t1, a, "ISD" + (" AND created >= -" + ("7" + ("d" + s5))));
    assert JQL_TEMPLATES["all_tickets"] == [Lit("project = ")] + t1;
  }

  /** A template whose only placeholders are the project and the day count formats without error. */
  lemma ProjectAndDaysSuffice(t: Template)
    requires forall k :: 0 <= k < |t| && t[k].Field? ==> t[k].name in {"project", "days"}
    ensures Format(t, FORMAT_ARGS).Formatted?
  {
    assert "project" in FORMAT_ARGS && "days" in FORMAT_ARGS;
  }

  const REPORT_QUERIES: seq<string> := ["all_tickets", "p1_tickets", "unclassified_tickets", "isd_board_total", "isd_board_untriaged"]

  /** The five report queries format to JQL text. */
  lemma ReportTemplatesFormat()
    ensures forall key :: key in REPORT_QUERIES ==> Format(JQL_TEMPLATES[key], FORMAT_ARGS).Formatted?
  {
    forall key | key in REPORT_QUERIES
      ensures Format(JQL_TEMPLATES[key], FORMAT_ARGS).Formatted?
    {
      ProjectAndDaysSuffice(JQL_TEMPLATES[key]);
    }
  }

  /**
   * The cluster and namespace templates hold a placeholder the project and day
   * count do not fill, so formatting them raises KeyError for it.
   */
  lemma ScopedTemplatesRaiseKeyError()
    ensures Format(JQL_TEMPLATES["cluster_alerts"], FORMAT_ARGS) == MissingKey("cluster")
    ensures Format(JQL_TEMPLATES["namespace_alerts"], FORMAT_ARGS) == MissingKey("namespace")
  {
    ScopedTemplateRaisesKeyError("cluster_alerts", "cluster");
    ScopedTemplateRaisesKeyError("namespace_alerts", "namespace");
  }

  lemma ScopedTemplateRaisesKeyError(key: string, name: string)
    requires (key, name) in {("cluster_alerts", "cluster"), ("namespace_alerts", "namespace")}
    ensures Format(JQL_TEMPLATES[key], FORMAT_ARGS) == MissingKey(name)
  {
    var a := FORMAT_ARGS;
    assert name !in a && "project" in a;
    var t := JQL_TEMPLATES[key];
    assert t[..4] == [Lit("project = "), Field("project"), Lit(" AND text ~ \""), Field(name)];
    FirstUnboundRaises(t, a, 3);
  }

  /** The KeyError names the leftmost placeholder without a value. */
  lemma FirstUnboundRaises(t: Template, args: map<string, string>, k: int)
    requires 0 <= k < |t| && Unbound(t[k], args)
    requires forall j :: 0 <= j < k ==> !Unbound(t[j], args)
    ensures Format(t, args) == MissingKey(t[k].name)
  {
    var r := Format(t, args);
    var k' :| 0 <= k' < |t| && Unbound(t[k'], args) && r.name == t[k'].name
      && forall j :: 0 <= j < k' ==> !Unbound(t[j], args);
    assert !(k' < k) && !(k < k');
  }

  // ----- extraction patterns -----

  /** `(?i)(?:cluster|k8s|kubernetes)[\s-]+([a-zA-Z0-9-]+)` and `(?i)(?:namespace|ns)[\s-]+([a-zA-Z0-9-]+)`. */
  const EXTRACTION_PATTERNS: map<string, Shape> := map[
    "cluster" := PrefixedToken(["cluster", "k8s", "kubernetes"]),
    "namespace" := PrefixedToken(["namespace", "ns"])
  ]

  // ----- priorities and cancellation keywords -----

  const PRIORITY_MAP: map<string, string> := map[
    "Highest" := "P1",
    "High" := "P2",
    "Medium" := "P3",
    "Low" := "P4",
    "Unassigned" := "Unknown"
  ]

  /** The normalised priorities. */
  const PRIORITY_CODES: set<string> := {"P1", "P2", "P3", "P4", "Unknown"}

  /** No normalised priority is itself a raw priority, so mapping twice loses the value. */
  lemma PriorityMapKeysAndValuesDisjoint()
    ensures PRIORITY_MAP.Values == PRIORITY_CODES
    ensures forall v :: v in PRIORITY_CODES ==> v !in PRIORITY_MAP
  {
    assert PRIORITY_MAP["Highest"] == "P1" && PRIORITY_MAP["High"] == "P2" && PRIORITY_MAP["Medium"] == "P3";
    assert PRIORITY_MAP["Low"] == "P4" && PRIORITY_MAP["Unassigned"] == "Unknown";
  }

  const CANCELLED_KEYWORDS: seq<string> := ["cancelled", "resolved", "closed"]

  /** Every keyword is non-empty and lower-case, so it can only be found in lower-cased text as written. */
  lemma CancelledKeywordsWellFormed()
    ensures forall k :: 0 <= k < |CANCELLED_KEYWORDS| ==> CANCELLED_KEYWORDS[k] != [] && NoUpper(CANCELLED_KEYWORDS[k])
  {
  }

  // ----- chart colours and report scope -----

  const CHART_COLORS: map<string, string> := map[
    "P1" := "#FF0000",
    "P2" := "#FFA500",
    "P3" := "#FFFF00",
    "P4" := "#00FF00",
    "Unknown" := "#808080"
  ]

  const CLUSTERS: seq<string> := [
    "apps-prod-01", "ecomm-prod-scus1", "de-airflow-production", "de-airflow-staging",
    "airflow-prod-01", "cdp-production", "cdp-staging", "Staging CDP", "Heartbeat"
  ]

  const NAMESPACES: seq<string> := ["cert-manager", "airflow-dpi", "simple-machine", "pepdirect", "wiz"]

  // ----- caching switch -----

  /**
   * Caching is on when the environment value, lower-cased, is exactly "true";
   * the value defaults to "false" and surrounding whitespace is not removed.
   */
  function EnableCaching(env: Option<string>): (r: bool)
    ensures r <==> env.Some? && Lower(env.value) == "true"
  {
    assert Lower("false") != "true" by { assert Lower("false")[0] == 'f'; }
    Lower(env.GetOr("false")) == "true"
  }

  lemma EnableCachingCases()
    ensures !EnableCaching(None)
    ensures EnableCaching(Some("TRUE")) && EnableCaching(Some("True"))
    ensures !EnableCaching(Some(" true")) && !EnableCaching(Some("1")) && !EnableCaching(Some("yes"))
  {
    assert Lower("TRUE") == "true" by { assert Lower("TRUE")[0] == 't'; }
    assert Lower("True") == "true";
    assert Lower("false") != "true" by { assert Lower("false")[0] == 'f'; }
  }
}
