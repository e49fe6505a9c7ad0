/**
 * `classify_alerts` and `define_priority` of the legacy pipeline.
 *
 * An alert type is found by an ordered cascade of 56 rules over the
 * lower-cased summary: the first rule whose pattern `re.search` finds decides
 * the label, which is either fixed or built from the pattern's capture group;
 * a summary no rule matches is "Other". A priority level is the title-cased,
 * stripped priority looked up in the priority table (falling back to the
 * normalised text itself), overridden by "Cancelled" for a cancelled status.
 */
module LegacyClassification {
  import opened Wrappers
  import opened Text
  import opened Seqs
  import opened Patterns
  import opened Config
  import opened LegacyFrame
  import opened LegacyCleaning
  import opened LegacyRules

  // ----- the alert-type cascade -----

  /** Rule `k`'s pattern is found somewhere in `s`. */
  predicate Fires(s: string, k: nat)
    requires k < RULE_COUNT
  {
    Search(RuleAt(k).shape, s).Some?
  }

  /** What `re.search` gives for every rule, in rule order. */
  function Outcomes(s: string): (os: seq<Option<string>>)
    ensures |os| == RULE_COUNT
  {
    seq(RULE_COUNT, k requires 0 <= k < RULE_COUNT => Search(RuleAt(k).shape, s))
  }

  /** The first position from `k` on that holds a match, or `|os|` when none does. */
  function FirstFired(os: seq<Option<string>>, k: nat): (j: nat)
    requires k <= |os|
    ensures k <= j <= |os|
    ensures forall i :: k <= i < j ==> os[i].None?
    ensures j < |os| ==> os[j].Some?
    decreases |os| - k
  {
    if k == |os| || os[k].Some? then k else FirstFired(os, k + 1)
  }

  /**
   * The loop `for pattern, category in patterns`: the rule that decides, which
   * is the first one that fires, or RULE_COUNT when none does.
   */
  function DecidingRule(s: string): (j: nat)
    ensures j <= RULE_COUNT
    ensures forall i :: 0 <= i < j ==> !Fires(s, i)
    ensures j < RULE_COUNT ==> Fires(s, j)
  {
    var os := Outcomes(s);
    assert forall i :: 0 <= i < RULE_COUNT ==> os[i] == Search(RuleAt(i).shape, s);
    FirstFired(os, 0)
  }

  /** The label the cascade gives an already lower-cased summary. */
  function AlertTypeOf(s: string): string {
    LabelOf(s, DecidingRule(s))
  }

  /** The label once rule `j` has decided, or "Other" when the loop ran out of rules. */
  function LabelOf(s: string, j: nat): string
    requires j <= RULE_COUNT
    requires j < RULE_COUNT ==> Fires(s, j)
  {
    if j == RULE_COUNT then "Other"
    else LabelText(RuleAt(j).category, Search(RuleAt(j).shape, s).value)
  }

  /** `get_alert_type(summary)`: the summary is read with `str()` and lower-cased first. */
  function GetAlertType(summary: Cell): string {
    AlertTypeOf(Lower(StrOf(summary)))
  }

  /** Text found inside a lower-case text is lower-case. */
  lemma ContainedHasNoUpper(s: string, v: string)
    requires NoUpper(s) && Contains(s, v)
    ensures NoUpper(v)
  {
    var i :| 0 <= i <= |s| - |v| && OccursAt(s, v, i);
    forall k | 0 <= k < |v| ensures !IsAsciiUpper(v[k]) {
      assert v[k] == s[i..i + |v|][k] == s[i + k];
    }
  }

  /**
   * What a rule can produce from a lower-case text: never "Other", and never
   * "MBT" unless it is the `mbt` rule.
   */
  lemma LabelOfRule(k: nat, group: string)
    requires k < RULE_COUNT && NoUpper(group)
    ensures LabelText(RuleAt(k).category, group) != "Other"
    ensures k != 0 ==> LabelText(RuleAt(k).category, group) != "MBT"
  {
    RuleCategories();
    var l := RuleAt(k).category;
    assert CategoryShape(l, k == 0);
    if l.Captured? && l.prefix == [] {
      assert LabelText(l, group) == group;
      assert |group| == 0 || !IsAsciiUpper(group[0]);
    }
  }

  /** The label a firing rule gives a lower-case text. */
  lemma DecidedLabel(s: string, j: nat)
    requires NoUpper(s) && j < RULE_COUNT && Fires(s, j)
    ensures LabelOf(s, j) != "Other"
    ensures j != 0 ==> LabelOf(s, j) != "MBT"
  {
    var p := RuleAt(j).shape;
    var i := LeftmostMatch(p, s);
    ContainedHasNoUpper(s, Search(p, s).value);
    LabelOfRule(j, Search(p, s).value);
  }

  /** A summary is "Other" exactly when no rule's pattern is found in it. */
  lemma OtherIffNoRuleFires(summary: Cell)
    ensures GetAlertType(summary) == "Other"
            <==> forall k :: 0 <= k < RULE_COUNT ==> !Fires(Lower(StrOf(summary)), k)
  {
    var s := Lower(StrOf(summary));
    var j := DecidingRule(s);
    LowerHasNoUpper(StrOf(summary));
    if j < RULE_COUNT {
      DecidedLabel(s, j);
    }
  }

  /**
   * The unanchored `mbt` rule comes first: a summary is "MBT" exactly when
   * its lower-cased text contains "mbt", even inside a word, whatever else it holds.
   */
  lemma MbtDecides(summary: Cell)
    ensures GetAlertType(summary) == "MBT" <==> Contains(Lower(StrOf(summary)), "mbt")
  {
    var s := Lower(StrOf(summary));
    LiteralSearchIsContains("mbt", s);
    assert RuleAt(0) == Rule(Literal("mbt"), Fixed("MBT"));
    var j := DecidingRule(s);
    LowerHasNoUpper(StrOf(summary));
    if 0 < j < RULE_COUNT {
      DecidedLabel(s, j);
    }
  }

  /** The label ignores letter case, and a missing summary is read as the text "nan". */
  lemma AlertTypeReadsLowerText(x: string)
    ensures GetAlertType(Text(Lower(x))) == GetAlertType(Text(x))
    ensures GetAlertType(Null) == GetAlertType(Text("nan"))
  {
    LowerIdempotent(x);
  }

  /** A rule that fires only where an earlier rule fires never decides. */
  lemma CoveredRuleNeverDecides(s: string, k: nat, e: nat)
    requires e < k < RULE_COUNT
    requires Fires(s, k) ==> Fires(s, e)
    ensures DecidingRule(s) != k
  {
  }

  /** Rules 11-15 repeat rules 2-6 word for word, so they never decide. */
  lemma RepeatedRulesNeverDecide(s: string)
    ensures DecidingRule(s) !in {11, 12, 13, 14, 15}
  {
    CoveredRuleNeverDecides(s, 11, 2);
    CoveredRuleNeverDecides(s, 12, 3);
    CoveredRuleNeverDecides(s, 13, 4);
    CoveredRuleNeverDecides(s, 14, 5);
    CoveredRuleNeverDecides(s, 15, 6);
  }

  /** `\bchange request\b` (rule 17) is covered by `\b(team )?change request\b` (rule 1). */
  lemma ChangeRequestRuleNeverDecides(s: string)
    ensures DecidingRule(s) != 17
  {
    OptionalLeadIsRedundant("team ", "change request", s);
    CoveredRuleNeverDecides(s, 17, 1);
  }

  /** A `kube_cluster_name:<name>` literal is covered by `kube_cluster_name:(\S+)` (rule 9). */
  lemma KubeLiteralNeverDecides(s: string, k: nat, name: string)
    requires 9 < k < RULE_COUNT && RuleAt(k).shape == Literal(KUBE_PREFIX + name)
    requires name != [] && !IsSpace(name[0])
    ensures DecidingRule(s) != k
  {
    LiteralGivesDirectCapture(KUBE_PREFIX, name, s);
    CoveredRuleNeverDecides(s, k, 9);
  }

  /** The specific cluster rules 19-31 never decide. */
  lemma KubeLiteralRulesNeverDecide(s: string)
    ensures !(19 <= DecidingRule(s) <= 31)
  {
    AppsAndEcommLiteralsNeverDecide(s);
    AirflowLiteralsNeverDecide(s);
    CdpLiteralsNeverDecide(s);
    ToolLiteralsNeverDecide(s);
  }

  lemma AppsAndEcommLiteralsNeverDecide(s: string)
    ensures !(19 <= DecidingRule(s) <= 21)
  {
    KubeLiteralNeverDecides(s, 19, "apps-prod-01");
    KubeLiteralNeverDecides(s, 20, "ecomm-prod01-scus1");
    KubeLiteralNeverDecides(s, 21, "ecomm-prod-scus1");
  }

  lemma AirflowLiteralsNeverDecide(s: string)
    ensures !(22 <= DecidingRule(s) <= 24)
  {
    KubeLiteralNeverDecides(s, 22, "de-airflow-production");
    KubeLiteralNeverDecides(s, 23, "de-airflow-staging");
    KubeLiteralNeverDecides(s, 24, "airflow-prod-01");
  }

  lemma CdpLiteralsNeverDecide(s: string)
    ensures !(25 <= DecidingRule(s) <= 27)
  {
    KubeLiteralNeverDecides(s, 25, "cdp-production");
    KubeLiteralNeverDecides(s, 26, "cdp-staging");
    KubeLiteralNeverDecides(s, 27, "pepdirect");
  }

  lemma ToolLiteralsNeverDecide(s: string)
    ensures !(28 <= DecidingRule(s) <= 31)
  {
    KubeLiteralNeverDecides(s, 28, "automation-api-heartbeat");
    KubeLiteralNeverDecides(s, 29, "terraform-drift");
    KubeLiteralNeverDecides(s, 30, "wiz-finding");
    KubeLiteralNeverDecides(s, 31, "wiz");
  }

  /**
   * `High CPU Utilization on X` when the `cpu utilization above` rule decides,
   * where X is the group its lazy capture finds (LazyCaptureSearch says which).
   */
  lemma CpuLabel(s: string)
    requires DecidingRule(s) == 7
    ensures Search(LazyCapture(CPU_HEAD, false, CPU_TAIL), s).Some?
    ensures AlertTypeOf(s) == "High CPU Utilization on " + Search(LazyCapture(CPU_HEAD, false, CPU_TAIL), s).value
  {
    assert RuleAt(7) == Rule(LazyCapture(CPU_HEAD, false, CPU_TAIL), Captured("High CPU Utilization on "));
  }

  /** `Outage Reporting for X` when the `outage reporting` rule decides, in the same way. */
  lemma OutageLabel(s: string)
    requires DecidingRule(s) == 8
    ensures Search(LazyCapture(OUTAGE_HEAD, true, OUTAGE_TAIL), s).Some?
    ensures AlertTypeOf(s) == "Outage Reporting for " + Search(LazyCapture(OUTAGE_HEAD, true, OUTAGE_TAIL), s).value
  {
    assert RuleAt(8) == Rule(LazyCapture(OUTAGE_HEAD, true, OUTAGE_TAIL), Captured("Outage Reporting for "));
  }

  /** The cluster name itself, for the leftmost `kube_cluster_name:` followed by a non-space. */
  lemma KubeLabel(s: string)
    requires DecidingRule(s) == 9
    ensures exists i ::
              IsLeftmost(DirectCapture(KUBE_PREFIX), s, i)
              && AlertTypeOf(s) == RunText(s, i + 18, NonSpace)
  {
    assert RuleAt(9) == Rule(DirectCapture(KUBE_PREFIX), Captured(""));
    DirectCaptureSearch(KUBE_PREFIX, s);
  }

  /** A rule whose anchor holds, at position `i`, a character the text lacks does not fire. */
  lemma AbsentAnchorNeverFires(s: string, k: nat, i: nat)
    requires k < RULE_COUNT && i < |Anchor(RuleAt(k).shape)| && Anchor(RuleAt(k).shape)[i] !in s
    ensures !Fires(s, k)
  {
    var t := Anchor(RuleAt(k).shape);
    MissingCharNotContained(s, t, t[i]);
    SearchNeedsAnchor(RuleAt(k).shape, s);
  }

  /** Rules 0-2 do not fire on a text without `mbt`, spaces and `h`. */
  lemma RequestRulesMiss(s: string)
    requires !Contains(s, "mbt") && ' ' !in s && 'h' !in s
    ensures !Fires(s, 0) && !Fires(s, 1) && !Fires(s, 2)
  {
    LiteralSearchIsContains("mbt", s);
    assert RuleAt(0).shape == Literal("mbt");
    assert !Fires(s, 1) by { AbsentAnchorNeverFires(s, 1, 6); }
    assert !Fires(s, 2) by { AbsentAnchorNeverFires(s, 2, 8); }
  }

  /** Rules 3-4 do not fire on a text without spaces. */
  lemma AccountRulesMiss(s: string)
    requires ' ' !in s
    ensures !Fires(s, 3) && !Fires(s, 4)
  {
    assert !Fires(s, 3) by { AbsentAnchorNeverFires(s, 3, 8); }
    assert !Fires(s, 4) by { AbsentAnchorNeverFires(s, 4, 4); }
  }

  /** Rules 5-6 do not fire on a text without spaces. */
  lemma PlatformRulesMiss(s: string)
    requires ' ' !in s
    ensures !Fires(s, 5) && !Fires(s, 6)
  {
    assert !Fires(s, 5) by { AbsentAnchorNeverFires(s, 5, 9); }
    assert !Fires(s, 6) by { AbsentAnchorNeverFires(s, 6, 9); }
  }

  /** Rules 7-8 do not fire on a text without spaces. */
  lemma EarlyCaptureRulesMiss(s: string)
    requires ' ' !in s
    ensures !Fires(s, 7) && !Fires(s, 8)
  {
    assert !Fires(s, 7) by { AbsentAnchorNeverFires(s, 7, 3); }
    assert !Fires(s, 8) by { AbsentAnchorNeverFires(s, 8, 6); }
  }

  /**
   * A text that opens with `kube_cluster_name:` and a non-space character, and
   * on which none of rules 0-8 fires, is labelled with its cluster name.
   */
  lemma ClusterTagDecides(s: string)
    requires !Fires(s, 0) && !Fires(s, 1) && !Fires(s, 2) && !Fires(s, 3) && !Fires(s, 4)
    requires !Fires(s, 5) && !Fires(s, 6) && !Fires(s, 7) && !Fires(s, 8)
    requires TailCaptureAt(s, KUBE_PREFIX, 0)
    ensures DecidingRule(s) == 9
    ensures AlertTypeOf(s) == RunText(s, 18, NonSpace)
  {
    var p := DirectCapture(KUBE_PREFIX);
    assert IsLeftmost(p, s, 0);
    SearchIsLeftmost(p, s, 0);
    assert Search(p, s) == Some(RunText(s, 18, NonSpace)) by {
      assert |KUBE_PREFIX| == 18;
      assert MatchAt(p, s, 0) == DirectMatchAt(s, KUBE_PREFIX, 0);
    }
    assert RuleAt(9) == Rule(p, Captured(""));
    assert Fires(s, 9);
    assert DecidingRule(s) == 9 by {
      var j := DecidingRule(s);
      assert j != 0 && j != 1 && j != 2 && j != 3 && j != 4 && j != 5 && j != 6 && j != 7 && j != 8;
    }
    assert LabelText(Captured(""), RunText(s, 18, NonSpace)) == RunText(s, 18, NonSpace);
  }

  const KUBE_NAME := "ecomm-prod-scus1"
  const KUBE_EXAMPLE := KUBE_PREFIX + KUBE_NAME

  /** The example is lower-case. */
  lemma KubeExampleIsLower()
    ensures NoUpper(KUBE_EXAMPLE)
  {
    var s := KUBE_EXAMPLE;
    assert forall k :: 0 <= k < 18 ==> s[k] == KUBE_PREFIX[k];
    assert forall k :: 0 <= k < 18 ==> !IsAsciiUpper(KUBE_PREFIX[k]);
    assert forall k :: 18 <= k < |s| ==> s[k] == KUBE_NAME[k - 18];
    assert forall k :: 0 <= k < |KUBE_NAME| ==> !IsAsciiUpper(KUBE_NAME[k]);
  }

  /** After its tag, the example is one run of non-space characters: the cluster name. */
  lemma KubeExampleRun()
    ensures TailCaptureAt(KUBE_EXAMPLE, KUBE_PREFIX, 0)
    ensures RunText(KUBE_EXAMPLE, 18, NonSpace) == KUBE_NAME
  {
    var s := KUBE_EXAMPLE;
    assert |KUBE_PREFIX| == 18 && s[18..] == KUBE_NAME && s[..18] == KUBE_PREFIX;
    assert forall k :: 18 <= k < |s| ==> s[k] == KUBE_NAME[k - 18];
    assert forall k :: 0 <= k < |KUBE_NAME| ==> !IsSpace(KUBE_NAME[k]);
    RunToEnd(s, 18, NonSpace);
  }

  /** The example holds no `mbt`: its only `m`s are followed by `e`, `m` and `-`. */
  lemma NoMbtInKubeExample()
    ensures !Contains(KUBE_EXAMPLE, "mbt")
  {
    var s := KUBE_EXAMPLE;
    forall i | 0 <= i <= |s| - 3 ensures !OccursAt(s, "mbt", i) {
      assert s[i..i + 3][1] == s[i + 1];
      assert s[i + 1] != 'b' || s[i] != 'm';
    }
  }

  /** The example holds no space and no `h`. */
  lemma KubeExampleLacksSpaceAndH()
    ensures ' ' !in KUBE_EXAMPLE && 'h' !in KUBE_EXAMPLE
  {
    assert ' ' !in KUBE_PREFIX && ' ' !in KUBE_NAME by {}
    assert 'h' !in KUBE_PREFIX && 'h' !in KUBE_NAME by {}
  }

  /**
   * The specific rule for `kube_cluster_name:ecomm-prod-scus1` is never reached:
   * the generic rule labels it "ecomm-prod-scus1", not "ecomm-prod01-scus1".
   */
  lemma KubeExample()
    ensures GetAlertType(Text(KUBE_EXAMPLE)) == KUBE_NAME
  {
    var s := KUBE_EXAMPLE;
    KubeExampleIsLower();
    KubeExampleRun();
    LowerOfNoUpper(s);
    NoMbtInKubeExample();
    KubeExampleLacksSpaceAndH();
    RequestRulesMiss(s);
    AccountRulesMiss(s);
    PlatformRulesMiss(s);
    EarlyCaptureRulesMiss(s);
    ClusterTagDecides(s);
  }

  /**
   * `classify_alerts(df)`: writes the Alert Type of every row into the frame
   * it is given; rows and every other column are left as they are.
   */
  method ClassifyAlerts(a: array<Row>)
    modifies a
    ensures forall j :: 0 <= j < a.Length ==>
      a[j] == old(a[j]).(alertType := Text(GetAlertType(old(a[j]).summary)))
  {
    UpdateAll(a, (r: Row) => r.(alertType := Text(GetAlertType(r.summary))));
  }

  // ----- priority levels -----

  /** `df['Priority'].astype(str).str.strip().str.title()` on one cell. */
  function NormPriority(c: Cell): string {
    Title(Strip(StrOf(c)))
  }

  /** `norm_priority.map(PRIORITY_MAP)` followed by `.fillna(norm_priority)`. */
  function MappedLevel(c: Cell): (r: string)
    ensures NormPriority(c) in PRIORITY_MAP ==> r == PRIORITY_MAP[NormPriority(c)] && r in PRIORITY_CODES
    ensures NormPriority(c) !in PRIORITY_MAP ==> r == NormPriority(c)
  {
    PriorityMapKeysAndValuesDisjoint();
    var n := NormPriority(c);
    if n in PRIORITY_MAP then PRIORITY_MAP[n] else n
  }

  /** The lower-cased statuses that mark a ticket cancelled (compared without stripping). */
  const CANCELLED_STATUSES: set<string> := {"canceled", "cancelled", "closed", "resolved"}

  predicate IsCancelledStatus(status: Cell) {
    Lower(StrOf(status)) in CANCELLED_STATUSES
  }

  /** The Priority Level `define_priority` gives one row. */
  function PriorityLevel(r: Row): (level: string)
    ensures IsCancelledStatus(r.status) ==> level == "Cancelled"
    ensures !IsCancelledStatus(r.status) ==> level == MappedLevel(r.priority)
  {
    if IsCancelledStatus(r.status) then "Cancelled" else MappedLevel(r.priority)
  }

  /**
   * `define_priority(df)`: the mapped level is written into every row first,
   * then the rows with a cancelled status are overwritten with "Cancelled".
   */
  method DefinePriority(a: array<Row>)
    modifies a
    ensures forall j :: 0 <= j < a.Length ==>
      a[j] == old(a[j]).(priorityLevel := Text(PriorityLevel(old(a[j]))))
  {
    UpdateAll(a, (r: Row) => r.(priorityLevel := Text(MappedLevel(r.priority))));
    UpdateWhere(a, (r: Row) => IsCancelledStatus(r.status), (r: Row) => r.(priorityLevel := Text("Cancelled")));
  }

  /** The level ignores the letter case of the priority and its surrounding whitespace. */
  lemma MappedLevelIgnoresCase(x: string)
    ensures MappedLevel(Text(Lower(x))) == MappedLevel(Text(x))
    ensures MappedLevel(Text(Strip(x))) == MappedLevel(Text(x))
  {
    StripLowerCommute(x);
    TitleIgnoresCase(Strip(x));
    StripIdempotent(x);
  }

  /**
   * A priority that is one word of letters, whose title-cased form is `title`,
   * is looked up under `title`, or kept as `title` when the table lacks it.
   */
  lemma MappedLevelOfWord(x: string, title: string)
    requires x != [] && forall k :: 0 <= k < |x| ==> IsAsciiLetter(x[k])
    requires [UpperChar(x[0])] + Lower(x[1..]) == title
    ensures MappedLevel(Text(x)) == if title in PRIORITY_MAP then PRIORITY_MAP[title] else title
  {
    StripOfStripped(x);
    TitleOfWord(x);
  }

  /** Lower-case table keys are found after title-casing: `highest` is P1. */
  lemma HighestIsP1(x: string)
    requires x == "highest"
    ensures MappedLevel(Text(x)) == "P1"
  {
    LowerOfNoUpper("ighest");
    MappedLevelOfWord(x, "Highest");
  }

  /** `medium`, the default `clean_data` fills in, is P3. */
  lemma MediumIsP3(x: string)
    requires x == "medium"
    ensures MappedLevel(Text(x)) == "P3"
  {
    LowerOfNoUpper("edium");
    MappedLevelOfWord(x, "Medium");
  }

  /** Upper-case table keys are found too: `MEDIUM` is P3. */
  lemma UpperMediumIsP3(x: string)
    requires x == "MEDIUM"
    ensures MappedLevel(Text(x)) == "P3"
  {
    assert Lower("EDIUM") == "edium";
    MappedLevelOfWord(x, "Medium");
  }

  /** A priority the table lacks is kept in its normalised form: `critical` becomes "Critical". */
  lemma CriticalIsKept(x: string)
    requires x == "critical"
    ensures MappedLevel(Text(x)) == "Critical"
  {
    LowerOfNoUpper("ritical");
    MappedLevelOfWord(x, "Critical");
  }

  /** A missing priority reads as "nan" and is kept as "Nan". */
  lemma MissingPriorityIsNan(c: Cell)
    requires c.Null?
    ensures MappedLevel(c) == "Nan"
  {
    LowerOfNoUpper("an");
    MappedLevelOfWord(StrOf(c), "Nan");
  }

  /** The status override: any letter case, but no stripping, and a missing status is never cancelled. */
  lemma CancelledStatusExamples()
    ensures IsCancelledStatus(Text("Canceled")) && IsCancelledStatus(Text("CLOSED"))
    ensures !IsCancelledStatus(Text("closed ")) && !IsCancelledStatus(Null)
  {
    assert Lower("Canceled") == "canceled";
    assert Lower("CLOSED") == "closed";
    assert Lower("closed ") == "closed ";
    assert Lower("nan") == "nan";
  }

  /**
   * `clean_data` runs before `define_priority`: lower-casing and stripping a
   * present priority does not change its level, and a missing one becomes
   * "medium", which maps to P3.
   */
  lemma CleaningKeepsMappedLevel(r: Row)
    ensures r.priority.Text? ==> MappedLevel(CleanRow(r).priority) == MappedLevel(r.priority)
    ensures r.priority.Null? ==> MappedLevel(CleanRow(r).priority) == "P3"
  {
    CleanRowNormalises(r);
    CleanRowDefaults(r);
    if r.priority.Text? {
      var x := r.priority.s;
      MappedLevelIgnoresCase(x);
      MappedLevelIgnoresCase(Lower(x));
    } else {
      MediumIsP3(CleanRow(r).priority.s);
    }
  }
}
