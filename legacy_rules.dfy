/**
 * The rule list of the legacy `get_alert_type`: 56 patterns, each with the
 * label it gives a summary in which `re.search` finds it.
 */
module LegacyRules {
  import opened Patterns

  /** A rule's label: a fixed text, or a prefix followed by the captured group. */
  datatype Label = Fixed(text: string) | Captured(prefix: string)

  datatype Rule = Rule(shape: Shape, category: Label)

  /** The label a rule produces when its search captured `group` ("" for shapes without a group). */
  function LabelText(l: Label, group: string): string {
    match l
    case Fixed(t) => t
    case Captured(p) => p + group
  }

  const RULE_COUNT := 56

  /** The tag that precedes a cluster name in an alert summary. */
  const KUBE_PREFIX := "kube_cluster_name:"

  /** The head and tail of `cpu utilization above.*?on (\S+)`. */
  const CPU_HEAD := "cpu utilization above"
  const CPU_TAIL := "on "

  /** The head and tail of `\boutage reporting\b.*?for (\S+)`. */
  const OUTAGE_HEAD := "outage reporting"
  const OUTAGE_TAIL := "for "

  /**
   * The patterns of `get_alert_type`, in order. A trailing `.*` is dropped
   * (it matches the empty string, so it never decides whether a search succeeds),
   * and `kube_cluster_name:(\S+)` returns its group as the label.
   */
  function RuleAt(k: nat): Rule
    requires k < RULE_COUNT
  {
    if k < 7 then RequestRules(k)
    else if k < 10 then CaptureRules(k - 7)
    else if k < 19 then PlainRules(k - 10)
    else if k < 33 then ClusterTagRules(k - 19)
    else if k < 44 then ClusterNameRules(k - 33)
    else KeywordRules(k - 44)
  }

  /** Requests and failures named by a fixed phrase. */
  function RequestRules(i: nat): Rule
    requires i < 7
  {
    match i
    case 0 => Rule(Literal("mbt"), Fixed("MBT"))
    case 1 => Rule(OptionalLeadWord("team ", "change request"), Fixed("Change Request"))
    case 2 => Rule(Word("troubleshooting"), Fixed("Troubleshooting"))
    case 3 => Rule(Word("password reset request"), Fixed("Password Reset Request"))
    case 4 => Rule(Word("user provisioning request"), Fixed("User Provisioning Request"))
    case 5 => Rule(Word("terraform failed to generate plan"), Fixed("Terraform Plan Failed"))
    case _ => Rule(Word("snowflake public key"), Fixed("Snowflake Public Key"))
  }

  /** The three rules whose label is built from a captured group. */
  function CaptureRules(i: nat): Rule
    requires i < 3
  {
    match i
    case 0 => Rule(LazyCapture(CPU_HEAD, false, CPU_TAIL), Captured("High CPU Utilization on "))
    case 1 => Rule(LazyCapture(OUTAGE_HEAD, true, OUTAGE_TAIL), Captured("Outage Reporting for "))
    case _ => Rule(DirectCapture(KUBE_PREFIX), Captured(""))
  }

  /** Plain forms of the phrases above. */
  function PlainRules(i: nat): Rule
    requires i < 9
  {
    match i
    case 0 => Rule(Word("team change"), Fixed("Team Change Request"))
    case 1 => Rule(Word("troubleshooting"), Fixed("Troubleshooting"))
    case 2 => Rule(Word("password reset request"), Fixed("Password Reset Request"))
    case 3 => Rule(Word("user provisioning request"), Fixed("User Provisioning Request"))
    case 4 => Rule(Word("terraform failed to generate plan"), Fixed("Terraform Plan Failed"))
    case 5 => Rule(Word("snowflake public key"), Fixed("Snowflake Public Key"))
    case 6 => Rule(Word("cpu utilization above"), Fixed("High CPU Utilization"))
    case 7 => Rule(Word("change request"), Fixed("Change Request"))
    case _ => Rule(Word("outage reporting"), Fixed("Outage Reporting"))
  }

  /** Cluster names given by a `kube_cluster_name:` tag. */
  function ClusterTagRules(i: nat): Rule
    requires i < 14
  {
    match i
    case 0 => Rule(Literal(KUBE_PREFIX + "apps-prod-01"), Fixed("apps-prod-01"))
    case 1 => Rule(Literal(KUBE_PREFIX + "ecomm-prod01-scus1"), Fixed("ecomm-prod01-scus1"))
    case 2 => Rule(Literal(KUBE_PREFIX + "ecomm-prod-scus1"), Fixed("ecomm-prod01-scus1"))
    case 3 => Rule(Literal(KUBE_PREFIX + "de-airflow-production"), Fixed("de-airflow-production"))
    case 4 => Rule(Literal(KUBE_PREFIX + "de-airflow-staging"), Fixed("de-airflow-staging"))
    case 5 => Rule(Literal(KUBE_PREFIX + "airflow-prod-01"), Fixed("airflow-prod-01"))
    case 6 => Rule(Literal(KUBE_PREFIX + "cdp-production"), Fixed("cdp-production"))
    case 7 => Rule(Literal(KUBE_PREFIX + "cdp-staging"), Fixed("cdp-staging"))
    case 8 => Rule(Literal(KUBE_PREFIX + "pepdirect"), Fixed("pepdirect"))
    case 9 => Rule(Literal(KUBE_PREFIX + "automation-api-heartbeat"), Fixed("Automation API Heartbeat"))
    case 10 => Rule(Literal(KUBE_PREFIX + "terraform-drift"), Fixed("terraform drift"))
    case 11 => Rule(Literal(KUBE_PREFIX + "wiz-finding"), Fixed("Wiz findings"))
    case 12 => Rule(Literal(KUBE_PREFIX + "wiz"), Fixed("wiz"))
    case _ => Rule(Literal("airflow2 cdp"), Fixed("cdp-staging"))
  }

  /** Cluster names without the tag. */
  function ClusterNameRules(i: nat): Rule
    requires i < 11
  {
    match i
    case 0 => Rule(Word("apps-prod-01"), Fixed("apps-prod-01"))
    case 1 => Rule(Word("ecomm-prod01-scus1"), Fixed("ecomm-prod01-scus1"))
    case 2 => Rule(Word("ecomm-prod-scus1"), Fixed("ecomm-prod01-scus1"))
    case 3 => Rule(Word("de-airflow-production"), Fixed("de-airflow-production"))
    case 4 => Rule(Word("de-airflow-staging"), Fixed("de-airflow-staging"))
    case 5 => Rule(Word("airflow-prod-01"), Fixed("airflow-prod-01"))
    case 6 => Rule(Word("cdp-production"), Fixed("cdp-production"))
    case 7 => Rule(Word("cdp-staging"), Fixed("cdp-staging"))
    case 8 => Rule(Word("staging cdp"), Fixed("cdp-staging"))
    case 9 => Rule(Word("pepdirect"), Fixed("pepdirect"))
    case _ => Rule(Word("automation api heartbeat"), Fixed("Automation API Heartbeat"))
  }

  /** Other keywords. */
  function KeywordRules(i: nat): Rule
    requires i < 12
  {
    match i
    case 0 => Rule(Word("terraform drift"), Fixed("terraform drift"))
    case 1 => Rule(Word("wiz finding"), Fixed("Wiz findings"))
    case 2 => Rule(Word("wiz"), Fixed("wiz"))
    case 3 => Rule(Word("aws guardduty"), Fixed("AWS GuardDuty"))
    case 4 => Rule(Word("snyk"), Fixed("Snyk"))
    case 5 => Rule(Word("gha"), Fixed("GHA"))
    case 6 => Rule(Word("github actions"), Fixed("GHA"))
    case 7 => Rule(Word("ebs volume"), Fixed("EBS Volume"))
    case 8 => Rule(Word("ebs volumes"), Fixed("EBS Volume"))
    case 9 => Rule(Word("cert-manager"), Fixed("cert-manager"))
    case 10 => Rule(Word("airflow-dpi"), Fixed("airflow-dpi"))
    case _ => Rule(Word("simple-machine"), Fixed("simple-machine"))
  }

  /** What a rule's category can be: no fixed label reads "Other", and only the first reads "MBT". */
  predicate CategoryShape(c: Label, first: bool) {
    match c
    case Fixed(t) => t != "Other" && (!first ==> t != "MBT")
    case Captured(p) => p in {"", "High CPU Utilization on ", "Outage Reporting for "}
  }

  /** No rule's label is "Other", only the first is "MBT", and the capture prefixes are the three above. */
  lemma RuleCategories()
    ensures forall k :: 0 <= k < RULE_COUNT ==> CategoryShape(RuleAt(k).category, k == 0)
  {
    RequestCategories();
    CaptureAndPlainCategories();
    ClusterCategories();
    KeywordCategories();
  }

  lemma RequestCategories()
    ensures forall i :: 0 <= i < 7 ==> CategoryShape(RequestRules(i).category, i == 0)
  {
  }

  lemma CaptureAndPlainCategories()
    ensures forall i :: 0 <= i < 3 ==> CategoryShape(CaptureRules(i).category, false)
    ensures forall i :: 0 <= i < 9 ==> CategoryShape(PlainRules(i).category, false)
  {
  }

  lemma ClusterCategories()
    ensures forall i :: 0 <= i < 14 ==> CategoryShape(ClusterTagRules(i).category, false)
    ensures forall i :: 0 <= i < 11 ==> CategoryShape(ClusterNameRules(i).category, false)
  {
  }

  lemma KeywordCategories()
    ensures forall i :: 0 <= i < 12 ==> CategoryShape(KeywordRules(i).category, false)
  {
  }
}
