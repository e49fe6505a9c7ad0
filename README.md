# Ticket normalisation and classification, modelled in Dafny

This project models the part of the weekly Jira report bot that turns tickets
into report data. It covers both generations of that pipeline.

**The current pipeline** fetches issues from Jira and turns each one into a
flat record:
- defaults are filled in for missing fields;
- a cluster and a namespace token are extracted from the summary by two
  configured regular expressions;
- a `cancelled` flag is set when a keyword is a substring of the summary or
  the status.

The resulting frame is then processed in two steps:
- it is deduplicated by ticket key (the first row of each key is kept);
- its priorities are classified through the priority table.

The handler fetches every query page by page, with an optional time-limited
cache per query template. On top of that it computes the P1 selection, the
column distributions, the triage ratio of the support board and the weekly
ticket trend.

The priority is mapped through the table twice: once when the record is built
and again by the classification. No value in the table is also a key, so every
ticket of a non-empty batch ends with priority "Unknown", and the P1 selection
is always empty. The model reproduces this as written
(`JiraHandler.DoubleMappingGivesUnknown`, `JiraHandler.NoP1Tickets`).

**The legacy pipeline** works on a CSV dump. It runs these steps:
- it drops the rows in which every cell is missing;
- it fills the missing Summary, Assignee and Priority cells, then lower-cases
  and strips those three columns;
- it labels every row with an alert type. The label comes from an ordered
  cascade of 56 regular-expression rules, and the first rule that matches
  decides;
- it sets a priority level: the title-cased priority is looked up in the
  table, and a cancelled status overrides it with "Cancelled";
- it lists the tickets cancelled by a watched assignee in a tab-separated
  file;
- it prepares the chart data:
  - the split of the frame into alerts and user requests;
  - the alert-type by priority-level table, sorted by row total and reindexed
    to five columns;
  - the colours;
  - the P1 list;
  - the reason counts read back from the cancellation file.

**Modelling choices:**
- Regular expressions are modelled shape by shape, with Python's `re.search`
  semantics: leftmost start, alternatives in order, and greedy and lazy
  repetition (module `Patterns`).
- Text operations are modelled over ASCII.
- Jira is an abstract page source: a function from query and offset to a page.
- The clock is an integer number of seconds, passed in by the caller.
- The configuration holds the default of every setting that the environment
  could override:
  - page size 50;
  - request timeout 10;
  - project "ISD";
  - 7 report days;
  - cache time-to-live 3600 seconds.
- Columns that the source writes into the caller's frame are modelled as
  methods that update an array of rows in place.

**Behaviour of the code that the model keeps as written:**
- The current pipeline neither strips nor title-cases a raw priority before
  the lookup, and it maps the priority twice.
- With the API switched off, `_fetch_issues` returns an empty list for any
  template key, known or not.
- The current pipeline logs no warning for unmapped priorities, and no alert
  label is derived from the namespace.

## Model

| member | source | states |
|---|---|---|
| Config.Format | jira_handler.py:42 | `str.format` on a template raises KeyError exactly when some placeholder has no value, and it names the leftmost such placeholder |
| Config.Decimal | config.py:27 | `str(n)`: a non-empty string of decimal digits whose value is n |
| Config.FirstUnboundRaises | jira_handler.py:42 | the KeyError names the first placeholder without a value |
| Config.ProjectAndDaysSuffice | jira_handler.py:42 | a template whose placeholders are only the project and the day count formats without error |
| Config.AllTicketsQuery | config.py:31-35 | the all-tickets template formats to `project = ISD AND created >= -7d ORDER BY createdDate DESC` |
| Config.ReportTemplatesFormat | config.py:31-65 | the five report templates all format to JQL text |
| Config.ScopedTemplatesRaiseKeyError | config.py:67-79 | the cluster and namespace templates raise KeyError('cluster') and KeyError('namespace') when formatted with project and days only |
| Config.ScopedTemplateRaisesKeyError | config.py:67-79 | one scoped template raises KeyError for its own placeholder |
| Config.PriorityMapKeysAndValuesDisjoint | config.py:113-119 | the table's values are exactly P1, P2, P3, P4 and Unknown, and none of them is a key |
| Config.CancelledKeywordsWellFormed | config.py:122-126 | every cancellation keyword is non-empty and lower-case |
| Config.EnableCaching | config.py:148 | caching is on exactly when an environment value is present and lower-cases to "true"; the default "false" leaves it off |
| Config.EnableCachingCases | config.py:148 | the default is off; "TRUE" and "True" turn it on; " true", "1" and "yes" do not (no stripping) |
| Cancelled.AnyKeywordIn | cancelled.py:13-14 | `any(kw in s ...)` holds exactly when some keyword is a substring of `s` |
| Cancelled.CancelledMask | cancelled.py:11-14 | a row is flagged exactly when some keyword is a substring of the lower-cased summary or of the lower-cased status |
| Cancelled.SubstringsAreFlagged | cancelled.py:13 | matching is by substring: "Disclosed credentials" and "Alert unresolved" are flagged |
| Cancelled.EmptyTextIsNotFlagged | cancelled.py:13-14 | an empty summary with an empty status is not flagged |
| Cancelled.MaskIgnoresCase | cancelled.py:11-12 | the flag does not depend on the letter case of summary or status |
| Cancelled.DetectCancelled | cancelled.py:11-16 | only the `cancelled` column of each row is rewritten, with that row's mask; rows and the other columns stay as they were |
| Classification.NormalizePriority | classification.py:11 | a table key gives its value and any other value gives "Unknown"; the result is always one of the five codes |
| Classification.NormalizeCodeIsUnknown | classification.py:11 | normalising an already-normalised code gives "Unknown" |
| Classification.NormalizeTwiceIsUnknown | classification.py:11 | normalising twice sends every value to "Unknown" ("Highest" gives P1, then "P1" gives Unknown) |
| Classification.ClassifyFrame | classification.py:9-11 | same number of rows, same order, each row's priority replaced by its table value or "Unknown", every other field unchanged; every priority one of the five codes |
| Classification.ClassifyKeepsKeys | classification.py:11 | the key set is kept, so unique keys stay unique |
| Classification.ClassifyPriorities | classification.py:9-12 | the caller's rows are rewritten in place to the classified frame; an empty frame is left unchanged |
| DataCleaning.KeptRows | data_cleaning.py:19 | the kept positions are strictly increasing and lie inside the frame |
| DataCleaning.KeptRowsAreFirst | data_cleaning.py:19 | every kept position holds the first row of its key |
| DataCleaning.KeptRowsComplete | data_cleaning.py:19 | the first row of every key is kept |
| DataCleaning.FirstOfKeyBefore | data_cleaning.py:19 | every row has a first row of its key at or before it |
| DataCleaning.DedupKeepsKeys | data_cleaning.py:19 | deduplication never adds rows, leaves no two rows with the same key, and keeps every key |
| DataCleaning.CleanDataframe | data_cleaning.py:11-12 | an empty frame is returned unchanged |
| DataCleaning.KeptRowsOfUnique | data_cleaning.py:19 | when keys are already unique, every position is kept |
| DataCleaning.DedupOfUnique | data_cleaning.py:19 | a frame with unique keys is left as it is |
| DataCleaning.CleanIdempotent | data_cleaning.py:11-19 | cleaning a cleaned frame changes nothing |
| DataCleaning.CleanKeepsKeys | data_cleaning.py:11-19 | the cleaned frame has the same keys, unique, no more rows than the input, and is empty only for an empty input |
| DataCleaning.CleanRowsComeFromFrame | data_cleaning.py:19 | each cleaned row is the input row at its kept position, in order |
| Counting.ValueCounts | jira_handler.py:133 | each value of the column is counted by how many rows hold it; values that do not occur are absent |
| Counting.ConstantColumnCounts | jira_handler.py:133 | a non-empty column holding one value counts every row under that value |
| JiraHandler.ExtractPattern | jira_handler.py:71-77 | "Unknown" when no pattern is configured for the key or it does not match; otherwise a token of `[a-zA-Z0-9-]` characters that occurs in the summary |
| JiraHandler.ExtractIsLeftmost | jira_handler.py:76-77 | the extracted value is capture group 1 of the match at the leftmost matching position |
| JiraHandler.ExtractFromEmptySummary | jira_handler.py:71-77 | an empty summary extracts "Unknown" for both keys |
| JiraHandler.NamespaceFoundInsideWord | config.py:108 | `ns` is not word-anchored: "transactions foo" yields namespace "foo" |
| JiraHandler.NoNamespacePrefixBefore10 | config.py:108 | in "transactions foo" the namespace pattern matches at no position before 10 |
| JiraHandler.NsWithoutTokenAt3 | config.py:108 | the "ns" inside "transactions" is followed by a letter, not a separator |
| JiraHandler.NoPrefixAt | config.py:108 | no other position before 10 starts "namespace" or "ns" |
| JiraHandler.NamespaceMatchAt10 | config.py:108 | at position 10 the pattern captures "foo" |
| JiraHandler.NamespacePrefixAt10 | config.py:108 | at position 10 the second alternative, "ns", is the one found |
| JiraHandler.TokenAfterAt12 | config.py:108 | the separator and token after that "ns" give "foo" |
| JiraHandler.EitherIsUnionOfAny | jira_handler.py:95 | `any(kw in a or kw in b)` equals `any(kw in a) or any(kw in b)` |
| JiraHandler.FlagAgreesWithDetectCancelled | jira_handler.py:94-95 | the per-record flag equals the column mask of `detect_cancelled` on every summary and status |
| JiraHandler.MapOrKeep | jira_handler.py:86 | a table key is mapped, and any other raw priority is kept as it is |
| JiraHandler.BuildRecord | jira_handler.py:82-107 | the record keeps the key and the created time; summary, status and assignee are the issue's or "", "Unknown" and "Unassigned"; the priority is the issue's (or "Unassigned") mapped through the table or kept, so a code or an unmapped value; its flag is the cancelled mask; cluster and namespace are the extractions from its summary |
| JiraHandler.RecordDefaults | jira_handler.py:84-89 | with every field missing: summary "", priority "Unknown" (via "Unassigned"), status "Unknown", assignee "Unassigned", cluster and namespace "Unknown", not cancelled |
| JiraHandler.EmptyTextIsNotFlaggedWithStatus | jira_handler.py:87-95 | an empty summary with the default status "Unknown" is not flagged |
| JiraHandler.DoubleMappingGivesUnknown | jira_handler.py:86-111 | mapping when the record is built and again in `classify_priorities` gives "Unknown" for every raw priority |
| JiraHandler.Records | jira_handler.py:81-107 | one record per issue, in issue order |
| JiraHandler.RecordKeys | jira_handler.py:97-98 | the records carry exactly the issues' keys |
| JiraHandler.UnknownAfterPipeline | jira_handler.py:108-111 | every row after cleaning and classification has priority "Unknown" |
| JiraHandler.FrameOfFacts | jira_handler.py:79-113 | the frame has one row per distinct key, no more rows than issues, is empty only for no issues, and every priority is "Unknown" |
| JiraHandler.FrameOfEmpty | jira_handler.py:79-113 | the frame is empty exactly when there are no issues |
| JiraHandler.ToDataFrame | jira_handler.py:79-113 | the frame built by the record loop, cleaned and classified, with the properties of FrameOfFacts |
| JiraHandler.FetchAllPages | jira_handler.py:51-64 | the paging loop returns the in-order concatenation of pages; it stops after an empty or short page and advances by the page size |
| JiraHandler.CollectStep | jira_handler.py:59-64 | an empty page ends with nothing more, a short page is the last, and a full page is followed by the pages from the next offset |
| JiraHandler.CollectGathersAll | jira_handler.py:51-64 | paging through a server that serves slices of a list collects exactly that list |
| JiraHandler.FetchWhenDisabled | jira_handler.py:35-37 | with the API off the result is empty for any template key, and the cache is untouched |
| JiraHandler.FetchUnknownTemplate | jira_handler.py:39-41 | an unknown key raises ValueError before the cache is read or a page is fetched |
| JiraHandler.FetchScopedTemplates | jira_handler.py:42 | the cluster and namespace templates raise KeyError before any fetch |
| JiraHandler.FetchCacheBehaviour | jira_handler.py:44-67 | with caching on, cached data is returned and the cache kept exactly when the entry exists and is younger than the time-to-live; otherwise the pages are fetched and the entry is overwritten with them and the current time |
| JiraHandler.FetchRepeatWithinTtl | jira_handler.py:44-49 | a second fetch within the time-to-live returns the first result even if the server has changed |
| JiraHandler.TriagePercent | jira_handler.py:153-157 | 100 exactly when total or untriaged is 0; in [0, 100) when 0 < untriaged <= total; negative (not clamped) when untriaged > total |
| JiraHandler.TriagePercentHalf | jira_handler.py:153-157 | (10, 5) gives 50, (0, 3) gives 100, (4, 6) gives -50 |
| JiraHandler.P1Rows | jira_handler.py:123 | the selection is the rows of the frame whose priority is "P1", in frame order: only such rows, and every one of them |
| JiraHandler.MapOrKeepHighest | jira_handler.py:123 | `PRIORITY_MAP.get('Highest', 'Highest')` is "P1" |
| JiraHandler.NoP1Tickets | jira_handler.py:120-123 | no report frame holds a P1 row, so the P1 selection is empty |
| JiraHandler.NoP1Rows | jira_handler.py:123 | a frame without P1 priorities selects nothing |
| JiraHandler.Values | jira_handler.py:133-143 | a column read in row order, one value per row |
| JiraHandler.PriorityDistributionIsUnknown | jira_handler.py:130-133 | the priority distribution of a non-empty batch counts every row under "Unknown" |
| JiraHandler.PriorityDistributionKeys | jira_handler.py:130-133 | any successful priority distribution has the single key "Unknown" |
| JiraHandler.Handler.constructor | jira_handler.py:19-31 | a handler starts with an empty cache |
| JiraHandler.Handler.FetchIssues | jira_handler.py:33-69 | `_fetch_issues`: the guard, the template check, the cache lookup, the paging loop and the cache write, with outcome and new cache exactly those of `FetchSpec` on the inputs and the old cache |
| JiraHandler.Handler.GetAllTickets | jira_handler.py:115-118 | the all-tickets fetch turned into the report frame, or its error |
| JiraHandler.Handler.GetUnclassifiedTickets | jira_handler.py:125-128 | the unclassified fetch turned into the report frame, or its error |
| JiraHandler.Handler.GetP1Tickets | jira_handler.py:120-123 | the result is always empty when it succeeds; an empty batch raises KeyError('priority') |
| JiraHandler.Handler.GetDistribution | jira_handler.py:130-143 | `value_counts` of the priority, cluster or namespace column; KeyError for an empty batch; the priority distribution has only "Unknown" |
| JiraHandler.Handler.GetInitialTroubleshootingMetrics | jira_handler.py:145-159 | the two board fetches in order, then (total, untriaged, TriagePercent); the first error is passed on |
| JiraHandler.Handler.GetWeeklyTrend | jira_handler.py:161-194 | for weeks >= 1: exactly `weeks` contiguous seven-day windows, oldest first, from now - weeks*7 days to now, each with the size of its collected pages; none for weeks <= 0; AttributeError without a client |
| LegacyFrame.StrOf | script_old/classification.py:11 | `str()` of a cell: the text, or "nan" for a missing cell |
| LegacyFrame.FillCell | script_old/data_cleaning.py:11-13 | `fillna(d)`: a present cell is kept and a missing one becomes d |
| LegacyFrame.ProjectedEntries | script_old/main.py:27 | the key/summary projection lists exactly the key and summary of each row |
| LegacyCleaning.NormalTextIsNormal | script_old/data_cleaning.py:16-18 | lower-casing then stripping leaves no upper-case letter and no outer whitespace |
| LegacyCleaning.NormalTextIdempotent | script_old/data_cleaning.py:16-18 | lower-casing and stripping again changes nothing |
| LegacyCleaning.CleanData | script_old/data_cleaning.py:8-20 | the rows with a value, filled and normalised column by column, equal the cleaned frame |
| LegacyCleaning.CleanedRows | script_old/data_cleaning.py:8-18 | one row per row with a value; Summary, Assignee and Priority present, lower-case and stripped |
| LegacyCleaning.CleanRowIsClean | script_old/data_cleaning.py:11-18 | a cleaned row has the three columns present, lower-case and stripped |
| LegacyCleaning.CleanAppend | script_old/data_cleaning.py:8 | dropping all-missing rows keeps the others in order (cleaning distributes over concatenation) |
| LegacyCleaning.CleanRowDefaults | script_old/data_cleaning.py:11-18 | missing Summary, Assignee and Priority end as "", "unassigned" and "medium" |
| LegacyCleaning.DefaultsAreNormal | script_old/data_cleaning.py:11-18 | the three defaults lower-cased and stripped are "", "unassigned" and "medium" |
| LegacyCleaning.CleanRowNormalises | script_old/data_cleaning.py:16-18 | a present cell is lower-cased and stripped; every other column is unchanged |
| LegacyCleaning.CleanDataIdempotent | script_old/data_cleaning.py:8-18 | cleaning twice equals cleaning once |
| LegacyRules.RuleCategories | script_old/classification.py:13-93 | no rule's label is "Other", only the first is "MBT", and the three capture labels have the prefixes shown |
| LegacyRules.RequestCategories | script_old/classification.py:15-27 | the same for the request rules |
| LegacyRules.CaptureAndPlainCategories | script_old/classification.py:29-51 | the same for the capture rules and the plain phrase rules |
| LegacyRules.ClusterCategories | script_old/classification.py:53-78 | the same for the cluster rules |
| LegacyRules.KeywordCategories | script_old/classification.py:80-91 | the same for the keyword rules |
| LegacyClassification.Outcomes | script_old/classification.py:95-96 | one `re.search` outcome per rule |
| LegacyClassification.FirstFired | script_old/classification.py:95-101 | the first outcome that is a match, every earlier one being none |
| LegacyClassification.DecidingRule | script_old/classification.py:95-103 | the deciding rule fires, and no earlier rule fires; with no rule firing, the loop runs out |
| LegacyClassification.ContainedHasNoUpper | script_old/classification.py:11 | text found inside a lower-cased summary is lower-case |
| LegacyClassification.LabelOfRule | script_old/classification.py:13-93 | a rule applied to lower-case text never labels "Other", and only rule 0 labels "MBT" |
| LegacyClassification.DecidedLabel | script_old/classification.py:95-101 | the label of a firing rule on a lower-cased summary is not "Other" (and not "MBT" unless rule 0 fires) |
| LegacyClassification.OtherIffNoRuleFires | script_old/classification.py:95-103 | a summary is "Other" exactly when no rule's pattern is found in its lower-cased `str()` |
| LegacyClassification.MbtDecides | script_old/classification.py:15 | a summary is "MBT" exactly when its lower-cased text contains "mbt", even inside a word |
| LegacyClassification.AlertTypeReadsLowerText | script_old/classification.py:11 | the label ignores letter case, and a missing summary is read as "nan" |
| LegacyClassification.CoveredRuleNeverDecides | script_old/classification.py:95-101 | a rule that fires only where an earlier rule fires never decides |
| LegacyClassification.RepeatedRulesNeverDecide | script_old/classification.py:37-45 | the repeats of the troubleshooting, password, provisioning, terraform and snowflake rules never decide |
| LegacyClassification.ChangeRequestRuleNeverDecides | script_old/classification.py:49 | `\bchange request\b` is covered by `\b(team )?change request\b` and never decides |
| LegacyClassification.KubeLiteralNeverDecides | script_old/classification.py:53-65 | a `kube_cluster_name:<name>` literal is covered by `kube_cluster_name:(\S+)` |
| LegacyClassification.KubeLiteralRulesNeverDecide | script_old/classification.py:53-65 | the thirteen specific `kube_cluster_name:` rules (rules 19-31) never decide |
| LegacyClassification.AppsAndEcommLiteralsNeverDecide | script_old/classification.py:53-55 | the apps and ecomm tag rules never decide |
| LegacyClassification.AirflowLiteralsNeverDecide | script_old/classification.py:56-58 | the airflow tag rules never decide |
| LegacyClassification.CdpLiteralsNeverDecide | script_old/classification.py:59-61 | the cdp and pepdirect tag rules never decide |
| LegacyClassification.ToolLiteralsNeverDecide | script_old/classification.py:62-65 | the heartbeat, terraform and wiz tag rules never decide |
| LegacyClassification.CpuLabel | script_old/classification.py:29 | when the CPU rule decides, the label is "High CPU Utilization on " followed by the group its lazy capture finds |
| LegacyClassification.OutageLabel | script_old/classification.py:31 | when the outage rule decides, the label is "Outage Reporting for " followed by its group |
| LegacyClassification.KubeLabel | script_old/classification.py:33 | when the tag rule decides, the label is the non-space run after the leftmost `kube_cluster_name:` |
| LegacyClassification.AbsentAnchorNeverFires | script_old/classification.py:96-97 | a rule whose fixed text needs a character the summary lacks does not fire |
| LegacyClassification.RequestRulesMiss | script_old/classification.py:15-19 | rules 0-2 miss a text without "mbt", spaces and "h" |
| LegacyClassification.AccountRulesMiss | script_old/classification.py:21-23 | rules 3-4 miss a text without spaces |
| LegacyClassification.PlatformRulesMiss | script_old/classification.py:25-27 | rules 5-6 miss a text without spaces |
| LegacyClassification.EarlyCaptureRulesMiss | script_old/classification.py:29-31 | rules 7-8 miss a text without spaces |
| LegacyClassification.ClusterTagDecides | script_old/classification.py:33 | a text that opens with the tag and a non-space, and on which rules 0-8 miss, is labelled with its cluster name |
| LegacyClassification.KubeExampleIsLower | script_old/classification.py:55 | the example summary is lower-case |
| LegacyClassification.KubeExampleRun | script_old/classification.py:55 | after its tag the example is one non-space run, "ecomm-prod-scus1" |
| LegacyClassification.NoMbtInKubeExample | script_old/classification.py:55 | the example holds no "mbt" |
| LegacyClassification.KubeExampleLacksSpaceAndH | script_old/classification.py:55 | the example holds no space and no "h" |
| LegacyClassification.KubeExample | script_old/classification.py:33-55 | `kube_cluster_name:ecomm-prod-scus1` is labelled "ecomm-prod-scus1", not "ecomm-prod01-scus1" |
| LegacyClassification.ClassifyAlerts | script_old/classification.py:105 | every row of the caller's frame gets its Alert Type, in place; nothing else changes |
| LegacyClassification.MappedLevel | script_old/classification.py:120-125 | the stripped, title-cased priority is looked up; a key gives a code, and any other value is kept in its normalised form |
| LegacyClassification.PriorityLevel | script_old/classification.py:123-126 | "Cancelled" exactly for a cancelled status, otherwise the mapped level |
| LegacyClassification.DefinePriority | script_old/classification.py:115-127 | every row of the caller's frame gets its Priority Level in place: the mapped level, overwritten by "Cancelled" where the status is cancelled |
| LegacyClassification.MappedLevelIgnoresCase | script_old/classification.py:120 | the level does not change when the priority is lower-cased or stripped first |
| LegacyClassification.MappedLevelOfWord | script_old/classification.py:120-121 | a one-word priority is looked up under its title-cased form, or kept as that form |
| LegacyClassification.HighestIsP1 | script_old/classification.py:120-121 | "highest" maps to P1 |
| LegacyClassification.MediumIsP3 | script_old/classification.py:120-121 | "medium" maps to P3 |
| LegacyClassification.UpperMediumIsP3 | script_old/classification.py:120-121 | "MEDIUM" maps to P3 |
| LegacyClassification.CriticalIsKept | script_old/classification.py:121-125 | "critical" is not in the table and is kept as "Critical" |
| LegacyClassification.MissingPriorityIsNan | script_old/classification.py:120-125 | a missing priority reads as "nan" and becomes "Nan" |
| LegacyClassification.CancelledStatusExamples | script_old/classification.py:123-124 | the status test ignores case but does not strip: "Canceled" and "CLOSED" count, "closed " and a missing status do not |
| LegacyClassification.CleaningKeepsMappedLevel | script_old/classification.py:120-121 | after `clean_data` a present priority keeps its level, and a missing one maps to P3 |
| LegacyMain.GenerateCancellationFile | script_old/main.py:16-41 | the Assignee fill is written into the caller's frame; the file text is none for an empty selection, otherwise the header and one line per selected ticket |
| LegacyMain.WriteTickets | script_old/main.py:37-40 | the written text is the header line, then each ticket line, each ending in a newline |
| LegacyMain.AssigneeMatchesIff | script_old/main.py:26 | an Assignee matches exactly when it is present and some alternative, its dots matching any character, occurs in it |
| LegacyMain.DotsMatchAnyCharacter | script_old/main.py:26 | "oleg_kolomiets_contractor" matches, because the dots are wildcards |
| LegacyMain.FilledDefaultDoesNotMatch | script_old/main.py:21-26 | the filled "Unassigned" does not match (the search is case-sensitive) |
| LegacyMain.MissingAssigneeNotSelected | script_old/main.py:21-26 | a ticket whose Assignee is still missing is never selected |
| LegacyMain.CleanedMissingAssigneeMatches | script_old/main.py:54-68 | after `clean_data` a missing Assignee becomes "unassigned", which matches |
| LegacyMain.FillAfterCleaningChangesNothing | script_old/main.py:21 | on a cleaned frame the Assignee fill changes nothing |
| LegacyMain.SelectedStatusIsCancelled | script_old/main.py:25 | a selected ticket has a cancelled status and the level "Cancelled"; "cancelled", "closed" and "resolved" are never selected |
| LegacyMain.CancellationLinesShape | script_old/main.py:24-40 | no file exactly when no filled row is selected; otherwise 1 + n lines, the header first |
| LegacyMain.TicketLineFields | script_old/main.py:40 | a ticket line splits at tabs into key, summary and "No Reason Provided" |
| LegacyMain.HeaderFields | script_old/main.py:38 | the header splits into "Ticket ID", "Summary" and "Reason" |
| LegacyVisualization.ParseRow | script_old/visualization.py:15 | a data line becomes exactly as many cells as there are columns: each field parsed (NA strings become NaN), then NaN for every missing trailing field |
| LegacyVisualization.ColumnIndex | script_old/visualization.py:25 | `df['Reason']` reads the first column with that name |
| LegacyVisualization.PlotCancellationReasons | script_old/visualization.py:14-29 | the early returns (missing file, unreadable file, empty or no Reason column, no reasons), else each reason counted at least once; empty and whitespace-only lines are skipped before the header and after it |
| LegacyVisualization.KeptLines | script_old/visualization.py:15 | of a header and a whitespace-only line, only the header is kept, and only when it is not blank itself |
| LegacyVisualization.ReadWrittenTable | script_old/visualization.py:15 | reading back lines written one per line gives the header's columns and one parsed row per line, when no line is one that `read_csv` skips (empty, or a single whitespace-only field) |
| LegacyVisualization.WrittenLines | script_old/visualization.py:15 | splitting written text at newlines and skipping blank lines gives the lines back |
| LegacyVisualization.HeaderIsOneLine | script_old/main.py:38 | the header is a non-blank single line |
| LegacyVisualization.TicketLineParses | script_old/main.py:40 | a ticket line with plain fields reads back as key, summary and the placeholder reason |
| LegacyVisualization.ReadCancellationText | script_old/visualization.py:15 | reading the written cancellation text gives its three columns and one row per ticket |
| LegacyVisualization.ConstantReasons | script_old/visualization.py:25 | a Reason column with one value in every row yields that value once per row |
| LegacyVisualization.OneReasonChart | script_old/visualization.py:20-29 | a table whose rows all give one reason draws one bar, as tall as the table is long |
| LegacyVisualization.ReasonIsThirdColumn | script_old/visualization.py:20 | the written file has a Reason column, and it is the third |
| LegacyVisualization.CancellationFileChart | script_old/visualization.py:14-29 | the chart of the written file counts every listed ticket under "No Reason Provided" |
| LegacyVisualization.ReasonGuards | script_old/visualization.py:14-22 | a missing file stops at once; a header-only file, or one whose only other line is whitespace, is "empty or not properly formatted"; a file whose only line is whitespace cannot be read |
| LegacyVisualization.ViewsPartition | script_old/visualization.py:113-126 | the alerts view and the user-requests view split the frame: each row is in exactly one, according to its Alert Type |
| LegacyVisualization.LevelCounts | script_old/visualization.py:151-152 | one count for each of the five level columns |
| LegacyVisualization.CountZero | script_old/visualization.py:139-140 | a cell is 0 exactly when no row has that type and that level |
| LegacyVisualization.SumOfFive | script_old/visualization.py:143 | a five-cell row sums to its five cells |
| LegacyVisualization.LevelCountsSum | script_old/visualization.py:143 | a table row sums to the counts of P1, P2, P3, Cancelled and Other |
| LegacyVisualization.DrawnPlusDroppedIsTotal | script_old/visualization.py:143-152 | the five drawn counts plus the rows with a dropped level make up the total that orders the table |
| LegacyVisualization.FiveCountsPlusDropped | script_old/visualization.py:143-152 | the same, cell by cell |
| LegacyVisualization.GroupTypes | script_old/visualization.py:139-140 | each alert type with at least one grouped row appears once, and no other type appears |
| LegacyVisualization.SortByTotalSorted | script_old/visualization.py:143-144 | the sorted types are a permutation with totals in non-increasing order |
| LegacyVisualization.PriorityCrossTab | script_old/visualization.py:139-152 | each grouped type is a row, once, ordered by non-increasing total; cell (t, l) counts the rows with type t and level l, for the five columns in order |
| LegacyVisualization.LowAndUnknownAreDropped | script_old/visualization.py:151-152 | P4 and Unknown levels are not among the five columns |
| LegacyVisualization.PieColors | script_old/visualization.py:81 | one colour per label, in label order, each the table colour of its label or the grey fallback |
| LegacyVisualization.BarColors | script_old/visualization.py:155 | the five columns get red, orange, yellow, blue and grey |
| LegacyVisualization.GreyIsOtherOrUnknown | script_old/visualization.py:48-54 | the colour is the grey fallback exactly for "Other" and for any level the table lacks |
| LegacyVisualization.P1AlertsNone | script_old/visualization.py:215-219 | None exactly when no row has level "P1" |
| LegacyVisualization.P1AlertsListed | script_old/visualization.py:215 | every listed entry is the key and summary of a P1 row, and every P1 row is listed |
| LegacyVisualization.CancelledIsNeverP1 | script_old/visualization.py:215 | after `define_priority` a row is P1 exactly when its status is not cancelled and its priority maps to P1 |
| Patterns.Run | config.py:107-108 | a greedy run is maximal: every character in it is in the class, and the next one is not |
| Patterns.RunText | script_old/classification.py:29-33 | the text of a run occurs in the text at its start |
| Patterns.LazyGap | script_old/classification.py:29-31 | `.*?` takes the shortest newline-free gap after which the tail and a non-space follow, or fails when none does |
| Patterns.TryToken | config.py:107-108 | the backtracking of `[\s-]+` finds a token start exactly when one exists after some separators |
| Patterns.TokenAfter | config.py:107-108 | `[\s-]+([a-zA-Z0-9-]+)` fails exactly when no token start exists; otherwise it captures a token in the text |
| Patterns.FirstPrefixToken | config.py:107-108 | the first alternative prefix followed by a token decides the capture |
| Patterns.LazyMatchAt | script_old/classification.py:29-31 | a lazy-capture match captures text found in the summary |
| Patterns.DirectMatchAt | script_old/classification.py:33 | a `head(\S+)` match captures text found in the summary |
| Patterns.MatchAt | script_old/classification.py:96 | a match at a position captures text found in the summary |
| Patterns.Matches | script_old/classification.py:96 | one outcome per start position |
| Patterns.SearchNone | script_old/classification.py:96 | `re.search` finds nothing exactly when the shape matches at no position |
| Patterns.LeftmostMatch | jira_handler.py:76 | a successful search returns the match at the leftmost matching position |
| Patterns.SearchLeftmost | jira_handler.py:76 | the same, as an existence statement |
| Patterns.SearchIsLeftmost | jira_handler.py:76 | the search result is the match at the leftmost position |
| Patterns.PrefixedTokenCapture | config.py:107-108 | the extraction patterns capture a token that occurs in the text |
| Patterns.WildcardSearch | script_old/main.py:26 | an alternation with wildcard dots finds something exactly when some alternative matches somewhere |
| Patterns.LiteralSearchIsContains | script_old/classification.py:15 | an unanchored literal is found exactly when Python's `in` finds it |
| Patterns.OptionalLeadMatchAt | script_old/classification.py:17 | where `\b(team )?change request\b` matches, `\bchange request\b` matches at the same place or just after the lead |
| Patterns.OptionalLeadIsRedundant | script_old/classification.py:17 | the optional lead does not change whether the search succeeds |
| Patterns.MatchNeedsAnchor | script_old/classification.py:96 | a match contains the shape's fixed text |
| Patterns.SearchNeedsAnchor | script_old/classification.py:96 | a search succeeds only on text containing the shape's fixed text |
| Patterns.LiteralGivesDirectCapture | script_old/classification.py:33 | wherever `kube_cluster_name:<name>` is found, `kube_cluster_name:(\S+)` is too |
| Patterns.NonSpaceRun | script_old/classification.py:29-33 | an `\S+` group is non-empty and holds no whitespace |
| Patterns.LazyCaptureSearch | script_old/classification.py:29-31 | the CPU and outage captures: the leftmost head, then the first tail (on the same line) followed by a non-space, capturing the whole non-space run there |
| Patterns.DirectCaptureSearch | script_old/classification.py:33 | the tag capture: the leftmost tag followed by a non-space, capturing the run after it |
| Text.Lower | script_old/classification.py:11 | `str.lower` over ASCII: same length, each letter lower-cased |
| Text.LowerIdempotent | script_old/data_cleaning.py:16-18 | lower-casing twice equals lower-casing once |
| Text.Strip | script_old/data_cleaning.py:16-18 | `str.strip` leaves no whitespace at either end |
| Text.StripRemovesOnlySpaces | script_old/data_cleaning.py:16-18 | stripping removes only whitespace, from the two ends |
| Text.StripIdempotent | script_old/data_cleaning.py:16-18 | stripping twice equals stripping once |
| Text.StripLowerCommute | script_old/data_cleaning.py:16-18 | lower-casing and stripping commute |
| Text.TitleFrom | script_old/classification.py:120 | `str.title` keeps the length |
| Text.TitleIgnoresCase | script_old/classification.py:120 | title-casing ignores the input's letter case |
| Text.TitleOfWord | script_old/classification.py:120 | a one-word title is the first letter upper-cased and the rest lower-cased |
| Text.Split | script_old/visualization.py:15 | splitting at a separator gives at least one field |
| Text.SplitJoin | script_old/visualization.py:15 | splitting fields joined by a separator they do not contain gives them back |
| Text.SplitTerminated | script_old/visualization.py:15 | splitting newline-terminated lines at newlines gives the lines and one empty tail |
| Text.TerminatedSnoc | script_old/main.py:39-40 | writing one more line appends it and a newline |
| Seqs.UpdateAll | script_old/classification.py:105 | a column assignment rewrites every row of the caller's frame in place |
| Seqs.UpdateWhere | script_old/classification.py:126 | a masked `.loc` assignment rewrites exactly the rows that match the mask |
| Seqs.FilterPartition | script_old/visualization.py:113-126 | a mask and its negation split a sequence into two parts whose union is the sequence |
| Seqs.SortDescendingSorted | script_old/visualization.py:144 | a descending sort is a permutation in non-increasing key order |

## Left out

- Jira, Confluence, Slack, PDF and plotting calls: the client and `search_issues` become an abstract page source; nothing is drawn or sent.
- The environment reads of the configuration: each setting holds its default; the directory creation at import time is not modelled.
- Dates: `pd.to_datetime` of the created column (data_cleaning.py:15-16) is not modelled, and `created` stays an opaque text.
- JiraHandler.Handler.GetWeeklyTrend: the windows are whole seconds from the injected clock; the date-only `strftime` labels and the date truncation of the window JQL are not modelled, and each window's search is a query value rather than JQL text.
- JiraHandler.FetchAllPages: a page source is finite (it serves no results beyond a bound), so a server that returns full pages forever, on which the source's `while True` loop never ends, is not represented.
- JiraHandler.Handler.FetchIssues: one `now` stands for both clock readings of `_fetch_issues`, the age check and the cache time stamp; the time that passes while the pages are fetched is not modelled.
- JiraHandler.Handler.GetWeeklyTrend: the `weeks=5` default is not modelled; callers pass the number of weeks.
- JiraHandler.TriagePercent: computed over reals; floating-point rounding is not modelled.
- Text.Lower: ASCII case only; Unicode case mapping is not modelled (the same holds for Strip and Title).
- Counting.ValueCounts: gives counts as a map; the order of the resulting series (by count, ties by position) is not modelled.
- LegacyVisualization.PriorityCrossTab: the relative order of types with equal totals is not stated. In the source, `pivot` sorts the types alphabetically before the unstable default sort by total; in the model, the types enter a stable sort in the order of each type's last appearance in the frame.
- LegacyVisualization.PlotCancellationReasons: `read_csv` is modelled for plain tab-separated text only. Quoting, type inference, renaming of duplicate or blank column names, and the implicit index that a row longer than the header can create are not modelled; a longer row is treated as a read failure. Whitespace, for the skipping of blank lines, is the ASCII whitespace that `str.strip` removes.
- Classification.ClassifyPriorities: the no-`priority`-column case is not represented, because every record carries a priority; a frame built from no issues is handled as the empty case.
- The legacy `main()` orchestration, the `to_csv` of the processed data and the creation of the reports directory are not modelled; the cancellation file is modelled as the text that would be written (None when nothing is written), not as a file-system write.
- The legacy pie and count-plot charts are not modelled beyond their colours (`plot_priority_pie`, `plot_priority_levels`, `plot_alert_types`), and `create_figures_dir` is not modelled.
- Logging and prints, including the listing of "Other" tickets in `classify_alerts`.
- cancelled.py raises NameError when it is defined (its return annotation names an undefined `df`); only its body is modelled.
- script_old/__init__.py imports a module that is not present; it is not part of this model.
- The CSV loading of script_old/data_loader.py is not part of this model.
