/**
 * The post-run narrator (tools/post_run_narrator.py): the report data it
 * assembles from a run's monitoring data and the LLM's insights, the
 * abort-condition line, the Mermaid sequence diagram, the report file name,
 * the listing of saved reports and the short summary sent to chat.
 *
 * The LLM answer, the JSON decoder, the clock, the directory listing and the
 * rendering of numbers are parameters.
 */
module Narrator {
  import opened Wrappers
  import opened Strings
  import opened ChaosSpec

  /** A value Python treats as true: present and not the empty string. */
  predicate Truthy(o: Option<string>) {
    o.Some? && o.value != ""
  }

  // ---------------------------------------------------------------------------
  // Report data

  /**
   * The `monitoring_data` dictionary the run monitor hands over. `hasOtherKeys`
   * records keys the narrator does not read; they make the dictionary true.
   */
  datatype MonitoringData = MonitoringData(
    startedAt: Option<string>,
    status: Option<string>,
    durationSeconds: Option<real>,
    metricsHistory: Option<seq<map<string, real>>>,
    finalMetrics: Option<map<string, real>>,
    impactAnalysis: Option<seq<(string, real)>>,
    abortReason: Option<string>,
    hasOtherKeys: bool)
  {
    /** The empty dictionary `{}`. */
    predicate IsEmpty() {
      startedAt.None? && status.None? && durationSeconds.None? && metricsHistory.None?
      && finalMetrics.None? && impactAnalysis.None? && abortReason.None? && !hasOtherKeys
    }
  }

  /** `if monitoring_data:` */
  predicate HasMonitoring(m: Option<MonitoringData>) {
    m.Some? && !m.value.IsEmpty()
  }

  /**
   * The `impact_analysis` entry: the monitor's percentages (a dictionary in
   * insertion order) or, once the insights are merged in, the LLM's text.
   */
  datatype Impact = ImpactMetrics(entries: seq<(string, real)>) | ImpactText(text: string)
  {
    predicate Truthy() {
      match this
      case ImpactMetrics(entries) => |entries| > 0
      case ImpactText(text) => text != ""
    }
  }

  /** The LLM's five narrative fields. */
  datatype Insights = Insights(
    summary: string, findings: string, timeline: string,
    impactAnalysis: string, recommendations: string)

  /**
   * The `report_data` dictionary. `None` stands for an absent key; the
   * monitoring keys are absent without monitoring data, and the narrative keys
   * before the insights are merged in.
   */
  datatype ReportData = ReportData(
    runId: string,
    experiment: ExperimentSpec,
    startedAt: Option<string>,
    status: string,
    durationSeconds: real,
    metricsHistory: Option<seq<map<string, real>>>,
    finalMetrics: Option<map<string, real>>,
    impactAnalysis: Option<Impact>,
    abortReason: Option<string>,
    summary: Option<string>,
    findings: Option<string>,
    timeline: Option<string>,
    recommendations: Option<string>)

  // ---------------------------------------------------------------------------
  // _parse_insights_response and _get_default_insights

  /** What `json.loads` returns: an object (with string values) or any other JSON value. */
  datatype Json = JsonObject(fields: map<string, string>) | JsonOther

  /** `_get_default_insights`: the narrative used when the LLM gives none. */
  function DefaultInsights(): Insights {
    Insights(DefaultSummary, DefaultFindings, DefaultTimeline, DefaultImpact, DefaultRecommendations)
  }

  const DefaultSummary := "Chaos experiment completed successfully."
  const DefaultFindings := "No significant issues detected during the experiment."
  const DefaultTimeline := "Experiment ran for the specified duration without interruption."
  const DefaultImpact := "Minimal impact observed on system performance."
  const DefaultRecommendations := "Consider running more intensive experiments to test system resilience."

  /** The answer with surrounding whitespace and a Markdown JSON fence removed. */
  function CleanInsightsText(response: string): string {
    var t := Strip(response);
    var u := if StartsWith(t, "```json") then t[7..] else t;
    var v := if EndsWith(u, "```") then u[..|u| - 3] else u;
    Strip(v)
  }

  /** A fenced answer loses exactly its fence and the whitespace around the body. */
  lemma FencedInsightsCleaned(body: string)
    ensures CleanInsightsText("```json" + body + "```") == Strip(body)
  {
    var s := "```json" + body + "```";
    assert s[0] == '`' && s[|s| - 1] == '`';
    StripUnchanged(s);
    assert s[..7] == "```json";
    var u := s[7..];
    assert u == body + "```";
    assert u[|u| - 3..] == "```";
    assert u[..|u| - 3] == body;
  }

  /** An answer that is plain JSON already is passed to the decoder unchanged. */
  lemma PlainInsightsKept(s: string)
    requires Strip(s) == s && !StartsWith(s, "```json") && !EndsWith(s, "```")
    ensures CleanInsightsText(s) == s
  {
  }

  /** `insights.get(key, '')`. */
  function Field(fields: map<string, string>, key: string): string {
    if key in fields then fields[key] else ""
  }

  /**
   * The insights read from the decoded answer: an object gives its five
   * fields, a missing one as ""; anything else, or a decoding error (`None`),
   * gives the default insights.
   */
  function InsightsOf(decoded: Option<Json>): (r: Insights)
    ensures decoded.Some? && decoded.value.JsonObject? ==>
      var f := decoded.value.fields;
      r.summary == Field(f, "summary") && r.findings == Field(f, "findings")
      && r.timeline == Field(f, "timeline") && r.impactAnalysis == Field(f, "impact_analysis")
      && r.recommendations == Field(f, "recommendations")
    ensures decoded.None? || decoded.value.JsonOther? ==> r == DefaultInsights()
  {
    match decoded
    case Some(JsonObject(f)) =>
      Insights(Field(f, "summary"), Field(f, "findings"), Field(f, "timeline"),
               Field(f, "impact_analysis"), Field(f, "recommendations"))
    case _ => DefaultInsights()
  }

  /** `_parse_insights_response`: the cleaned answer, decoded as JSON, read as insights. */
  function ParseInsightsResponse(response: string, decode: string -> Option<Json>): Insights {
    InsightsOf(decode(CleanInsightsText(response)))
  }

  /**
   * `_generate_insights`: the LLM's answer (`None` when the call raised)
   * parsed, or the default insights.
   */
  function GenerateInsights(answer: Option<string>, decode: string -> Option<Json>): (r: Insights)
    ensures answer.None? ==> r == DefaultInsights()
  {
    match answer
    case None => DefaultInsights()
    case Some(text) => ParseInsightsResponse(text, decode)
  }

  // ---------------------------------------------------------------------------
  // _prepare_report_data

  /**
   * `_prepare_report_data`: the run's basic facts, the monitoring keys when
   * there is monitoring data, then the insights merged over them. The merge
   * replaces the monitor's impact percentages by the LLM's impact text.
   */
  function PrepareReportData(runId: string, spec: ExperimentSpec, monitoring: Option<MonitoringData>,
                             now: string, answer: Option<string>, decode: string -> Option<Json>): (d: ReportData)
    ensures d.runId == runId && d.experiment == spec
    ensures !HasMonitoring(monitoring) ==>
      d.startedAt == Some(now) && d.status == "completed" && d.durationSeconds == 0.0
      && d.metricsHistory.None? && d.finalMetrics.None? && d.abortReason.None?
    ensures HasMonitoring(monitoring) ==>
      var m := monitoring.value;
      d.startedAt == m.startedAt && d.status == m.status.GetOr("completed")
      && d.durationSeconds == m.durationSeconds.GetOr(0.0)
      && d.metricsHistory == Some(m.metricsHistory.GetOr([]))
      && d.finalMetrics == Some(m.finalMetrics.GetOr(map[]))
      && d.abortReason == m.abortReason
    ensures var i := GenerateInsights(answer, decode);
      d.impactAnalysis == Some(ImpactText(i.impactAnalysis))
      && d.summary == Some(i.summary) && d.findings == Some(i.findings)
      && d.timeline == Some(i.timeline) && d.recommendations == Some(i.recommendations)
  {
    var i := GenerateInsights(answer, decode);
    if HasMonitoring(monitoring) then
      var m := monitoring.value;
      ReportData(runId, spec, m.startedAt, m.status.GetOr("completed"), m.durationSeconds.GetOr(0.0),
                 Some(m.metricsHistory.GetOr([])), Some(m.finalMetrics.GetOr(map[])),
                 Some(ImpactText(i.impactAnalysis)), m.abortReason,
                 Some(i.summary), Some(i.findings), Some(i.timeline), Some(i.recommendations))
    else
      ReportData(runId, spec, Some(now), "completed", 0.0, None, None,
                 Some(ImpactText(i.impactAnalysis)), None,
                 Some(i.summary), Some(i.findings), Some(i.timeline), Some(i.recommendations))
  }

  // ---------------------------------------------------------------------------
  // _format_abort_conditions

  /**
   * `_format_abort_conditions`: the abort reason when there is one, else the
   * threshold (missing parts shown as "unknown", ">" and "unknown"), else a
   * fixed note. `render` is Python's `str()` of the threshold value.
   */
  function FormatAbortConditions(d: ReportData, render: real -> string): string
  {
    if Truthy(d.abortReason) then
      "**Aborted**: " + d.abortReason.value
    else if d.experiment.HasThreshold() then
      var t := d.experiment.abortThreshold.value;
      "**Threshold**: " + t.metric.GetOr("unknown") + " " + t.operator.GetOr(">") + " "
        + (if t.value.Some? then render(t.value.value) else "unknown")
    else
      "**No abort conditions configured**"
  }

  /** The first rule that applies decides, and the three outcomes are told apart by their opening. */
  lemma AbortConditionsPrecedence(d: ReportData, render: real -> string)
    ensures var r := FormatAbortConditions(d, render);
      (StartsWith(r, "**Aborted**: ") <==> Truthy(d.abortReason)) &&
      (Truthy(d.abortReason) ==> r == "**Aborted**: " + d.abortReason.value) &&
      (StartsWith(r, "**Threshold**: ") <==> !Truthy(d.abortReason) && d.experiment.HasThreshold()) &&
      (r == "**No abort conditions configured**" <==>
         !Truthy(d.abortReason) && !d.experiment.HasThreshold())
  {
    var r := FormatAbortConditions(d, render);
    var aborted := "**Aborted**: ";
    var threshold := "**Threshold**: ";
    var none := "**No abort conditions configured**";
    assert aborted[2] != threshold[2] && aborted[2] != none[2] && threshold[2] != none[2];
    if Truthy(d.abortReason) {
      assert r[..|aborted|] == aborted;
    } else if d.experiment.HasThreshold() {
      assert r[..|threshold|] == threshold;
      assert r[2] != none[2];
    } else {
      assert r[2] == none[2];
    }
  }

  /** A threshold that names nothing but is not empty reads "unknown > unknown". */
  lemma ThresholdDefaults(d: ReportData, render: real -> string)
    requires !Truthy(d.abortReason)
    requires d.experiment.abortThreshold == Some(AbortThreshold(None, None, None, true))
    ensures FormatAbortConditions(d, render) == "**Threshold**: unknown > unknown"
  {
  }

  // ---------------------------------------------------------------------------
  // _generate_mermaid_diagram

  /** The thirteen lines every diagram has; the target line names the chaos action. */
  function BaseDiagramLines(action: string): seq<string> {
    ["sequenceDiagram",
     "    participant U as User",
     "    participant C as Chaos Agent",
     "    participant K as Kubernetes",
     "    participant T as Target Service",
     "    participant M as Monitoring",
     "",
     "    U->>C: Start Experiment",
     "    C->>K: Apply ChaosEngine",
     "    K->>T: Execute " + action,
     "    T->>M: Report Metrics",
     "    M->>C: Monitor Status",
     "    C->>U: Report Results"]
  }

  /** The abort path: a blank line and three more steps. */
  function AbortDiagramLines(): seq<string> {
    ["",
     "    Note over M,C: Abort Condition Met",
     "    C->>K: Stop Experiment",
     "    K->>T: Restore Normal State"]
  }

  /** The diagram's lines for an action, with the abort path when the run was aborted. */
  function DiagramLines(action: string, aborted: bool): seq<string> {
    BaseDiagramLines(action) + (if aborted then AbortDiagramLines() else [])
  }

  /**
   * `_generate_mermaid_diagram`: the base lines, extended by the abort path
   * when there is an abort reason, joined with newlines.
   */
  method GenerateMermaidDiagram(d: ReportData) returns (diagram: string)
    ensures diagram == Join(DiagramLines(d.experiment.action.GetOr("unknown"), Truthy(d.abortReason)), "\n")
  {
    var lines := BaseDiagramLines(d.experiment.action.GetOr("unknown"));
    if Truthy(d.abortReason) {
      lines := lines + AbortDiagramLines();
    }
    assert lines == DiagramLines(d.experiment.action.GetOr("unknown"), Truthy(d.abortReason));
    diagram := Join(lines, "\n");
  }

  /**
   * The diagram opens with its header, shows the action executed on the target,
   * and has thirteen lines, or seventeen ending in the abort path exactly when
   * the run was aborted.
   */
  lemma DiagramShape(action: string, aborted: bool)
    ensures var text := Join(DiagramLines(action, aborted), "\n");
      StartsWith(text, "sequenceDiagram\n") &&
      Contains(text, "    K->>T: Execute " + action)
    ensures |DiagramLines(action, aborted)| == if aborted then 17 else 13
    ensures aborted <==> DiagramLines(action, aborted)[13..] == AbortDiagramLines()
  {
    var lines := DiagramLines(action, aborted);
    var rest := Join(lines[1..], "\n");
    JoinCons(lines[0], lines[1..], "\n");
    assert [lines[0]] + lines[1..] == lines;
    var text := Join(lines, "\n");
    assert text == "sequenceDiagram" + "\n" + rest;
    assert text[..16] == "sequenceDiagram\n";
    JoinMentions(lines, 9, "\n");
  }

  /** A line of a joined text occurs in it. */
  lemma {:induction false} JoinMentions(parts: seq<string>, k: nat, sep: string)
    requires k < |parts|
    ensures Contains(Join(parts, sep), parts[k])
    decreases |parts|
  {
    if |parts| == 1 {
      ContainsAt(parts[0], 0, parts[0]);
    } else if k == 0 {
      ContainsAt(parts[0] + sep + Join(parts[1..], sep), 0, parts[0]);
    } else {
      JoinMentions(parts[1..], k - 1, sep);
      ContainsExtended(parts[0] + sep, Join(parts[1..], sep), "", parts[k]);
      assert parts[0] + sep + Join(parts[1..], sep) + "" == Join(parts, sep);
    }
  }

  /** The title plays no part in the diagram. */
  lemma DiagramIgnoresTitle(d: ReportData, title: Option<string>)
    ensures var e := d.(experiment := d.experiment.(title := title));
      DiagramLines(e.experiment.action.GetOr("unknown"), Truthy(e.abortReason))
        == DiagramLines(d.experiment.action.GetOr("unknown"), Truthy(d.abortReason))
  {
  }

  // ---------------------------------------------------------------------------
  // _save_report: the file name

  /** A UTC clock reading. */
  datatype DateTime = DateTime(year: nat, month: nat, day: nat, hour: nat, minute: nat, second: nat)

  /** A field printed with at least two digits, as `strftime`'s `%m`, `%d`, `%H`, `%M`, `%S` do. */
  function TwoDigits(n: nat): (r: string)
    ensures AllDigits(r)
  {
    if n < 10 then "0" + NatToString(n) else NatToString(n)
  }

  /** The date part of `strftime("%Y-%m-%d_%H-%M-%S")`. */
  function DatePart(t: DateTime): string {
    NatToString(t.year) + "-" + TwoDigits(t.month) + "-" + TwoDigits(t.day)
  }

  /** The time part of `strftime("%Y-%m-%d_%H-%M-%S")`. */
  function TimePart(t: DateTime): string {
    TwoDigits(t.hour) + "-" + TwoDigits(t.minute) + "-" + TwoDigits(t.second)
  }

  /** The report timestamp: date and time joined by the one underscore it holds. */
  function Timestamp(t: DateTime): string {
    DatePart(t) + "_" + TimePart(t)
  }

  /** Neither half of a timestamp holds an underscore. */
  lemma TimestampParts(t: DateTime)
    ensures '_' !in DatePart(t) && '_' !in TimePart(t)
  {
    DigitsFree(NatToString(t.year));
    DigitsFree(TwoDigits(t.month));
    DigitsFree(TwoDigits(t.day));
    DigitsFree(TwoDigits(t.hour));
    DigitsFree(TwoDigits(t.minute));
    DigitsFree(TwoDigits(t.second));
  }

  lemma DigitsFree(s: string)
    requires AllDigits(s)
    ensures '_' !in s
  {
    forall i | 0 <= i < |s|
      ensures s[i] != '_'
    {
      assert IsDigit(s[i]);
    }
  }

  /** The title (default "unknown") lower-cased, with spaces and hyphens turned into underscores. */
  function Slug(title: Option<string>): (r: string)
    ensures |r| == |title.GetOr("unknown")|
  {
    ReplaceChar(ReplaceChar(Lower(title.GetOr("unknown")), ' ', '_'), '-', '_')
  }

  /**
   * A slug has no upper-case letter, space or hyphen: spaces and hyphens of the
   * title become underscores and every other character is lower-cased.
   */
  lemma SlugShape(title: Option<string>)
    ensures var t := title.GetOr("unknown"); var s := Slug(title);
      forall i :: 0 <= i < |s| ==>
        s[i] != ' ' && s[i] != '-' && !('A' <= s[i] <= 'Z') &&
        (t[i] == ' ' || t[i] == '-' ==> s[i] == '_') &&
        (t[i] != ' ' && t[i] != '-' ==> s[i] == LowerChar(t[i]))
  {
  }

  /** `<timestamp>_<slug>_<run_id>.md` */
  function ReportFilename(now: DateTime, spec: ExperimentSpec, runId: string): (name: string)
    ensures EndsWith(name, ".md")
    ensures StartsWith(name, Timestamp(now) + "_")
  {
    var name := Timestamp(now) + "_" + Slug(spec.title) + "_" + runId + ".md";
    assert name[|name| - 3..] == ".md";
    assert name[..|Timestamp(now) + "_"|] == Timestamp(now) + "_";
    name
  }

  // ---------------------------------------------------------------------------
  // list_reports

  /** A `*.md` file of the reports directory; `size` is `None` when `stat` raises. */
  datatype ReportFile = ReportFile(name: string, path: string, size: Option<nat>)

  datatype ReportEntry = ReportEntry(
    filename: string, path: string, timestamp: string, title: string, runId: string, size: nat)

  /** `Path.stem` of a `*.md` name. */
  function Stem(name: string): string {
    if EndsWith(name, ".md") then name[..|name| - 3] else name
  }

  /** `parts[first:-1]` joined with '_' and shown with spaces. */
  function TitleOf(parts: seq<string>, first: nat): string
    requires first <= |parts|
  {
    ReplaceChar(Join(if first < |parts| then parts[first..|parts| - 1] else [], "_"), '_', ' ')
  }

  /**
   * The metadata `list_reports` reads from a file name as written: the first
   * three '_'-parts as the timestamp, the last as the run id and those between
   * as the title.
   */
  function ParseReportNameAsWritten(f: ReportFile): (r: Option<ReportEntry>)
    ensures r.Some? ==> f.name != "latest.md" && |Split(Stem(f.name), "_")| >= 3
  {
    var parts := Split(Stem(f.name), "_");
    if f.name == "latest.md" || |parts| < 3 || f.size.None? then None
    else Some(ReportEntry(f.name, f.path, parts[0] + "_" + parts[1] + "_" + parts[2],
                          TitleOf(parts, 3), parts[|parts| - 1], f.size.value))
  }

  /**
   * The metadata read with the timestamp taken as the two '_'-parts that
   * `_save_report` writes: date and time.
   */
  function ParseReportName(f: ReportFile): (r: Option<ReportEntry>)
    ensures r.Some? ==> f.name != "latest.md" && |Split(Stem(f.name), "_")| >= 3
  {
    var parts := Split(Stem(f.name), "_");
    if f.name == "latest.md" || |parts| < 3 || f.size.None? then None
    else Some(ReportEntry(f.name, f.path, parts[0] + "_" + parts[1],
                          TitleOf(parts, 2), parts[|parts| - 1], f.size.value))
  }

  /** The '_'-parts of a saved report's stem: date, time, the slug's words, run id. */
  lemma {:induction false} SavedNameParts(now: DateTime, spec: ExperimentSpec, runId: string)
    requires '_' !in runId
    ensures var parts := Split(Stem(ReportFilename(now, spec, runId)), "_");
      parts == [DatePart(now), TimePart(now)] + Split(Slug(spec.title), "_") + [runId]
  {
    SavedStem(now, spec, runId);
    TimestampParts(now);
    SplitStamped(DatePart(now), TimePart(now), Slug(spec.title), runId, '_');
  }

  /** The stem of a saved report's name, grouped from the right. */
  lemma SavedStem(now: DateTime, spec: ExperimentSpec, runId: string)
    ensures Stem(ReportFilename(now, spec, runId))
      == DatePart(now) + "_" + (TimePart(now) + "_" + (Slug(spec.title) + "_" + runId))
  {
    var stem := DatePart(now) + "_" + TimePart(now) + "_" + Slug(spec.title) + "_" + runId;
    var name := stem + ".md";
    assert ReportFilename(now, spec, runId) == name;
    assert name[|name| - 3..] == ".md";
    assert name[..|name| - 3] == stem;
    assert stem == DatePart(now) + "_" + (TimePart(now) + "_" + (Slug(spec.title) + "_" + runId));
  }

  /** The '_'-parts of `date_time_slug_runId` when only the slug may hold underscores. */
  lemma SplitStamped(date: string, time: string, slug: string, runId: string, c: char)
    requires c !in date && c !in time && c !in runId
    ensures Split(date + [c] + (time + [c] + (slug + [c] + runId)), [c])
      == [date, time] + Split(slug, [c]) + [runId]
  {
    var y := slug + [c] + runId;
    var x := time + [c] + y;
    SplitAfterPiece(date, c, x);
    SplitAfterPiece(time, c, y);
    SplitBeforeLast(slug, c, runId);
    ConsParts(date, time, Split(slug, [c]), runId);
  }

  lemma ConsParts(date: string, time: string, words: seq<string>, runId: string)
    ensures [date] + ([time] + (words + [runId])) == [date, time] + words + [runId]
  {
  }

  /** Splitting `p + c + t` with `t` free of `c` ends in the piece `t`. */
  lemma {:induction false} SplitBeforeLast(p: string, c: char, t: string)
    requires c !in t
    ensures Split(p + [c] + t, [c]) == Split(p, [c]) + [t]
    decreases |p|
  {
    var s := p + [c] + t;
    if |p| == 0 {
      assert s[..1] == [c] && s[1..] == t;
      SplitNoSeparator(t, c);
    } else if p[0] == c {
      assert s[..1] == [c] && p[..1] == [c];
      assert s[1..] == p[1..] + [c] + t;
      SplitBeforeLast(p[1..], c, t);
    } else {
      assert s[..1] == [p[0]] && p[..1] == [p[0]];
      assert s[1..] == p[1..] + [c] + t;
      SplitBeforeLast(p[1..], c, t);
      var rest := Split(p[1..], [c]);
      assert Split(s[1..], [c]) == rest + [t];
      assert (rest + [t])[0] == rest[0];
      assert (rest + [t])[1..] == rest[1..] + [t];
    }
  }

  /** A name whose stem splits into more than one part is not `latest.md`. */
  lemma NotLatest(name: string, parts: seq<string>)
    requires parts == Split(Stem(name), "_") && |parts| > 1
    ensures name != "latest.md"
  {
    assert Stem("latest.md") == "latest";
    SplitNoSeparator("latest", '_');
  }

  /**
   * A saved report read back as written keeps its run id but never its
   * timestamp: the first word of the slug is taken into it.
   */
  lemma SavedReportMisread(now: DateTime, spec: ExperimentSpec, runId: string, size: nat)
    requires '_' !in runId
    ensures var name := ReportFilename(now, spec, runId);
      var r := ParseReportNameAsWritten(ReportFile(name, name, Some(size)));
      r.Some? && r.value.runId == runId &&
      r.value.timestamp == Timestamp(now) + "_" + Split(Slug(spec.title), "_")[0] &&
      r.value.timestamp != Timestamp(now)
  {
    var name := ReportFilename(now, spec, runId);
    SavedNameParts(now, spec, runId);
    var parts := Split(Stem(name), "_");
    NotLatest(name, parts);
    assert parts[2] == Split(Slug(spec.title), "_")[0];
  }

  /**
   * A saved report read back finds the timestamp and the run id it was saved
   * with, and its title as the slug shows it (lower case, spaces for spaces,
   * hyphens and underscores).
   */
  lemma SavedReportRead(now: DateTime, spec: ExperimentSpec, runId: string, size: nat)
    requires '_' !in runId
    ensures var name := ReportFilename(now, spec, runId);
      ParseReportName(ReportFile(name, name, Some(size)))
        == Some(ReportEntry(name, name, Timestamp(now), ReplaceChar(Slug(spec.title), '_', ' '), runId, size))
  {
    var name := ReportFilename(now, spec, runId);
    SavedNameParts(now, spec, runId);
    var parts := Split(Stem(name), "_");
    var words := Split(Slug(spec.title), "_");
    NotLatest(name, parts);
    assert parts[2..|parts| - 1] == words;
    JoinSplit(Slug(spec.title), "_");
  }

  /** What `list_reports` reads from each file, in directory order. */
  function ParseAll(files: seq<ReportFile>): (r: seq<Option<ReportEntry>>)
    ensures |r| == |files|
  {
    seq(|files|, i requires 0 <= i < |files| => ParseReportName(files[i]))
  }

  /** The entries of the first `n` outcomes, in order. */
  function Collected(outcomes: seq<Option<ReportEntry>>, n: nat): seq<ReportEntry>
    requires n <= |outcomes|
  {
    if n == 0 then []
    else Collected(outcomes, n - 1) + (if outcomes[n - 1].Some? then [outcomes[n - 1].value] else [])
  }

  /** An entry is collected exactly when some outcome holds it. */
  lemma {:induction false} CollectedMembers(outcomes: seq<Option<ReportEntry>>, n: nat, e: ReportEntry)
    requires n <= |outcomes|
    ensures e in Collected(outcomes, n) <==> exists i :: 0 <= i < n && outcomes[i] == Some(e)
  {
    if n > 0 {
      CollectedMembers(outcomes, n - 1, e);
      if i :| 0 <= i < n && outcomes[i] == Some(e) {
        if i < n - 1 {
          assert e in Collected(outcomes, n - 1);
        }
      }
    }
  }

  /** Newest first: timestamps never increase along the list. */
  predicate NewestFirst(s: seq<ReportEntry>) {
    forall i, j :: 0 <= i < j < |s| ==> LexLe(s[j].timestamp, s[i].timestamp)
  }

  /** Puts `e` before the first entry that is not newer, so equal timestamps keep their order. */
  function InsertNewest(e: ReportEntry, sorted: seq<ReportEntry>): seq<ReportEntry> {
    if |sorted| == 0 then [e]
    else if LexLe(sorted[0].timestamp, e.timestamp) then [e] + sorted
    else [sorted[0]] + InsertNewest(e, sorted[1..])
  }

  /** `reports.sort(key=timestamp, reverse=True)`. */
  function SortNewestFirst(s: seq<ReportEntry>): seq<ReportEntry> {
    if |s| == 0 then [] else InsertNewest(s[0], SortNewestFirst(s[1..]))
  }

  /** Inserting adds the entry and keeps the rest. */
  lemma {:induction false} InsertKeeps(e: ReportEntry, sorted: seq<ReportEntry>)
    ensures multiset(InsertNewest(e, sorted)) == multiset(sorted) + multiset{e}
    decreases |sorted|
  {
    if |sorted| > 0 && !LexLe(sorted[0].timestamp, e.timestamp) {
      InsertKeeps(e, sorted[1..]);
      assert sorted == [sorted[0]] + sorted[1..];
    }
  }

  /** Inserting into a newest-first list keeps it newest first. */
  lemma {:induction false} InsertOrders(e: ReportEntry, sorted: seq<ReportEntry>)
    requires NewestFirst(sorted)
    ensures NewestFirst(InsertNewest(e, sorted))
    decreases |sorted|
  {
    if |sorted| == 0 {
    } else if LexLe(sorted[0].timestamp, e.timestamp) {
      forall j | 0 <= j < |sorted|
        ensures LexLe(sorted[j].timestamp, e.timestamp)
      {
        if j > 0 {
          LexLeTransitive(sorted[j].timestamp, sorted[0].timestamp, e.timestamp);
        }
      }
      PrependNewest(e, sorted);
    } else {
      var tail := sorted[1..];
      InsertOrders(e, tail);
      InsertKeeps(e, tail);
      LexLeTotal(sorted[0].timestamp, e.timestamp);
      assert forall k :: 0 <= k < |tail| ==> tail[k] == sorted[k + 1];
      NewerThanAll(sorted[0], e, tail, InsertNewest(e, tail));
      PrependNewest(sorted[0], InsertNewest(e, tail));
    }
  }

  /** An entry no older than any of a newest-first list may go in front of it. */
  lemma PrependNewest(first: ReportEntry, t: seq<ReportEntry>)
    requires NewestFirst(t)
    requires forall j :: 0 <= j < |t| ==> LexLe(t[j].timestamp, first.timestamp)
    ensures NewestFirst([first] + t)
  {
    var r := [first] + t;
    forall i, j | 0 <= i < j < |r|
      ensures LexLe(r[j].timestamp, r[i].timestamp)
    {
      assert r[j] == t[j - 1];
      if i > 0 {
        assert r[i] == t[i - 1];
      }
    }
  }

  /** An entry no older than `e` and than all of `tail` is no older than any entry of their merge `t`. */
  lemma NewerThanAll(first: ReportEntry, e: ReportEntry, tail: seq<ReportEntry>, t: seq<ReportEntry>)
    requires multiset(t) == multiset(tail) + multiset{e}
    requires LexLe(e.timestamp, first.timestamp)
    requires forall k :: 0 <= k < |tail| ==> LexLe(tail[k].timestamp, first.timestamp)
    ensures forall j :: 0 <= j < |t| ==> LexLe(t[j].timestamp, first.timestamp)
  {
    forall j | 0 <= j < |t|
      ensures LexLe(t[j].timestamp, first.timestamp)
    {
      assert t[j] in multiset(t);
      if t[j] != e {
        assert t[j] in multiset(tail);
        var k :| 0 <= k < |tail| && tail[k] == t[j];
      }
    }
  }

  /** The sorted list holds the same entries, newest first. */
  lemma SortNewestFirstFacts(s: seq<ReportEntry>)
    ensures multiset(SortNewestFirst(s)) == multiset(s)
    ensures NewestFirst(SortNewestFirst(s))
  {
    SortKeepsEntries(s);
    SortOrders(s);
  }

  lemma {:induction false} SortKeepsEntries(s: seq<ReportEntry>)
    ensures multiset(SortNewestFirst(s)) == multiset(s)
    decreases |s|
  {
    if |s| > 0 {
      SortKeepsEntries(s[1..]);
      InsertKeeps(s[0], SortNewestFirst(s[1..]));
      assert s == [s[0]] + s[1..];
    }
  }

  lemma {:induction false} SortOrders(s: seq<ReportEntry>)
    ensures NewestFirst(SortNewestFirst(s))
    decreases |s|
  {
    if |s| > 0 {
      SortOrders(s[1..]);
      InsertOrders(s[0], SortNewestFirst(s[1..]));
    }
  }

  /** One iteration of `list_reports`: the file's entry appended when its name parses. */
  method AppendParsed(reports: seq<ReportEntry>, f: ReportFile) returns (r: seq<ReportEntry>)
    ensures r == reports + (if ParseReportName(f).Some? then [ParseReportName(f).value] else [])
  {
    var entry := ParseReportName(f);
    r := reports;
    if entry.Some? {
      r := r + [entry.value];
    }
  }

  /**
   * `list_reports`: nothing when the directory is missing; otherwise an entry
   * for every file that parses (`latest.md`, names of fewer than three
   * '_'-parts and files whose `stat` raises are skipped), newest first.
   */
  method ListReports(dirExists: bool, files: seq<ReportFile>) returns (reports: seq<ReportEntry>)
    ensures !dirExists ==> reports == []
    ensures dirExists ==> reports == SortNewestFirst(Collected(ParseAll(files), |files|))
  {
    if !dirExists {
      return [];
    }
    reports := [];
    for i := 0 to |files|
      invariant reports == Collected(ParseAll(files), i)
    {
      assert ParseAll(files)[i] == ParseReportName(files[i]);
      reports := AppendParsed(reports, files[i]);
    }
    reports := SortNewestFirst(reports);
  }

  // ---------------------------------------------------------------------------
  // generate_summary

  /** The first two lines: title and status, then duration and run id. */
  function SummaryHeader(d: ReportData, render: real -> string): string {
    "**" + d.experiment.title.GetOr("Unknown Experiment") + "** - " + Upper(d.status) + "\n"
    + "Duration: " + render(d.durationSeconds) + "s | Run ID: " + d.runId + "\n"
  }

  /** The line naming the abort reason, when there is one. */
  function AbortLine(d: ReportData): string {
    if Truthy(d.abortReason) then "Aborted: " + d.abortReason.value + "\n" else ""
  }

  /** `f"{impact_type}: {value:.1f}%"` for the first `n` impact entries; `percent` is the `.1f` rendering. */
  function ImpactItems(entries: seq<(string, real)>, n: nat, percent: real -> string): seq<string>
    requires n <= |entries|
  {
    if n == 0 then [] else ImpactItems(entries, n - 1, percent) + [entries[n - 1].0 + ": " + percent(entries[n - 1].1) + "%"]
  }

  /** Iterating `.items()` of a string raises `AttributeError`. */
  const NoItems := "'str' object has no attribute 'items'"

  /** What `generate_summary` returns, or the error it raises. */
  function Summary(d: ReportData, render: real -> string, percent: real -> string): Result<string, string> {
    if d.impactAnalysis.Some? && d.impactAnalysis.value.Truthy() then
      match d.impactAnalysis.value
      case ImpactText(_) => Err(NoItems)
      case ImpactMetrics(entries) =>
        Ok(SummaryHeader(d, render) + AbortLine(d) + "Impact: "
           + Join(ImpactItems(entries, |entries|, percent), ", "))
    else
      Ok(SummaryHeader(d, render) + AbortLine(d))
  }

  /** `generate_summary`: the text built line by line, the impact items collected in a loop. */
  method GenerateSummary(d: ReportData, render: real -> string, percent: real -> string)
    returns (r: Result<string, string>)
    ensures r == Summary(d, render, percent)
  {
    var summary := SummaryHeader(d, render);
    if Truthy(d.abortReason) {
      summary := summary + "Aborted: " + d.abortReason.value + "\n";
    }
    assert summary == SummaryHeader(d, render) + AbortLine(d);
    if d.impactAnalysis.Some? && d.impactAnalysis.value.Truthy() {
      match d.impactAnalysis.value
      case ImpactText(_) =>
        return Err(NoItems);
      case ImpactMetrics(entries) =>
        summary := summary + "Impact: ";
        var impacts := [];
        for i := 0 to |entries|
          invariant impacts == ImpactItems(entries, i, percent)
        {
          impacts := impacts + [entries[i].0 + ": " + percent(entries[i].1) + "%"];
        }
        summary := summary + Join(impacts, ", ");
    }
    r := Ok(summary);
  }

  /**
   * The abort reason changes the summary only by the line "Aborted: <reason>"
   * right after the two header lines, and is absent without a reason.
   */
  lemma AbortLineExactlyWhenAborted(d: ReportData, render: real -> string, percent: real -> string)
    ensures var plain := Summary(d.(abortReason := None), render, percent);
      var k := |SummaryHeader(d, render)|;
      plain.Ok? ==>
        k <= |plain.value| &&
        Summary(d, render, percent) == Ok(plain.value[..k] + AbortLine(d) + plain.value[k..])
    ensures AbortLine(d) == if Truthy(d.abortReason) then "Aborted: " + d.abortReason.value + "\n" else ""
  {
    var plain := Summary(d.(abortReason := None), render, percent);
    var header := SummaryHeader(d, render);
    assert SummaryHeader(d.(abortReason := None), render) == header;
    if plain.Ok? {
      var tail := plain.value[|header|..];
      assert plain.value == header + tail;
      assert plain.value[..|header|] == header;
      var line := AbortLine(d);
      if d.impactAnalysis.Some? && d.impactAnalysis.value.Truthy() && d.impactAnalysis.value.ImpactMetrics? {
        var items := Join(ImpactItems(d.impactAnalysis.value.entries, |d.impactAnalysis.value.entries|, percent), ", ");
        assert tail == "Impact: " + items;
        assert header + line + "Impact: " + items == header + line + tail;
      } else {
        assert tail == "";
        assert header + line == header + line + tail;
      }
    }
  }

  /** One impact item per entry, each opening with the entry's name. */
  lemma {:induction false} ImpactItemsShape(entries: seq<(string, real)>, n: nat, percent: real -> string)
    requires n <= |entries|
    ensures |ImpactItems(entries, n, percent)| == n
    ensures forall i :: 0 <= i < n ==> StartsWith(ImpactItems(entries, n, percent)[i], entries[i].0 + ": ")
  {
    if n > 0 {
      ImpactItemsShape(entries, n - 1, percent);
      var last := entries[n - 1].0 + ": " + percent(entries[n - 1].1) + "%";
      assert last[..|entries[n - 1].0 + ": "|] == entries[n - 1].0 + ": ";
    }
  }

  /**
   * Report data as `_prepare_report_data` builds it carries the LLM's impact
   * text, so summarising it raises whenever that text is not empty, as it
   * never is when the LLM call fails.
   */
  lemma PreparedSummaryRaises(runId: string, spec: ExperimentSpec, monitoring: Option<MonitoringData>,
                              now: string, answer: Option<string>, decode: string -> Option<Json>,
                              render: real -> string, percent: real -> string)
    ensures GenerateInsights(answer, decode).impactAnalysis != "" ==>
      Summary(PrepareReportData(runId, spec, monitoring, now, answer, decode), render, percent) == Err(NoItems)
    ensures answer.None? ==>
      Summary(PrepareReportData(runId, spec, monitoring, now, answer, decode), render, percent) == Err(NoItems)
  {
  }
}
