/**
 * The run monitor: watches one chaos experiment for the length of its
 * duration, samples its service-level metrics every 30 seconds, stops it when
 * the abort threshold is crossed, and reports the impact at the end.
 *
 * Time is abstract: one loop iteration is one tick of 30 seconds, and the
 * experiment status, the metric sample and the Prometheus answer at each tick
 * are parameters, as is the rendering of the threshold dictionary in the abort
 * reason.
 */
module Monitor {
  import opened Wrappers
  import opened Strings
  import opened ChaosSpec
  import opened OrderedKeys

  // ---------------------------------------------------------------------------
  // Duration strings

  predicate IsUnit(c: char) {
    c == 's' || c == 'm' || c == 'h'
  }

  /** Seconds per unit suffix (after lower-casing). */
  function UnitSeconds(u: char): int {
    if u == 's' then 1 else if u == 'm' then 60 else if u == 'h' then 3600 else 1
  }

  /**
   * `_parse_duration`: lower-case the string; a trailing `s`, `m` or `h` gives
   * the unit of the integer before it, and without one the whole string is an
   * integer number of seconds. `None` stands for the ValueError `int()` raises.
   */
  function ParseDuration(text: string): Option<int> {
    var l := Lower(text);
    if |l| > 0 && IsUnit(l[|l| - 1]) then
      match ParseInt(l[..|l| - 1])
      case None => None
      case Some(n) => Some(n * UnitSeconds(l[|l| - 1]))
    else ParseInt(l)
  }

  lemma IntToStringIsLowerCase(n: int)
    ensures Lower(IntToString(n)) == IntToString(n)
  {
    var s := IntToString(n);
    forall i | 0 <= i < |s| ensures LowerChar(s[i]) == s[i] {
      if n < 0 && i > 0 {
        assert s[i] == NatToString(-n)[i - 1];
      }
    }
  }

  /** `str(n)` followed by a unit letter, in either case, reads back as n times the unit. */
  lemma DurationRoundTrip(n: int, u: char)
    requires IsUnit(LowerChar(u))
    ensures ParseDuration(IntToString(n) + [u]) == Some(n * UnitSeconds(LowerChar(u)))
  {
    var s := IntToString(n);
    IntToStringIsLowerCase(n);
    LowerAppend(s, [u]);
    var l := Lower(s + [u]);
    assert l == s + [LowerChar(u)];
    assert l[..|l| - 1] == s;
    IntRoundTrip(n);
  }

  /** A bare integer is a number of seconds. */
  lemma BareDurationIsSeconds(n: int)
    ensures ParseDuration(IntToString(n)) == Some(n)
  {
    var s := IntToString(n);
    IntToStringIsLowerCase(n);
    if n < 0 {
      assert s[|s| - 1] == NatToString(-n)[|s| - 2];
    }
    assert !IsUnit(s[|s| - 1]);
    assert ParseDuration(s) == ParseInt(s);
    IntRoundTrip(n);
  }

  /** A unit-suffixed string whose body holds a letter raises. */
  lemma NonNumericDurationRejected(body: string, u: char, i: nat)
    requires IsUnit(u)
    requires i < |body| && 'a' <= body[i] <= 'z'
    ensures ParseDuration(body + [u]) == None
  {
    var l := Lower(body + [u]);
    LowerAppend(body, [u]);
    assert l == Lower(body) + [u];
    assert l[..|l| - 1] == Lower(body);
    assert Lower(body)[i] == body[i];
    NonNumericRejected(Lower(body), i);
    assert ParseInt(l[..|l| - 1]) == None;
  }

  /** The duration text `monitor` reads: a non-empty override, else `parameters.duration`, else "60s". */
  function DurationText(durationOverride: Option<string>, spec: ExperimentSpec): (r: string)
    ensures durationOverride.Some? && durationOverride.value != "" ==> r == durationOverride.value
    ensures (durationOverride.None? || durationOverride.value == "") && spec.parameters.None? ==> r == "60s"
    ensures (durationOverride.None? || durationOverride.value == "") && spec.parameters.Some? ==>
              r == spec.parameters.value.duration.GetOr("60s")
  {
    if durationOverride.Some? && durationOverride.value != "" then durationOverride.value
    else match spec.parameters
      case None => "60s"
      case Some(p) => p.duration.GetOr("60s")
  }

  /**
   * The number of loop iterations before the deadline: the loop sleeps 30
   * seconds per iteration and runs while fewer than `seconds` have elapsed.
   */
  function DeadlineTicks(seconds: int): (n: nat)
    ensures forall k: nat :: k < n <==> 30 * k < seconds
  {
    if seconds <= 0 then 0 else (seconds + 29) / 30
  }

  // ---------------------------------------------------------------------------
  // Abort threshold

  predicate IsComparison(op: string) {
    op == ">" || op == ">=" || op == "<" || op == "<="
  }

  /** `current <op> limit` for the four comparison operators. */
  predicate Breaches(op: string, current: real, limit: real) {
    || (op == ">" && current > limit)
    || (op == ">=" && current >= limit)
    || (op == "<" && current < limit)
    || (op == "<=" && current <= limit)
  }

  /** The comparison `_should_abort` would make against a missing `value`, which raises TypeError. */
  predicate ComparisonRaises(metrics: map<string, real>, t: AbortThreshold) {
    && !t.IsEmpty()
    && t.metric.Some? && t.metric.value in metrics
    && IsComparison(t.operator.GetOr(">"))
    && t.value.None?
  }

  /**
   * `_should_abort`, fail-open: no threshold, a metric missing from the sample
   * or an unknown operator never aborts; otherwise the live value is compared
   * with the limit (operator `>` by default).
   */
  function ShouldAbort(metrics: map<string, real>, t: AbortThreshold): (r: bool)
    requires !ComparisonRaises(metrics, t)
    ensures t.IsEmpty() ==> !r
    ensures t.metric.None? || t.metric.value !in metrics ==> !r
    ensures !IsComparison(t.operator.GetOr(">")) ==> !r
    ensures r <==> !t.IsEmpty() && t.metric.Some? && t.metric.value in metrics && t.value.Some?
                   && Breaches(t.operator.GetOr(">"), metrics[t.metric.value], t.value.value)
  {
    if t.IsEmpty() then false
    else if t.metric.None? || t.metric.value !in metrics then false
    else
      var current := metrics[t.metric.value];
      var op := t.operator.GetOr(">");
      if op == ">" then current > t.value.value
      else if op == ">=" then current >= t.value.value
      else if op == "<" then current < t.value.value
      else if op == "<=" then current <= t.value.value
      else false
  }

  // ---------------------------------------------------------------------------
  // Prometheus queries

  /** `s.split(c, 1)` on a string that contains `c`: the text before the first `c` and the rest. */
  function SplitFirst(s: string, c: char): (r: (string, string))
    requires c in s
    ensures r.0 + [c] + r.1 == s
    ensures c !in r.0
  {
    if s[0] == c then ("", s[1..])
    else
      var (key, rest) := SplitFirst(s[1..], c);
      ([s[0]] + key, rest)
  }

  /** The Prometheus matcher one selector entry contributes: `,key="value"`, or nothing without `=`. */
  function LabelTerm(entry: string): (r: string)
    ensures '=' !in entry ==> r == ""
  {
    if '=' in entry then
      var (key, value) := SplitFirst(entry, '=');
      "," + key + "=\"" + value + "\""
    else ""
  }

  /** The matchers of the first `n` entries, in order. */
  function LabelTerms(labels: seq<string>, n: nat): string
    requires n <= |labels|
  {
    if n == 0 then "" else LabelTerms(labels, n - 1) + LabelTerm(labels[n - 1])
  }

  function NamespaceMatcher(namespace: string): string {
    "namespace=\"" + namespace + "\""
  }

  /** The label filter for a namespace and a `k=v,k=v` selector. */
  function LabelFilter(namespace: string, selector: string): string {
    var labels := Split(selector, ",");
    NamespaceMatcher(namespace) + LabelTerms(labels, |labels|)
  }

  /** The label filter `_query_prometheus_metrics` builds with `+=` over the selector's entries. */
  method BuildLabelFilter(namespace: string, selector: string) returns (filter: string)
    ensures filter == LabelFilter(namespace, selector)
  {
    filter := NamespaceMatcher(namespace);
    if selector != "" {
      var labels := Split(selector, ",");
      filter := AppendLabelTerms(filter, labels);
    } else {
      EmptySelectorFilter(namespace);
    }
  }

  /** The selector loop: each entry in turn appends its matcher. */
  method AppendLabelTerms(prefix: string, labels: seq<string>) returns (filter: string)
    ensures filter == prefix + LabelTerms(labels, |labels|)
  {
    filter := prefix;
    var i := 0;
    while i < |labels|
      invariant 0 <= i <= |labels|
      invariant filter == prefix + LabelTerms(labels, i)
    {
      ghost var before := filter;
      filter := AppendLabelTerm(filter, labels[i]);
      LabelTermsStep(prefix, labels, i, before);
      i := i + 1;
    }
  }

  /** The body of the selector loop: an entry with `=` adds `,key="value"`, split at its first `=`. */
  method AppendLabelTerm(filter: string, entry: string) returns (r: string)
    ensures r == filter + LabelTerm(entry)
  {
    r := filter;
    if '=' in entry {
      var (key, value) := SplitFirst(entry, '=');
      r := r + ("," + key + "=\"" + value + "\"");
    }
  }

  /** Without a selector the filter is the namespace matcher alone. */
  lemma EmptySelectorFilter(namespace: string)
    ensures LabelFilter(namespace, "") == NamespaceMatcher(namespace)
  {
    assert Split("", ",") == [""];
    assert LabelTerms([""], 1) == "" + LabelTerm("");
  }

  /** One more selector entry appends its matcher to the filter. */
  lemma LabelTermsStep(prefix: string, labels: seq<string>, i: nat, filter: string)
    requires i < |labels| && filter == prefix + LabelTerms(labels, i)
    ensures filter + LabelTerm(labels[i]) == prefix + LabelTerms(labels, i + 1)
  {
    AppendAssoc(prefix, LabelTerms(labels, i), LabelTerm(labels[i]));
  }

  lemma AppendAssoc(a: string, b: string, c: string)
    ensures (a + b) + c == a + (b + c)
  {
  }

  /** The matcher `,k="v"` for a key and a value. */
  function Matcher(key: string, value: string): string {
    "," + key + "=\"" + value + "\""
  }

  /**
   * `k=v` with a key free of `=` splits into exactly that key and value, even
   * when the value holds `=` itself.
   */
  lemma EntryTerm(k: string, v: string)
    requires '=' !in k
    ensures LabelTerm(k + "=" + v) == Matcher(k, v)
  {
    assert (k + "=" + v)[|k|] == '=';
    SplitFirstOfEntry(k, v);
  }

  lemma {:induction false} SplitFirstOfEntry(k: string, v: string)
    requires '=' !in k
    ensures SplitFirst(k + "=" + v, '=') == (k, v)
  {
    var e := k + "=" + v;
    if |k| > 0 {
      assert e[0] == k[0];
      assert e[1..] == k[1..] + "=" + v;
      SplitFirstOfEntry(k[1..], v);
      assert [k[0]] + k[1..] == k;
    } else {
      assert e == "=" + v;
    }
  }

  /** The matchers of the first `n` pairs, in order. */
  function PairTerms(pairs: seq<(string, string)>, n: nat): string
    requires n <= |pairs|
  {
    if n == 0 then "" else PairTerms(pairs, n - 1) + Matcher(pairs[n - 1].0, pairs[n - 1].1)
  }

  function Entries(pairs: seq<(string, string)>): (r: seq<string>)
    ensures |r| == |pairs|
    ensures forall i :: 0 <= i < |pairs| ==> r[i] == pairs[i].0 + "=" + pairs[i].1
  {
    seq(|pairs|, i requires 0 <= i < |pairs| => pairs[i].0 + "=" + pairs[i].1)
  }

  /** The selector text `k=v,k=v` for a list of pairs. */
  function SelectorText(pairs: seq<(string, string)>): string {
    Join(Entries(pairs), ",")
  }

  /**
   * A selector written as `k=v` pairs (keys without `=`, neither keys nor
   * values with `,`) yields one matcher per pair, in order; a value may itself
   * hold `=`, since only the first one splits.
   */
  lemma LabelFilterOfPairs(namespace: string, pairs: seq<(string, string)>)
    requires |pairs| >= 1
    requires forall i :: 0 <= i < |pairs| ==> '=' !in pairs[i].0 && ',' !in pairs[i].0 && ',' !in pairs[i].1
    ensures LabelFilter(namespace, SelectorText(pairs)) == "namespace=\"" + namespace + "\"" + PairTerms(pairs, |pairs|)
  {
    var entries := Entries(pairs);
    forall i | 0 <= i < |entries| ensures ',' !in entries[i] {
      assert entries[i] == pairs[i].0 + "=" + pairs[i].1;
    }
    SplitJoin(entries, ',');
    TermsOfEntries(pairs, |pairs|);
  }

  lemma {:induction false} TermsOfEntries(pairs: seq<(string, string)>, n: nat)
    requires n <= |pairs|
    requires forall i :: 0 <= i < |pairs| ==> '=' !in pairs[i].0
    ensures LabelTerms(Entries(pairs), n) == PairTerms(pairs, n)
  {
    if n > 0 {
      TermsOfEntries(pairs, n - 1);
      var e := Entries(pairs);
      EntryTerm(pairs[n - 1].0, pairs[n - 1].1);
      LabelTermsSnoc(e, n, Matcher(pairs[n - 1].0, pairs[n - 1].1));
    }
  }

  /** The matchers of `n` entries: those of the first `n - 1`, then the last one's. */
  lemma LabelTermsSnoc(labels: seq<string>, n: nat, t: string)
    requires 0 < n <= |labels| && LabelTerm(labels[n - 1]) == t
    ensures LabelTerms(labels, n) == LabelTerms(labels, n - 1) + t
  {
  }


  /** The four service-level indicators `_query_prometheus_metrics` samples. */
  datatype Sli = ErrorRate | LatencyP95 | CpuUsage | MemoryUsage
  {
    /** The key the SLI's value is stored under. */
    function Key(): string {
      match this
      case ErrorRate => "error_rate"
      case LatencyP95 => "latency_p95"
      case CpuUsage => "cpu_usage"
      case MemoryUsage => "memory_usage"
    }
  }

  // The literal parts of the four PromQL queries around their label filters.
  const ErrorRateOpen := "sum(rate(http_requests_total{status=~\"5..\","
  const ErrorRateMid := "}[5m])) / sum(rate(http_requests_total"
  const ErrorRateClose := "[5m]))"
  const LatencyOpen := "histogram_quantile(0.95, sum(rate(http_request_duration_seconds_bucket"
  const LatencyClose := "[5m])) by (le))"
  const CpuOpen := "avg(rate(container_cpu_usage_seconds_total"
  const CpuClose := "[5m])) * 100"
  const MemoryOpen := "avg(container_memory_usage_bytes"
  const MemoryMid := ") / avg(container_spec_memory_limit_bytes"
  const MemoryClose := ") * 100"

  /** A label filter in the braces of a metric selector. */
  function Scope(filter: string): string {
    "{" + filter + "}"
  }

  /** A PromQL query: the query of an SLI over a label filter. */
  datatype Query = Query(sli: Sli, filter: string)
  {
    /** The text before the filter's first braced occurrence. */
    function Lead(): string {
      match sli
      case ErrorRate => ErrorRateOpen + filter + ErrorRateMid
      case LatencyP95 => LatencyOpen
      case CpuUsage => CpuOpen
      case MemoryUsage => MemoryOpen
    }

    /** The text after it. */
    function Trail(): string {
      match sli
      case ErrorRate => ErrorRateClose
      case LatencyP95 => LatencyClose
      case CpuUsage => CpuClose
      case MemoryUsage => MemoryMid + Scope(filter) + MemoryClose
    }

    /** The PromQL text sent to the server. */
    function Text(): string {
      Lead() + Scope(filter) + Trail()
    }
  }

  /** Every SLI query is scoped by the label filter: `{filter}` occurs in its text. */
  lemma QueryScopedByFilter(q: Query)
    ensures Contains(q.Text(), Scope(q.filter))
  {
    ContainsAt(Scope(q.filter), 0, Scope(q.filter));
    ContainsExtended(q.Lead(), Scope(q.filter), q.Trail(), Scope(q.filter));
  }

  /** An SLI key is present exactly when its query returned a value, and holds that value. */
  predicate Reported(metrics: map<string, real>, key: string, answer: Option<real>) {
    (key in metrics <==> answer.Some?) && (key in metrics ==> metrics[key] == answer.value)
  }

  /**
   * `_query_prometheus_metrics`: the four SLI queries over the label filter,
   * in the order error rate, P95 latency, CPU, memory. `prometheus` is the
   * value `_query_prometheus` returns for a query text (`None` for an
   * empty result or a failed request).
   */
  method QueryPrometheusMetrics(namespace: string, selector: string, prometheus: string -> Option<real>)
    returns (metrics: map<string, real>)
    ensures var f := LabelFilter(namespace, selector);
            && Reported(metrics, ErrorRate.Key(), prometheus(Query(ErrorRate, f).Text()))
            && Reported(metrics, LatencyP95.Key(), prometheus(Query(LatencyP95, f).Text()))
            && Reported(metrics, CpuUsage.Key(), prometheus(Query(CpuUsage, f).Text()))
            && Reported(metrics, MemoryUsage.Key(), prometheus(Query(MemoryUsage, f).Text()))
    ensures metrics.Keys <= {ErrorRate.Key(), LatencyP95.Key(), CpuUsage.Key(), MemoryUsage.Key()}
  {
    var f := BuildLabelFilter(namespace, selector);
    metrics := map[];
    var errorRate := prometheus(Query(ErrorRate, f).Text());
    if errorRate.Some? {
      metrics := metrics[ErrorRate.Key() := errorRate.value];
    }
    var latency := prometheus(Query(LatencyP95, f).Text());
    if latency.Some? {
      metrics := metrics[LatencyP95.Key() := latency.value];
    }
    var cpu := prometheus(Query(CpuUsage, f).Text());
    if cpu.Some? {
      metrics := metrics[CpuUsage.Key() := cpu.value];
    }
    var memory := prometheus(Query(MemoryUsage, f).Text());
    if memory.Some? {
      metrics := metrics[MemoryUsage.Key() := memory.value];
    }
  }

  // ---------------------------------------------------------------------------
  // The monitoring loop

  /** The statuses that end monitoring when the experiment reports them. */
  predicate IsTerminal(status: string) {
    status == "completed" || status == "aborted" || status == "failed"
  }

  /** The abort callback: absent, or present and either returning or raising. */
  datatype Callback = NoCallback | Callback(raises: bool)

  /** Why the loop stopped. The last two leave by an exception. */
  datatype Ending = DeadlineReached | StatusAdopted | ThresholdBreached | ComparisonFailed | CallbackFailed

  /**
   * The session after the loop: its status, the samples taken, the abort
   * reason, how often the callback was called, and the history lengths at
   * which a progress notification was sent.
   */
  datatype SessionOutcome = SessionOutcome(
    status: string,
    history: seq<map<string, real>>,
    abortReason: Option<string>,
    callbackCalls: nat,
    updates: seq<nat>,
    ending: Ending)
  {
    predicate Raised() {
      ending == ComparisonFailed || ending == CallbackFailed
    }
  }

  /** The multiples of ten in 1..n, ascending. */
  function UpdatePoints(n: nat): (r: seq<nat>)
    ensures forall k :: k in r <==> 1 <= k <= n && k % 10 == 0
    ensures forall i, j :: 0 <= i < j < |r| ==> r[i] < r[j]
  {
    if n == 0 then []
    else
      var previous := UpdatePoints(n - 1);
      var r := previous + (if n % 10 == 0 then [n] else []);
      assert forall k :: k in r <==> k in previous || (n % 10 == 0 && k == n);
      assert forall i :: 0 <= i < |previous| ==> previous[i] in previous && previous[i] < n;
      r
  }

  /** A sample that neither raises nor crosses the threshold. */
  predicate Passes(sample: map<string, real>, t: AbortThreshold) {
    !ComparisonRaises(sample, t) && !ShouldAbort(sample, t)
  }

  /**
   * How the `while` loop of `monitor` (with its exception handler) ends for a
   * deadline of `deadline` ticks, the statuses `statusAt` and the samples
   * `sampleAt`: the postcondition of `RunSession`, as one predicate.
   */
  predicate LoopOutcome(out: SessionOutcome, threshold: AbortThreshold, thresholdText: string, deadline: nat,
                        statusAt: nat -> string, sampleAt: nat -> map<string, real>, callback: Callback)
  {
    // one sample per completed status check, in tick order
    && |out.history| <= deadline
    && (forall j :: 0 <= j < |out.history| ==> out.history[j] == sampleAt(j) && !IsTerminal(statusAt(j)))
    // every sample before the last one passed the threshold
    && (forall j :: 0 <= j < |out.history| - 1 ==> Passes(sampleAt(j), threshold))
    && (out.ending == DeadlineReached ==>
          && |out.history| == deadline && out.status == "completed"
          && (deadline > 0 ==> Passes(sampleAt(deadline - 1), threshold)))
    && (out.ending == StatusAdopted ==>
          && |out.history| < deadline && out.status == statusAt(|out.history|)
          && IsTerminal(out.status)
          && (|out.history| > 0 ==> Passes(sampleAt(|out.history| - 1), threshold)))
    && (out.ending in {DeadlineReached, StatusAdopted, ComparisonFailed} ==>
          out.abortReason.None? && out.callbackCalls == 0)
    && (out.ending in {ThresholdBreached, ComparisonFailed, CallbackFailed} ==> |out.history| >= 1)
    && (out.ending == ComparisonFailed ==>
          ComparisonRaises(out.history[|out.history| - 1], threshold) && out.status == "failed")
    && (out.ending in {ThresholdBreached, CallbackFailed} ==>
          && !ComparisonRaises(out.history[|out.history| - 1], threshold)
          && ShouldAbort(out.history[|out.history| - 1], threshold)
          && out.abortReason == Some("Threshold exceeded: " + thresholdText)
          && out.callbackCalls == (if callback.Callback? then 1 else 0))
    && (out.ending == ThresholdBreached ==> out.status == "aborted" && callback != Callback(true))
    && (out.ending == CallbackFailed ==> out.status == "failed" && callback == Callback(true))
    && (!out.Raised() ==> IsTerminal(out.status))
    && out.updates == UpdatePoints(if out.ending in {DeadlineReached, StatusAdopted} then |out.history| else |out.history| - 1)
  }

  /**
   * The `while` loop of `monitor` (with its exception handler): each tick
   * checks the experiment status, appends the tick's sample, checks the
   * threshold and, every tenth sample, requests a progress notification.
   */
  method RunSession(threshold: AbortThreshold, thresholdText: string, deadline: nat,
                    statusAt: nat -> string, sampleAt: nat -> map<string, real>, callback: Callback)
    returns (out: SessionOutcome)
    // one sample per completed status check, in tick order
    ensures |out.history| <= deadline
    ensures forall j :: 0 <= j < |out.history| ==> out.history[j] == sampleAt(j) && !IsTerminal(statusAt(j))
    // every sample before the last one passed the threshold
    ensures forall j :: 0 <= j < |out.history| - 1 ==> Passes(sampleAt(j), threshold)
    ensures out.ending == DeadlineReached ==>
              && |out.history| == deadline && out.status == "completed"
              && (deadline > 0 ==> Passes(sampleAt(deadline - 1), threshold))
    ensures out.ending == StatusAdopted ==>
              && |out.history| < deadline && out.status == statusAt(|out.history|)
              && IsTerminal(out.status)
              && (|out.history| > 0 ==> Passes(sampleAt(|out.history| - 1), threshold))
    ensures out.ending in {DeadlineReached, StatusAdopted, ComparisonFailed} ==>
              out.abortReason.None? && out.callbackCalls == 0
    ensures out.ending in {ThresholdBreached, ComparisonFailed, CallbackFailed} ==> |out.history| >= 1
    ensures out.ending == ComparisonFailed ==>
              ComparisonRaises(out.history[|out.history| - 1], threshold) && out.status == "failed"
    ensures out.ending in {ThresholdBreached, CallbackFailed} ==>
              && !ComparisonRaises(out.history[|out.history| - 1], threshold)
              && ShouldAbort(out.history[|out.history| - 1], threshold)
              && out.abortReason == Some("Threshold exceeded: " + thresholdText)
              && out.callbackCalls == (if callback.Callback? then 1 else 0)
    ensures out.ending == ThresholdBreached ==> out.status == "aborted" && callback != Callback(true)
    ensures out.ending == CallbackFailed ==> out.status == "failed" && callback == Callback(true)
    ensures !out.Raised() ==> IsTerminal(out.status)
    ensures out.updates == UpdatePoints(if out.ending in {DeadlineReached, StatusAdopted} then |out.history| else |out.history| - 1)
  {
    var history: seq<map<string, real>> := [];
    var updates: seq<nat> := [];
    var i := 0;
    while i < deadline
      invariant i == |history| <= deadline
      invariant forall j :: 0 <= j < i ==> history[j] == sampleAt(j) && !IsTerminal(statusAt(j))
      invariant forall j :: 0 <= j < i ==> Passes(sampleAt(j), threshold)
      invariant updates == UpdatePoints(i)
    {
      var status := statusAt(i);
      if IsTerminal(status) {
        return SessionOutcome(status, history, None, 0, updates, StatusAdopted);
      }
      var metrics := sampleAt(i);
      history := history + [metrics];
      if ComparisonRaises(metrics, threshold) {
        return SessionOutcome("failed", history, None, 0, updates, ComparisonFailed);
      }
      if ShouldAbort(metrics, threshold) {
        out := AbortSession(history, updates, thresholdText, callback);
        return;
      }
      if |history| % 10 == 0 {
        updates := updates + [|history|];
      }
      i := i + 1;
    }
    out := SessionOutcome("completed", history, None, 0, updates, DeadlineReached);
  }

  /**
   * The abort branch of the loop: the session is aborted with the threshold
   * as its reason and the callback, if any, is called once; a callback that
   * raises fails the session.
   */
  method AbortSession(history: seq<map<string, real>>, updates: seq<nat>, thresholdText: string, callback: Callback)
    returns (out: SessionOutcome)
    ensures out.history == history && out.updates == updates
    ensures out.abortReason == Some("Threshold exceeded: " + thresholdText)
    ensures out.callbackCalls == (if callback.Callback? then 1 else 0)
    ensures out.ending in {ThresholdBreached, CallbackFailed}
    ensures out.ending == ThresholdBreached ==> out.status == "aborted" && callback != Callback(true)
    ensures out.ending == CallbackFailed ==> out.status == "failed" && callback == Callback(true)
  {
    var reason := Some("Threshold exceeded: " + thresholdText);
    match callback
    case NoCallback =>
      out := SessionOutcome("aborted", history, reason, 0, updates, ThresholdBreached);
    case Callback(raises) =>
      if raises {
        out := SessionOutcome("failed", history, reason, 1, updates, CallbackFailed);
      } else {
        out := SessionOutcome("aborted", history, reason, 1, updates, ThresholdBreached);
      }
  }

  /** `RunSession` seen from `monitor`: its whole postcondition, as `LoopOutcome`. */
  method RunLoop(threshold: AbortThreshold, thresholdText: string, deadline: nat,
                 statusAt: nat -> string, sampleAt: nat -> map<string, real>, callback: Callback)
    returns (out: SessionOutcome)
    ensures LoopOutcome(out, threshold, thresholdText, deadline, statusAt, sampleAt, callback)
  {
    out := RunSession(threshold, thresholdText, deadline, statusAt, sampleAt, callback);
  }

  // ---------------------------------------------------------------------------
  // The final report

  /** `m.get(key, 0)` */
  function MetricOrZero(m: map<string, real>, key: string): real {
    if key in m then m[key] else 0.0
  }

  /** The mean of `key` over the first (at most) two samples, missing values counted as 0. */
  function Baseline(history: seq<map<string, real>>, key: string): real
    requires |history| > 0
  {
    if |history| == 1 then MetricOrZero(history[0], key)
    else (MetricOrZero(history[0], key) + MetricOrZero(history[1], key)) / 2.0
  }

  /** The change from `baseline` to `final` in percent of the baseline; 0 without a positive baseline. */
  function ImpactPercent(final: real, baseline: real): real
  {
    if baseline > 0.0 then (final - baseline) / baseline * 100.0 else 0.0
  }

  /** The baseline lies between the first and the second sample's value (the first alone when there is one sample). */
  lemma BaselineBetween(history: seq<map<string, real>>, key: string)
    requires |history| > 0
    ensures var x0 := MetricOrZero(history[0], key);
            var x1 := if |history| > 1 then MetricOrZero(history[1], key) else x0;
            var b := Baseline(history, key);
            (x0 <= b <= x1) || (x1 <= b <= x0)
  {
  }

  /** The impact is 0 without a positive baseline; otherwise it is positive exactly on a rise and 0 exactly when nothing changed. */
  lemma ImpactSign(final: real, baseline: real)
    ensures baseline <= 0.0 ==> ImpactPercent(final, baseline) == 0.0
    ensures baseline > 0.0 ==>
              var p := ImpactPercent(final, baseline);
              (p > 0.0 <==> final > baseline) && (p == 0.0 <==> final == baseline)
  {
  }

  /** Applying the impact percentage to a positive baseline gives back the final value. */
  lemma ImpactRecoversFinal(final: real, baseline: real)
    requires baseline > 0.0
    ensures baseline + baseline * ImpactPercent(final, baseline) / 100.0 == final
  {
    var p := ImpactPercent(final, baseline);
    assert p == (final - baseline) / baseline * 100.0;
    assert baseline * p / 100.0 == final - baseline;
  }

  datatype MonitorReport = MonitorReport(
    runId: string,
    status: string,
    abortReason: Option<string>,
    finalMetrics: map<string, real>,
    errorRateImpact: real,
    latencyImpact: real,
    history: seq<map<string, real>>,
    spec: ExperimentSpec)

  /**
   * `_generate_final_report` (without the clock fields): the last sample as
   * the final metrics, and the error-rate and latency impact against the
   * baseline of the first two samples.
   */
  function FinalReport(runId: string, spec: ExperimentSpec, status: string, abortReason: Option<string>,
                       history: seq<map<string, real>>): (r: MonitorReport)
    ensures r.runId == runId && r.status == status && r.abortReason == abortReason
    ensures r.history == history && r.spec == spec
    ensures |history| == 0 ==> r.finalMetrics == map[] && r.errorRateImpact == 0.0 && r.latencyImpact == 0.0
    ensures |history| > 0 ==>
              && r.finalMetrics == history[|history| - 1]
              && r.errorRateImpact == ImpactPercent(MetricOrZero(r.finalMetrics, "error_rate"), Baseline(history, "error_rate"))
              && r.latencyImpact == ImpactPercent(MetricOrZero(r.finalMetrics, "latency_p95"), Baseline(history, "latency_p95"))
  {
    if |history| == 0 then
      MonitorReport(runId, status, abortReason, map[], 0.0, 0.0, history, spec)
    else
      var latest := history[|history| - 1];
      MonitorReport(runId, status, abortReason, latest,
        ImpactPercent(MetricOrZero(latest, "error_rate"), Baseline(history, "error_rate")),
        ImpactPercent(MetricOrZero(latest, "latency_p95"), Baseline(history, "latency_p95")),
        history, spec)
  }

  // ---------------------------------------------------------------------------
  // The registry of active sessions

  /** One entry of `active_monitors` (the start time is a clock reading and is left out). */
  datatype MonitorSession = MonitorSession(
    runId: string,
    spec: ExperimentSpec,
    durationSeconds: int,
    threshold: AbortThreshold,
    status: string,
    history: seq<map<string, real>>,
    abortReason: Option<string>)

  /** Why `monitor` raised. */
  datatype MonitorError = InvalidDuration(text: string) | SessionFailed(outcome: SessionOutcome)

  /** What `get_status` answers. */
  datatype MonitorStatus =
    | NotFound
    | Found(runId: string, status: string, spec: ExperimentSpec, latestMetrics: Option<map<string, real>>)

  /** One entry of `list_active_monitors`. */
  datatype MonitorSummary = MonitorSummary(runId: string, title: Option<string>, status: string)

  /** `spec.get('abort_threshold', {})` */
  function ThresholdOf(spec: ExperimentSpec): AbortThreshold {
    spec.abortThreshold.GetOr(AbortThreshold(None, None, None, false))
  }

  function Summaries(ids: seq<string>, sessions: map<string, MonitorSession>): (r: seq<MonitorSummary>)
    requires forall id :: id in ids ==> id in sessions
    ensures |r| == |ids|
    ensures forall i :: 0 <= i < |r| ==>
              r[i] == MonitorSummary(ids[i], sessions[ids[i]].spec.title, sessions[ids[i]].status)
  {
    if |ids| == 0 then []
    else [MonitorSummary(ids[0], sessions[ids[0]].spec.title, sessions[ids[0]].status)] + Summaries(ids[1..], sessions)
  }

  /**
   * What watching a run for `seconds` answers: the loop ends as `outcome`
   * (see `LoopOutcome`), the call fails exactly when the loop raised, and
   * otherwise the answer is the final report of the loop's status, abort
   * reason and samples.
   */
  ghost predicate Watched(r: Result<MonitorReport, MonitorError>, outcome: SessionOutcome,
                          runId: string, spec: ExperimentSpec, seconds: int, callback: Callback,
                          thresholdText: string, statusAt: nat -> string, sampleAt: nat -> map<string, real>)
  {
    && LoopOutcome(outcome, ThresholdOf(spec), thresholdText, DeadlineTicks(seconds), statusAt, sampleAt, callback)
    && (r.Err? <==> outcome.Raised())
    && (r.Err? ==> r == Err(SessionFailed(outcome)))
    && (r.Ok? ==> r.value == FinalReport(runId, spec, outcome.status, outcome.abortReason, outcome.history))
  }

  /**
   * The part of `monitor` between registering and unregistering the run:
   * the loop (its end is `outcome`) and, unless it raised, the final report.
   */
  method Observe(runId: string, spec: ExperimentSpec, seconds: int, callback: Callback,
                 thresholdText: string, statusAt: nat -> string, sampleAt: nat -> map<string, real>)
    returns (r: Result<MonitorReport, MonitorError>, ghost outcome: SessionOutcome)
    ensures Watched(r, outcome, runId, spec, seconds, callback, thresholdText, statusAt, sampleAt)
  {
    var session := RunLoop(ThresholdOf(spec), thresholdText, DeadlineTicks(seconds), statusAt, sampleAt, callback);
    outcome := session;
    if session.Raised() {
      return Err(SessionFailed(session)), outcome;
    }
    r := Ok(FinalReport(runId, spec, session.status, session.abortReason, session.history));
  }

  class RunMonitor {
    var activeMonitors: map<string, MonitorSession>
    var order: seq<string>

    ghost predicate Valid()
      reads this
    {
      Distinct(order) && forall id :: id in order <==> id in activeMonitors
    }

    constructor ()
      ensures Valid() && activeMonitors == map[] && order == []
    {
      activeMonitors := map[];
      order := [];
    }

    /** `self.active_monitors[run_id] = monitor_session` */
    method Register(session: MonitorSession)
      requires Valid()
      modifies this
      ensures Valid()
      ensures activeMonitors == old(activeMonitors)[session.runId := session]
      ensures order == if session.runId in old(activeMonitors) then old(order) else old(order) + [session.runId]
    {
      if session.runId !in activeMonitors {
        order := order + [session.runId];
      }
      activeMonitors := activeMonitors[session.runId := session];
    }

    /** The `finally` clause: the run leaves `active_monitors`. */
    method Unregister(runId: string)
      requires Valid()
      modifies this
      ensures Valid()
      ensures activeMonitors == old(activeMonitors) - {runId}
      ensures order == Without(old(order), {runId})
    {
      WithoutKeepsDistinct(order, {runId});
      WithoutMembers(order, {runId});
      activeMonitors := activeMonitors - {runId};
      order := Without(order, {runId});
    }

    /**
     * `monitor`. The duration is parsed before the session exists, so an
     * unreadable duration raises with the registry untouched. Otherwise the
     * session is registered as running and the loop runs to its end, which
     * `outcome` describes. On every way out, normal or by exception, the run
     * leaves the registry. Unless the loop raised, the answer is the final
     * report of the loop's status, abort reason and samples.
     */
    method Monitor(runId: string, spec: ExperimentSpec, durationOverride: Option<string>, callback: Callback,
                   thresholdText: string, statusAt: nat -> string, sampleAt: nat -> map<string, real>)
      returns (r: Result<MonitorReport, MonitorError>, ghost outcome: SessionOutcome)
      requires Valid()
      modifies this
      ensures Valid()
      ensures ParseDuration(DurationText(durationOverride, spec)).None? ==>
                && r == Err(InvalidDuration(DurationText(durationOverride, spec)))
                && activeMonitors == old(activeMonitors) && order == old(order)
      ensures ParseDuration(DurationText(durationOverride, spec)).Some? ==>
                && activeMonitors == old(activeMonitors) - {runId}
                && order == Without(old(order), {runId})
                && Watched(r, outcome, runId, spec, ParseDuration(DurationText(durationOverride, spec)).value,
                           callback, thresholdText, statusAt, sampleAt)
    {
      var text := DurationText(durationOverride, spec);
      var seconds := ParseDuration(text);
      if seconds.None? {
        return Err(InvalidDuration(text)), SessionOutcome("failed", [], None, 0, [], ComparisonFailed);
      }
      r, outcome := Watch(runId, spec, seconds.value, callback, thresholdText, statusAt, sampleAt);
    }

    /**
     * `monitor` once the duration is known: register the session as running,
     * run the loop (its end is `outcome`), take the run out of the registry
     * whatever the loop's end, and report unless the loop raised.
     */
    method Watch(runId: string, spec: ExperimentSpec, seconds: int, callback: Callback,
                 thresholdText: string, statusAt: nat -> string, sampleAt: nat -> map<string, real>)
      returns (r: Result<MonitorReport, MonitorError>, ghost outcome: SessionOutcome)
      requires Valid()
      modifies this
      ensures Valid()
      ensures activeMonitors == old(activeMonitors) - {runId}
      ensures order == Without(old(order), {runId})
      ensures Watched(r, outcome, runId, spec, seconds, callback, thresholdText, statusAt, sampleAt)
    {
      var session := MonitorSession(runId, spec, seconds, ThresholdOf(spec), "running", [], None);
      AddedThenRemoved(activeMonitors, order, runId, session);
      Register(session);
      r, outcome := Observe(runId, spec, seconds, callback, thresholdText, statusAt, sampleAt);
      Unregister(runId);
    }

    /** `get_status`: not found for an unknown run; otherwise its status and its latest sample, if any. */
    function GetStatus(runId: string): (r: MonitorStatus)
      reads this
      ensures r.NotFound? <==> runId !in activeMonitors
      ensures r.Found? ==>
                var s := activeMonitors[runId];
                && r.status == s.status && r.spec == s.spec
                && (r.latestMetrics.None? <==> |s.history| == 0)
                && (r.latestMetrics.Some? ==> r.latestMetrics.value == s.history[|s.history| - 1])
    {
      if runId !in activeMonitors then NotFound
      else
        var s := activeMonitors[runId];
        Found(runId, s.status, s.spec, if |s.history| == 0 then None else Some(s.history[|s.history| - 1]))
    }

    /** `list_active_monitors`: one entry per session, in registration order. */
    function ListActiveMonitors(): (r: seq<MonitorSummary>)
      requires Valid()
      reads this
      ensures |r| == |order|
      ensures forall i :: 0 <= i < |r| ==> r[i].runId == order[i] && r[i].status == activeMonitors[order[i]].status
    {
      Summaries(order, activeMonitors)
    }
  }
}
