# chaosgen core, modelled in Dafny

chaosgen designs, runs, watches and reports chaos experiments on a
Kubernetes cluster. This project models the deterministic core of its six
`tools/` modules:

- **Inventory** (`inventory_fetch.dfy`) builds the cluster topology. It
  scans the configured namespaces for Deployments, StatefulSets, DaemonSets
  and Services, marks critical services by keyword, detects the cloud
  provider from node labels, and links every Service to the workloads its
  selector matches.
- **Designer** (`experiment_designer.dfy`) prepares the prompt context from
  the topology. It then cleans the LLM answer, splits it into YAML documents
  and keeps the `ChaosEngine` ones, falling back to three fixed mock
  experiments. It also summarises experiments with a fixed risk table.
- **Executor** (`executor_adapter.dfy`) validates an experiment
  specification and translates it into a LitmusChaos `ChaosEngine`. It
  applies the engine and keeps the `active_runs` registry: apply, status
  refresh, abort, list and clean-up.
- **Monitor** (`run_monitor.dfy`) parses the experiment duration and builds
  the Prometheus label filter and SLI queries. It runs the monitoring loop
  over abstract 30-second ticks, aborting on a threshold breach, and keeps
  the `active_monitors` registry. It reports the baseline and impact
  percentages.
- **Llm** (`llm_adapter.dfy`) chooses Gemini, OpenAI or the mock provider
  from environment facts. It covers the model name, the request sent to
  each provider, the mock fallback of `generate_response`, the availability
  check and the fallback reason of `detect_environment`.
- **Narrator** (`post_run_narrator.dfy`) assembles the post-run report. That
  covers the report data with its defaults, the LLM insights and their
  defaults, the abort-condition text and the Mermaid sequence diagram. It
  also covers the report file name, the listing of saved reports (newest
  first) and the plain-text summary.

Shared modules:

- `wrappers.dfy`: `Option` and `Result`.
- `strings.dfy`: the Python `str` operations the code uses (`strip`,
  `lower`, `split`, `join`, `int()`, `in`) on `seq<char>`.
- `ordered_keys.dfy`: insertion-ordered key lists, which stand for Python
  dict order.
- `chaos_spec.dfy`: the experiment specification dictionary.

Registries that the source updates in place are classes:
`Executor.ExecutorAdapter` (`active_runs`) and `Monitor.RunMonitor`
(`active_monitors`). Each holds a map plus the insertion order of its keys.

Calls into the cluster, Prometheus, the LLM providers, the YAML and JSON
parsers, the clock, `uuid4` and the number formatting of f-strings are not
made. Their outcomes are parameters of the operations that use them.

`_prepare_report_data` overwrites `impact_analysis` with the insight text,
which is a string. So `generate_summary` on prepared data raises
`AttributeError` (`'str' object has no attribute 'items'`) whenever that text
is non-empty, and it always is when the LLM is not reached.
`Narrator.PreparedSummaryRaises` states this.

## Model

| member | source | states |
|---|---|---|
| Executor.ValidateSpec | tools/executor_adapter.py:94-110 | The first missing field among title, action, target_selector and parameters is reported, in that order. Then a missing namespace, then a missing duration. Each error holds exactly when the earlier checks pass and its own fails, and success carries the fields translation reads. |
| Executor.ParseAction | tools/executor_adapter.py:149-265 | Exactly the five action names are accepted, and an accepted name maps back to itself. |
| Executor.EnvLookup | tools/executor_adapter.py:149-262 | The first environment variable of the given name is found exactly when one exists. |
| Executor.EnvLookupOfThree | tools/executor_adapter.py:149-262 | Looking a name up in a three-entry environment yields the first entry with that name. |
| Executor.TruncToInt | tools/executor_adapter.py:169-230 | `int()` on a number truncates toward zero, on both signs. |
| Executor.ExperimentFor | tools/executor_adapter.py:149-262 | One Litmus experiment per action, with TOTAL_CHAOS_DURATION the duration copied verbatim and CHAOS_INTERVAL "10". Pod-kill sets FORCE "false"; every other action carries its intensity variable as trunc(intensity × its scale). |
| Executor.ConvertToChaosEngine | tools/executor_adapter.py:112-267 | Translation succeeds exactly for a supported action, and otherwise raises UnsupportedAction. The engine is named `<run_id>-<action>`, lives in the target namespace, carries the run-id and action labels and the appinfo defaults, and holds exactly one experiment. |
| Executor.IntensityParameterInRange | tools/executor_adapter.py:169-230 | For an intensity in [0, 1] the intensity variable is an integer between 0 and its scale (2 cores, 100 MB, 200 ms, 50 %). |
| Executor.ApplyToCluster | tools/executor_adapter.py:269-308 | Applying succeeds exactly when the namespace read succeeds (or is a 404 followed by a successful create) and the create call succeeds; any failure is an API error. |
| Executor.PhaseToStatus | tools/executor_adapter.py:345-359 | completed → completed, stopped → aborted, running → running, and anything else → unknown, each as an if-and-only-if. |
| Executor.FinishedSet | tools/executor_adapter.py:424-432 | The set holds exactly the runs whose status is completed or aborted. |
| Executor.FinishedIds | tools/executor_adapter.py:424-430 | The listed ids are exactly the finished runs of the registry, in registry order. |
| Executor.FinishedIdsAppend | tools/executor_adapter.py:424-430 | Scanning one more run appends it exactly when it is finished. |
| Executor.Summaries | tools/executor_adapter.py:412-422 | One summary per id, in the given order. |
| Executor.ExecutorAdapter.constructor | tools/executor_adapter.py:32-36 | The registry starts empty. |
| Executor.ExecutorAdapter.Track | tools/executor_adapter.py:80-85 | The run is stored under its id; a new id goes to the end of the order. |
| Executor.ExecutorAdapter.Apply | tools/executor_adapter.py:49-92 | Validation and translation errors propagate, even in a dry run. A success returns "chaos-" followed by eight hex digits. A dry run or a failure leaves the registry unchanged. A live success adds exactly one running record, after the cluster accepted the engine. |
| Executor.ExecutorAdapter.GetStatus | tools/executor_adapter.py:310-382 | An unknown id raises RunNotFound and changes nothing. A found engine's phase (`engineStatus`, "unknown" when absent) is mapped and written into the record. The report then carries the run id, that status, the start time, the engine status, the ChaosResult status (empty when its read fails) and the spec. A 404 marks the run completed and reports the run id, start time and the note that the engine may have been cleaned up. Any other API error propagates with the registry unchanged. |
| Executor.ExecutorAdapter.Abort | tools/executor_adapter.py:384-410 | An unknown id raises RunNotFound and changes nothing. A successful delete sets the run aborted. A failed delete raises with the record unchanged. |
| Executor.ExecutorAdapter.ListRuns | tools/executor_adapter.py:412-422 | One summary per tracked run, in start order, and every tracked run appears. |
| Executor.ExecutorAdapter.FinishedRunIds | tools/executor_adapter.py:426-430 | The first pass collects exactly the completed and aborted runs, in order. |
| Executor.ExecutorAdapter.CleanupCompleted | tools/executor_adapter.py:424-432 | Exactly the completed and aborted runs are removed; every other run keeps its record and its place. |
| Executor.ExecutorAdapter.RemoveAll | tools/executor_adapter.py:431-432 | Deleting each listed id in turn removes exactly those ids. |
| Executor.ExecutorAdapter.Remove | tools/executor_adapter.py:432 | One deletion removes one id from the map and from the order. |
| Monitor.DurationRoundTrip | tools/run_monitor.py:158-169 | An integer followed by s, m or h, in either case, parses to the integer times 1, 60 or 3600. |
| Monitor.BareDurationIsSeconds | tools/run_monitor.py:158-169 | A bare integer is that many seconds. |
| Monitor.NonNumericDurationRejected | tools/run_monitor.py:158-169 | A unit-suffixed body that contains a letter raises. |
| Monitor.DurationText | tools/run_monitor.py:69 | A non-empty override wins, then `parameters.duration`, then "60s". |
| Monitor.DeadlineTicks | tools/run_monitor.py:88-132 | The loop runs exactly the 30-second ticks that start before the deadline. |
| Monitor.ShouldAbort | tools/run_monitor.py:273-296 | Fail-open: an empty threshold, a metric missing from the sample or an unknown operator never aborts. Otherwise it aborts exactly when the live value breaches the limit under the operator, which defaults to `>`. |
| Monitor.BuildLabelFilter | tools/run_monitor.py:215-222 | The filter built with `+=` over the selector equals the label filter: the namespace matcher followed by one matcher per entry. |
| Monitor.AppendLabelTerms | tools/run_monitor.py:219-222 | The selector loop appends the matchers of all entries, in order. |
| Monitor.EmptySelectorFilter | tools/run_monitor.py:215-222 | Without a selector the filter is `namespace="<ns>"` alone. |
| Monitor.LabelFilterOfPairs | tools/run_monitor.py:215-222 | A `k=v,k=v` selector yields `,k="v"` per pair, in order. Only the first `=` splits, so a value may hold `=`. |
| Monitor.TermsOfEntries | tools/run_monitor.py:219-222 | Each `k=v` entry with an `=`-free key contributes the matcher of that key and value. |
| Monitor.QueryPrometheusMetrics | tools/run_monitor.py:210-251 | The four SLI query texts are sent over the label filter. Each SLI key is present exactly when the server answered its query with a value, and holds that value; no other key appears. |
| Monitor.QueryScopedByFilter | tools/run_monitor.py:224-244 | Every SLI query selects its series by the label filter: the filter in braces occurs in the query text. |
| Monitor.UpdatePoints | tools/run_monitor.py:124-126 | Progress notifications fire exactly at the history lengths that are positive multiples of ten, in ascending order. |
| Monitor.RunSession | tools/run_monitor.py:97-128 | One sample is appended per tick, before the abort check, so the history is at most the deadline. A terminal status ends the loop and is adopted. A breach aborts with the threshold as reason and calls the callback once, and a raising callback fails the session. Every sample but the last passes the threshold, and a run that did not raise ends in a terminal status. |
| Monitor.AbortSession | tools/run_monitor.py:112-119 | The abort sets status aborted and the reason "Threshold exceeded: …", and calls the callback once; a raising callback leaves the session failed. |
| Monitor.RunLoop | tools/run_monitor.py:97-152 | Seen from `monitor`: the whole outcome of the loop. The history is the samples of the ticks run, in order, none of them terminal. Every sample but the last passes the threshold. The loop ends at the deadline, on an adopted terminal status, or on a breach with its abort reason, and a raised comparison or callback marks the session failed. |
| Monitor.Observe | tools/run_monitor.py:93-151 | The body of the `try`: the loop ends as `RunLoop` describes, the call fails exactly when the loop raised, and otherwise the answer is the final report of the loop's status, abort reason and samples. |
| Monitor.BaselineBetween | tools/run_monitor.py:388-398 | The baseline lies between the first and the second sample's value, or equals the first when only one sample exists. |
| Monitor.ImpactSign | tools/run_monitor.py:400-408 | The impact is 0 without a positive baseline; with one it is positive exactly on a rise and 0 exactly when nothing changed. |
| Monitor.ImpactRecoversFinal | tools/run_monitor.py:404-405 | Applying the impact percentage to a positive baseline gives back the final value. |
| Monitor.FinalReport | tools/run_monitor.py:379-424 | The run, spec, status, reason and history are carried over. An empty history gives no final metrics and zero impacts. Otherwise the final metrics are the last sample and the impacts are computed against the baseline of the first two samples. |
| Monitor.Summaries | tools/run_monitor.py:443-453 | One summary per id, in the given order, with the session's title and status. |
| Monitor.RunMonitor.constructor | tools/run_monitor.py:33-49 | The registry starts empty. |
| Monitor.RunMonitor.Register | tools/run_monitor.py:75-88 | The session is stored under its run id, at the end of the order if new. |
| Monitor.RunMonitor.Unregister | tools/run_monitor.py:153-156 | The run leaves the registry and its order. |
| Monitor.RunMonitor.Monitor | tools/run_monitor.py:51-156 | An unreadable duration raises before the registry is touched. Otherwise the answer is `Watched` for the parsed duration: the loop runs to that deadline in ticks, a raised loop is reported as failure, and otherwise the report is the final report of the loop's outcome. The run is removed from the registry on every exit. |
| Monitor.RunMonitor.Watch | tools/run_monitor.py:75-156 | The session is registered as running and watched, and is always unregistered afterwards; nothing else in the registry changes. The answer is `Watched`: the loop ends as `RunLoop` describes, the call fails exactly when the loop raised, and otherwise the report is the final report of the adopted or completed status, the abort reason and the sampled history. |
| Monitor.RunMonitor.GetStatus | tools/run_monitor.py:426-441 | Not found exactly for an unknown run; otherwise the status and the latest sample, or none without samples. |
| Monitor.RunMonitor.ListActiveMonitors | tools/run_monitor.py:443-453 | One entry per session, in registration order, with its status. |
| Inventory.ContainsAny | tools/inventory_fetch.py:384-388 | True exactly when one of the keywords occurs in the text. |
| Inventory.IsCriticalService | tools/inventory_fetch.py:384-388 | Critical exactly when the lower-cased name contains one of the seven keywords; the namespace is ignored. |
| Inventory.CriticalUnderExtension | tools/inventory_fetch.py:384-388 | A critical name stays critical inside any longer name, in any namespace. |
| Inventory.CriticalIgnoresCase | tools/inventory_fetch.py:384-388 | Lower-casing the name does not change the verdict. |
| Inventory.LabelsMatchSelector | tools/inventory_fetch.py:414-419 | True exactly when every selector key is a label with an equal value. |
| Inventory.EmptySelectorMatchesAll | tools/inventory_fetch.py:414-419 | The empty selector matches every label set. |
| Inventory.RelationshipsFromShape | tools/inventory_fetch.py:395-410 | A source yields at most one edge per target, each from the source, of type selector_match and in the source's namespace. |
| Inventory.NonSelectorEmitsNothing | tools/inventory_fetch.py:397-398 | An entry that is not a Service with a non-empty selector contributes no edge. |
| Inventory.RelationshipsFromMembers | tools/inventory_fetch.py:395-410 | An edge from a source exists exactly when the source selects a scanned target: a workload in the same namespace whose labels match. |
| Inventory.RelationshipsMembers | tools/inventory_fetch.py:390-412 | An edge is in the graph exactly when some source selects some target. |
| Inventory.RelationshipsSourceMajor | tools/inventory_fetch.py:395-410 | The edges of earlier sources come first: a prefix of the sources gives a prefix of the edges. |
| Inventory.BuildServiceRelationships | tools/inventory_fetch.py:390-412 | The nested loop yields the relationship graph of all sources over all targets. |
| Inventory.AppendSourceEdges | tools/inventory_fetch.py:399-410 | The inner loop appends the edges of one source. |
| Inventory.DetectProvider | tools/inventory_fetch.py:136-146 | The result is the marker of the first node with an EKS, GKE or AKS label, in that order within a node, else "unknown". |
| Inventory.FirstProviderUnique | tools/inventory_fetch.py:136-146 | That description determines one provider. |
| Inventory.GetClusterInfo | tools/inventory_fetch.py:116-134 | A failing call gives the error block; otherwise the version, platform and detected provider. |
| Inventory.ExtractedShape | tools/inventory_fetch.py:194-357 | Every extracted entry belongs to the namespace and kind it was listed under, with id `<ns>/<name>` and its critical flag. |
| Inventory.NamespaceServicesShape | tools/inventory_fetch.py:148-192 | A namespace's entries come in the order deployments, statefulsets, daemonsets, services, and all belong to it. |
| Inventory.FetchNamespaceServices | tools/inventory_fetch.py:148-192 | The per-kind appends equal the concatenation of the four listings. Unreadable objects are dropped, and a failed list drops only its kind. |
| Inventory.ScannedNamespaces | tools/inventory_fetch.py:72-73 | `k8s.namespaces` when given, else ["default"]. |
| Inventory.AllServicesFromScannedNamespaces | tools/inventory_fetch.py:81-89 | Every collected entry comes from a scanned namespace, under its own id; a failing namespace contributes nothing. |
| Inventory.Run | tools/inventory_fetch.py:56-105 | The topology records the generation time and the namespaces scanned. total_services equals the number of services, the cluster block is an error exactly when the cluster calls fail, and the relationships are those of the collected services. |
| Designer.StripAll | tools/experiment_designer.py:172-178 | Every piece is stripped, one for one. |
| Designer.ParseYamlExperiments | tools/experiment_designer.py:155-197 | The experiments are the kept engine documents, or the mock experiments on an unexpected failure. |
| Designer.CleanResponse | tools/experiment_designer.py:159-169 | The step-by-step cleanup equals the cleaned text: stripped, without a leading "```yaml" or "```" and without a trailing "```". |
| Designer.KeepEngineDocuments | tools/experiment_designer.py:172-197 | The loop keeps exactly the non-blank stripped pieces that parse to a ChaosEngine, in order. A YAML error skips that piece, and any other failure gives None. |
| Designer.KeptMembers | tools/experiment_designer.py:172-184 | A document is kept exactly when it is one of the scanned engine documents. |
| Designer.KeptAreStripped | tools/experiment_designer.py:172-184 | Kept documents are stripped and non-blank. |
| Designer.CleanedIsStripped | tools/experiment_designer.py:159-169 | The cleaned answer carries no surrounding whitespace. |
| Designer.SplitJoinedDocuments | tools/experiment_designer.py:172 | Splitting separator-free documents joined by "\n---\n" on "---" gives one piece per document, padded by newlines. |
| Designer.FencedEnginesRoundTrip | tools/experiment_designer.py:155-197 | Stripped, separator-free engine documents, joined by "---" and fenced, are read back as exactly those documents. |
| Designer.JoinedDocumentsStripped | tools/experiment_designer.py:159-169 | Stripped non-blank documents join to a stripped text. |
| Designer.KeptAll | tools/experiment_designer.py:172-184 | When every document is an engine document, all are kept, in order. |
| Designer.MockExperiments | tools/experiment_designer.py:199-267 | Three fixed mock experiments. |
| Designer.OfKind | tools/experiment_designer.py:115-120 | Exactly the entries of one type; one entry is kept exactly when it has the type. |
| Designer.OfKindAppend | tools/experiment_designer.py:115-120 | Filtering by type distributes over concatenation, so the entries keep topology order. |
| Designer.CriticalOnes | tools/experiment_designer.py:121-122 | Exactly the entries flagged critical; one entry is kept exactly when it is critical. |
| Designer.CriticalOnesAppend | tools/experiment_designer.py:121-122 | Filtering critical entries distributes over concatenation, so they keep topology order. |
| Designer.KindsPartition | tools/experiment_designer.py:115-120 | The four types partition the services: the group sizes add up to the total. |
| Designer.TargetServices | tools/experiment_designer.py:128-130 | `config["k8s"]["target_services"]` (default []) when the config has a k8s block, else []. |
| Designer.PrepareContext | tools/experiment_designer.py:110-142 | deployments, statefulsets and services hold exactly the entries of their type, and critical_services the critical ones. Each list is the order-keeping filter of the topology. N is the count, and the cluster info, relationships and target services are copied. |
| Designer.AssessRiskLevel | tools/experiment_designer.py:681-691 | node-drain is high; pod-cpu-hog and pod-network-delay are low; every other type is medium. |
| Designer.ExperimentType | tools/experiment_designer.py:653-656 | The first experiment's name, or "unknown" without experiments. |
| Designer.SummaryOf | tools/experiment_designer.py:644-679 | An unreadable document gives the placeholder with risk "unknown"; a readable one never does. |
| Designer.GetExperimentSummary | tools/experiment_designer.py:642-679 | Exactly one summary per experiment, in order. |
| Llm.DetectProvider | tools/llm_adapter.py:140-216 | Gemini is chosen only with a Google key and the Gemini library; OpenAI only with an OpenAI key and its library. |
| Llm.ForcedGemini | tools/llm_adapter.py:144-166 | With the override "gemini" (any case) the result is Gemini exactly when the key and library are present, and never OpenAI. |
| Llm.ForcedOpenAI | tools/llm_adapter.py:168-187 | With the override "openai" the result is OpenAI exactly when the key and library are present, and never Gemini. |
| Llm.AutoDetected | tools/llm_adapter.py:189-216 | Without a recognised override, a Google key takes precedence, even when its library is missing and an OpenAI key exists. Then an OpenAI key, then mock. |
| Llm.OverrideCaseInsensitive | tools/llm_adapter.py:142-143 | The override is compared lower-cased. |
| Llm.MockModeIgnored | tools/llm_adapter.py:140-216 | The mock-mode flag does not influence the provider choice. |
| Llm.GetModel | tools/llm_adapter.py:250-262 | mock → "mock-model"; otherwise CHAOSGEN_LLM_MODEL when set, else "gpt-3.5-turbo" for OpenAI and "gemini-1.5-flash" for Gemini. |
| Llm.NewAdapter | tools/llm_adapter.py:20-36 | The adapter holds the detected provider and its model. |
| Llm.RequestShape | tools/llm_adapter.py:292-333 | OpenAI gets a chat completion: a system message when a system prompt is given, then the user message. Gemini gets one prompt, with a non-empty system prompt prefixed. Both carry the model, temperature and token limit. |
| Llm.MockResponseNotBlank | tools/llm_adapter.py:335-405 | The mock answer is not blank. |
| Llm.GenerateResponseOutcome | tools/llm_adapter.py:264-290 | The mock provider answers with the mock text and makes no call. A provider that raises also yields the mock text; otherwise the stripped answer is returned. |
| Llm.CheckAvailability | tools/llm_adapter.py:407-438 | The provider name and model are echoed, and available holds exactly when no error is reported. |
| Llm.AvailabilityDecision | tools/llm_adapter.py:407-438 | Mock is available. Any other provider is available exactly when the test answer is non-blank, and a raising provider counts as available, since it falls back to the mock text. |
| Llm.FallbackReason | tools/llm_adapter.py:104-136 | The mock-mode flag is reported first. |
| Llm.FallbackReasonPriority | tools/llm_adapter.py:105-125 | After the flag, a non-empty override decides alone: "gemini" and "openai" get their own reasons, exactly when that provider is not usable, and any other value, compared without lower-casing, gets none. |
| Llm.FallbackReasonKeyOrder | tools/llm_adapter.py:126-135 | Without an override: no key gives "No API keys found", then a Google key without its library, then an OpenAI key without its library, each with its message. Otherwise there is no reason. |
| Llm.FallbackReasonDisagrees | tools/llm_adapter.py:104-136 | Two concrete environments where the reported reason contradicts the detected provider. |
| Llm.DetectedFallbackReason | tools/llm_adapter.py:140-216 | The mock-mode flag is reported first. |
| Llm.DetectedFallbackReasonExplainsMock | tools/llm_adapter.py:140-216 | Without the mock flag, a reason is given exactly when the detected provider is mock. |
| Narrator.FencedInsightsCleaned | tools/post_run_narrator.py:252-258 | A "```json … ```" answer is cleaned to its stripped body. |
| Narrator.PlainInsightsKept | tools/post_run_narrator.py:252-258 | A stripped answer without fences is left unchanged. |
| Narrator.InsightsOf | tools/post_run_narrator.py:248-283 | A decoded object gives its five fields, with '' for a missing key; a failed decode gives the default insights. |
| Narrator.GenerateInsights | tools/post_run_narrator.py:160-186 | Without an LLM answer the default insights are used. |
| Narrator.PrepareReportData | tools/post_run_narrator.py:132-158 | Without monitoring data: status completed, duration 0 and the start time now. With it, status defaults to completed and the history, metrics, impact and abort reason are copied. Then the insight fields are added, replacing impact_analysis by the insight text. |
| Narrator.AbortConditionsPrecedence | tools/post_run_narrator.py:337-347 | A present abort reason wins. Otherwise a non-empty threshold renders "metric operator value". Otherwise "No abort conditions configured". Each is an if-and-only-if on the text's prefix. |
| Narrator.ThresholdDefaults | tools/post_run_narrator.py:341-345 | A threshold without metric, operator or value renders "unknown > unknown". |
| Narrator.GenerateMermaidDiagram | tools/post_run_narrator.py:349-386 | The diagram is the lines of the base sequence, plus the abort lines when aborted, joined by newlines. |
| Narrator.DiagramShape | tools/post_run_narrator.py:349-386 | The diagram starts with "sequenceDiagram" and contains "Execute <action>". It has 13 lines, or 17 with exactly the abort tail when the run was aborted. |
| Narrator.DiagramIgnoresTitle | tools/post_run_narrator.py:349-386 | The experiment title does not affect the diagram. |
| Narrator.TimestampParts | tools/post_run_narrator.py:395 | The date and time parts of the timestamp contain no underscore. |
| Narrator.SlugShape | tools/post_run_narrator.py:396 | The slug is the title (default "unknown") lower-cased, with every space and hyphen turned into an underscore. No upper-case letter, space or hyphen is left. |
| Narrator.ReportFilename | tools/post_run_narrator.py:395-397 | The name starts with the timestamp and an underscore and ends with ".md". |
| Narrator.ParseReportNameAsWritten | tools/post_run_narrator.py:441-463 | latest.md and stems with fewer than three '_' parts are skipped; the timestamp is the first three parts and the title parts[3:-1]. |
| Narrator.ParseReportName | tools/post_run_narrator.py:441-463 | The same skips as the as-written parse, which it corrects. |
| Narrator.SavedNameParts | tools/post_run_narrator.py:395-397 | A saved name's stem splits into date, time, the slug's words and the run id. |
| Narrator.SavedReportMisread | tools/post_run_narrator.py:449-451 | As written, a saved report reads back with the first slug word glued to its timestamp. |
| Narrator.SavedReportRead | tools/post_run_narrator.py:441-463 | Corrected, a saved report reads back with its own timestamp, the slug with spaces for underscores as title, and its run id. |
| Narrator.CollectedMembers | tools/post_run_narrator.py:441-463 | The collected reports are exactly the files that parse. |
| Narrator.SortNewestFirstFacts | tools/post_run_narrator.py:465 | The sort is a permutation and orders timestamps descending. |
| Narrator.ListReports | tools/post_run_narrator.py:435-465 | No reports directory gives []. Otherwise the result is the parsed reports sorted newest first. Names are read with the corrected parser (see Findings). |
| Narrator.GenerateSummary | tools/post_run_narrator.py:413-433 | The loop-built summary equals the specified summary. It raises AttributeError when impact_analysis is non-empty text. |
| Narrator.AbortLineExactlyWhenAborted | tools/post_run_narrator.py:419-431 | An "Aborted: …" line appears exactly when abort_reason is present. |
| Narrator.ImpactItemsShape | tools/post_run_narrator.py:425-429 | One "metric: …" line per impact entry, in order. |
| Narrator.PreparedSummaryRaises | tools/post_run_narrator.py:132-158 | Prepared report data with non-empty insight impact, or without an LLM answer, makes the summary raise. |

## Left out

- Kubernetes, Prometheus, Slack, OpenAI and Gemini calls are not made; their outcomes are parameters (success, 404, other error, returned object or value).
- `_ensure_namespace` appears only through its outcome: 404 → create, else re-raise.
- `_query_prometheus` (the HTTP request) is a parameter from the PromQL text, `Query.Text()`, to the value read back.
- `_update_prometheus_metrics` (gauges) and `_send_slack_notification` are side effects behind libraries. The model records only when a progress notification is due.
- Time and identity are not modelled as sources. `time.sleep` and wall-clock deadlines become 30-second ticks, and any time spent working inside an iteration is ignored. `datetime.utcnow` and `time.time` become parameters, and so does `uuid4().hex[:8]`.
- `_check_experiment_status` is a stub that always answers 'running'. The status at each tick is a parameter.
- `_collect_metrics` is not part of this model: the sample at each tick is a parameter.
- YAML and JSON parsing and Jinja template rendering are parameters. `_load_template`, `_get_default_template`, `_generate_report_content`, `_create_insights_prompt`, `design` and `generate_report` are not modelled beyond the pieces above.
- JSON values other than strings in the insights answer are not modelled.
- `_create_explanation_content`, `_format_experiment_explanation`, `_get_experiment_type_explanation` and `_get_expected_impact` are prose generators and are left out.
- `_extract_resource_requirements` does floating-point arithmetic on quantity strings and is left out. The `_extract_*_info` steps appear only as "object read or unreadable".
- `save_experiments`, `save_manifest`, `save_topology`, the report and latest.md writes, `_load_config`, `.env` loading, directory globbing and `stat` are file I/O. Only the report file name and the listing logic over given files are modelled.
- Numbers are `real`, not IEEE floats. How an f-string renders a number (duration, threshold value, impact percentage) is a parameter.
- `_format_metrics_summary` is not modelled: it is only number formatting.
- Strings are `seq<char>`. `strip`, `lower` and `upper` treat ASCII letters and whitespace only: non-ASCII whitespace (such as U+00A0 or U+2028) is not stripped.
- Strings.ParseInt: `int()` also accepts single underscores between digits (`int("1_0")` is 10, so `_parse_duration("1_0s")` is 10) and non-ASCII digits; the model rejects both.
- Monitor.ParseDuration: durations are unbounded integers. A duration too large for `timedelta` makes the source raise OverflowError when it computes the end time; the model has no such bound.
- Dictionary keys that may be absent are `Option` fields, which cannot tell a missing key from a key holding None. A key present with value None is not modelled. In the source it makes the Mermaid helper return "" when action is None, and it makes the slug crash when title is None.
- Narrator.SortNewestFirstFacts: sort stability for equal timestamps is not stated.
- Llm.GetModel: the "unknown" branch is unreachable, since the provider is always one of the three.
- Llm.CheckAvailability: the `except` branch is unreachable because `generate_response` never raises, so it is not modelled.
- `_initialize_client` (client objects) and the `get_llm_adapter` module singleton are left out. The adapter is a value built once by `NewAdapter`.
- `_call_llm` of the designer and the narrator wrap the adapter; the LLM answer is a parameter (`None` when the call fails).
- Narrator.ListReports: it reads names with the corrected `ParseReportName`, not the as-written `ParseReportNameAsWritten` (see Findings), so listed timestamps and titles are those the fix gives.
- Executor.ExecutorAdapter.GetStatus: the ChaosResult name (`engine_name + "-" + action`) is not built; the answer of that read is a parameter.
- Monitor.RunMonitor.Monitor: the intermediate in-place updates of the session dictionary while the loop runs are not visible. The registry holds the session as registered until it is removed.
- `target_services` is passed to `_fetch_namespace_services` but never read there, and the model does not take it.
- Executor.ExperimentFor: the duration is copied verbatim ("60s" stays "60s"), which is what the code does. A test expecting "60" disagrees.
- Executor.ExecutorAdapter.Abort: a second abort re-issues the delete, so abort is not idempotent and no idempotence is claimed.
- Monitor.ShouldAbort: an abort threshold with a metric but no `value` makes the comparison raise. It is excluded by a precondition.

## Findings

| source | as written | input that shows it | evidently intended | confidence | as-written member | corrected member |
|---|---|---|---|---|---|---|
| tools/post_run_narrator.py:449-451 | `list_reports` takes the timestamp from the first three '_' parts and the title from parts[3:-1]. But the timestamp `_save_report` writes (line 395) holds one '_', so it spans only two parts. | A report saved at 2024-01-02 03:04:05 for title "Pod Kill" and run "chaos-1" is named `2024-01-02_03-04-05_pod_kill_chaos-1.md`. It lists with timestamp `2024-01-02_03-04-05_pod` and title `kill`. | The timestamp is parts 0-1 and the title is parts[2:-1] joined with spaces, so a saved report reads back as written. | not executed | Narrator.SavedReportMisread | Narrator.SavedReportRead |
| tools/llm_adapter.py:104-136 | The `fallback_reason` chain of `detect_environment` re-derives its reason from the keys and libraries instead of from the detected provider. | Both keys set with only the Gemini library: Gemini is chosen, yet a missing OpenAI library is reported. Override "anthropic" with no keys and both libraries: mock is chosen, yet no reason is given. | A reason is given exactly when the detected provider is mock, and it explains that choice. | not executed | Llm.FallbackReasonDisagrees | Llm.DetectedFallbackReasonExplainsMock |
