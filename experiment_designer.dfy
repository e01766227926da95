/**
 * The experiment designer: reads the ChaosEngine documents out of a language
 * model's answer, prepares the context the prompt template is rendered with,
 * grades the risk of an experiment type and summarises generated experiments.
 *
 * YAML parsing is not done here: what `yaml.safe_load` makes of a document is
 * a parameter (`YamlOutcome`, `EngineFields`). Rendering the prompt template
 * and calling the model are not part of this module.
 */
module Designer {
  import opened Wrappers
  import opened Strings
  import opened Inventory

  // ---------------------------------------------------------------------------
  // Reading the experiments out of the answer

  /** What `yaml.safe_load` makes of one document. */
  datatype YamlOutcome =
    | Mapping(kind: Option<string>)  // a non-empty dictionary, with its `kind` key
    | NotMapping                     // a scalar, a list, `None` or `{}`
    | YamlError                      // `yaml.YAMLError`: this document is skipped
    | Crash                          // any other exception: the mock experiments are returned

  const FenceYaml: string := "```yaml"
  const Fence: string := "```"
  const DocumentSeparator: string := "---"

  /** The answer with whitespace and Markdown code fences removed. */
  function Cleaned(response: string): string {
    var a := Strip(response);
    var b := if StartsWith(a, FenceYaml) then a[|FenceYaml|..] else a;
    var c := if StartsWith(b, Fence) then b[|Fence|..] else b;
    var d := if EndsWith(c, Fence) then c[..|c| - |Fence|] else c;
    Strip(d)
  }

  /** A non-blank stripped document that parses to a ChaosEngine dictionary. */
  predicate IsEngineDocument(doc: string, parse: string -> YamlOutcome) {
    doc != "" && parse(doc) == Mapping(Some("ChaosEngine"))
  }

  /** Every piece between separators, stripped. */
  function StripAll(pieces: seq<string>): (r: seq<string>)
    ensures |r| == |pieces|
    ensures forall i :: 0 <= i < |pieces| ==> r[i] == Strip(pieces[i])
  {
    seq(|pieces|, i requires 0 <= i < |pieces| => Strip(pieces[i]))
  }

  /** The documents among the first `n` stripped pieces that are kept, in order. */
  function KeptPrefix(docs: seq<string>, n: nat, parse: string -> YamlOutcome): seq<string>
    requires n <= |docs|
  {
    if n == 0 then []
    else KeptPrefix(docs, n - 1, parse) + (if IsEngineDocument(docs[n - 1], parse) then [docs[n - 1]] else [])
  }

  /** One of the first `n` non-blank documents makes the parser raise something other than a YAML error. */
  predicate CrashesBefore(docs: seq<string>, n: nat, parse: string -> YamlOutcome)
    requires n <= |docs|
  {
    exists i :: 0 <= i < n && docs[i] != "" && parse(docs[i]).Crash?
  }

  /** Looking at one more document adds exactly its own crash. */
  lemma CrashesBeforeStep(docs: seq<string>, n: nat, parse: string -> YamlOutcome)
    requires n < |docs|
    ensures CrashesBefore(docs, n + 1, parse) <==> CrashesBefore(docs, n, parse) || (docs[n] != "" && parse(docs[n]).Crash?)
  {
  }

  /**
   * The documents kept from an answer, or `None` when one of them made the
   * parser raise something other than a YAML error.
   */
  function EngineDocuments(response: string, parse: string -> YamlOutcome): Option<seq<string>> {
    var docs := StripAll(Split(Cleaned(response), DocumentSeparator));
    if CrashesBefore(docs, |docs|, parse) then None else Some(KeptPrefix(docs, |docs|, parse))
  }

  /** The experiments read from an answer: the documents kept, or the mock experiments. */
  function ParsedExperiments(response: string, parse: string -> YamlOutcome): seq<string> {
    var kept := EngineDocuments(response, parse);
    if kept.Some? then kept.value else MockExperiments()
  }

  /** Reads the experiments out of the answer; any unexpected failure gives the mock experiments. */
  method ParseYamlExperiments(response: string, parse: string -> YamlOutcome) returns (experiments: seq<string>)
    ensures experiments == ParsedExperiments(response, parse)
  {
    var yamlContent := CleanResponse(response);
    var pieces := Split(yamlContent, DocumentSeparator);
    var kept := KeepEngineDocuments(pieces, parse);
    if kept.None? {
      return MockExperiments();
    }
    return kept.value;
  }

  /** Strips the answer and removes a leading "```yaml", a leading "```" and a trailing "```", step by step. */
  method CleanResponse(response: string) returns (yamlContent: string)
    ensures yamlContent == Cleaned(response)
  {
    yamlContent := Strip(response);
    if StartsWith(yamlContent, FenceYaml) {
      yamlContent := yamlContent[|FenceYaml|..];
    }
    if StartsWith(yamlContent, Fence) {
      yamlContent := yamlContent[|Fence|..];
    }
    if EndsWith(yamlContent, Fence) {
      yamlContent := yamlContent[..|yamlContent| - |Fence|];
    }
    yamlContent := Strip(yamlContent);
  }

  /** The loop over the pieces between separators; `None` is the unexpected failure. */
  method KeepEngineDocuments(pieces: seq<string>, parse: string -> YamlOutcome) returns (kept: Option<seq<string>>)
    ensures var docs := StripAll(pieces);
      kept == if CrashesBefore(docs, |docs|, parse) then None else Some(KeptPrefix(docs, |docs|, parse))
  {
    ghost var docs := StripAll(pieces);
    var experiments := [];
    var i := 0;
    while i < |pieces|
      invariant 0 <= i <= |pieces|
      invariant experiments == KeptPrefix(docs, i, parse)
      invariant !CrashesBefore(docs, i, parse)
    {
      var doc := Strip(pieces[i]);
      assert doc == docs[i];
      CrashesBeforeStep(docs, i, parse);
      assert KeptPrefix(docs, i + 1, parse) == experiments + (if IsEngineDocument(doc, parse) then [doc] else []);
      if doc != "" {
        var parsed := parse(doc);
        if parsed.Crash? {
          assert CrashesBefore(docs, |docs|, parse) by {
            assert 0 <= i < |docs| && docs[i] != "" && parse(docs[i]).Crash?;
          }
          return None;
        }
        if parsed.Mapping? && parsed.kind == Some("ChaosEngine") {
          experiments := experiments + [doc];
        }
      }
      i := i + 1;
    }
    return Some(experiments);
  }

  /**
   * A document is kept exactly when it is one of the stripped pieces between
   * separators and it parses to a ChaosEngine.
   */
  lemma {:induction false} KeptMembers(docs: seq<string>, n: nat, parse: string -> YamlOutcome, doc: string)
    requires n <= |docs|
    ensures doc in KeptPrefix(docs, n, parse) <==>
      exists i :: 0 <= i < n && docs[i] == doc && IsEngineDocument(doc, parse)
  {
    if n > 0 {
      KeptMembers(docs, n - 1, parse, doc);
    }
  }

  /** The documents kept are stripped and non-blank. */
  lemma KeptAreStripped(response: string, parse: string -> YamlOutcome, doc: string)
    requires EngineDocuments(response, parse).Some? && doc in EngineDocuments(response, parse).value
    ensures Strip(doc) == doc && doc != ""
  {
    var pieces := Split(Cleaned(response), DocumentSeparator);
    var docs := StripAll(pieces);
    KeptMembers(docs, |docs|, parse, doc);
    var i :| 0 <= i < |docs| && docs[i] == doc && IsEngineDocument(doc, parse);
    StripIdempotent(pieces[i]);
  }

  /** The answer comes back without a fence and without surrounding whitespace. */
  lemma CleanedIsStripped(response: string)
    ensures Strip(Cleaned(response)) == Cleaned(response)
  {
    var a := Strip(response);
    var b := if StartsWith(a, FenceYaml) then a[|FenceYaml|..] else a;
    var c := if StartsWith(b, Fence) then b[|Fence|..] else b;
    var d := if EndsWith(c, Fence) then c[..|c| - |Fence|] else c;
    StripIdempotent(d);
  }

  /** A document is never cut in pieces: the `---` never starts inside it. */
  predicate SeparatorFree(doc: string) {
    !Contains(doc, DocumentSeparator)
  }

  /**
   * Splitting documents joined by "\n---\n" gives one piece per document, each
   * stripping to its document.
   */
  lemma {:induction false} SplitJoinedDocuments(pre: string, docs: seq<string>)
    requires pre == "" || pre == "\n"
    requires |docs| >= 1
    requires forall i :: 0 <= i < |docs| ==> SeparatorFree(docs[i])
    ensures var pieces := Split(pre + Join(docs, "\n---\n"), DocumentSeparator);
      |pieces| == |docs| && forall i :: 0 <= i < |docs| ==> Strip(pieces[i]) == Strip(docs[i])
    decreases |docs|
  {
    var d := docs[0];
    if |docs| == 1 {
      LastPieceFree(pre, d);
      SplitWhole(pre + d, DocumentSeparator);
      assert Join(docs, "\n---\n") == d;
      PaddedStrip(pre, d, "");
      assert pre + d + "" == pre + d;
      assert docs[0] == d;
    } else {
      var rest := Join(docs[1..], "\n---\n");
      var p := pre + d + "\n";
      var t := "\n" + rest;
      assert pre + Join(docs, "\n---\n") == p + DocumentSeparator + t;
      PieceFree(pre, d, t);
      SplitAt(p, DocumentSeparator, t);
      SplitJoinedDocuments("\n", docs[1..]);
      PaddedStrip(pre, d, "\n");
      var pieces := Split(pre + Join(docs, "\n---\n"), DocumentSeparator);
      var later := Split(t, DocumentSeparator);
      assert pieces == [p] + later;
      forall i | 0 <= i < |docs| ensures Strip(pieces[i]) == Strip(docs[i]) {
        if i > 0 {
          assert pieces[i] == later[i - 1] && docs[i] == docs[1..][i - 1];
        }
      }
    }
  }

  /** A newline on either side of a document does not change what `strip` returns. */
  lemma PaddedStrip(pre: string, d: string, post: string)
    requires pre == "" || pre == "\n"
    requires post == "" || post == "\n"
    ensures Strip(pre + d + post) == Strip(d)
  {
    if post == "\n" {
      assert pre + d + post == (pre + d) + ['\n'];
      StripTrailingSpace(pre + d, '\n');
    } else {
      assert pre + d + post == pre + d;
    }
    if pre == "\n" {
      assert pre + d == ['\n'] + d;
      StripLeadingSpace('\n', d);
    } else {
      assert pre + d == d;
    }
  }

  /** The separator starts nowhere in the last piece. */
  lemma LastPieceFree(pre: string, d: string)
    requires pre == "" || pre == "\n"
    requires SeparatorFree(d)
    ensures FreeBefore(pre + d, DocumentSeparator, |pre + d|)
  {
    var s := pre + d;
    forall i | 0 <= i < |s| ensures !OccursAt(s, DocumentSeparator, i) {
      if i < |pre| {
        assert s[i] == '\n';
      } else {
        assert !OccursAt(d, DocumentSeparator, i - |pre|);
        if i + 3 <= |s| {
          assert s[i..i + 3] == d[i - |pre|..i - |pre| + 3];
        }
      }
    }
  }

  /** The separator starts nowhere in a piece followed by "---". */
  lemma PieceFree(pre: string, d: string, t: string)
    requires pre == "" || pre == "\n"
    requires SeparatorFree(d)
    ensures FreeBefore(pre + d + "\n" + DocumentSeparator + t, DocumentSeparator, |pre + d + "\n"|)
  {
    var s := pre + d + "\n" + DocumentSeparator + t;
    forall i | 0 <= i < |pre + d + "\n"| ensures !OccursAt(s, DocumentSeparator, i) {
      if i < |pre| {
        assert s[i] == '\n';
      } else if i + 3 <= |pre| + |d| {
        assert !OccursAt(d, DocumentSeparator, i - |pre|);
        assert s[i..i + 3] == d[i - |pre|..i - |pre| + 3];
      } else {
        assert s[|pre| + |d|] == '\n';
        assert s[i..i + 3][|pre| + |d| - i] == '\n';
      }
    }
  }

  /**
   * A fenced answer holding ChaosEngine documents separated by "---" lines
   * yields exactly those documents, in order, and never the mock experiments.
   */
  lemma FencedEnginesRoundTrip(docs: seq<string>, parse: string -> YamlOutcome)
    requires |docs| >= 1
    requires forall i :: 0 <= i < |docs| ==>
      Strip(docs[i]) == docs[i] && SeparatorFree(docs[i]) && IsEngineDocument(docs[i], parse)
    ensures EngineDocuments(Fenced(Join(docs, "\n---\n")), parse) == Some(docs)
  {
    var body := Join(docs, "\n---\n");
    PiecesOfFenced(docs);
    EngineDocumentsKept(Fenced(body), docs, parse);
  }

  /** The stripped pieces of fenced documents are the documents. */
  lemma PiecesOfFenced(docs: seq<string>)
    requires |docs| >= 1
    requires forall i :: 0 <= i < |docs| ==> Strip(docs[i]) == docs[i] && docs[i] != "" && SeparatorFree(docs[i])
    ensures StripAll(Split(Cleaned(Fenced(Join(docs, "\n---\n"))), DocumentSeparator)) == docs
  {
    CleanedJoined(docs);
    StrippedPiecesOfJoined(docs);
  }

  /** Fenced documents come out of the cleanup as their join. */
  lemma CleanedJoined(docs: seq<string>)
    requires |docs| >= 1
    requires forall i :: 0 <= i < |docs| ==> Strip(docs[i]) == docs[i] && docs[i] != ""
    ensures Cleaned(Fenced(Join(docs, "\n---\n"))) == Join(docs, "\n---\n")
  {
    JoinedDocumentsStripped(docs);
    CleanedFenced(Join(docs, "\n---\n"));
  }

  /** When every stripped piece is an engine document, all of them are returned. */
  lemma EngineDocumentsKept(response: string, docs: seq<string>, parse: string -> YamlOutcome)
    requires StripAll(Split(Cleaned(response), DocumentSeparator)) == docs
    requires forall i :: 0 <= i < |docs| ==> IsEngineDocument(docs[i], parse)
    ensures EngineDocuments(response, parse) == Some(docs)
  {
    assert !CrashesBefore(docs, |docs|, parse);
    KeptAll(docs, |docs|, parse);
    assert docs[..|docs|] == docs;
  }

  /** Splitting stripped, separator-free documents joined by "\n---\n" and stripping the pieces gives the documents. */
  lemma StrippedPiecesOfJoined(docs: seq<string>)
    requires |docs| >= 1
    requires forall i :: 0 <= i < |docs| ==> Strip(docs[i]) == docs[i] && SeparatorFree(docs[i])
    ensures StripAll(Split(Join(docs, "\n---\n"), DocumentSeparator)) == docs
  {
    var body := Join(docs, "\n---\n");
    var split := Split(body, DocumentSeparator);
    SplitJoinedDocuments("", docs);
    assert "" + body == body;
    var pieces := StripAll(split);
    forall i | 0 <= i < |docs| ensures pieces[i] == docs[i] {
      assert Strip(split[i]) == Strip(docs[i]);
    }
  }

  /** `body` inside a "```yaml" Markdown fence. */
  function Fenced(body: string): string {
    "```yaml\n" + body + "\n```"
  }

  /** A stripped text inside a "```yaml" fence comes out of the cleanup unchanged. */
  lemma CleanedFenced(body: string)
    requires Strip(body) == body
    ensures Cleaned(Fenced(body)) == body
  {
    var inner := "\n" + body + "\n```";
    var response := FenceYaml + inner;
    assert "```yaml\n" + body + "\n```" == response;
    assert response[0] == '`' && response[|response| - 1] == '`';
    StripUnchanged(response);
    assert StartsWith(response, FenceYaml) by {
      assert response[..|FenceYaml|] == FenceYaml;
    }
    assert response[|FenceYaml|..] == inner;
    assert !StartsWith(inner, Fence) by {
      assert inner[0] == '\n';
    }
    var last := "\n" + body + "\n";
    assert inner == last + Fence;
    assert EndsWith(inner, Fence) by {
      assert inner[|inner| - |Fence|..] == Fence;
    }
    assert inner[..|inner| - |Fence|] == last;
    assert last == ['\n'] + (body + ['\n']);
    StripLeadingSpace('\n', body + ['\n']);
    StripTrailingSpace(body, '\n');
  }

  /** Documents that are stripped and non-blank join to a stripped text. */
  lemma {:induction false} JoinedDocumentsStripped(docs: seq<string>)
    requires |docs| >= 1
    requires forall i :: 0 <= i < |docs| ==> Strip(docs[i]) == docs[i] && docs[i] != ""
    ensures Strip(Join(docs, "\n---\n")) == Join(docs, "\n---\n")
    decreases |docs|
  {
    var j := Join(docs, "\n---\n");
    if |docs| == 1 {
    } else {
      JoinedDocumentsStripped(docs[1..]);
      var rest := Join(docs[1..], "\n---\n");
      assert j == docs[0] + "\n---\n" + rest;
      assert j[0] == docs[0][0];
      if rest != "" {
        assert j[|j| - 1] == rest[|rest| - 1];
      }
      StripUnchanged(j);
    }
  }

  /** When every document is an engine document, every document is kept. */
  lemma {:induction false} KeptAll(docs: seq<string>, n: nat, parse: string -> YamlOutcome)
    requires n <= |docs|
    requires forall i :: 0 <= i < |docs| ==> IsEngineDocument(docs[i], parse)
    ensures KeptPrefix(docs, n, parse) == docs[..n]
  {
    if n > 0 {
      KeptAll(docs, n - 1, parse);
      assert docs[..n] == docs[..n - 1] + [docs[n - 1]];
    }
  }

  /**
   * The three fixed experiments returned when the answer cannot be read, each
   * written as its lines joined by newlines (the last line is empty).
   */
  function MockExperiments(): (r: seq<string>)
    ensures |r| == 3
  {
    [MockPodDelete, MockCpuHog, MockMemoryHog]
  }

  const MockPodDelete: string := Join([
      "apiVersion: litmuschaos.io/v1alpha1",
      "kind: ChaosEngine",
      "metadata:",
      "  name: frontend-pod-delete",
      "  namespace: demo",
      "spec:",
      "  appinfo:",
      "    appns: demo",
      "    applabel: \"app=frontend\"",
      "    appkind: deployment",
      "  chaosServiceAccount: litmus-admin",
      "  experiments:",
      "  - name: pod-delete",
      "    spec:",
      "      components:",
      "        env:",
      "        - name: TOTAL_CHAOS_DURATION",
      "          value: \"30\"",
      "        - name: CHAOS_INTERVAL",
      "          value: \"10\"",
      "        - name: FORCE",
      "          value: \"false\"",
      ""], "\n")

  const MockCpuHog: string := Join([
      "apiVersion: litmuschaos.io/v1alpha1",
      "kind: ChaosEngine",
      "metadata:",
      "  name: api-cpu-stress",
      "  namespace: demo",
      "spec:",
      "  appinfo:",
      "    appns: demo",
      "    applabel: \"app=api\"",
      "    appkind: deployment",
      "  chaosServiceAccount: litmus-admin",
      "  experiments:",
      "  - name: pod-cpu-hog",
      "    spec:",
      "      components:",
      "        env:",
      "        - name: TOTAL_CHAOS_DURATION",
      "          value: \"60\"",
      "        - name: CPU_CORES",
      "          value: \"1\"",
      ""], "\n")

  const MockMemoryHog: string := Join([
      "apiVersion: litmuschaos.io/v1alpha1",
      "kind: ChaosEngine",
      "metadata:",
      "  name: database-memory-stress",
      "  namespace: demo",
      "spec:",
      "  appinfo:",
      "    appns: demo",
      "    applabel: \"app=database\"",
      "    appkind: deployment",
      "  chaosServiceAccount: litmus-admin",
      "  experiments:",
      "  - name: pod-memory-hog",
      "    spec:",
      "      components:",
      "        env:",
      "        - name: TOTAL_CHAOS_DURATION",
      "          value: \"45\"",
      "        - name: MEMORY_CONSUMPTION",
      "          value: \"200\"",
      ""], "\n")

  // ---------------------------------------------------------------------------
  // Prompt context

  /** The entries of the given kind, in topology order. */
  function OfKind(services: seq<ServiceEntry>, kind: ServiceKind): (r: seq<ServiceEntry>)
    ensures forall e :: e in r <==> e in services && e.kind == kind
    ensures |r| <= |services|
    ensures |services| == 1 ==> r == (if services[0].kind == kind then services else [])
  {
    if services == [] then []
    else (if services[0].kind == kind then [services[0]] else []) + OfKind(services[1..], kind)
  }

  /** The entries marked critical, in topology order. */
  function CriticalOnes(services: seq<ServiceEntry>): (r: seq<ServiceEntry>)
    ensures forall e :: e in r <==> e in services && e.critical
    ensures |r| <= |services|
    ensures |services| == 1 ==> r == (if services[0].critical then services else [])
  {
    if services == [] then []
    else (if services[0].critical then [services[0]] else []) + CriticalOnes(services[1..])
  }

  /**
   * `OfKind` keeps order: filtering a concatenation concatenates the filtered
   * parts (with the one-entry case in its contract, this fixes the result).
   */
  lemma {:induction false} OfKindAppend(a: seq<ServiceEntry>, b: seq<ServiceEntry>, kind: ServiceKind)
    ensures OfKind(a + b, kind) == OfKind(a, kind) + OfKind(b, kind)
  {
    if a == [] {
      assert a + b == b;
    } else {
      assert (a + b)[1..] == a[1..] + b;
      OfKindAppend(a[1..], b, kind);
    }
  }

  /** `CriticalOnes` keeps order in the same way. */
  lemma {:induction false} CriticalOnesAppend(a: seq<ServiceEntry>, b: seq<ServiceEntry>)
    ensures CriticalOnes(a + b) == CriticalOnes(a) + CriticalOnes(b)
  {
    if a == [] {
      assert a + b == b;
    } else {
      assert (a + b)[1..] == a[1..] + b;
      CriticalOnesAppend(a[1..], b);
    }
  }

  /** The four kinds split the entries: none is lost and none is counted twice. */
  lemma {:induction false} KindsPartition(services: seq<ServiceEntry>)
    ensures |OfKind(services, Deployment)| + |OfKind(services, StatefulSet)|
      + |OfKind(services, DaemonSet)| + |OfKind(services, Service)| == |services|
  {
    if services != [] {
      KindsPartition(services[1..]);
    }
  }

  /** The values the prompt template is rendered with. */
  datatype PromptContext = PromptContext(
    topo: Topology,
    count: int,
    deployments: seq<ServiceEntry>,
    statefulSets: seq<ServiceEntry>,
    services: seq<ServiceEntry>,
    criticalServices: seq<ServiceEntry>,
    targetServices: seq<string>,
    clusterInfo: ClusterInfo,
    relationships: seq<Relationship>)

  /** `config["k8s"]["target_services"]` when the stack file has a `k8s` block, else `[]`. */
  function TargetServices(config: Option<StackConfig>): (r: seq<string>)
    ensures config.None? || config.value.k8s.None? ==> r == []
    ensures config.Some? && config.value.k8s.Some? ==> r == config.value.k8s.value.targetServices.GetOr([])
  {
    if config.Some? && config.value.k8s.Some? then config.value.k8s.value.targetServices.GetOr([]) else []
  }

  /**
   * Deployments, StatefulSets and Services go to their own lists; DaemonSets are
   * only in the topology and, when critical, among the critical services.
   * Each list keeps topology order (`OfKindAppend`, `CriticalOnesAppend`).
   */
  function PrepareContext(topology: Topology, count: int, config: Option<StackConfig>): (c: PromptContext)
    ensures forall e :: e in c.deployments <==> e in topology.services && e.kind == Deployment
    ensures forall e :: e in c.statefulSets <==> e in topology.services && e.kind == StatefulSet
    ensures forall e :: e in c.services <==> e in topology.services && e.kind == Service
    ensures forall e :: e in c.criticalServices <==> e in topology.services && e.critical
    ensures |c.deployments| + |c.statefulSets| + |c.services| <= |topology.services|
    ensures c.deployments == OfKind(topology.services, Deployment) && c.statefulSets == OfKind(topology.services, StatefulSet)
    ensures c.services == OfKind(topology.services, Service) && c.criticalServices == CriticalOnes(topology.services)
    ensures c.count == count && c.targetServices == TargetServices(config)
    ensures c.clusterInfo == topology.metadata.cluster && c.relationships == topology.relationships
  {
    KindsPartition(topology.services);
    PromptContext(
      topology, count,
      OfKind(topology.services, Deployment),
      OfKind(topology.services, StatefulSet),
      OfKind(topology.services, Service),
      CriticalOnes(topology.services),
      TargetServices(config),
      topology.metadata.cluster,
      topology.relationships)
  }

  // ---------------------------------------------------------------------------
  // Risk and summaries

  /** The fixed risk table; a type it does not list is graded "medium". */
  function AssessRiskLevel(experimentType: string): (r: string)
    ensures r == "high" <==> experimentType == "node-drain"
    ensures r == "low" <==> experimentType == "pod-cpu-hog" || experimentType == "pod-network-delay"
    ensures r == "medium" <==> !(experimentType in ["node-drain", "pod-cpu-hog", "pod-network-delay"])
  {
    if experimentType == "pod-delete" then "medium"
    else if experimentType == "pod-cpu-hog" then "low"
    else if experimentType == "pod-memory-hog" then "medium"
    else if experimentType == "pod-network-delay" then "low"
    else if experimentType == "pod-network-loss" then "medium"
    else if experimentType == "node-drain" then "high"
    else "medium"
  }

  /**
   * The fields of a parsed experiment the summary reads; `experimentNames`
   * holds the `name` key of each entry of `spec.experiments`.
   */
  datatype EngineFields = EngineFields(
    name: Option<string>,
    namespace: Option<string>,
    appLabel: Option<string>,
    experimentNames: seq<Option<string>>)

  datatype ExperimentSummary = ExperimentSummary(
    name: string,
    namespace: string,
    targetApp: string,
    experimentType: string,
    description: string,
    riskLevel: string)

  /** The type is the first experiment's name; "unknown" when there is none. */
  function ExperimentType(fields: EngineFields): (r: string)
    ensures fields.experimentNames == [] ==> r == "unknown"
    ensures fields.experimentNames != [] && fields.experimentNames[0].Some? ==> r == fields.experimentNames[0].value
  {
    if fields.experimentNames == [] then "unknown" else fields.experimentNames[0].GetOr("unknown")
  }

  /** The summary of one experiment; `None` stands for a document that could not be read. */
  function SummaryOf(parsed: Option<EngineFields>): (r: ExperimentSummary)
    ensures r.riskLevel == "unknown" <==> parsed.None?
    ensures parsed.None? ==> r.description == "Failed to parse experiment" && r.experimentType == "unknown"
    ensures parsed.Some? ==>
      && r.experimentType == ExperimentType(parsed.value)
      && r.targetApp == parsed.value.appLabel.GetOr("unknown")
      && r.description == r.experimentType + " experiment targeting " + r.targetApp
      && r.riskLevel == AssessRiskLevel(r.experimentType)
      && r.namespace == parsed.value.namespace.GetOr("demo")
  {
    match parsed
    case None => ExperimentSummary("unknown", "demo", "unknown", "unknown", "Failed to parse experiment", "unknown")
    case Some(fields) =>
      var experimentType := ExperimentType(fields);
      var targetApp := fields.appLabel.GetOr("unknown");
      ExperimentSummary(
        fields.name.GetOr("unknown"),
        fields.namespace.GetOr("demo"),
        targetApp,
        experimentType,
        experimentType + " experiment targeting " + targetApp,
        AssessRiskLevel(experimentType))
  }

  /** One summary per experiment, in order; a document that cannot be read gets the placeholder. */
  method GetExperimentSummary(experiments: seq<string>, parse: string -> Option<EngineFields>)
    returns (summaries: seq<ExperimentSummary>)
    ensures |summaries| == |experiments|
    ensures forall i :: 0 <= i < |experiments| ==> summaries[i] == SummaryOf(parse(experiments[i]))
  {
    summaries := [];
    for i := 0 to |experiments|
      invariant |summaries| == i
      invariant forall k :: 0 <= k < i ==> summaries[k] == SummaryOf(parse(experiments[k]))
    {
      summaries := summaries + [SummaryOf(parse(experiments[i]))];
    }
  }
}
