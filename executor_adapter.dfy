/**
 * The executor: checks an experiment specification, translates it into a
 * LitmusChaos `ChaosEngine` manifest, applies it to the cluster and keeps the
 * registry of runs it started (`active_runs`).
 *
 * Cluster calls are not made here: their outcomes are parameters
 * (`ApiOutcome`, `ClusterApply`, `EngineFetch`, `ResultFetch`). The generated run id suffix and
 * the current time are parameters as well.
 */
module Executor {
  import opened Wrappers
  import opened Strings
  import opened ChaosSpec
  import opened OrderedKeys

  /** The exceptions the executor raises, one per message. */
  datatype ExecError =
    | MissingField(field: string)        // "Missing required field: <field>"
    | MissingNamespace                   // "Target selector must include namespace"
    | MissingDuration                    // "Parameters must include duration"
    | UnsupportedAction(action: string)  // "Unsupported chaos action: <action>"
    | RunNotFound(runId: string)         // "Run ID not found: <run id>"
    | ApiError(status: int)              // a Kubernetes ApiException, re-raised

  // ---------------------------------------------------------------------------
  // Validation

  /** A specification that passed validation, with the fields translation reads. */
  datatype Intent = Intent(
    title: string,
    action: string,
    namespace: string,
    labelSelector: Option<string>,
    resourceType: Option<string>,
    duration: string,
    intensity: Option<real>)

  /**
   * `_validate_spec`: the top-level fields `title`, `action`, `target_selector`
   * and `parameters` are checked in that order and the first missing one is
   * reported; then the selector must name a namespace and the parameters a
   * duration.
   */
  function ValidateSpec(spec: ExperimentSpec): (r: Result<Intent, ExecError>)
    ensures r == Err(MissingField("title")) <==> spec.title.None?
    ensures r == Err(MissingField("action")) <==> spec.title.Some? && spec.action.None?
    ensures r == Err(MissingField("target_selector")) <==>
              spec.title.Some? && spec.action.Some? && spec.targetSelector.None?
    ensures r == Err(MissingField("parameters")) <==>
              spec.title.Some? && spec.action.Some? && spec.targetSelector.Some? && spec.parameters.None?
    ensures r == Err(MissingNamespace) <==>
              spec.title.Some? && spec.action.Some? && spec.targetSelector.Some? && spec.parameters.Some?
              && spec.targetSelector.value.namespace.None?
    ensures r == Err(MissingDuration) <==>
              spec.title.Some? && spec.action.Some? && spec.targetSelector.Some? && spec.parameters.Some?
              && spec.targetSelector.value.namespace.Some? && spec.parameters.value.duration.None?
    ensures r.Ok? <==>
              spec.title.Some? && spec.action.Some? && spec.targetSelector.Some? && spec.parameters.Some?
              && spec.targetSelector.value.namespace.Some? && spec.parameters.value.duration.Some?
    ensures r.Ok? ==>
              && r.value.title == spec.title.value
              && r.value.action == spec.action.value
              && r.value.namespace == spec.targetSelector.value.namespace.value
              && r.value.labelSelector == spec.targetSelector.value.labelSelector
              && r.value.resourceType == spec.targetSelector.value.resourceType
              && r.value.duration == spec.parameters.value.duration.value
              && r.value.intensity == spec.parameters.value.intensity
  {
    if spec.title.None? then Err(MissingField("title"))
    else if spec.action.None? then Err(MissingField("action"))
    else if spec.targetSelector.None? then Err(MissingField("target_selector"))
    else if spec.parameters.None? then Err(MissingField("parameters"))
    else
      var selector := spec.targetSelector.value;
      var params := spec.parameters.value;
      if selector.namespace.None? then Err(MissingNamespace)
      else if params.duration.None? then Err(MissingDuration)
      else Ok(Intent(spec.title.value, spec.action.value, selector.namespace.value,
                     selector.labelSelector, selector.resourceType,
                     params.duration.value, params.intensity))
  }

  // ---------------------------------------------------------------------------
  // Translation into a ChaosEngine manifest

  datatype EnvVar = EnvVar(name: string, value: string)

  /** One entry of `spec.experiments`: a Litmus experiment and its environment. */
  datatype ChaosExperiment = ChaosExperiment(name: string, env: seq<EnvVar>)

  datatype ChaosEngine = ChaosEngine(
    apiVersion: string,
    kind: string,
    name: string,
    namespace: string,
    labels: map<string, string>,
    appns: string,
    applabel: string,
    appkind: string,
    chaosServiceAccount: string,
    monitoring: bool,
    jobCleanUpPolicy: string,
    annotationCheck: string,
    experiments: seq<ChaosExperiment>)

  /** The five actions the translator accepts. */
  datatype Action = PodKill | PodCpuHog | PodMemoryHog | NetworkDelay | NetworkLoss
  {
    /** The action's name in a specification. */
    function Name(): string {
      match this
      case PodKill => "pod-kill"
      case PodCpuHog => "pod-cpu-hog"
      case PodMemoryHog => "pod-memory-hog"
      case NetworkDelay => "network-delay"
      case NetworkLoss => "network-loss"
    }

    /** The Litmus experiment that carries the action out. */
    function ExperimentName(): string {
      match this
      case PodKill => "pod-delete"
      case PodCpuHog => "pod-cpu-hog"
      case PodMemoryHog => "pod-memory-hog"
      case NetworkDelay => "pod-network-latency"
      case NetworkLoss => "pod-network-loss"
    }

    /** The environment variable through which the experiment receives the intensity (pod-kill has none). */
    function IntensityVariable(): string
      requires this != PodKill
    {
      match this
      case PodCpuHog => "CPU_CORES"
      case PodMemoryHog => "MEMORY_CONSUMPTION"
      case NetworkDelay => "NETWORK_LATENCY"
      case NetworkLoss => "LOSS_PERCENTAGE"
    }

    /** The factor that scales an intensity in [0, 1] into the experiment's unit (cores, MB, ms, percent). */
    function IntensityScale(): nat
      requires this != PodKill
    {
      match this
      case PodCpuHog => 2
      case PodMemoryHog => 100
      case NetworkDelay => 200
      case NetworkLoss => 50
    }
  }

  /** The action named `s`, if the translator supports it. */
  function ParseAction(s: string): (r: Option<Action>)
    ensures r.Some? ==> r.value.Name() == s
    ensures r.None? ==> forall a: Action :: a.Name() != s
  {
    if s == "pod-kill" then Some(PodKill)
    else if s == "pod-cpu-hog" then Some(PodCpuHog)
    else if s == "pod-memory-hog" then Some(PodMemoryHog)
    else if s == "network-delay" then Some(NetworkDelay)
    else if s == "network-loss" then Some(NetworkLoss)
    else None
  }

  /** The value of the first environment variable called `name` (Python's `next(...)` over the list). */
  function EnvLookup(env: seq<EnvVar>, name: string): (r: Option<string>)
    ensures r.Some? <==> exists i :: 0 <= i < |env| && env[i].name == name
  {
    if |env| == 0 then None
    else if env[0].name == name then Some(env[0].value)
    else EnvLookup(env[1..], name)
  }

  /** Looking a name up in a three-entry environment. */
  lemma EnvLookupOfThree(e0: EnvVar, e1: EnvVar, e2: EnvVar, name: string)
    ensures EnvLookup([e0, e1, e2], name) ==
              if e0.name == name then Some(e0.value)
              else if e1.name == name then Some(e1.value)
              else if e2.name == name then Some(e2.value)
              else None
  {
    assert [e2][1..] == [];
    assert EnvLookup([e2], name) == if e2.name == name then Some(e2.value) else None;
    assert [e1, e2][1..] == [e2];
    assert EnvLookup([e1, e2], name) == if e1.name == name then Some(e1.value) else EnvLookup([e2], name);
    assert [e0, e1, e2][1..] == [e1, e2];
  }

  /** Python's `int(x)` on a number: truncation toward zero. */
  function TruncToInt(x: real): (n: int)
    ensures x >= 0.0 ==> n as real <= x < n as real + 1.0
    ensures x < 0.0 ==> n as real - 1.0 < x <= n as real
  {
    if x >= 0.0 then x.Floor else -((-x).Floor)
  }

  /**
   * The experiment list entry for each action (`_convert_to_chaos_engine`'s
   * `if/elif` chain). Every entry carries the duration string verbatim and a
   * chaos interval of "10"; pod-kill adds `FORCE=false`, every other action its
   * intensity scaled into the experiment's unit and truncated by `int()`.
   */
  function ExperimentFor(action: Action, duration: string, intensity: real): (r: ChaosExperiment)
    ensures r.name == action.ExperimentName()
    ensures EnvLookup(r.env, "TOTAL_CHAOS_DURATION") == Some(duration)
    ensures EnvLookup(r.env, "CHAOS_INTERVAL") == Some("10")
    ensures action == PodKill ==> EnvLookup(r.env, "FORCE") == Some("false")
    ensures action != PodKill ==>
              EnvLookup(r.env, action.IntensityVariable()) ==
                Some(IntToString(TruncToInt(intensity * action.IntensityScale() as real)))
  {
    var total := EnvVar("TOTAL_CHAOS_DURATION", duration);
    var interval := EnvVar("CHAOS_INTERVAL", "10");
    var third :=
      if action == PodKill then EnvVar("FORCE", "false")
      else EnvVar(action.IntensityVariable(), IntToString(TruncToInt(intensity * action.IntensityScale() as real)));
    var env := if action == PodKill then [total, interval, third] else [total, third, interval];
    EnvLookupOfThree(env[0], env[1], env[2], "TOTAL_CHAOS_DURATION");
    EnvLookupOfThree(env[0], env[1], env[2], "CHAOS_INTERVAL");
    EnvLookupOfThree(env[0], env[1], env[2], third.name);
    ChaosExperiment(action.ExperimentName(), env)
  }

  /**
   * `_convert_to_chaos_engine`: the manifest for one run. Its name is
   * `<run id>-<action>`, it lives in the target namespace, and it holds exactly
   * one experiment; an unknown action is rejected.
   */
  function ConvertToChaosEngine(intent: Intent, runId: string): (r: Result<ChaosEngine, ExecError>)
    ensures r.Ok? <==> ParseAction(intent.action).Some?
    ensures r.Err? ==> r.error == UnsupportedAction(intent.action)
    ensures r.Ok? ==>
              && r.value.apiVersion == "litmuschaos.io/v1alpha1"
              && r.value.kind == "ChaosEngine"
              && r.value.name == runId + "-" + intent.action
              && r.value.namespace == intent.namespace
              && r.value.appns == intent.namespace
              && r.value.applabel == intent.labelSelector.GetOr("")
              && r.value.appkind == intent.resourceType.GetOr("deployment")
              && "chaos-run-id" in r.value.labels && r.value.labels["chaos-run-id"] == runId
              && "chaos-action" in r.value.labels && r.value.labels["chaos-action"] == intent.action
              && |r.value.experiments| == 1
              && r.value.experiments[0] ==
                   ExperimentFor(ParseAction(intent.action).value, intent.duration, intent.intensity.GetOr(0.5))
  {
    match ParseAction(intent.action)
    case None => Err(UnsupportedAction(intent.action))
    case Some(action) =>
      Ok(ChaosEngine(
        "litmuschaos.io/v1alpha1", "ChaosEngine",
        runId + "-" + intent.action, intent.namespace,
        map["chaos-run-id" := runId, "chaos-action" := intent.action,
            "app.kubernetes.io/name" := "chaos-advisor"],
        intent.namespace, intent.labelSelector.GetOr(""), intent.resourceType.GetOr("deployment"),
        "litmus-admin", true, "retain", "false",
        [ExperimentFor(action, intent.duration, intent.intensity.GetOr(0.5))]))
  }

  /**
   * The intensity parameter reads back, through `int()`, as a whole number
   * between 0 and the action's scale when the intensity lies in [0, 1].
   */
  lemma IntensityParameterInRange(action: Action, duration: string, intensity: real)
    requires action != PodKill
    requires 0.0 <= intensity <= 1.0
    ensures var v := EnvLookup(ExperimentFor(action, duration, intensity).env, action.IntensityVariable());
            && v.Some?
            && ParseInt(v.value).Some?
            && 0 <= ParseInt(v.value).value <= action.IntensityScale()
  {
    var n := TruncToInt(intensity * action.IntensityScale() as real);
    var e := ExperimentFor(action, duration, intensity);
    assert EnvLookup(e.env, action.IntensityVariable()) == Some(IntToString(n));
    ProductBounds(intensity, action.IntensityScale() as real);
    ParsedWithin(n, action.IntensityScale());
  }

  lemma ParsedWithin(n: int, bound: int)
    requires 0 <= n <= bound
    ensures ParseInt(IntToString(n)).Some? && 0 <= ParseInt(IntToString(n)).value <= bound
  {
    IntRoundTrip(n);
  }

  /** A fraction of a non-negative quantity lies between zero and that quantity. */
  lemma ProductBounds(f: real, q: real)
    requires 0.0 <= f <= 1.0 && 0.0 <= q
    ensures 0.0 <= f * q <= q
  {
    assert q - f * q == (1.0 - f) * q;
  }

  // ---------------------------------------------------------------------------
  // Cluster calls made by apply

  /** What a Kubernetes API call did: returned, or raised an ApiException with an HTTP status. */
  datatype ApiOutcome = Success | Failure(status: int)

  /** The cluster's answers to the calls `_apply_chaos_engine` makes, in call order. */
  datatype ClusterApply = ClusterApply(readNamespace: ApiOutcome, createNamespace: ApiOutcome, createEngine: ApiOutcome)

  /**
   * `_apply_chaos_engine` with `_ensure_namespace`: a namespace that reads back
   * 404 is created; any other failure is raised. `None` means the manifest was
   * created.
   */
  function ApplyToCluster(c: ClusterApply): (r: Option<ExecError>)
    ensures r.None? <==>
              c.createEngine.Success? &&
              (c.readNamespace.Success? || (c.readNamespace.status == 404 && c.createNamespace.Success?))
    ensures r.Some? ==> r.value.ApiError?
  {
    if c.readNamespace.Failure? && c.readNamespace.status != 404 then Some(ApiError(c.readNamespace.status))
    else if c.readNamespace.Failure? && c.createNamespace.Failure? then Some(ApiError(c.createNamespace.status))
    else if c.createEngine.Failure? then Some(ApiError(c.createEngine.status))
    else None
  }

  // ---------------------------------------------------------------------------
  // The run registry

  datatype RunStatus = Running | Completed | Aborted | Unknown {
    /** The statuses `cleanup_completed` removes. */
    predicate IsFinished() { this == Completed || this == Aborted }
  }

  datatype RunRecord = RunRecord(
    spec: ExperimentSpec,
    engine: ChaosEngine,
    startedAt: string,
    status: RunStatus,
    lastCheck: Option<string>,
    abortedAt: Option<string>)

  /**
   * `get_status`'s mapping of the engine's `engineStatus` phase: completed,
   * stopped and running are recognised; anything else is unknown.
   */
  function PhaseToStatus(phase: string): (s: RunStatus)
    ensures s == Completed <==> phase == "completed"
    ensures s == Aborted <==> phase == "stopped"
    ensures s == Running <==> phase == "running"
    ensures s == Unknown <==> phase !in {"completed", "stopped", "running"}
  {
    if phase == "completed" then Completed
    else if phase == "stopped" then Aborted
    else if phase == "running" then Running
    else Unknown
  }

  /** A `status` dictionary read from a Litmus object (its values taken as text). */
  type StatusDict = map<string, string>

  /** The answer to reading the ChaosEngine back: its `status` dictionary, or a raised ApiException. */
  datatype EngineFetch = EngineFound(engineStatus: StatusDict) | EngineFetchFailed(status: int)

  /** The answer to reading the ChaosResult: its `status` dictionary, or a raised ApiException. */
  datatype ResultFetch = ResultFound(resultStatus: StatusDict) | ResultFetchFailed(status: int)

  /** `engine_status.get('engineStatus', 'unknown')` */
  function Phase(engineStatus: StatusDict): string {
    if "engineStatus" in engineStatus then engineStatus["engineStatus"] else "unknown"
  }

  /** `result_status`: the ChaosResult's status, or `{}` when reading it raised. */
  function ResultStatus(result: ResultFetch): StatusDict {
    if result.ResultFound? then result.resultStatus else map[]
  }

  /** The note `get_status` gives when the engine is gone. */
  const EngineGoneNote := "Engine not found, may have been cleaned up"

  /**
   * What `get_status` returns: the refreshed status with the engine's and the
   * result's status dictionaries and the spec, or, when the engine is gone
   * (404), status completed with a note and no spec.
   */
  datatype StatusReport =
    | Refreshed(runId: string, status: RunStatus, startedAt: string, engineStatus: StatusDict,
                resultStatus: StatusDict, spec: ExperimentSpec)
    | EngineGone(runId: string, startedAt: string, note: string)
  {
    /** The `status` key of the answer. */
    function Status(): RunStatus {
      if Refreshed? then status else Completed
    }
  }

  /** One entry of `list_runs`. */
  datatype RunSummary = RunSummary(runId: string, title: Option<string>, status: RunStatus, startedAt: string)

  /** The characters of `uuid4().hex`. */
  predicate IsHexDigit(c: char) {
    '0' <= c <= '9' || 'a' <= c <= 'f'
  }

  /** What `uuid4().hex[:8]` gives: eight lower-case hexadecimal digits. */
  predicate IsRunIdSuffix(hex: string) {
    |hex| == 8 && forall i :: 0 <= i < |hex| ==> IsHexDigit(hex[i])
  }

  /** The ids of the completed and aborted runs. */
  function FinishedSet(runs: map<string, RunRecord>): (r: set<string>)
    ensures forall id :: id in r <==> id in runs && runs[id].status.IsFinished()
  {
    set id | id in runs && runs[id].status.IsFinished()
  }

  /** The ids of the finished runs in `order`, in order (the list `cleanup_completed` builds). */
  function FinishedIds(order: seq<string>, runs: map<string, RunRecord>): (r: seq<string>)
    requires forall id :: id in order ==> id in runs
    ensures forall x :: x in r <==> x in order && runs[x].status.IsFinished()
  {
    if |order| == 0 then []
    else if runs[order[0]].status.IsFinished() then [order[0]] + FinishedIds(order[1..], runs)
    else FinishedIds(order[1..], runs)
  }

  lemma FinishedIdsAppend(order: seq<string>, id: string, runs: map<string, RunRecord>)
    requires forall x :: x in order ==> x in runs
    requires id in runs
    ensures FinishedIds(order + [id], runs) ==
              FinishedIds(order, runs) + (if runs[id].status.IsFinished() then [id] else [])
  {
    if |order| > 0 {
      assert (order + [id])[1..] == order[1..] + [id];
      FinishedIdsAppend(order[1..], id, runs);
    } else {
      assert order + [id] == [id];
    }
  }

  /** The `list_runs` entry for one tracked run. */
  function Summarize(runId: string, record: RunRecord): RunSummary {
    RunSummary(runId, record.spec.title, record.status, record.startedAt)
  }

  /** The summaries of the runs `ids`, in that order. */
  function Summaries(ids: seq<string>, runs: map<string, RunRecord>): (r: seq<RunSummary>)
    requires forall id :: id in ids ==> id in runs
    ensures |r| == |ids|
    ensures forall i :: 0 <= i < |r| ==> r[i] == Summarize(ids[i], runs[ids[i]])
  {
    if |ids| == 0 then [] else [Summarize(ids[0], runs[ids[0]])] + Summaries(ids[1..], runs)
  }

  /**
   * The executor's registry of runs (`active_runs`). Python dictionaries keep
   * insertion order, which `list_runs` shows; `order` records it.
   */
  class ExecutorAdapter {
    var activeRuns: map<string, RunRecord>
    var order: seq<string>

    ghost predicate Valid()
      reads this
    {
      && Distinct(order)
      && (forall id :: id in order <==> id in activeRuns)
    }

    constructor ()
      ensures Valid() && activeRuns == map[] && order == []
    {
      activeRuns := map[];
      order := [];
    }

    /** Records `record` under `runId`; a key already present keeps its place in the order. */
    method Track(runId: string, record: RunRecord)
      requires Valid()
      modifies this
      ensures Valid()
      ensures activeRuns == old(activeRuns)[runId := record]
      ensures order == if runId in old(activeRuns) then old(order) else old(order) + [runId]
    {
      if runId !in activeRuns {
        order := order + [runId];
      }
      activeRuns := activeRuns[runId := record];
    }

    /**
     * `apply`: validate, make the run id `chaos-<8 hex digits>`, translate
     * (so an unsupported action fails even in a dry run), and stop there on a
     * dry run. Otherwise apply the manifest to the cluster and, only once that
     * succeeded, register the run as running.
     */
    method Apply(spec: ExperimentSpec, dryRun: bool, idHex: string, cluster: ClusterApply, now: string)
      returns (r: Result<string, ExecError>)
      requires Valid()
      requires IsRunIdSuffix(idHex)
      modifies this
      ensures Valid()
      ensures ValidateSpec(spec).Err? ==> r == Err(ValidateSpec(spec).error)
      ensures ValidateSpec(spec).Ok? && ConvertToChaosEngine(ValidateSpec(spec).value, "chaos-" + idHex).Err? ==>
                r == Err(UnsupportedAction(spec.action.value))
      ensures r.Ok? ==> r.value == "chaos-" + idHex && |r.value| == 14
      ensures r.Ok? <==>
                && ValidateSpec(spec).Ok?
                && ConvertToChaosEngine(ValidateSpec(spec).value, "chaos-" + idHex).Ok?
                && (dryRun || ApplyToCluster(cluster).None?)
      ensures (dryRun || r.Err?) ==> activeRuns == old(activeRuns) && order == old(order)
      ensures !dryRun && r.Ok? ==>
                var runId := r.value;
                && activeRuns == old(activeRuns)[runId := RunRecord(spec,
                     ConvertToChaosEngine(ValidateSpec(spec).value, runId).value, now, Running, None, None)]
                && order == if runId in old(activeRuns) then old(order) else old(order) + [runId]
    {
      var validated := ValidateSpec(spec);
      if validated.Err? {
        return Err(validated.error);
      }
      var runId := "chaos-" + idHex;
      var converted := ConvertToChaosEngine(validated.value, runId);
      if converted.Err? {
        return Err(converted.error);
      }
      if dryRun {
        return Ok(runId);
      }
      var applied := ApplyToCluster(cluster);
      if applied.Some? {
        return Err(applied.value);
      }
      Track(runId, RunRecord(spec, converted.value, now, Running, None, None));
      r := Ok(runId);
    }

    /**
     * `get_status`: an unknown run id is an error and changes nothing. A
     * fetched engine's phase is mapped and written into the record with the
     * check time, and the answer carries the engine's status, the ChaosResult's
     * status (`{}` when that read raised) and the spec. An engine that is gone
     * (404) marks the run completed and is answered with a note; any other API
     * error propagates and changes nothing.
     */
    method GetStatus(runId: string, fetch: EngineFetch, result: ResultFetch, now: string) returns (r: Result<StatusReport, ExecError>)
      requires Valid()
      modifies this
      ensures Valid() && order == old(order)
      ensures runId !in old(activeRuns) ==> r == Err(RunNotFound(runId)) && activeRuns == old(activeRuns)
      ensures runId in old(activeRuns) && fetch.EngineFetchFailed? && fetch.status != 404 ==>
                r == Err(ApiError(fetch.status)) && activeRuns == old(activeRuns)
      ensures runId in old(activeRuns) && fetch.EngineFound? ==>
                var record := old(activeRuns)[runId];
                var status := PhaseToStatus(Phase(fetch.engineStatus));
                && activeRuns == old(activeRuns)[runId := record.(status := status, lastCheck := Some(now))]
                && r == Ok(Refreshed(runId, status, record.startedAt, fetch.engineStatus, ResultStatus(result), record.spec))
      ensures runId in old(activeRuns) && fetch.EngineFetchFailed? && fetch.status == 404 ==>
                var record := old(activeRuns)[runId];
                && activeRuns == old(activeRuns)[runId := record.(status := Completed)]
                && r == Ok(EngineGone(runId, record.startedAt, EngineGoneNote))
    {
      if runId !in activeRuns {
        return Err(RunNotFound(runId));
      }
      var record := activeRuns[runId];
      match fetch
      case EngineFound(engineStatus) =>
        var status := PhaseToStatus(Phase(engineStatus));
        activeRuns := activeRuns[runId := record.(status := status, lastCheck := Some(now))];
        r := Ok(Refreshed(runId, status, record.startedAt, engineStatus, ResultStatus(result), record.spec));
      case EngineFetchFailed(code) =>
        if code == 404 {
          activeRuns := activeRuns[runId := record.(status := Completed)];
          r := Ok(EngineGone(runId, record.startedAt, EngineGoneNote));
        } else {
          r := Err(ApiError(code));
        }
    }

    /**
     * `abort`: an unknown run id is an error. The engine is deleted first; only
     * when the delete returns is the run marked aborted, and a failed delete
     * leaves the registry as it was. A second abort deletes again.
     */
    method Abort(runId: string, delete: ApiOutcome, now: string) returns (r: Result<(), ExecError>)
      requires Valid()
      modifies this
      ensures Valid() && order == old(order)
      ensures runId !in old(activeRuns) ==> r == Err(RunNotFound(runId)) && activeRuns == old(activeRuns)
      ensures runId in old(activeRuns) && delete.Failure? ==>
                r == Err(ApiError(delete.status)) && activeRuns == old(activeRuns)
      ensures runId in old(activeRuns) && delete.Success? ==>
                && r == Ok(())
                && activeRuns == old(activeRuns)[runId := old(activeRuns)[runId].(status := Aborted, abortedAt := Some(now))]
    {
      if runId !in activeRuns {
        return Err(RunNotFound(runId));
      }
      if delete.Failure? {
        return Err(ApiError(delete.status));
      }
      activeRuns := activeRuns[runId := activeRuns[runId].(status := Aborted, abortedAt := Some(now))];
      r := Ok(());
    }

    /** `list_runs`: one summary per tracked run, in the order the runs were started. */
    function ListRuns(): (r: seq<RunSummary>)
      requires Valid()
      reads this
      ensures |r| == |order|
      ensures forall i :: 0 <= i < |r| ==> r[i] == Summarize(order[i], activeRuns[order[i]])
      ensures forall id :: id in activeRuns <==> exists i :: 0 <= i < |r| && r[i].runId == id
    {
      Summaries(order, activeRuns)
    }

    /** The first pass of `cleanup_completed`: the ids of the completed and aborted runs, in order. */
    method FinishedRunIds() returns (completed: seq<string>)
      requires Valid()
      ensures completed == FinishedIds(order, activeRuns)
      ensures forall id :: id in completed <==> id in FinishedSet(activeRuns)
    {
      completed := [];
      var i := 0;
      while i < |order|
        invariant 0 <= i <= |order|
        invariant completed == FinishedIds(order[..i], activeRuns)
      {
        assert order[..i + 1] == order[..i] + [order[i]];
        assert order[i] in order;
        FinishedIdsAppend(order[..i], order[i], activeRuns);
        if activeRuns[order[i]].status.IsFinished() {
          completed := completed + [order[i]];
        }
        i := i + 1;
      }
      assert order[..i] == order;
    }

    /**
     * `cleanup_completed`: collects the ids of the completed and aborted runs,
     * then deletes them one by one; every other run is kept, in order.
     */
    method CleanupCompleted()
      requires Valid()
      modifies this
      ensures Valid()
      ensures activeRuns == old(activeRuns) - FinishedSet(old(activeRuns))
      ensures order == Without(old(order), FinishedSet(old(activeRuns)))
    {
      var completed := FinishedRunIds();
      RemoveAll(completed);
      assert (set x | x in completed) == FinishedSet(old(activeRuns));
    }

    /** The deletion loop of `cleanup_completed`: each listed run in turn leaves `active_runs`. */
    method RemoveAll(ids: seq<string>)
      requires Valid()
      modifies this
      ensures Valid()
      ensures activeRuns == old(activeRuns) - (set x | x in ids)
      ensures order == Without(old(order), set x | x in ids)
    {
      ghost var removed: set<string> := {};
      WithoutNothing(order);
      var j := 0;
      while j < |ids|
        invariant 0 <= j <= |ids|
        invariant Valid()
        invariant removed == set x | x in ids[..j]
        invariant activeRuns == old(activeRuns) - removed
        invariant order == Without(old(order), removed)
      {
        var id := ids[j];
        WithoutTwice(old(order), removed, id);
        PrefixSnoc(ids, j);
        RemoveTwice(old(activeRuns), removed, id);
        removed := removed + {id};
        Remove(id);
        j := j + 1;
      }
      assert ids[..j] == ids;
    }

    /** `del self.active_runs[run_id]` */
    method Remove(id: string)
      requires Valid()
      modifies this
      ensures Valid()
      ensures activeRuns == old(activeRuns) - {id}
      ensures order == Without(old(order), {id})
    {
      WithoutKeepsDistinct(order, {id});
      WithoutMembers(order, {id});
      activeRuns := activeRuns - {id};
      order := Without(order, {id});
    }
  }
}
