/**
 * The experiment specification dictionary that the executor, the run monitor
 * and the report narrator all read. Every key of the dictionary is optional;
 * a key that is absent (or holds `None`) is `None` here.
 */
module ChaosSpec {
  import opened Wrappers

  /** `target_selector`: where the chaos is injected. */
  datatype TargetSelector = TargetSelector(
    namespace: Option<string>,
    labelSelector: Option<string>,
    resourceType: Option<string>)

  /** `parameters`: the duration string (for example "60s") and the intensity in [0, 1]. */
  datatype Parameters = Parameters(duration: Option<string>, intensity: Option<real>)

  /**
   * `abort_threshold`: the safety rule. `hasOtherKeys` records keys other than
   * `metric`, `operator` and `value`; they make the dictionary non-empty, which
   * Python treats as true.
   */
  datatype AbortThreshold = AbortThreshold(
    metric: Option<string>,
    operator: Option<string>,
    value: Option<real>,
    hasOtherKeys: bool)
  {
    /** The empty dictionary `{}`, which Python treats as false. */
    predicate IsEmpty() {
      metric.None? && operator.None? && value.None? && !hasOtherKeys
    }
  }

  datatype ExperimentSpec = ExperimentSpec(
    title: Option<string>,
    action: Option<string>,
    targetSelector: Option<TargetSelector>,
    parameters: Option<Parameters>,
    abortThreshold: Option<AbortThreshold>)
  {
    /** `spec.get('abort_threshold', {})` is a non-empty dictionary. */
    predicate HasThreshold() {
      abortThreshold.Some? && !abortThreshold.value.IsEmpty()
    }
  }
}
