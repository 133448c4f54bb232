/**
 * The cutover configuration of rainbowd.js: the start-up check that exactly one of
 * `warmupTime` and `healthCheckPath` is set, and the choice, at each launch, of the
 * strategy that decides when the new backend takes over.
 *
 * Both fields are tested for JavaScript truthiness: a number is set when it is present
 * and not zero, a string when it is present and not empty.
 */
module Config {

  import opened Wrappers

  datatype Settings = Settings(warmupTime: Option<int>, healthCheckPath: Option<string>)

  predicate HasWarmup(c: Settings) {
    c.warmupTime.Some? && c.warmupTime.value != 0
  }

  predicate HasHealthCheck(c: Settings) {
    c.healthCheckPath.Some? && c.healthCheckPath.value != ""
  }

  /** The two reasons start-up dies with. */
  datatype ConfigError = BothStrategies | NoStrategy

  /** Start-up validation: both set is an error, neither set is an error. */
  function Validate(c: Settings): (r: Result<Settings, ConfigError>)
    ensures r.Ok? <==> HasWarmup(c) != HasHealthCheck(c)
    ensures r == Err(BothStrategies) <==> HasWarmup(c) && HasHealthCheck(c)
    ensures r == Err(NoStrategy) <==> !HasWarmup(c) && !HasHealthCheck(c)
    ensures r.Ok? ==> r.value == c
  {
    if HasWarmup(c) && HasHealthCheck(c) then Err(BothStrategies)
    else if !(HasWarmup(c) || HasHealthCheck(c)) then Err(NoStrategy)
    else Ok(c)
  }

  /** Timeout handed to the health-check strategy, in milliseconds. */
  const HealthCheckTimeoutMs: nat := 15000

  /** Delay of the last-resort branch that validation makes unreachable, in milliseconds. */
  const FallbackDelayMs: nat := 15000

  datatype Strategy =
    | HealthCheckStrategy(path: string, timeoutMs: nat)
    | WarmupStrategy(delayMs: int)
    | FallbackDelay(delayMs: int)  // "No cutover strategy... cutting over in 15s!"

  /**
   * The strategy a launch uses. The health check wins when its path is set; the warmup
   * delay is used otherwise; with neither, a fixed delay.
   */
  function SelectStrategy(c: Settings): (s: Strategy)
    ensures s.HealthCheckStrategy? <==> HasHealthCheck(c)
    ensures s.HealthCheckStrategy? ==> s.path == c.healthCheckPath.value && s.timeoutMs == HealthCheckTimeoutMs
    ensures s.WarmupStrategy? <==> !HasHealthCheck(c) && HasWarmup(c)
    ensures s.WarmupStrategy? ==> s.delayMs == c.warmupTime.value
    ensures s.FallbackDelay? <==> !HasHealthCheck(c) && !HasWarmup(c)
    ensures s.FallbackDelay? ==> s.delayMs == FallbackDelayMs
  {
    if HasHealthCheck(c) then HealthCheckStrategy(c.healthCheckPath.value, HealthCheckTimeoutMs)
    else if HasWarmup(c) then WarmupStrategy(c.warmupTime.value)
    else FallbackDelay(FallbackDelayMs)
  }

  /**
   * Start-up followed by the first launch's choice: a configuration that passes
   * validation never reaches the fallback, and the strategy chosen is the one field
   * that is set.
   */
  function Startup(c: Settings): (r: Result<Strategy, ConfigError>)
    ensures r.Err? <==> HasWarmup(c) == HasHealthCheck(c)
    ensures r.Ok? ==> !r.value.FallbackDelay?
    ensures r.Ok? ==> (r.value.HealthCheckStrategy? <==> HasHealthCheck(c))
    ensures r.Ok? ==> (r.value.WarmupStrategy? <==> HasWarmup(c))
  {
    match Validate(c)
    case Err(e) => Err(e)
    case Ok(valid) => Ok(SelectStrategy(valid))
  }
}
