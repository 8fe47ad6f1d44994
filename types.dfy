/**
 * The records of the chaos-engineering dashboard: scenarios and their steps and versions,
 * runs with their errors and timelines, run-scoped incidents, and platform-wide incidents
 * with their triage state. Timestamps are integer milliseconds since the epoch.
 */
module Types {
  import opened Wrappers

  type Timestamp = int

  datatype RunStatus = Success | Failed | Degraded
  datatype FailureType = Latency | Error | Shutdown | Resource
  datatype ScenarioStatus = Active | Archived
  datatype ScheduleType = Manual | Cron
  datatype StepType = InjectFault | Wait | IncreaseIntensity | Recover | Validate
  datatype IncidentStatus = Open | Acknowledged | Resolved
  datatype IncidentSeverity = Critical | High | Medium | Low

  /** The `type` of an entry of `Run.timeline`. */
  datatype TimelineKind = InfoKind | WarningKind | ErrorKind | SuccessKind

  /** `TimelineEventType` of the detailed run timeline. */
  datatype DetailedEventType =
    | FaultInjected | RetryTriggered | CircuitBreakerOpen | FallbackServed | Recovery | InfoEvent

  datatype SignalType = MetricAnomaly | ThresholdBreach | Correlation | AlertFired

  /** A filter over an enumeration, where `All` is the UI's `"all"` choice. */
  datatype Choice<T> = All | Only(value: T)

  datatype RunMetrics = RunMetrics(latencyP50: real, latencyP99: real, errorRate: real, requestCount: int)

  datatype RunError = RunError(code: string, message: string, count: int)

  datatype TimelineEvent = TimelineEvent(timestamp: Timestamp, event: string, kind: TimelineKind)

  datatype Run = Run(
    id: string,
    scenario: string,          // the scenario's name
    scenarioId: string,
    status: RunStatus,
    startedAt: Timestamp,
    duration: real,            // milliseconds
    metrics: RunMetrics,
    errors: seq<RunError>,
    timeline: seq<TimelineEvent>)

  /** An entry of the small scenario catalogue the runs refer to. */
  datatype Scenario = Scenario(id: string, name: string, description: string)

  /** A value of a step's `config` record (`string | number | boolean`). */
  datatype ConfigValue = ConfigText(text: string) | ConfigNumber(number: int) | ConfigFlag(flag: bool)

  /** A step of a scenario; `caption` is the source's `label`, a reserved word in Dafny. */
  datatype ScenarioStep = ScenarioStep(id: string, kind: StepType, caption: string, config: map<string, ConfigValue>)

  datatype SafetyConfig = SafetyConfig(maxErrorRate: int, autoStopEnabled: bool)

  datatype ScenarioDetail = ScenarioDetail(
    id: string,
    name: string,
    description: string,
    kind: FailureType,
    targetService: string,
    version: string,
    lastUpdated: Timestamp,
    owner: string,
    status: ScenarioStatus,
    environment: string,
    intensity: int,
    duration: int,
    scheduleType: ScheduleType,
    cronExpression: Option<string>,
    safetyConfig: SafetyConfig,
    steps: seq<ScenarioStep>)

  datatype ScenarioFormData = ScenarioFormData(
    name: string,
    description: string,
    targetService: string,
    environment: string,
    kind: FailureType,
    intensity: int,
    duration: int,
    scheduleType: ScheduleType,
    cronExpression: string,
    maxErrorRate: int,
    autoStopEnabled: bool,
    steps: seq<ScenarioStep>)

  datatype ScenarioVersion = ScenarioVersion(
    id: string,
    version: string,
    publishedAt: Timestamp,
    publishedBy: string,
    changelog: string,
    isCurrent: bool)

  datatype IncidentSignal = IncidentSignal(
    id: string,
    timestamp: Timestamp,
    kind: SignalType,
    title: string,
    value: Option<string>)

  datatype IncidentMetrics = IncidentMetrics(latencyP95: int, errorRate: real)

  datatype IncidentDetail = IncidentDetail(
    id: string,
    title: string,
    summary: string,
    severity: IncidentSeverity,
    status: IncidentStatus,
    service: string,
    detectedAt: Timestamp,
    runId: string,
    owner: Option<string>,
    suspectedRootCause: string,
    impactedEndpoints: seq<string>,
    recommendedActions: seq<string>,
    signals: seq<IncidentSignal>,
    metrics: IncidentMetrics)

  datatype DateRange = DateRange(from: Option<Timestamp>, to: Option<Timestamp>)

  /**
   * A date range filters only once its start date is set: then a time must be no earlier than
   * the start, and no later than the end when that is set too.
   */
  predicate InDateRange(t: Timestamp, range: DateRange) {
    range.from.None? || (t >= range.from.value && (range.to.None? || t <= range.to.value))
  }

  /** The lightweight incident attached to one run's detail. */
  datatype Incident = Incident(
    id: string,
    title: string,
    severity: IncidentSeverity,
    description: string,
    recommendedAction: string,
    detectedAt: Timestamp)

  /** A value of a detailed timeline event's `metadata` record (`string | number`). */
  datatype MetaValue = MetaText(text: string) | MetaNumber(number: real)

  datatype DetailedTimelineEvent = DetailedTimelineEvent(
    id: string,
    timestamp: Timestamp,
    kind: DetailedEventType,
    title: string,
    description: string,
    metadata: Option<map<string, MetaValue>>)

  /** A run together with what the detail view derives from it. */
  datatype RunDetail = RunDetail(
    run: Run,
    environment: string,
    detailedTimeline: seq<DetailedTimelineEvent>,
    incidents: seq<Incident>)
}
