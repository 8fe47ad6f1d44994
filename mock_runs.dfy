/**
 * The synthetic run corpus: fifty runs whose status, errors and timelines follow from the
 * run's index, and the run detail view built from one of them. The random draws and the
 * clock are parameters: `now` is the current time in milliseconds and every draw is a real
 * in [0, 1), as `Math.random()` returns.
 */
module MockRuns {
  import opened Wrappers
  import opened Text
  import opened Seqs
  import opened Types

  const Scenarios: seq<Scenario> := [
    Scenario("sc-001", "API Latency Spike", "Simulate increased API response times"),
    Scenario("sc-002", "Database Failover", "Test database failover behavior"),
    Scenario("sc-003", "Memory Pressure", "Simulate high memory usage conditions"),
    Scenario("sc-004", "Network Partition", "Test behavior during network issues"),
    Scenario("sc-005", "CPU Saturation", "Simulate CPU-bound workloads"),
    Scenario("sc-006", "Disk I/O Stress", "Test disk performance limits")
  ]

  const ErrorMessages: seq<RunError> := [
    RunError("ERR_TIMEOUT", "Request timeout exceeded 5000ms", 12),
    RunError("ERR_CONNECTION", "Connection refused by upstream", 8),
    RunError("ERR_MEMORY", "Out of memory exception", 3),
    RunError("ERR_RATE_LIMIT", "Rate limit exceeded", 24),
    RunError("ERR_CIRCUIT_OPEN", "Circuit breaker open", 5)
  ]

  const Environments: seq<string> := ["production", "staging", "development"]

  /** The number of runs in the corpus. */
  const RunCount: nat := 50

  /** The random draws one run consumes, each in [0, 1) (see `ValidDraws`). */
  datatype RunDraws = RunDraws(
    jitter: real,
    duration: real,
    p50: real,
    p99: real,
    errorRate: real,
    requestCount: real,
    errorScale: nat -> real)   // the draw for the j-th error's count

  predicate Unit(u: real) { 0.0 <= u < 1.0 }

  ghost predicate ValidDraws(d: RunDraws) {
    Unit(d.jitter) && Unit(d.duration) && Unit(d.p50) && Unit(d.p99) && Unit(d.errorRate)
    && Unit(d.requestCount) && forall j: nat :: Unit(d.errorScale(j))
  }

  /** A real converted to a `Date`'s integer time value, which truncates toward zero. */
  function TruncToInt(x: real): (r: int)
    ensures x - 1.0 < r as real < x + 1.0
    ensures x >= 0.0 ==> r == x.Floor
  {
    if x >= 0.0 then x.Floor else -((-x).Floor)
  }

  lemma TruncStrictlyMonotone(x: real, y: real)
    requires x + 2.0 <= y
    ensures TruncToInt(x) < TruncToInt(y)
  {
  }

  function StatusOf(index: nat): (s: RunStatus)
    ensures s == Failed <==> index % 3 == 0
    ensures s == Degraded <==> index % 3 != 0 && index % 5 == 0
    ensures s == Success <==> index % 3 != 0 && index % 5 != 0
  {
    if index % 3 == 0 then Failed else if index % 5 == 0 then Degraded else Success
  }

  /** The status pattern repeats every fifteen runs. */
  lemma StatusPeriodic(index: nat)
    ensures StatusOf(index + 15) == StatusOf(index)
  {
    assert (index + 15) % 3 == index % 3;
    assert (index + 15) % 5 == index % 5;
  }

  function RunIdOf(index: nat): string {
    PrefixedId("run-", index + 1, 4)
  }

  lemma RunIdInjective(a: nat, b: nat)
    requires RunIdOf(a) == RunIdOf(b)
    ensures a == b
  {
    PrefixedIdInjective("run-", a + 1, b + 1, 4);
  }

  /** The first four (failed) or two (degraded) catalogue errors, each count rescaled. */
  function ErrorsOf(status: RunStatus, errorScale: nat -> real): (errors: seq<RunError>)
    ensures errors == [] <==> status == Success
    ensures status == Failed ==> |errors| == 4
    ensures status == Degraded ==> |errors| == 2
    ensures forall j | 0 <= j < |errors| ::
      errors[j].code == ErrorMessages[j].code && errors[j].message == ErrorMessages[j].message
  {
    if status == Success then []
    else
      var k := if status == Failed then 4 else 2;
      seq(k, j requires 0 <= j < k =>
        ErrorMessages[j].(count := (ErrorMessages[j].count as real * (0.5 + errorScale(j))).Floor))
  }

  function TimelineOf(startedAt: Timestamp, status: RunStatus): (events: seq<TimelineEvent>)
  {
    [ TimelineEvent(startedAt, "Run initialized", InfoKind),
      TimelineEvent(startedAt + 1000, "Chaos injection started", InfoKind),
      TimelineEvent(startedAt + 5000, "Baseline metrics captured", InfoKind) ]
    + match status
      case Failed => [
        TimelineEvent(startedAt + 15000, "Error threshold exceeded", WarningKind),
        TimelineEvent(startedAt + 25000, "System recovery failed", ErrorKind),
        TimelineEvent(startedAt + 30000, "Run terminated with failures", ErrorKind) ]
      case Degraded => [
        TimelineEvent(startedAt + 12000, "Latency increase detected", WarningKind),
        TimelineEvent(startedAt + 22000, "Partial recovery observed", WarningKind),
        TimelineEvent(startedAt + 35000, "Run completed with degradation", WarningKind) ]
      case Success => [
        TimelineEvent(startedAt + 10000, "System responded within SLA", SuccessKind),
        TimelineEvent(startedAt + 20000, "Recovery verified", SuccessKind),
        TimelineEvent(startedAt + 25000, "Run completed successfully", SuccessKind) ]
  }

  predicate Chronological(events: seq<TimelineEvent>) {
    forall i | 0 < i < |events| :: events[i - 1].timestamp < events[i].timestamp
  }

  /** `generateTimeline`: three opening events, then the three closing events of the status. */
  method GenerateTimeline(startedAt: Timestamp, status: RunStatus) returns (events: seq<TimelineEvent>)
    ensures events == TimelineOf(startedAt, status)
  {
    events := [
      TimelineEvent(startedAt, "Run initialized", InfoKind),
      TimelineEvent(startedAt + 1000, "Chaos injection started", InfoKind),
      TimelineEvent(startedAt + 5000, "Baseline metrics captured", InfoKind) ];
    if status == Failed {
      events := events + [
        TimelineEvent(startedAt + 15000, "Error threshold exceeded", WarningKind),
        TimelineEvent(startedAt + 25000, "System recovery failed", ErrorKind),
        TimelineEvent(startedAt + 30000, "Run terminated with failures", ErrorKind) ];
    } else if status == Degraded {
      events := events + [
        TimelineEvent(startedAt + 12000, "Latency increase detected", WarningKind),
        TimelineEvent(startedAt + 22000, "Partial recovery observed", WarningKind),
        TimelineEvent(startedAt + 35000, "Run completed with degradation", WarningKind) ];
    } else {
      events := events + [
        TimelineEvent(startedAt + 10000, "System responded within SLA", SuccessKind),
        TimelineEvent(startedAt + 20000, "Recovery verified", SuccessKind),
        TimelineEvent(startedAt + 25000, "Run completed successfully", SuccessKind) ];
    }
  }

  /**
   * Every run timeline has six events in strictly increasing time, starts at the run's start,
   * and its last event's kind tells the outcome.
   */
  lemma TimelineShape(startedAt: Timestamp, status: RunStatus)
    ensures var t := TimelineOf(startedAt, status);
      |t| == 6 && Chronological(t) && t[0].timestamp == startedAt
      && t[5].timestamp <= startedAt + 35000
      && (forall i | 0 <= i < 3 :: t[i].kind == InfoKind)
      && t[5].kind == (match status case Failed => ErrorKind case Degraded => WarningKind case Success => SuccessKind)
  {
  }

  // Descriptions of the canned detailed-timeline events and run incidents.
  const InitializedText := "Chaos engineering run started, baseline metrics being captured"
  const FaultInjectedText := "Latency injection enabled for 30% of requests"
  const RetryTriggeredText := "Automatic retry mechanism activated after timeout threshold exceeded"
  const BreakerTrippedText := "Error rate exceeded 50%, circuit breaker tripped to prevent cascade failures"
  const FallbackText := "Degraded response served from cache while primary service unavailable"
  const TerminatedText := "Run completed with failures, system did not recover within SLA"
  const BreakerEngagedText := "Error rate elevated, circuit breaker engaged briefly"
  const PartialRecoveryText := "System partially recovered, operating with reduced throughput"
  const DegradedCompletionText := "Run completed with degradation, manual review recommended"
  const RetrySucceededText := "Automatic retry succeeded, request completed within SLA"
  const FullRecoveryText := "System fully recovered, all metrics within normal parameters"
  const SuccessCompletionText := "Chaos experiment completed successfully, system demonstrated resilience"
  const CascadeText := "Multiple downstream services experienced timeouts leading to cascading failures across the payment processing pipeline."
  const CascadeAction := "Implement bulkhead pattern to isolate service failures and prevent cascade"
  const MemoryLeakText := "Memory usage increased by 45% during fault injection without recovery after load normalization."
  const MemoryLeakAction := "Review connection pooling configuration and implement proper resource cleanup"
  const RetryStormText := "Exponential backoff not properly configured, leading to retry storms under load."
  const RetryStormAction := "Configure jitter and increase backoff multiplier in retry policy"
  const ElevatedLatencyText := "P99 latency remained elevated for 30 seconds after fault injection ended."
  const ElevatedLatencyAction := "Consider implementing connection warming to reduce cold start latency"
  const CacheInvalidationText := "Some cached entries were not properly invalidated during failover."
  const CacheInvalidationAction := "Review cache invalidation strategy and implement TTL-based fallback"

  function DetailedTimelineOf(startedAt: Timestamp, status: RunStatus): (events: seq<DetailedTimelineEvent>)
  {
    [ DetailedTimelineEvent("evt-001", startedAt, InfoEvent, "Run initialized",
        InitializedText,
        Some(map["targetService" := MetaText("api-gateway"), "region" := MetaText("us-east-1")])),
      DetailedTimelineEvent("evt-002", startedAt + 2000, FaultInjected, "Fault injected",
        FaultInjectedText,
        Some(map["latencyMs" := MetaNumber(500.0), "percentage" := MetaNumber(30.0)])),
      DetailedTimelineEvent("evt-003", startedAt + 8000, RetryTriggered, "Retry triggered",
        RetryTriggeredText,
        Some(map["retryAttempt" := MetaNumber(1.0), "maxRetries" := MetaNumber(3.0)])) ]
    + match status
      case Failed => [
        DetailedTimelineEvent("evt-004", startedAt + 15000, CircuitBreakerOpen, "Circuit breaker opened",
          BreakerTrippedText,
          Some(map["errorRate" := MetaNumber(52.3), "threshold" := MetaNumber(50.0)])),
        DetailedTimelineEvent("evt-005", startedAt + 18000, FallbackServed, "Fallback served",
          FallbackText,
          Some(map["cacheHitRate" := MetaNumber(78.0)])),
        DetailedTimelineEvent("evt-006", startedAt + 30000, InfoEvent, "Run terminated",
          TerminatedText, None) ]
      case Degraded => [
        DetailedTimelineEvent("evt-004", startedAt + 12000, CircuitBreakerOpen, "Circuit breaker opened",
          BreakerEngagedText,
          Some(map["errorRate" := MetaNumber(35.2), "threshold" := MetaNumber(50.0)])),
        DetailedTimelineEvent("evt-005", startedAt + 20000, Recovery, "Partial recovery",
          PartialRecoveryText,
          Some(map["throughputPercent" := MetaNumber(75.0)])),
        DetailedTimelineEvent("evt-006", startedAt + 35000, InfoEvent, "Run completed",
          DegradedCompletionText, None) ]
      case Success => [
        DetailedTimelineEvent("evt-004", startedAt + 12000, RetryTriggered, "Retry successful",
          RetrySucceededText,
          Some(map["retryAttempt" := MetaNumber(2.0), "latencyMs" := MetaNumber(180.0)])),
        DetailedTimelineEvent("evt-005", startedAt + 20000, Recovery, "Full recovery",
          FullRecoveryText,
          Some(map["recoveryTimeMs" := MetaNumber(8000.0)])),
        DetailedTimelineEvent("evt-006", startedAt + 25000, InfoEvent, "Run completed",
          SuccessCompletionText, None) ]
  }

  /** `generateDetailedTimeline`: three opening events, then the three of the status. */
  method GenerateDetailedTimeline(startedAt: Timestamp, status: RunStatus) returns (events: seq<DetailedTimelineEvent>)
    ensures events == DetailedTimelineOf(startedAt, status)
  {
    events := [
      DetailedTimelineEvent("evt-001", startedAt, InfoEvent, "Run initialized",
        InitializedText,
        Some(map["targetService" := MetaText("api-gateway"), "region" := MetaText("us-east-1")])),
      DetailedTimelineEvent("evt-002", startedAt + 2000, FaultInjected, "Fault injected",
        FaultInjectedText,
        Some(map["latencyMs" := MetaNumber(500.0), "percentage" := MetaNumber(30.0)])),
      DetailedTimelineEvent("evt-003", startedAt + 8000, RetryTriggered, "Retry triggered",
        RetryTriggeredText,
        Some(map["retryAttempt" := MetaNumber(1.0), "maxRetries" := MetaNumber(3.0)])) ];
    if status == Failed {
      events := events + [
        DetailedTimelineEvent("evt-004", startedAt + 15000, CircuitBreakerOpen, "Circuit breaker opened",
          BreakerTrippedText,
          Some(map["errorRate" := MetaNumber(52.3), "threshold" := MetaNumber(50.0)])),
        DetailedTimelineEvent("evt-005", startedAt + 18000, FallbackServed, "Fallback served",
          FallbackText,
          Some(map["cacheHitRate" := MetaNumber(78.0)])),
        DetailedTimelineEvent("evt-006", startedAt + 30000, InfoEvent, "Run terminated",
          TerminatedText, None) ];
    } else if status == Degraded {
      events := events + [
        DetailedTimelineEvent("evt-004", startedAt + 12000, CircuitBreakerOpen, "Circuit breaker opened",
          BreakerEngagedText,
          Some(map["errorRate" := MetaNumber(35.2), "threshold" := MetaNumber(50.0)])),
        DetailedTimelineEvent("evt-005", startedAt + 20000, Recovery, "Partial recovery",
          PartialRecoveryText,
          Some(map["throughputPercent" := MetaNumber(75.0)])),
        DetailedTimelineEvent("evt-006", startedAt + 35000, InfoEvent, "Run completed",
          DegradedCompletionText, None) ];
    } else {
      events := events + [
        DetailedTimelineEvent("evt-004", startedAt + 12000, RetryTriggered, "Retry successful",
          RetrySucceededText,
          Some(map["retryAttempt" := MetaNumber(2.0), "latencyMs" := MetaNumber(180.0)])),
        DetailedTimelineEvent("evt-005", startedAt + 20000, Recovery, "Full recovery",
          FullRecoveryText,
          Some(map["recoveryTimeMs" := MetaNumber(8000.0)])),
        DetailedTimelineEvent("evt-006", startedAt + 25000, InfoEvent, "Run completed",
          SuccessCompletionText, None) ];
    }
  }

  lemma DetailedTimelineShape(startedAt: Timestamp, status: RunStatus)
    ensures var t := DetailedTimelineOf(startedAt, status);
      |t| == 6 && t[0].timestamp == startedAt
      && (forall i | 0 < i < |t| :: t[i - 1].timestamp < t[i].timestamp)
      && t[1].kind == FaultInjected && t[5].kind == InfoEvent && t[5].metadata.None?
  {
    match status {
      case Failed =>
      case Degraded =>
      case Success =>
    }
  }

  /** The detailed events are numbered "evt-001" to "evt-006" in order, whatever the status. */
  lemma DetailedTimelineIds(startedAt: Timestamp, status: RunStatus)
    ensures var t := DetailedTimelineOf(startedAt, status);
      |t| == 6 && forall i | 0 <= i < |t| :: t[i].id == "evt-00" + [DigitChar(i + 1)]
  {
  }

  function IncidentsOf(status: RunStatus, startedAt: Timestamp): (incidents: seq<Incident>)
  {
    match status
    case Success => []
    case Failed => [
      Incident("inc-001", "Cascade failure detected", Critical,
        CascadeText,
        CascadeAction, startedAt + 15000),
      Incident("inc-002", "Memory leak identified", High,
        MemoryLeakText,
        MemoryLeakAction, startedAt + 20000),
      Incident("inc-003", "Retry storm observed", Medium,
        RetryStormText,
        RetryStormAction, startedAt + 12000) ]
    case Degraded => [
      Incident("inc-001", "Elevated latency during recovery", Medium,
        ElevatedLatencyText,
        ElevatedLatencyAction, startedAt + 18000),
      Incident("inc-002", "Partial cache invalidation", Low,
        CacheInvalidationText,
        CacheInvalidationAction, startedAt + 22000) ]
  }

  /** `generateIncidents`: an early return for success, otherwise a list filled by one push. */
  method GenerateIncidents(status: RunStatus, startedAt: Timestamp) returns (incidents: seq<Incident>)
    ensures incidents == IncidentsOf(status, startedAt)
  {
    if status == Success {
      return [];
    }
    incidents := [];
    if status == Failed {
      incidents := incidents + [
        Incident("inc-001", "Cascade failure detected", Critical,
          CascadeText,
          CascadeAction, startedAt + 15000),
        Incident("inc-002", "Memory leak identified", High,
          MemoryLeakText,
          MemoryLeakAction, startedAt + 20000),
        Incident("inc-003", "Retry storm observed", Medium,
          RetryStormText,
          RetryStormAction, startedAt + 12000) ];
    } else {
      incidents := incidents + [
        Incident("inc-001", "Elevated latency during recovery", Medium,
          ElevatedLatencyText,
          ElevatedLatencyAction, startedAt + 18000),
        Incident("inc-002", "Partial cache invalidation", Low,
          CacheInvalidationText,
          CacheInvalidationAction, startedAt + 22000) ];
    }
  }

  function Severities(incidents: seq<Incident>): (r: seq<IncidentSeverity>)
    ensures |r| == |incidents| && forall i | 0 <= i < |r| :: r[i] == incidents[i].severity
  {
    seq(|incidents|, i requires 0 <= i < |incidents| => incidents[i].severity)
  }

  /** No incidents for success; critical, high, medium for failed; medium, low for degraded. */
  lemma IncidentsByStatus(status: RunStatus, startedAt: Timestamp)
    ensures var inc := IncidentsOf(status, startedAt);
      Severities(inc) == (match status case Success => [] case Failed => [Critical, High, Medium] case Degraded => [Medium, Low])
      && forall i | 0 <= i < |inc| :: startedAt < inc[i].detectedAt <= startedAt + 22000
  {
    var inc := IncidentsOf(status, startedAt);
    match status {
      case Success =>
      case Failed =>
        assert Severities(inc) == [inc[0].severity, inc[1].severity, inc[2].severity];
      case Degraded =>
        assert Severities(inc) == [inc[0].severity, inc[1].severity];
    }
  }

  function GenerateRun(index: nat, now: Timestamp, d: RunDraws): (run: Run)
    ensures run.id == RunIdOf(index) && run.status == StatusOf(index)
    ensures run.scenarioId == Scenarios[index % |Scenarios|].id && run.scenario == Scenarios[index % |Scenarios|].name
    ensures run.errors == ErrorsOf(run.status, d.errorScale)
    ensures run.timeline == TimelineOf(run.startedAt, run.status)
  {
    var status := StatusOf(index);
    var scenario := Scenarios[index % |Scenarios|];
    var startedAt := TruncToInt(now as real - (index * 3600000) as real - d.jitter * 1800000.0);
    var errorRate :=
      if status == Failed then 5.0 + d.errorRate * 10.0
      else if status == Degraded then 1.0 + d.errorRate * 3.0
      else d.errorRate * 0.5;
    Run(RunIdOf(index), scenario.name, scenario.id, status, startedAt, 20000.0 + d.duration * 40000.0,
      RunMetrics(45.0 + d.p50 * 100.0, 200.0 + d.p99 * 300.0, errorRate, (5000.0 + d.requestCount * 15000.0).Floor),
      ErrorsOf(status, d.errorScale),
      TimelineOf(startedAt, status))
  }

  /**
   * With draws in [0, 1) every metric lies in its band, p50 stays below p99, and the
   * error-rate bands of the three statuses are disjoint, so the rate tells the status.
   */
  lemma RunMetricBounds(index: nat, now: Timestamp, d: RunDraws)
    requires ValidDraws(d)
    ensures var r := GenerateRun(index, now, d);
      20000.0 <= r.duration < 60000.0
      && 45.0 <= r.metrics.latencyP50 < 145.0 && 200.0 <= r.metrics.latencyP99 < 500.0
      && r.metrics.latencyP50 < r.metrics.latencyP99
      && 5000 <= r.metrics.requestCount < 20000
      && (r.status == Failed <==> r.metrics.errorRate >= 5.0)
      && (r.status == Degraded <==> 1.0 <= r.metrics.errorRate < 4.0)
      && (r.status == Success <==> r.metrics.errorRate < 0.5)
  {
  }

  /** Each error count lies between half and one and a half times its catalogue count. */
  lemma ErrorCountBounds(status: RunStatus, errorScale: nat -> real)
    requires forall j: nat :: Unit(errorScale(j))
    ensures var errors := ErrorsOf(status, errorScale);
      forall j | 0 <= j < |errors| ::
        ErrorMessages[j].count / 2 <= errors[j].count <= ErrorMessages[j].count * 3 / 2
  {
    var errors := ErrorsOf(status, errorScale);
    forall j | 0 <= j < |errors|
      ensures ErrorMessages[j].count / 2 <= errors[j].count <= ErrorMessages[j].count * 3 / 2
    {
      var c := ErrorMessages[j].count;
      var x := c as real * (0.5 + errorScale(j));
      assert Unit(errorScale(j));
      assert c as real * 0.5 <= x < c as real * 1.5;
      assert errors[j].count == x.Floor;
      FloorBetween(c, x);
    }
  }

  lemma FloorBetween(c: int, x: real)
    requires c >= 0 && c as real * 0.5 <= x < c as real * 1.5
    ensures c / 2 <= x.Floor <= c * 3 / 2
  {
    assert (c / 2) as real <= c as real * 0.5;
    assert ((c * 3 / 2) + 1) as real > c as real * 1.5;
  }

  /** The corpus: `Array.from({ length: 50 }, (_, i) => generateRun(i))`. */
  function MockRunsOf(now: Timestamp, draw: nat -> RunDraws): (runs: seq<Run>)
    ensures |runs| == RunCount
    ensures forall i | 0 <= i < |runs| :: runs[i] == GenerateRun(i, now, draw(i))
  {
    seq(RunCount, i requires 0 <= i < RunCount => GenerateRun(i, now, draw(i)))
  }

  /** Run ids are distinct and the corpus is ordered newest first. */
  lemma CorpusNewestFirst(now: Timestamp, draw: nat -> RunDraws, i: nat, j: nat)
    requires forall k: nat :: ValidDraws(draw(k))
    requires i < j < RunCount
    ensures var runs := MockRunsOf(now, draw);
      runs[i].id != runs[j].id && runs[j].startedAt < runs[i].startedAt
  {
    var runs := MockRunsOf(now, draw);
    if runs[i].id == runs[j].id {
      RunIdInjective(i, j);
    }
    assert ValidDraws(draw(i)) && ValidDraws(draw(j));
    var xi := now as real - (i * 3600000) as real - draw(i).jitter * 1800000.0;
    var xj := now as real - (j * 3600000) as real - draw(j).jitter * 1800000.0;
    assert (j * 3600000) as real >= (i * 3600000) as real + 3600000.0;
    TruncStrictlyMonotone(xj, xi);
  }

  function EnvironmentOf(runId: string): string
    requires |runId| >= 5
  {
    Environments[(runId[4] as int) % |Environments|]
  }

  /**
   * `getRunDetail`: the run with the id, with the environment picked by the character code of
   * the id's fifth character, the detailed timeline and the incidents of its status; `None`
   * when no run has the id.
   */
  function GetRunDetail(runs: seq<Run>, runId: string): (r: Option<RunDetail>)
    ensures r.None? <==> forall k | 0 <= k < |runs| :: runs[k].id != runId
    ensures r.Some? ==> r.value.run.id == runId && r.value.run in runs
    ensures r.Some? && |runId| >= 5 ==> r.value.environment == EnvironmentOf(runId)
    ensures r.Some? ==> r.value.incidents == IncidentsOf(r.value.run.status, r.value.run.startedAt)
    ensures r.Some? ==> r.value.detailedTimeline == DetailedTimelineOf(r.value.run.startedAt, r.value.run.status)
  {
    match FindIndex(runs, (run: Run) => run.id == runId)
    case None => None
    case Some(k) =>
      var run := runs[k];
      Some(RunDetail(run,
        if |runId| >= 5 then EnvironmentOf(runId) else "",
        DetailedTimelineOf(run.startedAt, run.status),
        IncidentsOf(run.status, run.startedAt)))
  }

  /** Every corpus run is found by its id, and all of them get the "production" environment. */
  lemma GetRunDetailOfCorpus(now: Timestamp, draw: nat -> RunDraws, k: nat)
    requires k < RunCount
    ensures var r := GetRunDetail(MockRunsOf(now, draw), RunIdOf(k));
      r.Some? && r.value.run == MockRunsOf(now, draw)[k] && r.value.environment == "production"
  {
    var runs := MockRunsOf(now, draw);
    CorpusIds(now, draw);
    FoundByUniqueId(runs, k);
  }

  /** The k-th corpus run belongs to catalogue scenario k mod 6. */
  lemma CorpusScenarioNames(now: Timestamp, draw: nat -> RunDraws)
    ensures var runs := MockRunsOf(now, draw);
      |runs| == RunCount && forall j | 0 <= j < |runs| :: runs[j].scenario == Scenarios[j % |Scenarios|].name
  {
  }

  lemma CorpusIds(now: Timestamp, draw: nat -> RunDraws)
    ensures var runs := MockRunsOf(now, draw);
      |runs| == RunCount && forall k | 0 <= k < |runs| :: runs[k].id == RunIdOf(k)
  {
  }

  /**
   * With the corpus's ids, looking up a run's own id finds that run, and the environment is
   * "production" since the id's fifth character is the '0' of a four-digit number below 1000.
   */
  lemma FoundByUniqueId(runs: seq<Run>, k: nat)
    requires forall j | 0 <= j < |runs| :: runs[j].id == RunIdOf(j)
    requires k < |runs| <= RunCount
    ensures var r := GetRunDetail(runs, RunIdOf(k));
      r.Some? && r.value.run == runs[k] && r.value.environment == "production"
  {
    FoundRunIsOwn(runs, k);
    CorpusIdEnvironment(k);
  }

  lemma FoundRunIsOwn(runs: seq<Run>, k: nat)
    requires forall j | 0 <= j < |runs| :: runs[j].id == RunIdOf(j)
    requires k < |runs|
    ensures var r := GetRunDetail(runs, RunIdOf(k)); r.Some? && r.value.run == runs[k]
  {
    var r := GetRunDetail(runs, RunIdOf(k));
    assert runs[k].id == RunIdOf(k);
    var j :| 0 <= j < |runs| && runs[j] == r.value.run;
    RunIdInjective(j, k);
  }

  lemma CorpusIdEnvironment(k: nat)
    requires k < RunCount
    ensures |RunIdOf(k)| >= 5 && EnvironmentOf(RunIdOf(k)) == "production"
  {
    ToDecimalLength(k + 1);
    PaddedLeadingZero(k + 1, 4);
    assert RunIdOf(k)[4] == Padded(k + 1, 4)[0] == '0';
  }

  /** An id outside the corpus, such as "run-0051", yields `None`. */
  lemma GetRunDetailUnknown(now: Timestamp, draw: nat -> RunDraws)
    ensures GetRunDetail(MockRunsOf(now, draw), RunIdOf(RunCount)).None?
  {
    CorpusIds(now, draw);
    NotFoundBeyond(MockRunsOf(now, draw), RunCount);
  }

  lemma NotFoundBeyond(runs: seq<Run>, n: nat)
    requires forall j | 0 <= j < |runs| :: runs[j].id == RunIdOf(j)
    requires |runs| <= n
    ensures GetRunDetail(runs, RunIdOf(n)).None?
  {
    forall k | 0 <= k < |runs| ensures runs[k].id != RunIdOf(n) {
      if runs[k].id == RunIdOf(n) {
        RunIdInjective(k, n);
      }
    }
  }
}
