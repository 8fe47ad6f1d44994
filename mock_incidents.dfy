/**
 * The synthetic platform incidents: thirty incidents whose severity, triage status, owner,
 * lists and signals follow from the index, the id lookup, the related runs and the mocked
 * root-cause confidence. `now` is the clock in milliseconds; a random draw is a real in [0, 1).
 */
module MockIncidents {
  import opened Wrappers
  import opened Text
  import opened Seqs
  import opened Types
  import MockRuns
  import MockScenarios

  const IncidentTitles: seq<string> := [
    "P95 latency exceeded threshold", "Error rate spike detected", "Circuit breaker tripped repeatedly",
    "Memory usage critical", "Connection pool exhausted", "Cascade failure in downstream services",
    "Database connection timeouts", "Rate limiting triggered", "CPU saturation detected",
    "Response time degradation"
  ]

  const IncidentSummaries: seq<string> := [
    "p95 latency exceeded 800ms; error rate 4.2%", "Error rate spiked to 12.3% over 5 minute window",
    "Circuit breaker opened 8 times in 2 minutes", "Memory usage at 94% with no recovery trend",
    "Connection pool 100% utilized; requests queueing", "3 downstream services reporting failures",
    "Database connections timing out after 30s", "Rate limiter rejecting 45% of requests",
    "CPU at 98% utilization across all instances", "Response times 3x baseline for /api/checkout"
  ]

  const RootCauses: seq<string> := [
    "Increased traffic volume exceeded auto-scaling capacity. The scaling policy delay (3 min) caused request queuing.",
    "Database query N+1 problem in user lookup causing exponential load increase under concurrent requests.",
    "Memory leak in connection handling code causing gradual resource exhaustion over time.",
    "Misconfigured retry policy causing retry storms during partial outages.",
    "Third-party payment provider experiencing degraded performance affecting checkout flow.",
    "DNS resolution delays causing connection establishment timeouts to downstream services."
  ]

  const RecommendedActions: seq<string> := [
    "Scale up instances immediately to handle traffic surge", "Enable circuit breaker on affected endpoints",
    "Implement request rate limiting at edge", "Review and optimize database queries",
    "Add connection pool monitoring alerts", "Configure exponential backoff with jitter",
    "Implement bulkhead pattern for isolation", "Add fallback responses for degraded mode"
  ]

  const ImpactedEndpoints: seq<string> := [
    "/api/checkout", "/api/users/:id", "/api/inventory/search", "/api/payments/process",
    "/api/notifications/send", "/api/auth/token", "/api/orders/:id/status", "/api/products/catalog"
  ]

  /** The number of incidents in the corpus. */
  const IncidentCount: nat := 30

  // The canned signals of `generateSignals`.
  function AnomalySignal(detectedAt: Timestamp): IncidentSignal {
    IncidentSignal("sig-1", detectedAt - 180000, MetricAnomaly, "Latency anomaly detected", Some("p95 increased 150% from baseline"))
  }
  function BreachSignal(detectedAt: Timestamp): IncidentSignal {
    IncidentSignal("sig-2", detectedAt - 120000, ThresholdBreach, "Error rate threshold breached", Some("4.2% > 2% threshold"))
  }
  function CorrelationSignal(detectedAt: Timestamp): IncidentSignal {
    IncidentSignal("sig-3", detectedAt - 60000, Correlation, "Correlated with upstream deployment", Some("api-gateway v2.3.1 deployed 10min ago"))
  }
  function AlertSignal(detectedAt: Timestamp, severity: IncidentSeverity): IncidentSignal {
    IncidentSignal("sig-4", detectedAt, AlertFired, "PagerDuty alert triggered",
      Some(if severity == Critical then "P1 - Immediate response" else "P2 - Urgent"))
  }
  function BudgetSignal(detectedAt: Timestamp): IncidentSignal {
    IncidentSignal("sig-5", detectedAt + 30000, ThresholdBreach, "SLO budget consumption accelerated", Some("Burning 15x normal rate"))
  }

  /** Critical and high incidents get the extra SLO-budget signal. */
  predicate Escalated(severity: IncidentSeverity) {
    severity == Critical || severity == High
  }

  function SignalsOf(detectedAt: Timestamp, severity: IncidentSeverity): seq<IncidentSignal> {
    [AnomalySignal(detectedAt), BreachSignal(detectedAt), CorrelationSignal(detectedAt), AlertSignal(detectedAt, severity)]
    + if Escalated(severity) then [BudgetSignal(detectedAt)] else []
  }

  /** `generateSignals`: four signals leading up to detection, then one more when escalated. */
  method GenerateSignals(detectedAt: Timestamp, severity: IncidentSeverity) returns (signals: seq<IncidentSignal>)
    ensures signals == SignalsOf(detectedAt, severity)
  {
    signals := [AnomalySignal(detectedAt), BreachSignal(detectedAt), CorrelationSignal(detectedAt), AlertSignal(detectedAt, severity)];
    if severity == Critical || severity == High {
      signals := signals + [BudgetSignal(detectedAt)];
    }
  }

  /**
   * Five signals exactly for critical and high incidents, four otherwise; they are in strictly
   * increasing time, the alert fires at detection and pages P1 exactly for critical ones.
   */
  lemma SignalsShape(detectedAt: Timestamp, severity: IncidentSeverity)
    ensures var s := SignalsOf(detectedAt, severity);
      (|s| == 5 <==> Escalated(severity)) && (|s| == 4 <==> !Escalated(severity))
      && (forall i | 0 < i < |s| :: s[i - 1].timestamp < s[i].timestamp)
      && s[3].timestamp == detectedAt && s[3].kind == AlertFired
      && (s[3].value == Some("P1 - Immediate response") <==> severity == Critical)
  {
    assert "P1 - Immediate response" != "P2 - Urgent";
  }

  const Severities: seq<IncidentSeverity> := [Critical, High, Medium, Low]

  function StatusOf(index: nat): (s: IncidentStatus)
    ensures index < 3 ==> s == Open
    ensures 3 <= index < 8 ==> s == Acknowledged
    ensures index >= 8 ==> s == [Open, Acknowledged, Resolved][index % 3]
  {
    if index < 3 then Open else if index < 8 then Acknowledged else [Open, Acknowledged, Resolved][index % 3]
  }

  function IncidentIdOf(index: nat): string {
    PrefixedId("inc-", index + 1, 4)
  }

  lemma IncidentIdInjective(a: nat, b: nat)
    requires IncidentIdOf(a) == IncidentIdOf(b)
    ensures a == b
  {
    PrefixedIdInjective("inc-", a + 1, b + 1, 4);
  }

  /**
   * `generateIncidentDetail`; `errorDraw` is the draw of the error rate. The run id is that
   * of the corpus run at `index % 50`.
   */
  function GenerateIncidentDetail(index: nat, now: Timestamp, errorDraw: real): (inc: IncidentDetail)
    ensures inc.id == IncidentIdOf(index) && inc.status == StatusOf(index)
    ensures inc.severity == Severities[index % 4]
    ensures inc.signals == SignalsOf(inc.detectedAt, inc.severity)
  {
    var severity := Severities[index % 4];
    var status := StatusOf(index);
    var detectedAt := now - index * 3600000 * 2;
    IncidentDetail(
      IncidentIdOf(index),
      IncidentTitles[index % |IncidentTitles|],
      IncidentSummaries[index % |IncidentSummaries|],
      severity, status,
      MockScenarios.TargetServices[index % |MockScenarios.TargetServices|],
      detectedAt,
      MockRuns.RunIdOf(index % MockRuns.RunCount),
      if status == Open then None else Some(MockScenarios.Owners[index % |MockScenarios.Owners|]),
      RootCauses[index % |RootCauses|],
      ImpactedEndpoints[..2 + index % 4],
      RecommendedActions[..3 + index % 3],
      SignalsOf(detectedAt, severity),
      IncidentMetrics(200 + (index * 50) % 600,
        if severity == Critical then 8.0 + errorDraw * 7.0
        else if severity == High then 4.0 + errorDraw * 4.0
        else 1.0 + errorDraw * 3.0))
  }

  /**
   * An incident has an owner exactly when it is no longer open, and lists two to five
   * endpoints and three to five actions, each a prefix of its catalogue.
   */
  lemma IncidentDetailInvariants(index: nat, now: Timestamp, errorDraw: real)
    ensures var inc := GenerateIncidentDetail(index, now, errorDraw);
      (inc.owner.None? <==> inc.status == Open)
      && (inc.owner.Some? ==> inc.owner.value in MockScenarios.Owners)
      && |inc.impactedEndpoints| == 2 + index % 4 && inc.impactedEndpoints <= ImpactedEndpoints
      && |inc.recommendedActions| == 3 + index % 3 && inc.recommendedActions <= RecommendedActions
  {
    var inc := GenerateIncidentDetail(index, now, errorDraw);
    assert inc.impactedEndpoints == ImpactedEndpoints[..2 + index % 4];
    assert inc.recommendedActions == RecommendedActions[..3 + index % 3];
    assert inc.owner == if StatusOf(index) == Open then None
      else Some(MockScenarios.Owners[index % |MockScenarios.Owners|]);
  }

  /** With a draw in [0, 1) the latency and the error rate lie in their severity's band. */
  lemma IncidentMetricsBands(index: nat, now: Timestamp, errorDraw: real)
    requires 0.0 <= errorDraw < 1.0
    ensures var inc := GenerateIncidentDetail(index, now, errorDraw);
      200 <= inc.metrics.latencyP95 < 800
      && (inc.severity == Critical ==> 8.0 <= inc.metrics.errorRate < 15.0)
      && (inc.severity == High ==> 4.0 <= inc.metrics.errorRate < 8.0)
      && (!Escalated(inc.severity) ==> 1.0 <= inc.metrics.errorRate < 4.0)
  {
  }

  /** Each corpus incident points at a corpus run. */
  lemma IncidentRunIsCorpusRun(index: nat, now: Timestamp, errorDraw: real, draw: nat -> MockRuns.RunDraws)
    ensures GenerateIncidentDetail(index, now, errorDraw).runId
      == MockRuns.MockRunsOf(now, draw)[index % MockRuns.RunCount].id
  {
  }

  /** The corpus: `Array.from({ length: 30 }, (_, i) => generateIncidentDetail(i))`. */
  function MockIncidentsOf(now: Timestamp, errorDraw: nat -> real): (incidents: seq<IncidentDetail>)
    ensures |incidents| == IncidentCount
    ensures forall i | 0 <= i < |incidents| :: incidents[i] == GenerateIncidentDetail(i, now, errorDraw(i))
  {
    seq(IncidentCount, i requires 0 <= i < IncidentCount => GenerateIncidentDetail(i, now, errorDraw(i)))
  }

  /** `getIncidentById`: the first incident with the id, or `None` (`null`). */
  function GetIncidentById(incidents: seq<IncidentDetail>, id: string): (r: Option<IncidentDetail>)
    ensures r.None? <==> forall k | 0 <= k < |incidents| :: incidents[k].id != id
    ensures r.Some? ==> r.value in incidents && r.value.id == id
  {
    Find(incidents, (inc: IncidentDetail) => inc.id == id)
  }

  lemma FoundByIncidentId(incidents: seq<IncidentDetail>, k: nat)
    requires forall j | 0 <= j < |incidents| :: incidents[j].id == IncidentIdOf(j)
    requires k < |incidents|
    ensures GetIncidentById(incidents, IncidentIdOf(k)) == Some(incidents[k])
  {
    var r := GetIncidentById(incidents, IncidentIdOf(k));
    assert incidents[k].id == IncidentIdOf(k);
    var j :| 0 <= j < |incidents| && incidents[j] == r.value;
    IncidentIdInjective(j, k);
  }

  /** Each corpus incident is found by its own id; an id past the corpus is not found. */
  lemma GetIncidentByIdOfCorpus(now: Timestamp, errorDraw: nat -> real, k: nat)
    requires k < IncidentCount
    ensures GetIncidentById(MockIncidentsOf(now, errorDraw), IncidentIdOf(k)) == Some(MockIncidentsOf(now, errorDraw)[k])
    ensures GetIncidentById(MockIncidentsOf(now, errorDraw), IncidentIdOf(IncidentCount)).None?
  {
    var incidents := MockIncidentsOf(now, errorDraw);
    assert forall j | 0 <= j < |incidents| :: incidents[j].id == IncidentIdOf(j);
    FoundByIncidentId(incidents, k);
    forall j | 0 <= j < |incidents| ensures incidents[j].id != IncidentIdOf(IncidentCount) {
      if incidents[j].id == IncidentIdOf(IncidentCount) {
        IncidentIdInjective(j, IncidentCount);
      }
    }
  }

  /** Whether a run passes the related-runs predicate: its scenario is catalogued and the incident's service is a known one. */
  function RelatedRun(incident: IncidentDetail, run: Run): bool {
    Find(MockRuns.Scenarios, (s: Scenario) => s.name == run.scenario).Some?
    && incident.service in MockScenarios.TargetServices
  }

  /** `getRelatedRunsForIncident`: `[]` for an unknown id, else the first five related runs. */
  function GetRelatedRunsForIncident(incidents: seq<IncidentDetail>, runs: seq<Run>, incidentId: string): (r: seq<Run>)
    ensures |r| <= 5
    ensures GetIncidentById(incidents, incidentId).None? ==> r == []
  {
    match GetIncidentById(incidents, incidentId)
    case None => []
    case Some(incident) => Take(Filter(runs, (run: Run) => RelatedRun(incident, run)), 5)
  }

  /** The related runs keep the order of the run list: they form a subsequence of it. */
  lemma RelatedRunsSubseq(incidents: seq<IncidentDetail>, runs: seq<Run>, incidentId: string)
    ensures IsSubseq(GetRelatedRunsForIncident(incidents, runs, incidentId), runs)
  {
    match GetIncidentById(incidents, incidentId)
    case None =>
    case Some(incident) =>
      var p := (run: Run) => RelatedRun(incident, run);
      FilterIsSubseq(runs, p);
      TakeOfSubseq(Filter(runs, p), runs, 5);
  }

  /**
   * When every run's scenario is catalogued and the incident's service is known, as throughout
   * the corpus, the predicate lets every run through: the related runs are the first five.
   */
  lemma RelatedRunsAreFirstFive(incidents: seq<IncidentDetail>, runs: seq<Run>, incidentId: string)
    requires GetIncidentById(incidents, incidentId).Some?
    requires GetIncidentById(incidents, incidentId).value.service in MockScenarios.TargetServices
    requires forall j | 0 <= j < |runs| :: runs[j].scenario == MockRuns.Scenarios[j % |MockRuns.Scenarios|].name
    ensures GetRelatedRunsForIncident(incidents, runs, incidentId) == Take(runs, 5)
  {
    var incident := GetIncidentById(incidents, incidentId).value;
    var p := (run: Run) => RelatedRun(incident, run);
    forall j | 0 <= j < |runs| ensures p(runs[j]) {
      var k := j % |MockRuns.Scenarios|;
      assert MockRuns.Scenarios[k].name == runs[j].scenario;
    }
    FilterAllPass(runs, p);
  }

  /** The corpus instance: every incident's related runs are the first five corpus runs. */
  lemma CorpusRelatedRuns(now: Timestamp, errorDraw: nat -> real, draw: nat -> MockRuns.RunDraws, k: nat)
    requires k < IncidentCount
    ensures GetRelatedRunsForIncident(MockIncidentsOf(now, errorDraw), MockRuns.MockRunsOf(now, draw), IncidentIdOf(k))
      == MockRuns.MockRunsOf(now, draw)[..5]
  {
    var incidents := MockIncidentsOf(now, errorDraw);
    var runs := MockRuns.MockRunsOf(now, draw);
    GetIncidentByIdOfCorpus(now, errorDraw, k);
    CorpusServicesKnown(now, errorDraw, k);
    MockRuns.CorpusScenarioNames(now, draw);
    RelatedRunsAreFirstFive(incidents, runs, IncidentIdOf(k));
  }

  lemma CorpusServicesKnown(now: Timestamp, errorDraw: nat -> real, k: nat)
    requires k < IncidentCount
    ensures MockIncidentsOf(now, errorDraw)[k].service in MockScenarios.TargetServices
  {
    assert MockIncidentsOf(now, errorDraw)[k] == GenerateIncidentDetail(k, now, errorDraw(k));
  }

  function BaseConfidence(severity: IncidentSeverity): int {
    match severity
    case Critical => 92
    case High => 85
    case Medium => 72
    case Low => 65
  }

  /** `getIncidentConfidence`: the severity's base plus the jitter `floor(draw * 8) - 4`. */
  function GetIncidentConfidence(severity: IncidentSeverity, draw: real): (c: int)
    requires 0.0 <= draw < 1.0
    ensures BaseConfidence(severity) - 4 <= c <= BaseConfidence(severity) + 3
  {
    JitterBounds(draw);
    BaseConfidence(severity) + (draw * 8.0).Floor - 4
  }

  lemma JitterBounds(draw: real)
    requires 0.0 <= draw < 1.0
    ensures 0 <= (draw * 8.0).Floor < 8
  {
  }
}
