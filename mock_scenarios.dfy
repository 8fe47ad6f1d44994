/**
 * The synthetic scenario corpus: twenty-four scenarios whose fields follow from the index,
 * the canned step lists, the id lookup, the reconstructed version history and the runs of a
 * scenario. `now` is the clock in milliseconds.
 */
module MockScenarios {
  import opened Wrappers
  import opened Text
  import opened Seqs
  import opened Types
  import MockRuns

  const TargetServices: seq<string> := [
    "api-gateway", "user-service", "payment-service",
    "inventory-service", "notification-service", "auth-service"
  ]

  const Owners: seq<string> := ["alice@example.com", "bob@example.com", "charlie@example.com", "diana@example.com"]

  const Envs: seq<string> := ["production", "staging", "development"]

  /** The step types in catalogue order, with the labels the editor gives new steps. */
  const StepTypes: seq<(StepType, string)> := [
    (InjectFault, "Inject fault"), (Wait, "Wait"), (IncreaseIntensity, "Increase intensity"),
    (Recover, "Recover"), (Validate, "Validate")
  ]

  const ChangelogMessages: seq<string> := [
    "Initial release with basic fault injection",
    "Added configurable intensity ramping",
    "Improved recovery validation logic",
    "Added circuit breaker monitoring",
    "Optimized for production workloads",
    "Fixed timing issues in wait steps",
    "Added support for multi-region testing",
    "Improved error rate threshold handling"
  ]

  /** The number of scenarios in the corpus. */
  const ScenarioCount: nat := 24

  /** The wire name of a failure type, as it appears in step labels. */
  function FailureTypeName(t: FailureType): string {
    match t
    case Latency => "latency"
    case Error => "error"
    case Shutdown => "shutdown"
    case Resource => "resource"
  }

  /** Latency and resource scenarios ramp the fault up before recovering. */
  predicate Ramps(t: FailureType) {
    t == Latency || t == Resource
  }

  function StepId(k: nat): string {
    "step-" + ToDecimal(k)
  }

  // The canned steps of `generateSteps`.
  function InjectStep(t: FailureType): ScenarioStep {
    ScenarioStep("step-1", InjectFault, "Inject " + FailureTypeName(t) + " fault",
      map["percentage" := ConfigNumber(30), "target" := ConfigText("all-endpoints")])
  }
  const WaitStep := ScenarioStep("step-2", Wait, "Wait for metrics", map["duration" := ConfigNumber(30)])
  const RampStep := ScenarioStep("step-3", IncreaseIntensity, "Increase fault intensity", map["percentage" := ConfigNumber(60)])
  const ObserveStep := ScenarioStep("step-4", Wait, "Observe impact", map["duration" := ConfigNumber(60)])
  function RecoverStep(id: string): ScenarioStep {
    ScenarioStep(id, Recover, "Remove fault injection", map["graceful" := ConfigFlag(true)])
  }
  function ValidateStep(id: string): ScenarioStep {
    ScenarioStep(id, Validate, "Validate recovery", map["timeout" := ConfigNumber(120), "checkMetrics" := ConfigFlag(true)])
  }

  function StepsOf(t: FailureType): seq<ScenarioStep> {
    if Ramps(t) then
      [InjectStep(t), WaitStep, RampStep, ObserveStep, RecoverStep("step-5"), ValidateStep("step-6")]
    else
      [InjectStep(t), WaitStep, RecoverStep("step-3"), ValidateStep("step-4")]
  }

  /**
   * `generateSteps`: two opening steps, the ramp for latency and resource faults, then recover
   * and validate, each of the last two numbered after the steps before it.
   */
  method GenerateSteps(t: FailureType) returns (steps: seq<ScenarioStep>)
    ensures steps == StepsOf(t)
  {
    steps := [InjectStep(t), WaitStep];
    if Ramps(t) {
      steps := steps + [RampStep];
      steps := steps + [ObserveStep];
    }
    steps := steps + [RecoverStep(StepId(|steps| + 1))];
    steps := steps + [ValidateStep(StepId(|steps| + 1))];
    assert StepId(3) == "step-3" && StepId(4) == "step-4";
    assert StepId(5) == "step-5" && StepId(6) == "step-6";
  }

  /**
   * Six steps for latency and resource faults and four otherwise, numbered step-1 onwards;
   * the first injects the fault, the last two recover and then validate.
   */
  lemma StepsShape(t: FailureType)
    ensures var s := StepsOf(t);
      |s| == (if Ramps(t) then 6 else 4)
      && (forall i | 0 <= i < |s| :: s[i].id == StepId(i + 1))
      && s[0].kind == InjectFault
      && s[|s| - 2].kind == Recover && s[|s| - 1].kind == Validate
  {
    assert StepId(1) == "step-1" && StepId(2) == "step-2" && StepId(3) == "step-3";
    assert StepId(4) == "step-4" && StepId(5) == "step-5" && StepId(6) == "step-6";
  }

  function ScenarioIdOf(index: nat): string {
    PrefixedId("scenario-", index + 1, 3)
  }

  lemma ScenarioIdInjective(a: nat, b: nat)
    requires ScenarioIdOf(a) == ScenarioIdOf(b)
    ensures a == b
  {
    PrefixedIdInjective("scenario-", a + 1, b + 1, 3);
  }

  /** `v{major}.{minor}.0`. */
  function VersionString(major: int, minor: int): string {
    "v" + IntToString(major) + "." + IntToString(minor) + ".0"
  }

  const FailureTypes: seq<FailureType> := [Latency, Error, Shutdown, Resource]

  function GenerateScenarioDetail(index: nat, now: Timestamp): (s: ScenarioDetail)
    ensures s.id == ScenarioIdOf(index)
    ensures s.version == VersionString(index / 3 + 1, index % 3)
    ensures s.name == MockRuns.Scenarios[index % |MockRuns.Scenarios|].name
    ensures s.kind == FailureTypes[index % |FailureTypes|]
    ensures s.status == (if index % 7 == 0 then Archived else Active)
    ensures s.steps == StepsOf(s.kind)
  {
    var kind := FailureTypes[index % |FailureTypes|];
    var base := MockRuns.Scenarios[index % |MockRuns.Scenarios|];
    ScenarioDetail(
      ScenarioIdOf(index), base.name, base.description, kind,
      TargetServices[index % |TargetServices|],
      VersionString(index / 3 + 1, index % 3),
      now - index * 86400000 * 2,
      Owners[index % |Owners|],
      if index % 7 == 0 then Archived else Active,
      Envs[index % |Envs|],
      20 + (index * 10) % 80,
      30 + (index * 15) % 270,
      if index % 3 == 0 then Cron else Manual,
      if index % 3 == 0 then Some("0 2 * * 1") else None,
      SafetyConfig(5 + index % 10, index % 4 != 0),
      StepsOf(kind))
  }

  /**
   * Every generated scenario has a cron expression exactly when it is scheduled by cron, is
   * archived exactly at indices divisible by 7, and keeps its numbers in their bands.
   */
  lemma ScenarioDetailInvariants(index: nat, now: Timestamp)
    ensures var s := GenerateScenarioDetail(index, now);
      (s.cronExpression.Some? <==> s.scheduleType == Cron)
      && (s.status == Archived <==> index % 7 == 0)
      && 20 <= s.intensity < 100 && 30 <= s.duration < 300
      && 5 <= s.safetyConfig.maxErrorRate <= 14
      && (s.safetyConfig.autoStopEnabled <==> index % 4 != 0)
      && s.lastUpdated <= now
  {
  }

  /** Latency and resource scenarios (indices 0 and 3 modulo 4) get six steps, the rest four. */
  lemma ScenarioStepCount(index: nat, now: Timestamp)
    ensures |GenerateScenarioDetail(index, now).steps| == (if index % 4 == 0 || index % 4 == 3 then 6 else 4)
  {
    var kind := FailureTypes[index % |FailureTypes|];
    assert GenerateScenarioDetail(index, now).steps == StepsOf(kind);
  }

  /** The corpus: `Array.from({ length: 24 }, (_, i) => generateScenarioDetail(i))`. */
  function MockScenariosOf(now: Timestamp): (scenarios: seq<ScenarioDetail>)
    ensures |scenarios| == ScenarioCount
    ensures forall i | 0 <= i < |scenarios| :: scenarios[i] == GenerateScenarioDetail(i, now)
  {
    seq(ScenarioCount, i requires 0 <= i < ScenarioCount => GenerateScenarioDetail(i, now))
  }

  /** `getScenarioById`: the first scenario with the id, or `None` (`null`). */
  function GetScenarioById(scenarios: seq<ScenarioDetail>, id: string): (r: Option<ScenarioDetail>)
    ensures r.None? <==> forall k | 0 <= k < |scenarios| :: scenarios[k].id != id
    ensures r.Some? ==> r.value in scenarios && r.value.id == id
  {
    Find(scenarios, (s: ScenarioDetail) => s.id == id)
  }

  /** Each corpus scenario is found by its own id, and an id past the corpus is not found. */
  lemma GetScenarioByIdOfCorpus(now: Timestamp, k: nat)
    requires k < ScenarioCount
    ensures GetScenarioById(MockScenariosOf(now), ScenarioIdOf(k)) == Some(MockScenariosOf(now)[k])
    ensures GetScenarioById(MockScenariosOf(now), ScenarioIdOf(ScenarioCount)).None?
  {
    var scenarios := MockScenariosOf(now);
    CorpusScenarioIds(now);
    FoundByScenarioId(scenarios, k);
    forall j | 0 <= j < |scenarios| ensures scenarios[j].id != ScenarioIdOf(ScenarioCount) {
      if scenarios[j].id == ScenarioIdOf(ScenarioCount) {
        ScenarioIdInjective(j, ScenarioCount);
      }
    }
  }

  lemma CorpusScenarioIds(now: Timestamp)
    ensures var scenarios := MockScenariosOf(now);
      forall k | 0 <= k < |scenarios| :: scenarios[k].id == ScenarioIdOf(k)
  {
  }

  lemma FoundByScenarioId(scenarios: seq<ScenarioDetail>, k: nat)
    requires forall j | 0 <= j < |scenarios| :: scenarios[j].id == ScenarioIdOf(j)
    requires k < |scenarios|
    ensures GetScenarioById(scenarios, ScenarioIdOf(k)) == Some(scenarios[k])
  {
    var r := GetScenarioById(scenarios, ScenarioIdOf(k));
    assert scenarios[k].id == ScenarioIdOf(k);
    var j :| 0 <= j < |scenarios| && scenarios[j] == r.value;
    ScenarioIdInjective(j, k);
  }

  // ---------------------------------------------------------------- version history

  /**
   * The `(major, minor)` pair of a version string: drop the first 'v', then parse the text
   * before and after the first '.'. A NaN major stands as 0 and a NaN minor as -1, which the
   * loops of `getScenarioVersions` treat the same way (no major entered, no minor of the
   * current major emitted).
   */
  function ParseVersion(version: string): (r: (int, int))
    ensures r.0 >= 0 && r.1 >= -1
  {
    var t := RemoveFirst(version, 'v');
    var major := ParseInt(t).GetOr(0);
    var minor := match AfterFirst(t, '.') case None => -1 case Some(rest) => ParseInt(rest).GetOr(-1);
    (major, minor)
  }

  /** Printing and parsing a version agree. */
  lemma ParseVersionString(major: nat, minor: nat)
    ensures ParseVersion(VersionString(major, minor)) == (major, minor)
  {
    var d := ToDecimal(major);
    var rest := ToDecimal(minor) + ".0";
    var t := d + ['.'] + rest;
    assert RemoveFirst(VersionString(major, minor), 'v') == t by {
      assert VersionString(major, minor) == ['v'] + t;
    }
    assert ParseInt(t) == Some(major) by {
      assert t == d + ("." + rest);
      ParseIntOfDecimal(major, "." + rest);
    }
    assert AfterFirst(t, '.') == Some(rest) by {
      NoDotInDecimal(major);
      AfterFirstPast(d, '.', rest);
    }
    assert ParseInt(rest) == Some(minor) by {
      ParseIntOfDecimal(minor, ".0");
    }
  }

  lemma NoDotInDecimal(n: nat)
    ensures '.' !in ToDecimal(n)
  {
    var d := ToDecimal(n);
    forall i | 0 <= i < |d| ensures d[i] != '.' {
      assert IsDigit(d[i]);
    }
  }

  function MkVersion(scenarioId: string, major: int, minor: int, idx: nat, now: Timestamp): ScenarioVersion {
    ScenarioVersion(
      "ver-" + scenarioId + "-" + IntToString(major) + "-" + IntToString(minor),
      VersionString(major, minor),
      now - idx * 7 * 86400000,
      Owners[idx % |Owners|],
      ChangelogMessages[idx % |ChangelogMessages|],
      idx == 0)
  }

  /** How many minors of the current major the history lists: minor down to 0. */
  function FirstMajorCount(minor: int): nat {
    if minor + 1 > 0 then minor + 1 else 0
  }

  function Min(a: int, b: int): int { if a <= b then a else b }

  /** The length of the history: every earlier major contributes minors 2, 1, 0; at most 6. */
  function HistoryLength(major: int, minor: int): nat {
    if major < 1 then 0 else Min(6, FirstMajorCount(minor) + 3 * (major - 1))
  }

  /** The `(major, minor)` of the k-th history entry, in closed form. */
  function PairAt(major: int, minor: int, k: nat): (int, int) {
    var f := FirstMajorCount(minor);
    if k < f then (major, minor - k)
    else (major - 1 - (k - f) / 3, 2 - (k - f) % 3)
  }

  lemma DivMod3(q: int, r: int)
    requires 0 <= r < 3
    ensures (3 * q + r) / 3 == q && (3 * q + r) % 3 == r
  {
  }

  /** The k-th entry of the history of a scenario whose current version is `major.minor`. */
  function HistoryEntry(scenarioId: string, major: int, minor: int, k: nat, now: Timestamp): ScenarioVersion {
    var (maj, mn) := PairAt(major, minor, k);
    MkVersion(scenarioId, maj, mn, k, now)
  }

  /** The first `n` entries of the history. */
  function History(scenarioId: string, major: int, minor: int, n: nat, now: Timestamp): (h: seq<ScenarioVersion>)
    ensures |h| == n && forall k | 0 <= k < n :: h[k] == HistoryEntry(scenarioId, major, minor, k, now)
  {
    seq(n, k requires 0 <= k < n => HistoryEntry(scenarioId, major, minor, k, now))
  }

  lemma HistoryExtend(scenarioId: string, major: int, minor: int, n: nat, now: Timestamp)
    ensures History(scenarioId, major, minor, n + 1, now)
      == History(scenarioId, major, minor, n, now) + [HistoryEntry(scenarioId, major, minor, n, now)]
  {
  }

  /** The pair the loops reach at step `idx` is the closed form's pair there. */
  lemma EntryAt(scenarioId: string, major: int, minor: int, maj: int, mn: int, idx: nat, now: Timestamp)
    requires 1 <= maj <= major && 0 <= mn
    requires maj == major ==> mn <= minor && idx == minor - mn
    requires maj < major ==> mn <= 2 && idx == FirstMajorCount(minor) + 3 * (major - 1 - maj) + (2 - mn)
    ensures History(scenarioId, major, minor, idx, now) + [MkVersion(scenarioId, maj, mn, idx, now)]
      == History(scenarioId, major, minor, idx + 1, now)
  {
    if maj != major {
      DivMod3(major - 1 - maj, 2 - mn);
    }
    HistoryExtend(scenarioId, major, minor, idx, now);
  }

  /**
   * `getScenarioVersions` after the lookup: majors from `major` down to 1, minors from
   * `minor` (then 2) down to 0, one entry per pair with a running index `idx`, stopping once
   * six entries exist.
   */
  method VersionHistory(scenarioId: string, major: int, minor: int, now: Timestamp)
    returns (versions: seq<ScenarioVersion>)
    ensures versions == History(scenarioId, major, minor, HistoryLength(major, minor), now)
  {
    versions := [];
    var idx := 0;
    ghost var f := FirstMajorCount(minor);
    var maj := major;
    while maj >= 1
      invariant maj <= major && (maj < major ==> major >= 1 && maj >= 0)
      invariant idx < 6
      invariant idx == if maj == major then 0 else f + 3 * (major - 1 - maj)
      invariant major >= 1 ==> idx <= f + 3 * (major - 1)
      invariant versions == History(scenarioId, major, minor, idx, now)
    {
      var maxMin := if maj == major then minor else 2;
      var mn := maxMin;
      ghost var base := idx;
      while mn >= 0
        invariant mn <= maxMin && (maxMin >= 0 ==> mn >= -1)
        invariant idx < 6
        invariant idx == base + (if maxMin >= 0 then maxMin - mn else 0)
        invariant idx <= f + 3 * (major - 1)
        invariant versions == History(scenarioId, major, minor, idx, now)
      {
        EntryAt(scenarioId, major, minor, maj, mn, idx, now);
        versions := versions + [MkVersion(scenarioId, maj, mn, idx, now)];
        idx := idx + 1;
        if |versions| >= 6 {
          break;
        }
        mn := mn - 1;
      }
      if |versions| >= 6 {
        break;
      }
      maj := maj - 1;
    }
  }

  /** Every listed pair is a real version: majors 1..major, minors 0..2 below the current one. */
  lemma HistoryPairsInRange(major: int, minor: int, k: nat)
    requires k < HistoryLength(major, minor)
    ensures var (a, b) := PairAt(major, minor, k);
      1 <= a <= major && 0 <= b
      && (a == major ==> b <= minor) && (a < major ==> b <= 2)
  {
  }

  /** `(a, b)` comes after `(c, d)` in version order. */
  predicate Newer(p: (int, int), q: (int, int)) {
    p.0 > q.0 || (p.0 == q.0 && p.1 > q.1)
  }

  lemma HistoryStepDecreases(major: int, minor: int, k: nat)
    requires k + 1 < HistoryLength(major, minor)
    ensures Newer(PairAt(major, minor, k), PairAt(major, minor, k + 1))
  {
    var f := FirstMajorCount(minor);
    if k >= f {
      var j := k - f;
      DivMod3(j / 3, j % 3);
      if j % 3 < 2 {
        DivMod3(j / 3, j % 3 + 1);
        assert j + 1 == 3 * (j / 3) + (j % 3 + 1);
      } else {
        DivMod3(j / 3 + 1, 0);
        assert j + 1 == 3 * (j / 3 + 1);
      }
    }
  }

  /** The history lists versions strictly from newest to oldest. */
  lemma {:induction false} HistoryNewestFirst(major: int, minor: int, i: nat, j: nat)
    requires i < j < HistoryLength(major, minor)
    ensures Newer(PairAt(major, minor, i), PairAt(major, minor, j))
    decreases j - i
  {
    HistoryStepDecreases(major, minor, i);
    if i + 1 < j {
      HistoryNewestFirst(major, minor, i + 1, j);
    }
  }

  /** The first entry is the current version, and only it is marked current. */
  lemma HistoryStartsAtCurrent(scenarioId: string, major: int, minor: int, k: nat, now: Timestamp)
    requires major >= 1 && minor >= 0
    ensures PairAt(major, minor, 0) == (major, minor)
    ensures HistoryEntry(scenarioId, major, minor, k, now).isCurrent <==> k == 0
  {
  }

  /** `getScenarioVersions`: `[]` for an unknown id, else the history of its current version. */
  method GetScenarioVersions(scenarios: seq<ScenarioDetail>, scenarioId: string, now: Timestamp)
    returns (versions: seq<ScenarioVersion>)
    ensures GetScenarioById(scenarios, scenarioId).None? ==> versions == []
    ensures GetScenarioById(scenarios, scenarioId).Some? ==>
      var (major, minor) := ParseVersion(GetScenarioById(scenarios, scenarioId).value.version);
      versions == History(scenarioId, major, minor, HistoryLength(major, minor), now)
  {
    var scenario := GetScenarioById(scenarios, scenarioId);
    if scenario.None? {
      return [];
    }
    var (major, minor) := ParseVersion(scenario.value.version);
    versions := VersionHistory(scenarioId, major, minor, now);
  }

  /**
   * The k-th corpus scenario, at version v{k/3+1}.{k%3}.0, has a history of min(6, k + 1)
   * entries whose first entry is that version.
   */
  lemma CorpusHistory(k: nat, now: Timestamp)
    ensures var s := GenerateScenarioDetail(k, now);
      var (major, minor) := ParseVersion(s.version);
      HistoryLength(major, minor) == Min(6, k + 1)
      && HistoryEntry(s.id, major, minor, 0, now).version == s.version
  {
    ParseVersionString(k / 3 + 1, k % 3);
  }

  // ---------------------------------------------------------------- runs of a scenario

  /** Whether a run belongs to the scenario with the id, by the scenario's name. */
  function RunOfScenario(scenarios: seq<ScenarioDetail>, scenarioId: string, run: Run): bool {
    match FindIndex(scenarios, (s: ScenarioDetail) => s.id == scenarioId)
    case None => false
    case Some(i) => run.scenario == scenarios[i].name
  }

  /** `getScenarioRuns`: the first ten runs whose scenario name is the scenario's. */
  function GetScenarioRuns(runs: seq<Run>, scenarios: seq<ScenarioDetail>, scenarioId: string): (r: seq<Run>)
    ensures |r| <= 10
  {
    Take(Filter(runs, (run: Run) => RunOfScenario(scenarios, scenarioId, run)), 10)
  }

  /**
   * An unknown id has no runs; otherwise the result is a subsequence of the runs, each named
   * after the scenario, and when it holds fewer than ten it holds all of them. In every case it
   * is the first min(10, m) of the m runs named after the scenario, in corpus order.
   */
  lemma GetScenarioRunsSpec(runs: seq<Run>, scenarios: seq<ScenarioDetail>, scenarioId: string)
    ensures var r := GetScenarioRuns(runs, scenarios, scenarioId);
      var found := GetScenarioById(scenarios, scenarioId);
      (found.None? ==> r == [])
      && IsSubseq(r, runs)
      && (found.Some? ==> forall i | 0 <= i < |r| :: r[i].scenario == found.value.name)
      && (found.Some? && |r| < 10 ==>
            forall j | 0 <= j < |runs| :: runs[j].scenario == found.value.name ==> runs[j] in r)
      && (found.Some? ==>
            var matching := Filter(runs, (run: Run) => run.scenario == found.value.name);
            |r| == Min(10, |matching|) && forall i | 0 <= i < |r| :: r[i] == matching[i])
  {
    var p := (run: Run) => RunOfScenario(scenarios, scenarioId, run);
    var filtered := Filter(runs, p);
    var r := GetScenarioRuns(runs, scenarios, scenarioId);
    FilterIsSubseq(runs, p);
    TakeOfSubseq(filtered, runs, 10);
    var found := GetScenarioById(scenarios, scenarioId);
    if found.None? {
      assert FindIndex(scenarios, (s: ScenarioDetail) => s.id == scenarioId).None?;
      assert |filtered| == 0;
    } else {
      var fi := FindIndex(scenarios, (s: ScenarioDetail) => s.id == scenarioId);
      assert fi.Some?;
      FindAgrees(scenarios, scenarioId);
      FilterExt(runs, p, (run: Run) => run.scenario == found.value.name);
      if |r| < 10 {
        assert r == filtered;
      }
    }
  }

  /** `find` and `findIndex` pick the same scenario. */
  lemma FindAgrees(scenarios: seq<ScenarioDetail>, scenarioId: string)
    requires GetScenarioById(scenarios, scenarioId).Some?
    ensures var fi := FindIndex(scenarios, (s: ScenarioDetail) => s.id == scenarioId);
      fi.Some? && scenarios[fi.value] == GetScenarioById(scenarios, scenarioId).value
  {
  }
}
