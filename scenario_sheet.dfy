/**
 * The scenario sheet: it opens the form on an existing scenario (edit mode) or on a blank
 * form (create mode), mapping the scenario onto the form's starting values.
 */
module ScenarioSheet {
  import opened Wrappers
  import opened Types
  import opened ScenarioForm
  import ScenariosPage

  /** `isEditing`. */
  function IsEditing(scenario: Option<ScenarioDetail>): bool {
    scenario.Some?
  }

  /** The starting values for a scenario: its fields, and the safety settings unpacked. */
  function SeedOf(s: ScenarioDetail): FormSeed {
    FormSeed(Some(s.name), Some(s.description), Some(s.targetService), Some(s.environment), Some(s.kind),
      Some(s.intensity), Some(s.duration), Some(s.scheduleType), s.cronExpression,
      Some(s.safetyConfig.maxErrorRate), Some(s.safetyConfig.autoStopEnabled), Some(s.steps))
  }

  /** `initialData`: present exactly in edit mode. */
  function InitialData(scenario: Option<ScenarioDetail>): (r: Option<FormSeed>)
    ensures r.Some? <==> IsEditing(scenario)
  {
    if scenario.Some? then Some(SeedOf(scenario.value)) else None
  }

  /**
   * In edit mode the form starts from the scenario's own values, with the safety settings
   * taken from its safety config and a missing cron expression shown as empty; in create
   * mode it starts from the defaults.
   */
  lemma FormStartsFromScenario(scenario: Option<ScenarioDetail>)
    ensures var d := InitialFormData(InitialData(scenario));
      if scenario.Some? then
        var s := scenario.value;
        d.name == s.name && d.description == s.description && d.targetService == s.targetService
        && d.environment == s.environment && d.kind == s.kind && d.intensity == s.intensity
        && d.duration == s.duration && d.scheduleType == s.scheduleType
        && d.cronExpression == s.cronExpression.GetOr("")
        && d.maxErrorRate == s.safetyConfig.maxErrorRate && d.autoStopEnabled == s.safetyConfig.autoStopEnabled
        && d.steps == s.steps
      else d == InitialFormData(None)
  {
  }

  /**
   * Saving an unedited form through the page's update gives back the scenario, except for the
   * new timestamp and a missing cron expression that comes back empty.
   */
  lemma UnchangedEditRoundTrip(s: ScenarioDetail, now: Timestamp)
    ensures ScenariosPage.Updated(s, InitialFormData(InitialData(Some(s))), now)
         == s.(lastUpdated := now, cronExpression := Some(s.cronExpression.GetOr("")))
  {
  }

  /** A scenario with a cron expression comes back unchanged but for the timestamp. */
  lemma UnchangedEditKeepsScenario(s: ScenarioDetail, now: Timestamp)
    requires s.cronExpression.Some?
    ensures ScenariosPage.Updated(s, InitialFormData(InitialData(Some(s))), now) == s.(lastUpdated := now)
  {
    UnchangedEditRoundTrip(s, now);
  }

  /** Opening a freshly created scenario shows exactly the values it was created from. */
  lemma CreatedScenarioReopens(data: ScenarioFormData, now: Timestamp)
    ensures InitialFormData(InitialData(Some(ScenariosPage.Created(data, now)))) == data
  {
  }
}
