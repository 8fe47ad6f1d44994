/**
 * The scenario form: its initial values, the per-field validators, whole-form validation,
 * and the form's state of values, shown errors and touched fields.
 */
module ScenarioForm {
  import opened Wrappers
  import opened Text
  import opened Types

  /** The form's fields. */
  datatype Field =
    | NameField | DescriptionField | TargetServiceField | EnvironmentField | TypeField
    | IntensityField | DurationField | ScheduleTypeField | CronExpressionField
    | MaxErrorRateField | AutoStopField | StepsField

  /** A new value for one field, as `updateField` receives it. */
  datatype FieldValue =
    | NameValue(text: string)
    | DescriptionValue(text: string)
    | TargetServiceValue(text: string)
    | EnvironmentValue(text: string)
    | TypeValue(failure: FailureType)
    | IntensityValue(number: int)
    | DurationValue(number: int)
    | ScheduleTypeValue(schedule: ScheduleType)
    | CronExpressionValue(text: string)
    | MaxErrorRateValue(number: int)
    | AutoStopValue(flag: bool)
    | StepsValue(steps: seq<ScenarioStep>)

  function FieldOf(v: FieldValue): Field {
    match v
    case NameValue(_) => NameField
    case DescriptionValue(_) => DescriptionField
    case TargetServiceValue(_) => TargetServiceField
    case EnvironmentValue(_) => EnvironmentField
    case TypeValue(_) => TypeField
    case IntensityValue(_) => IntensityField
    case DurationValue(_) => DurationField
    case ScheduleTypeValue(_) => ScheduleTypeField
    case CronExpressionValue(_) => CronExpressionField
    case MaxErrorRateValue(_) => MaxErrorRateField
    case AutoStopValue(_) => AutoStopField
    case StepsValue(_) => StepsField
  }

  /** `formData[field]`. */
  function ValueOf(d: ScenarioFormData, f: Field): (v: FieldValue)
    ensures FieldOf(v) == f
  {
    match f
    case NameField => NameValue(d.name)
    case DescriptionField => DescriptionValue(d.description)
    case TargetServiceField => TargetServiceValue(d.targetService)
    case EnvironmentField => EnvironmentValue(d.environment)
    case TypeField => TypeValue(d.kind)
    case IntensityField => IntensityValue(d.intensity)
    case DurationField => DurationValue(d.duration)
    case ScheduleTypeField => ScheduleTypeValue(d.scheduleType)
    case CronExpressionField => CronExpressionValue(d.cronExpression)
    case MaxErrorRateField => MaxErrorRateValue(d.maxErrorRate)
    case AutoStopField => AutoStopValue(d.autoStopEnabled)
    case StepsField => StepsValue(d.steps)
  }

  /** `{ ...prev, [field]: value }`. */
  function WithField(d: ScenarioFormData, v: FieldValue): ScenarioFormData {
    match v
    case NameValue(x) => d.(name := x)
    case DescriptionValue(x) => d.(description := x)
    case TargetServiceValue(x) => d.(targetService := x)
    case EnvironmentValue(x) => d.(environment := x)
    case TypeValue(x) => d.(kind := x)
    case IntensityValue(x) => d.(intensity := x)
    case DurationValue(x) => d.(duration := x)
    case ScheduleTypeValue(x) => d.(scheduleType := x)
    case CronExpressionValue(x) => d.(cronExpression := x)
    case MaxErrorRateValue(x) => d.(maxErrorRate := x)
    case AutoStopValue(x) => d.(autoStopEnabled := x)
    case StepsValue(x) => d.(steps := x)
  }

  /** Setting a field gives it the new value and leaves every other field as it was. */
  lemma WithFieldSpec(d: ScenarioFormData, v: FieldValue, f: Field)
    ensures ValueOf(WithField(d, v), FieldOf(v)) == v
    ensures f != FieldOf(v) ==> ValueOf(WithField(d, v), f) == ValueOf(d, f)
  {
  }

  /** Setting a field to the value it has changes nothing. */
  lemma WithOwnValue(d: ScenarioFormData, f: Field)
    ensures WithField(d, ValueOf(d, f)) == d
  {
  }

  // ---------------------------------------------------------------- initial values

  /** A partial form (`Partial<ScenarioFormData>`): every field may be missing. */
  datatype FormSeed = FormSeed(
    name: Option<string>,
    description: Option<string>,
    targetService: Option<string>,
    environment: Option<string>,
    kind: Option<FailureType>,
    intensity: Option<int>,
    duration: Option<int>,
    scheduleType: Option<ScheduleType>,
    cronExpression: Option<string>,
    maxErrorRate: Option<int>,
    autoStopEnabled: Option<bool>,
    steps: Option<seq<ScenarioStep>>)

  const DefaultSteps: seq<ScenarioStep> := [
    ScenarioStep("default-1", InjectFault, "Inject fault", map[]),
    ScenarioStep("default-2", Wait, "Wait", map["duration" := ConfigNumber(30)]),
    ScenarioStep("default-3", Recover, "Recover", map[])
  ]

  /** The form's starting values: each given field, else its default. */
  function InitialFormData(seed: Option<FormSeed>): ScenarioFormData {
    var s := seed.GetOr(FormSeed(None, None, None, None, None, None, None, None, None, None, None, None));
    ScenarioFormData(
      s.name.GetOr(""), s.description.GetOr(""), s.targetService.GetOr(""), s.environment.GetOr(""),
      s.kind.GetOr(Latency), s.intensity.GetOr(30), s.duration.GetOr(60), s.scheduleType.GetOr(Manual),
      s.cronExpression.GetOr(""), s.maxErrorRate.GetOr(5), s.autoStopEnabled.GetOr(true), s.steps.GetOr(DefaultSteps))
  }

  /** A blank form: empty texts, latency at 30 for 60 s, manual, 5 % error budget, auto-stop, three default steps. */
  lemma BlankFormDefaults()
    ensures var d := InitialFormData(None);
      d.name == "" && d.description == "" && d.targetService == "" && d.environment == ""
      && d.kind == Latency && d.intensity == 30 && d.duration == 60 && d.scheduleType == Manual
      && d.cronExpression == "" && d.maxErrorRate == 5 && d.autoStopEnabled
      && |d.steps| == 3 && d.steps[0].kind == InjectFault && d.steps[1].kind == Wait && d.steps[2].kind == Recover
  {
  }

  // ---------------------------------------------------------------- validation

  const NameRequired := "Scenario name is required"
  const NameTooLong := "Name must be 100 characters or less"
  const DescriptionTooLong := "Description must be 500 characters or less"
  const TargetServiceRequired := "Target service is required"
  const EnvironmentRequired := "Environment is required"
  const CronRequired := "Cron expression is required for scheduled scenarios"
  const StepsRequired := "At least one step is required"

  /** `validateField`: the message for a bad value, `None` for a good one or an unchecked field. */
  function ValidateField(v: FieldValue, scheduleType: ScheduleType): Option<string> {
    match v
    case NameValue(x) =>
      if x == "" || Trim(x) == "" then Some(NameRequired)
      else if |x| > 100 then Some(NameTooLong)
      else None
    case DescriptionValue(x) => if |x| > 500 then Some(DescriptionTooLong) else None
    case TargetServiceValue(x) => if x == "" then Some(TargetServiceRequired) else None
    case EnvironmentValue(x) => if x == "" then Some(EnvironmentRequired) else None
    case CronExpressionValue(x) =>
      if scheduleType == Cron && (x == "" || Trim(x) == "") then Some(CronRequired) else None
    case StepsValue(x) => if |x| == 0 then Some(StepsRequired) else None
    case _ => None
  }

  /** The error of one field of a whole form. */
  function FieldError(d: ScenarioFormData, f: Field): Option<string> {
    ValidateField(ValueOf(d, f), d.scheduleType)
  }

  /** The fields `validateForm` checks. */
  const CheckedFields: seq<Field> :=
    [NameField, DescriptionField, TargetServiceField, EnvironmentField, CronExpressionField, StepsField]

  /**
   * Each check in plain terms: a name must not be blank nor longer than 100 characters, a
   * description not longer than 500, service and environment must be chosen, a cron schedule
   * needs a non-blank expression, and there must be a step; the other fields are not checked.
   */
  lemma FieldErrorSpec(d: ScenarioFormData)
    ensures FieldError(d, NameField).Some? <==> IsBlank(d.name) || |d.name| > 100
    ensures FieldError(d, DescriptionField).Some? <==> |d.description| > 500
    ensures FieldError(d, TargetServiceField).Some? <==> d.targetService == ""
    ensures FieldError(d, EnvironmentField).Some? <==> d.environment == ""
    ensures FieldError(d, CronExpressionField).Some? <==> d.scheduleType == Cron && IsBlank(d.cronExpression)
    ensures FieldError(d, StepsField).Some? <==> |d.steps| == 0
    ensures forall f: Field :: FieldError(d, f).Some? ==> f in CheckedFields
  {
    TrimEmptyIffBlank(d.name);
    TrimEmptyIffBlank(d.cronExpression);
  }

  /** A form passes when no checked field has an error. */
  predicate FormValid(d: ScenarioFormData) {
    forall f: Field :: FieldError(d, f).None?
  }

  /** `errors` holds the message of exactly the failing fields among `done`. */
  ghost predicate Collected(errors: map<Field, string>, d: ScenarioFormData, done: set<Field>) {
    (forall f: Field :: f in errors <==> f in done && FieldError(d, f).Some?)
    && (forall f | f in errors :: errors[f] == FieldError(d, f).value)
  }

  /** One check of `validateForm`: `const e = validateField(...); if (e) newErrors[f] = e`. */
  method Check(errors: map<Field, string>, d: ScenarioFormData, f: Field, ghost done: set<Field>)
    returns (r: map<Field, string>)
    requires Collected(errors, d, done)
    ensures Collected(r, d, done + {f})
  {
    var e := ValidateField(ValueOf(d, f), d.scheduleType);
    r := if e.Some? then errors[f := e.value] else errors;
  }

  /** `validateForm`: collect the message of every failing field; pass when there is none. */
  method ValidateForm(d: ScenarioFormData) returns (ok: bool, errors: map<Field, string>)
    ensures forall f: Field :: f in errors <==> FieldError(d, f).Some?
    ensures forall f | f in errors :: errors[f] == FieldError(d, f).value
    ensures ok <==> |errors| == 0
    ensures ok <==> FormValid(d)
  {
    errors := map[];
    errors := Check(errors, d, NameField, {});
    errors := Check(errors, d, DescriptionField, {NameField});
    errors := Check(errors, d, TargetServiceField, {NameField, DescriptionField});
    errors := Check(errors, d, EnvironmentField, {NameField, DescriptionField, TargetServiceField});
    errors := Check(errors, d, CronExpressionField, {NameField, DescriptionField, TargetServiceField, EnvironmentField});
    errors := Check(errors, d, StepsField,
      {NameField, DescriptionField, TargetServiceField, EnvironmentField, CronExpressionField});
    FieldErrorSpec(d);
    ok := |errors| == 0;
    if !ok {
      var f :| f in errors;
      assert !FormValid(d);
    } else {
      assert forall f: Field :: f !in errors;
    }
  }

  /** The blank form fails on exactly the name, the service and the environment. */
  lemma BlankFormErrors()
    ensures var d := InitialFormData(None);
      (forall f: Field :: FieldError(d, f).Some? <==> f == NameField || f == TargetServiceField || f == EnvironmentField)
      && !FormValid(d)
  {
    var d := InitialFormData(None);
    assert FieldError(d, NameField).Some?;
    assert Trim("") == "";
  }

  /**
   * Changing a field leaves the errors of the other fields as they were, with one exception:
   * the cron check also reads the schedule type.
   */
  lemma FieldErrorLocal(d: ScenarioFormData, v: FieldValue, f: Field)
    requires f != FieldOf(v) && (f == CronExpressionField ==> FieldOf(v) != ScheduleTypeField)
    ensures FieldError(WithField(d, v), f) == FieldError(d, f)
  {
    WithFieldSpec(d, v, f);
  }

  /** Switching to manual scheduling clears a cron error, which a shown message does not follow. */
  lemma ManualClearsCronError(d: ScenarioFormData)
    requires d.scheduleType == Cron && d.cronExpression == ""
    ensures FieldError(d, CronExpressionField).Some?
    ensures FieldError(WithField(d, ScheduleTypeValue(Manual)), CronExpressionField).None?
  {
  }

  /** The error to show for a field: its stored message, if any. */
  function Shown(errors: map<Field, Option<string>>, f: Field): Option<string> {
    if f in errors then errors[f] else None
  }

  /** The form's state. */
  class ScenarioFormState {
    var formData: ScenarioFormData
    var errors: map<Field, Option<string>>
    var touched: set<Field>

    /**
     * Every touched field other than the cron expression shows its current error. (The cron
     * message is not re-checked when only the schedule type changes.)
     */
    ghost predicate Valid()
      reads this
    {
      forall f | f in touched && f != CronExpressionField :: Shown(errors, f) == FieldError(formData, f)
    }

    constructor(seed: Option<FormSeed>)
      ensures Valid()
      ensures formData == InitialFormData(seed) && errors == map[] && touched == {}
    {
      formData := InitialFormData(seed);
      errors := map[];
      touched := {};
    }

    /** `handleBlur`: mark the field touched and show its current error. */
    method HandleBlur(f: Field)
      requires Valid()
      modifies this
      ensures Valid()
      ensures touched == old(touched) + {f}
      ensures errors == old(errors)[f := FieldError(formData, f)]
      ensures formData == old(formData)
    {
      touched := touched + {f};
      errors := errors[f := FieldError(formData, f)];
    }

    /** `updateField`: store the value; re-check the field only if it was touched before. */
    method UpdateField(v: FieldValue)
      requires Valid()
      modifies this
      ensures Valid()
      ensures formData == WithField(old(formData), v)
      ensures errors == if FieldOf(v) in old(touched) then old(errors)[FieldOf(v) := ValidateField(v, old(formData).scheduleType)]
                        else old(errors)
      ensures touched == old(touched)
    {
      var f := FieldOf(v);
      var scheduleBefore := formData.scheduleType;
      ghost var before := formData;
      formData := WithField(formData, v);
      if f in touched {
        errors := errors[f := ValidateField(v, scheduleBefore)];
      }
      forall g | g in touched && g != CronExpressionField
        ensures Shown(errors, g) == FieldError(formData, g)
      {
        WithFieldSpec(before, v, g);
        if g != f {
          FieldErrorLocal(before, v, g);
        }
      }
    }

    /** `handleSubmit`: validate; pass the values on only when the form is valid. */
    method HandleSubmit() returns (submitted: Option<ScenarioFormData>)
      requires Valid()
      modifies this
      ensures Valid()
      ensures submitted.Some? <==> FormValid(formData)
      ensures submitted.Some? ==> submitted.value == formData
      ensures forall f: Field :: Shown(errors, f) == FieldError(formData, f)
      ensures formData == old(formData) && touched == old(touched)
    {
      var ok, found := ValidateForm(formData);
      errors := map f | f in found :: Some(found[f]);
      submitted := if ok then Some(formData) else None;
    }
  }
}
