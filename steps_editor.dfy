/**
 * The scenario steps editor: add, remove, move and retype steps. Moving and retyping work on
 * a copy of the step list, as the editor does.
 */
module StepsEditor {
  import opened Wrappers
  import opened Text
  import opened Types
  import MockScenarios

  /** `getDefaultLabel`: the caption a step of each type starts with. */
  function DefaultLabel(t: StepType): string {
    match t
    case InjectFault => "Inject fault"
    case Wait => "Wait"
    case IncreaseIntensity => "Increase intensity"
    case Recover => "Recover"
    case Validate => "Validate"
  }

  /** The editor's captions are the ones of the step-type catalogue, and differ by type. */
  lemma DefaultLabelsMatchCatalogue()
    ensures forall k | 0 <= k < |MockScenarios.StepTypes| :: MockScenarios.StepTypes[k].1 == DefaultLabel(MockScenarios.StepTypes[k].0)
    ensures forall t: StepType, u: StepType :: DefaultLabel(t) == DefaultLabel(u) ==> t == u
  {
    forall t: StepType, u: StepType | DefaultLabel(t) == DefaultLabel(u) ensures t == u {
      assert |DefaultLabel(t)| == |DefaultLabel(u)|;
      assert DefaultLabel(t)[0] == DefaultLabel(u)[0];
    }
  }

  /** The step `addStep` appends: an "Inject fault" step with no settings. */
  function NewStep(now: Timestamp): ScenarioStep {
    ScenarioStep("step-" + IntToString(now), InjectFault, DefaultLabel(InjectFault), map[])
  }

  /** `addStep`. */
  function AddStep(steps: seq<ScenarioStep>, now: Timestamp): (r: seq<ScenarioStep>)
    ensures |r| == |steps| + 1 && r[..|steps|] == steps
    ensures r[|steps|].kind == InjectFault && r[|steps|].caption == "Inject fault" && r[|steps|].config == map[]
  {
    steps + [NewStep(now)]
  }

  /** `removeStep`: keep the steps at every other position. */
  function RemoveStep(steps: seq<ScenarioStep>, index: int): (r: seq<ScenarioStep>)
    decreases |steps|
  {
    if |steps| == 0 then []
    else (if index == 0 then [] else [steps[0]]) + RemoveStep(steps[1..], index - 1)
  }

  /**
   * Removing drops exactly the step at the position and keeps the rest in order; a position
   * outside the list changes nothing; removing the step just added restores the list.
   */
  lemma {:induction false} RemoveStepSpec(steps: seq<ScenarioStep>, index: int)
    ensures 0 <= index < |steps| ==> RemoveStep(steps, index) == steps[..index] + steps[index + 1..]
    ensures !(0 <= index < |steps|) ==> RemoveStep(steps, index) == steps
    decreases |steps|
  {
    if |steps| > 0 {
      RemoveStepSpec(steps[1..], index - 1);
      if 0 < index < |steps| {
        assert steps[1..][..index - 1] == steps[1..index];
        assert steps[1..][index..] == steps[index + 1..];
        assert [steps[0]] + steps[1..index] == steps[..index];
      } else if index == 0 {
        assert steps[1..] == steps[..0] + steps[1..];
      }
    }
  }

  lemma AddThenRemove(steps: seq<ScenarioStep>, now: Timestamp)
    ensures RemoveStep(AddStep(steps, now), |steps|) == steps
  {
    RemoveStepSpec(AddStep(steps, now), |steps|);
  }

  // ---------------------------------------------------------------- moving

  /** `splice(i, 1)`. */
  function SpliceOut<T>(s: seq<T>, i: nat): seq<T>
    requires i < |s|
  {
    s[..i] + s[i + 1..]
  }

  /** `splice(j, 0, x)`. */
  function SpliceIn<T>(s: seq<T>, j: nat, x: T): seq<T>
    requires j <= |s|
  {
    s[..j] + [x] + s[j..]
  }

  /** The list after taking out the element at `i` and putting it back at `j`. */
  function Moved<T>(s: seq<T>, i: nat, j: nat): seq<T>
    requires i < |s| && j < |s|
  {
    SpliceIn(SpliceOut(s, i), j, s[i])
  }

  /** A target position: one up or one down. */
  function Target(index: int, up: bool): int {
    if up then index - 1 else index + 1
  }

  /**
   * `moveStep`: `None` when the target leaves the list (nothing is reported), otherwise the
   * copied list with the step taken out and put back at the target.
   */
  method MoveStep(steps: seq<ScenarioStep>, index: nat, up: bool) returns (r: Option<seq<ScenarioStep>>)
    requires index < |steps|
    ensures var j := Target(index, up);
      if j < 0 || j >= |steps| then r == None else r == Some(Moved(steps, index, j))
  {
    var j := Target(index, up);
    if j < 0 || j >= |steps| {
      return None;
    }
    var a := new ScenarioStep[|steps|](k requires 0 <= k < |steps| => steps[k]);
    assert a[..] == steps;
    MoveInPlace(a, index, j);
    r := Some(a[..]);
  }

  /** Position by position: the taken element lands at `j`, those between shift one towards `i`. */
  lemma MovedIndex<T>(s: seq<T>, i: nat, j: nat)
    requires i < |s| && j < |s|
    ensures |Moved(s, i, j)| == |s|
    ensures forall m {:trigger Moved(s, i, j)[m]} | 0 <= m < |s| ::
      Moved(s, i, j)[m] == if m == j then s[i] else if i <= m < j then s[m + 1] else if j < m <= i then s[m - 1] else s[m]
  {
    var r := Moved(s, i, j);
    var o := SpliceOut(s, i);
    forall m | 0 <= m < |s|
      ensures r[m] == if m == j then s[i] else if i <= m < j then s[m + 1] else if j < m <= i then s[m - 1] else s[m]
    {
      if m < j {
        assert r[m] == o[m];
      } else if m > j {
        assert r[m] == o[m - 1];
      }
    }
  }

  /** The two splices on an array of fixed length: shift the elements between, drop the taken one in. */
  method MoveInPlace<T>(a: array<T>, i: nat, j: nat)
    requires i < a.Length && j < a.Length
    modifies a
    ensures a[..] == Moved(old(a[..]), i, j)
  {
    ghost var s := a[..];
    var taken := a[i];
    if i <= j {
      ShiftTowardsStart(a, i, j);
    } else {
      ShiftTowardsEnd(a, j, i);
    }
    ghost var shifted := a[..];
    assert forall m {:trigger shifted[m]} | 0 <= m < |s| ::
      shifted[m] == (if i <= m < j then s[m + 1] else if j < m <= i then s[m - 1] else s[m]);
    a[j] := taken;
    assert a[..] == shifted[j := s[i]];
    PutBack(s, shifted, i, j);
  }

  /** The shifted list with the taken element dropped in at `j` is the moved list. */
  lemma PutBack<T>(s: seq<T>, shifted: seq<T>, i: nat, j: nat)
    requires i < |s| && j < |s| && |shifted| == |s|
    requires forall m {:trigger shifted[m]} | 0 <= m < |s| ::
      shifted[m] == (if i <= m < j then s[m + 1] else if j < m <= i then s[m - 1] else s[m])
    ensures shifted[j := s[i]] == Moved(s, i, j)
  {
    MovedIndex(s, i, j);
    var r := shifted[j := s[i]];
    forall m | 0 <= m < |s| ensures r[m] == Moved(s, i, j)[m] {
    }
  }

  /** Each element at positions `i+1 .. j` moves one place towards the start. */
  method ShiftTowardsStart<T>(a: array<T>, i: nat, j: nat)
    requires i <= j < a.Length
    modifies a
    ensures forall m {:trigger a[m]} | 0 <= m < a.Length :: a[m] == if i <= m < j then old(a[..])[m + 1] else old(a[..])[m]
  {
    ghost var s := a[..];
    var k := i;
    while k < j
      invariant i <= k <= j
      invariant forall m {:trigger a[m]} | 0 <= m < a.Length :: a[m] == if i <= m < k then s[m + 1] else s[m]
    {
      a[k] := a[k + 1];
      k := k + 1;
    }
  }

  /** Each element at positions `j .. i-1` moves one place towards the end. */
  method ShiftTowardsEnd<T>(a: array<T>, j: nat, i: nat)
    requires j < i < a.Length
    modifies a
    ensures forall m {:trigger a[m]} | 0 <= m < a.Length :: a[m] == if j < m <= i then old(a[..])[m - 1] else old(a[..])[m]
  {
    ghost var s := a[..];
    var k := i;
    while k > j
      invariant j <= k <= i
      invariant forall m {:trigger a[m]} | 0 <= m < a.Length :: a[m] == if k < m <= i then s[m - 1] else s[m]
    {
      a[k] := a[k - 1];
      k := k - 1;
    }
  }

  /** Between neighbours, taking out and putting back is a swap, so the list keeps its steps. */
  lemma MovedNeighboursSwap<T>(s: seq<T>, i: nat, j: nat)
    requires i < |s| && j < |s| && (j == i + 1 || i == j + 1)
    ensures Moved(s, i, j) == s[i := s[j]][j := s[i]]
    ensures |Moved(s, i, j)| == |s| && multiset(Moved(s, i, j)) == multiset(s)
  {
    var lhs := Moved(s, i, j);
    var rhs := s[i := s[j]][j := s[i]];
    assert |lhs| == |rhs|;
    forall m | 0 <= m < |lhs| ensures lhs[m] == rhs[m] {
      if m < i && m < j {
      } else if m > i && m > j {
        assert lhs[m] == s[m];
      }
    }
    assert multiset(rhs) == multiset(s) by {
      assert rhs == s[i := s[j]][j := s[i]];
    }
  }

  /** Moving a step up and then moving it back down restores the list. */
  lemma UpThenDownRestores<T>(s: seq<T>, i: nat)
    requires 1 <= i < |s|
    ensures Moved(Moved(s, i, i - 1), i - 1, i) == s
  {
    var t := Moved(s, i, i - 1);
    MovedIndex(s, i, i - 1);
    MovedIndex(t, i - 1, i);
    var u := Moved(t, i - 1, i);
    forall m | 0 <= m < |s| ensures u[m] == s[m] {
    }
  }

  // ---------------------------------------------------------------- retyping

  /** The retyped step: new type, the type's default caption, same id and settings. */
  function Retyped(step: ScenarioStep, t: StepType): (r: ScenarioStep)
    ensures r.id == step.id && r.config == step.config && r.kind == t
    ensures r.caption == DefaultLabel(t)
  {
    step.(kind := t, caption := DefaultLabel(t))
  }

  /** `updateStepType`: copy the list and overwrite the one position. */
  method UpdateStepType(steps: seq<ScenarioStep>, index: nat, t: StepType) returns (r: seq<ScenarioStep>)
    requires index < |steps|
    ensures |r| == |steps| && r[index] == Retyped(steps[index], t)
    ensures forall k | 0 <= k < |steps| && k != index :: r[k] == steps[k]
  {
    var a := new ScenarioStep[|steps|](k requires 0 <= k < |steps| => steps[k]);
    a[index] := Retyped(a[index], t);
    r := a[..];
  }

  /** Retyping twice keeps only the last type, and retyping to the same type changes nothing more. */
  lemma RetypedLastWins(step: ScenarioStep, t: StepType, u: StepType)
    ensures Retyped(Retyped(step, t), u) == Retyped(step, u)
    ensures Retyped(Retyped(step, t), t) == Retyped(step, t)
  {
  }
}
