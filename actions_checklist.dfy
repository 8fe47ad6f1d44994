/**
 * The recommended-actions checklist of the incident detail page: which action indices are
 * ticked, and the progress bar computed from them.
 */
module ActionsChecklist {

  /** The set after one toggle of `index`. */
  function Toggled(checked: set<nat>, index: nat): set<nat> {
    if index in checked then checked - {index} else checked + {index}
  }

  /** A toggle flips the index, touches nothing else, and a second toggle undoes it. */
  lemma ToggledSpec(checked: set<nat>, index: nat)
    ensures index in Toggled(checked, index) <==> index !in checked
    ensures forall j | j != index :: j in Toggled(checked, index) <==> j in checked
    ensures Toggled(Toggled(checked, index), index) == checked
    ensures |Toggled(checked, index)| == if index in checked then |checked| - 1 else |checked| + 1
  {
  }

  /** The indices `0 .. total - 1`. */
  function Indices(total: nat): (r: set<nat>)
    ensures forall i: nat :: i in r <==> i < total
    ensures |r| == total
  {
    if total == 0 then {} else
      var r := Indices(total - 1) + {total - 1};
      assert total - 1 !in Indices(total - 1);
      r
  }

  /** A set inside a finite one is no larger. */
  lemma {:induction false} SubsetNoLarger(a: set<nat>, b: set<nat>)
    requires a <= b
    ensures |a| <= |b|
    decreases |b|
  {
    if a != {} {
      var x :| x in a;
      SubsetNoLarger(a - {x}, b - {x});
    }
  }

  /** `completed / total * 100` over the reals. */
  function Percent(completed: nat, total: nat): real
    requires total > 0
  {
    (completed as real / total as real) * 100.0
  }

  /** Within 0 .. 100; 100 exactly when all are done, 0 exactly when none is. */
  lemma PercentBounds(completed: nat, total: nat)
    requires 0 < total && completed <= total
    ensures 0.0 <= Percent(completed, total) <= 100.0
    ensures Percent(completed, total) == 100.0 <==> completed == total
    ensures Percent(completed, total) == 0.0 <==> completed == 0
  {
    var q := completed as real / total as real;
    assert q <= 1.0 by {
      assert q * total as real == completed as real;
    }
    if q == 1.0 {
      assert completed as real == total as real;
    }
  }

  class ChecklistState {
    /** `incident.recommendedActions.length`, fixed for the component's life. */
    const total: nat
    var checkedItems: set<nat>

    /** Only indices of listed actions are ever ticked. */
    predicate Valid()
      reads this
    {
      checkedItems <= Indices(total)
    }

    constructor(total: nat)
      ensures this.total == total && checkedItems == {} && Valid()
    {
      this.total := total;
      checkedItems := {};
    }

    /** `toggleItem`: copy the set, add or delete the index, store the copy. */
    method ToggleItem(index: nat)
      requires Valid() && index < total
      modifies this
      ensures checkedItems == Toggled(old(checkedItems), index)
      ensures Valid()
    {
      var newChecked := checkedItems;
      if index in newChecked {
        newChecked := newChecked - {index};
      } else {
        newChecked := newChecked + {index};
      }
      checkedItems := newChecked;
    }

    /** `completedCount`: never more than the number of actions. */
    function CompletedCount(): (n: nat)
      reads this
      ensures Valid() ==> n <= total
    {
      if Valid() then SubsetNoLarger(checkedItems, Indices(total)); |checkedItems|
      else |checkedItems|
    }

    /** `progressPercent`, in exact arithmetic: always within 0 .. 100. */
    function ProgressPercent(): (p: real)
      reads this
      ensures Valid() ==> 0.0 <= p <= 100.0
    {
      if total > 0 then
        var n := CompletedCount();
        if Valid() then PercentBounds(n, total); Percent(n, total) else Percent(n, total)
      else 0.0
    }

    /** The bar is full exactly when every listed action is ticked, and empty when none is. */
    lemma ProgressExtremes()
      requires Valid() && total > 0
      ensures ProgressPercent() == 100.0 <==> checkedItems == Indices(total)
      ensures ProgressPercent() == 0.0 <==> checkedItems == {}
    {
      PercentBounds(CompletedCount(), total);
      if checkedItems != Indices(total) {
        var x :| x in Indices(total) && x !in checkedItems;
        SubsetNoLarger(checkedItems, Indices(total) - {x});
      } else {
        assert CompletedCount() == total;
      }
    }
  }
}
