/**
 * The scenario multi-select of the runs filter bar: toggling and removing ids, the selected
 * scenarios in catalogue order, and the trigger's label.
 */
module ScenarioMultiSelect {
  import opened Text
  import opened Seqs
  import opened Types
  import MockRuns

  /** `handleSelect`: a selected id is removed everywhere, a new one is appended. */
  function HandleSelect(selected: seq<string>, id: string): seq<string> {
    if id in selected then Filter(selected, (x: string) => x != id) else selected + [id]
  }

  /** `handleRemove`. */
  function HandleRemove(selected: seq<string>, id: string): seq<string> {
    Filter(selected, (x: string) => x != id)
  }

  /**
   * Selecting a new id appends it; selecting a selected id drops every copy of it and keeps
   * the others in order; selecting a new id twice restores the selection.
   */
  lemma HandleSelectSpec(selected: seq<string>, id: string)
    ensures id !in selected ==> HandleSelect(selected, id) == selected + [id]
    ensures id in selected ==> id !in HandleSelect(selected, id) && IsSubseq(HandleSelect(selected, id), selected)
    ensures id in selected ==> forall x | x != id :: x in HandleSelect(selected, id) <==> x in selected
    ensures id !in selected ==> HandleSelect(HandleSelect(selected, id), id) == selected
  {
    var keep := (x: string) => x != id;
    if id in selected {
      FilterIsSubseq(selected, keep);
      var r := Filter(selected, keep);
      forall x | x != id && x in selected ensures x in r {
        var k :| 0 <= k < |selected| && selected[k] == x;
      }
    } else {
      FilterAppend(selected, [id], keep);
      FilterAllPass(selected, keep);
      assert Filter([id], keep) == [];
    }
  }

  /** Removing drops every copy of the id and keeps the rest; a missing id changes nothing. */
  lemma HandleRemoveSpec(selected: seq<string>, id: string)
    ensures id !in HandleRemove(selected, id) && IsSubseq(HandleRemove(selected, id), selected)
    ensures id !in selected ==> HandleRemove(selected, id) == selected
  {
    FilterIsSubseq(selected, (x: string) => x != id);
    if id !in selected {
      FilterAllPass(selected, (x: string) => x != id);
    }
  }

  /** `selectedScenarios`: the catalogue, in its order, narrowed to the selected ids. */
  function SelectedScenarios(catalogue: seq<Scenario>, selected: seq<string>): seq<Scenario> {
    Filter(catalogue, (s: Scenario) => s.id in selected)
  }

  /** The trigger's text. With one id it shows that scenario's name, or nothing for an unknown id. */
  function TriggerLabel(catalogue: seq<Scenario>, selected: seq<string>): string {
    if |selected| == 0 then "All Scenarios"
    else if |selected| == 1 then
      var chosen := SelectedScenarios(catalogue, selected);
      if |chosen| > 0 then chosen[0].name else ""
    else IntToString(|selected|) + " selected"
  }

  predicate DistinctIds(catalogue: seq<Scenario>) {
    forall i, j | 0 <= i < j < |catalogue| :: catalogue[i].id != catalogue[j].id
  }

  /**
   * Over a catalogue with distinct ids, one selected scenario is shown by its name; two or
   * more by their count.
   */
  lemma TriggerLabelSpec(catalogue: seq<Scenario>, selected: seq<string>, k: nat)
    requires DistinctIds(catalogue) && k < |catalogue|
    ensures TriggerLabel(catalogue, [catalogue[k].id]) == catalogue[k].name
    ensures |selected| >= 2 ==> TriggerLabel(catalogue, selected) == IntToString(|selected|) + " selected"
  {
    FilterSingle(catalogue, (s: Scenario) => s.id in [catalogue[k].id], k);
  }

  /** The run corpus's six scenarios have distinct ids. */
  lemma CatalogueIdsDistinct()
    ensures DistinctIds(MockRuns.Scenarios)
  {
    var c := MockRuns.Scenarios;
    forall i, j | 0 <= i < j < |c| ensures c[i].id != c[j].id {
      assert c[i].id[5] != c[j].id[5];
    }
  }
}
