/** The action buttons on the scenario detail header. */
module ScenarioHeader {
  import opened Types
  import ScenariosPage

  /** Edit, Publish New Version and Run Now share one gate: enabled only when not archived. */
  function ActionsEnabled(s: ScenarioDetail): bool {
    s.status != Archived
  }

  /** The buttons are live exactly for active scenarios, and archiving flips them. */
  lemma ArchiveGatesActions(s: ScenarioDetail)
    ensures ActionsEnabled(s) <==> s.status == Active
    ensures ActionsEnabled(ScenariosPage.ToggleArchived(s)) == !ActionsEnabled(s)
  {
  }
}
