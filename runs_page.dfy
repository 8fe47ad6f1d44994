/**
 * The runs list page: status, date-range and scenario filters over the run corpus,
 * pagination by ten with the reset to page 1, and the Previous/Next guards of the table.
 */
module RunsPage {
  import opened Wrappers
  import opened Seqs
  import opened Types
  import opened Pagination
  import RunsTable

  /** The date filter: no range picked, or a picked range that admits the time. */
  predicate InPickedRange(t: Timestamp, range: Option<DateRange>) {
    range.None? || InDateRange(t, range.value)
  }

  predicate RunMatches(run: Run, status: Choice<RunStatus>, range: Option<DateRange>, selection: seq<string>) {
    (status.All? || run.status == status.value)
    && InPickedRange(run.startedAt, range)
    && (|selection| == 0 || run.scenarioId in selection)
  }

  /** `filteredRuns`. */
  function FilterRuns(runs: seq<Run>, status: Choice<RunStatus>, range: Option<DateRange>, selection: seq<string>): seq<Run> {
    Filter(runs, (run: Run) => RunMatches(run, status, range, selection))
  }

  /**
   * The filtered runs keep the corpus order and are exactly the runs that match every filter.
   */
  lemma FilterRunsSpec(runs: seq<Run>, status: Choice<RunStatus>, range: Option<DateRange>, selection: seq<string>)
    ensures var r := FilterRuns(runs, status, range, selection);
      IsSubseq(r, runs)
      && (forall i | 0 <= i < |r| :: RunMatches(r[i], status, range, selection))
      && (forall j | 0 <= j < |runs| :: RunMatches(runs[j], status, range, selection) ==> runs[j] in r)
  {
    FilterIsSubseq(runs, (run: Run) => RunMatches(run, status, range, selection));
  }

  /** A date range without a start date filters nothing, whatever its end date. */
  lemma EndDateAloneIgnored(runs: seq<Run>, status: Choice<RunStatus>, to: Option<Timestamp>, selection: seq<string>)
    ensures FilterRuns(runs, status, Some(DateRange(None, to)), selection) == FilterRuns(runs, status, None, selection)
  {
    FilterExt(runs, (run: Run) => RunMatches(run, status, Some(DateRange(None, to)), selection),
                    (run: Run) => RunMatches(run, status, None, selection));
  }

  /** With all filters at their defaults every run is listed. */
  lemma DefaultFiltersKeepAll(runs: seq<Run>)
    ensures FilterRuns(runs, All, None, []) == runs
  {
    FilterAllPass(runs, (run: Run) => RunMatches(run, All, None, []));
  }

  /** Narrowing the selection to one scenario lists exactly that scenario's runs. */
  lemma SingleSelection(runs: seq<Run>, id: string)
    ensures FilterRuns(runs, All, None, [id]) == Filter(runs, (run: Run) => run.scenarioId == id)
  {
    FilterExt(runs, (run: Run) => RunMatches(run, All, None, [id]), (run: Run) => run.scenarioId == id);
  }

  /** `hasActiveFilters`: any date range counts, even one without a start date. */
  predicate HasActiveFilters(status: Choice<RunStatus>, range: Option<DateRange>, selection: seq<string>) {
    status != All || range != None || |selection| > 0
  }

  /** Without active filters the list is the whole corpus. */
  lemma InactiveFiltersKeepAll(runs: seq<Run>, status: Choice<RunStatus>, range: Option<DateRange>, selection: seq<string>)
    requires !HasActiveFilters(status, range, selection)
    ensures FilterRuns(runs, status, range, selection) == runs
  {
    DefaultFiltersKeepAll(runs);
  }

  /** The page's state. The run corpus is fixed; filters, page and the opened run change. */
  class RunsPageState {
    const runs: seq<Run>
    var statusFilter: Choice<RunStatus>
    var dateRange: Option<DateRange>
    var selectedScenarios: seq<string>
    var currentPage: int
    var selectedRun: Option<Run>
    var drawerOpen: bool

    ghost predicate Valid()
      reads this
    {
      currentPage >= 1
    }

    constructor(corpus: seq<Run>)
      ensures Valid()
      ensures runs == corpus && statusFilter == All && dateRange == None && selectedScenarios == []
      ensures currentPage == 1 && selectedRun == None && !drawerOpen
    {
      runs := corpus;
      statusFilter := All;
      dateRange := None;
      selectedScenarios := [];
      currentPage := 1;
      selectedRun := None;
      drawerOpen := false;
    }

    function Filtered(): seq<Run>
      reads this
    {
      FilterRuns(runs, statusFilter, dateRange, selectedScenarios)
    }

    function PageCount(): nat
      reads this
    {
      TotalPages(|Filtered()|)
    }

    /** `paginatedRuns`: at most ten runs, a contiguous slice of the filtered list. */
    function Paginated(): (r: seq<Run>)
      reads this
      requires Valid()
      ensures |r| <= ItemsPerPage
      ensures var lo := (currentPage - 1) * ItemsPerPage;
        lo <= |Filtered()| ==> r == Filtered()[lo..if lo + ItemsPerPage <= |Filtered()| then lo + ItemsPerPage else |Filtered()|]
      ensures 1 <= currentPage <= PageCount() ==> |r| > 0
    {
      PageIsSlice(Filtered(), currentPage);
      Page(Filtered(), currentPage)
    }

    function Active(): bool
      reads this
    {
      HasActiveFilters(statusFilter, dateRange, selectedScenarios)
    }

    /** A status change resets the page to 1; choosing the same status does not. */
    method SetStatusFilter(status: Choice<RunStatus>)
      requires Valid()
      modifies this
      ensures Valid()
      ensures statusFilter == status
      ensures currentPage == if status != old(statusFilter) then 1 else old(currentPage)
      ensures dateRange == old(dateRange) && selectedScenarios == old(selectedScenarios)
      ensures selectedRun == old(selectedRun) && drawerOpen == old(drawerOpen)
    {
      if status != statusFilter {
        currentPage := 1;
      }
      statusFilter := status;
    }

    /**
     * The picker hands over a new range object each time, so any range resets the page;
     * clearing an already empty range does not.
     */
    method SetDateRange(range: Option<DateRange>)
      requires Valid()
      modifies this
      ensures Valid()
      ensures dateRange == range
      ensures currentPage == if range.Some? || old(dateRange).Some? then 1 else old(currentPage)
      ensures statusFilter == old(statusFilter) && selectedScenarios == old(selectedScenarios)
      ensures selectedRun == old(selectedRun) && drawerOpen == old(drawerOpen)
    {
      if range.Some? || dateRange.Some? {
        currentPage := 1;
      }
      dateRange := range;
    }

    /** The multi-select hands over a new list each time, so every selection resets the page. */
    method SetSelectedScenarios(selection: seq<string>)
      requires Valid()
      modifies this
      ensures Valid()
      ensures selectedScenarios == selection && currentPage == 1
      ensures statusFilter == old(statusFilter) && dateRange == old(dateRange)
      ensures selectedRun == old(selectedRun) && drawerOpen == old(drawerOpen)
    {
      selectedScenarios := selection;
      currentPage := 1;
    }

    /** `clearFilters`: every filter back to its default, the whole corpus listed from page 1. */
    method ClearFilters()
      requires Valid()
      modifies this
      ensures Valid()
      ensures statusFilter == All && dateRange == None && selectedScenarios == [] && currentPage == 1
      ensures !Active() && Filtered() == runs
      ensures selectedRun == old(selectedRun) && drawerOpen == old(drawerOpen)
    {
      statusFilter := All;
      dateRange := None;
      selectedScenarios := [];
      currentPage := 1;
      DefaultFiltersKeepAll(runs);
    }

    /** The table's Previous button. */
    method Previous()
      requires Valid()
      modifies this
      ensures Valid()
      ensures currentPage == RunsTable.PreviousTarget(old(currentPage)).GetOr(old(currentPage))
      ensures statusFilter == old(statusFilter) && dateRange == old(dateRange) && selectedScenarios == old(selectedScenarios)
      ensures selectedRun == old(selectedRun) && drawerOpen == old(drawerOpen)
    {
      var target := RunsTable.PreviousTarget(currentPage);
      if target.Some? {
        currentPage := target.value;
      }
    }

    /** The table's Next button. */
    method Next()
      requires Valid()
      modifies this
      ensures Valid()
      ensures currentPage == RunsTable.NextTarget(old(currentPage), old(PageCount())).GetOr(old(currentPage))
      ensures old(currentPage) <= PageCount() ==> currentPage <= PageCount()
      ensures statusFilter == old(statusFilter) && dateRange == old(dateRange) && selectedScenarios == old(selectedScenarios)
      ensures selectedRun == old(selectedRun) && drawerOpen == old(drawerOpen)
    {
      var target := RunsTable.NextTarget(currentPage, PageCount());
      if target.Some? {
        currentPage := target.value;
      }
    }

    /** A click on a number of the page bar. */
    method GoTo(page: int)
      requires Valid() && page >= 1
      modifies this
      ensures Valid()
      ensures currentPage == page
      ensures statusFilter == old(statusFilter) && dateRange == old(dateRange) && selectedScenarios == old(selectedScenarios)
      ensures selectedRun == old(selectedRun) && drawerOpen == old(drawerOpen)
    {
      currentPage := page;
    }

    /** `handleSelectRun`: open the drawer on a run. */
    method SelectRun(run: Run)
      requires Valid()
      modifies this
      ensures Valid()
      ensures selectedRun == Some(run) && drawerOpen
      ensures statusFilter == old(statusFilter) && dateRange == old(dateRange) && selectedScenarios == old(selectedScenarios)
      ensures currentPage == old(currentPage)
    {
      selectedRun := Some(run);
      drawerOpen := true;
    }

    /** `handleCloseDrawer`: the drawer closes and the run stays selected. */
    method CloseDrawer()
      requires Valid()
      modifies this
      ensures Valid()
      ensures !drawerOpen && selectedRun == old(selectedRun)
      ensures statusFilter == old(statusFilter) && dateRange == old(dateRange) && selectedScenarios == old(selectedScenarios)
      ensures currentPage == old(currentPage)
    {
      drawerOpen := false;
    }
  }
}
