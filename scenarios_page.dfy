/**
 * The scenarios list page: the filter pipeline, pagination with its reset, the record
 * actions (duplicate, archive/restore, update, create) and the page-number bar.
 */
module ScenariosPage {
  import opened Wrappers
  import opened Text
  import opened Seqs
  import opened Types
  import opened Pagination
  import MockScenarios

  /** The service filter's "no filter" value. */
  const AllServices := "all"

  predicate SearchMatches(s: ScenarioDetail, query: string) {
    query == ""
    || ContainsIgnoringCase(s.name, query) || ContainsIgnoringCase(s.description, query)
    || ContainsIgnoringCase(s.targetService, query) || ContainsIgnoringCase(s.owner, query)
  }

  predicate ScenarioMatches(s: ScenarioDetail, query: string, typeFilter: Choice<FailureType>,
                            serviceFilter: string, statusFilter: Choice<ScenarioStatus>) {
    SearchMatches(s, query)
    && (typeFilter.All? || s.kind == typeFilter.value)
    && (serviceFilter == AllServices || s.targetService == serviceFilter)
    && (statusFilter.All? || s.status == statusFilter.value)
  }

  /** `filteredScenarios`. */
  function FilterScenarios(scenarios: seq<ScenarioDetail>, query: string, typeFilter: Choice<FailureType>,
                           serviceFilter: string, statusFilter: Choice<ScenarioStatus>): seq<ScenarioDetail> {
    Filter(scenarios, (s: ScenarioDetail) => ScenarioMatches(s, query, typeFilter, serviceFilter, statusFilter))
  }

  /**
   * The filtered list keeps the order of the list and holds exactly the scenarios that match
   * the search and every filter that is not "all".
   */
  lemma FilterScenariosSpec(scenarios: seq<ScenarioDetail>, query: string, typeFilter: Choice<FailureType>,
                            serviceFilter: string, statusFilter: Choice<ScenarioStatus>)
    ensures var r := FilterScenarios(scenarios, query, typeFilter, serviceFilter, statusFilter);
      IsSubseq(r, scenarios)
      && (forall i | 0 <= i < |r| :: ScenarioMatches(r[i], query, typeFilter, serviceFilter, statusFilter))
      && (forall j | 0 <= j < |scenarios| ::
            ScenarioMatches(scenarios[j], query, typeFilter, serviceFilter, statusFilter) ==> scenarios[j] in r)
  {
    FilterIsSubseq(scenarios, (s: ScenarioDetail) => ScenarioMatches(s, query, typeFilter, serviceFilter, statusFilter));
  }

  /** With the default filters and no search, every scenario is listed. */
  lemma DefaultFiltersKeepAll(scenarios: seq<ScenarioDetail>)
    ensures FilterScenarios(scenarios, "", All, AllServices, All) == scenarios
  {
    FilterAllPass(scenarios, (s: ScenarioDetail) => ScenarioMatches(s, "", All, AllServices, All));
  }

  /** The search is case-insensitive: lower-casing the query changes nothing. */
  lemma SearchIgnoresCase(scenarios: seq<ScenarioDetail>, query: string, typeFilter: Choice<FailureType>,
                          serviceFilter: string, statusFilter: Choice<ScenarioStatus>)
    ensures FilterScenarios(scenarios, Lower(query), typeFilter, serviceFilter, statusFilter)
         == FilterScenarios(scenarios, query, typeFilter, serviceFilter, statusFilter)
  {
    forall i | 0 <= i < |scenarios|
      ensures ScenarioMatches(scenarios[i], Lower(query), typeFilter, serviceFilter, statusFilter)
           == ScenarioMatches(scenarios[i], query, typeFilter, serviceFilter, statusFilter)
    {
      var s := scenarios[i];
      QueryCaseIrrelevant(s.name, query);
      QueryCaseIrrelevant(s.description, query);
      QueryCaseIrrelevant(s.targetService, query);
      QueryCaseIrrelevant(s.owner, query);
      if query == "" {
        assert Lower(query) == "";
      }
    }
    FilterExt(scenarios,
      (s: ScenarioDetail) => ScenarioMatches(s, Lower(query), typeFilter, serviceFilter, statusFilter),
      (s: ScenarioDetail) => ScenarioMatches(s, query, typeFilter, serviceFilter, statusFilter));
  }

  // ---------------------------------------------------------------- record actions

  /** `scenario-${Date.now()}`, the id of a new or duplicated scenario. */
  function ClockId(now: Timestamp): string {
    "scenario-" + IntToString(now)
  }

  function Duplicated(s: ScenarioDetail, now: Timestamp): (d: ScenarioDetail)
  {
    s.(id := ClockId(now), name := s.name + " (Copy)", lastUpdated := now)
  }

  /**
   * A duplicate differs from the original only in id, name and timestamp; its name is the
   * original's with " (Copy)" appended; and for any clock past 1970-01-01T00:00:01 its id is
   * none of the corpus ids, whose number part has three digits.
   */
  lemma DuplicatedSpec(s: ScenarioDetail, now: Timestamp, k: nat)
    requires now >= 1000 && k < 999
    ensures var d := Duplicated(s, now);
      d.(id := s.id, name := s.name, lastUpdated := s.lastUpdated) == s
      && d.name[..|s.name|] == s.name && d.name[|s.name|..] == " (Copy)"
      && d.lastUpdated == now
      && d.id != MockScenarios.ScenarioIdOf(k)
  {
    var d := Duplicated(s, now);
    ToDecimalLength(now);
    ToDecimalLength(k + 1);
    var corpusId := MockScenarios.ScenarioIdOf(k);
    assert corpusId == "scenario-" + Padded(k + 1, 3);
    assert |Padded(k + 1, 3)| == 3;
    assert |d.id| == 9 + |ToDecimal(now)| >= 13;
  }

  function ToggleArchived(s: ScenarioDetail): ScenarioDetail {
    s.(status := if s.status == Archived then Active else Archived)
  }

  /** `handleArchiveScenario`: flip the status of the records with the id. */
  function ArchiveById(scenarios: seq<ScenarioDetail>, id: string): (r: seq<ScenarioDetail>)
  {
    MapWhere(scenarios, (s: ScenarioDetail) => s.id == id, ToggleArchived)
  }

  /**
   * Archiving flips active and archived on the records with the id and on nothing else, and
   * archiving twice restores the list.
   */
  lemma ArchiveSpec(scenarios: seq<ScenarioDetail>, id: string)
    ensures var r := ArchiveById(scenarios, id);
      |r| == |scenarios|
      && (forall i | 0 <= i < |r| :: scenarios[i].id != id ==> r[i] == scenarios[i])
      && (forall i | 0 <= i < |r| :: scenarios[i].id == id ==>
            r[i].(status := scenarios[i].status) == scenarios[i] && r[i].status != scenarios[i].status)
    ensures ArchiveById(ArchiveById(scenarios, id), id) == scenarios
  {
  }

  /** The record `{ ...s, ...data, safetyConfig, lastUpdated }` of an edit-mode submit. */
  function Updated(s: ScenarioDetail, data: ScenarioFormData, now: Timestamp): ScenarioDetail {
    s.(name := data.name, description := data.description, targetService := data.targetService,
       environment := data.environment, kind := data.kind, intensity := data.intensity,
       duration := data.duration, scheduleType := data.scheduleType,
       cronExpression := Some(data.cronExpression),
       safetyConfig := SafetyConfig(data.maxErrorRate, data.autoStopEnabled),
       steps := data.steps, lastUpdated := now)
  }

  /**
   * An update takes every form field from the form, rebuilds the safety settings from it and
   * keeps id, version, owner and status.
   */
  lemma UpdatedSpec(s: ScenarioDetail, data: ScenarioFormData, now: Timestamp)
    ensures var u := Updated(s, data, now);
      u.id == s.id && u.version == s.version && u.owner == s.owner && u.status == s.status
      && u.safetyConfig.maxErrorRate == data.maxErrorRate && u.safetyConfig.autoStopEnabled == data.autoStopEnabled
      && u.name == data.name && u.description == data.description
      && u.targetService == data.targetService && u.environment == data.environment
      && u.kind == data.kind && u.intensity == data.intensity && u.duration == data.duration
      && u.scheduleType == data.scheduleType && u.cronExpression == Some(data.cronExpression)
      && u.steps == data.steps && u.lastUpdated == now
      && Updated(u, data, now) == u
      && u == Created(data, now).(id := s.id, version := s.version, owner := s.owner, status := s.status)
  {
  }

  const CreatedVersion := "v1.0.0"
  const CreatedOwner := "current-user@example.com"

  /** The record of a create-mode submit: the form's fields, first version, active, owned by the current user. */
  function Created(data: ScenarioFormData, now: Timestamp): ScenarioDetail {
    ScenarioDetail(ClockId(now), data.name, data.description, data.kind, data.targetService,
      CreatedVersion, now, CreatedOwner, Active, data.environment, data.intensity, data.duration,
      data.scheduleType, Some(data.cronExpression),
      SafetyConfig(data.maxErrorRate, data.autoStopEnabled), data.steps)
  }

  /** Updating a created record with the same form only moves its timestamp. */
  lemma CreatedThenUpdated(data: ScenarioFormData, now: Timestamp, later: Timestamp)
    ensures Updated(Created(data, now), data, later) == Created(data, now).(lastUpdated := later)
  {
  }

  /** The Previous button: one page back, never below page 1. */
  function PreviousPage(page: int): int {
    if 1 > page - 1 then 1 else page - 1
  }

  /** The Next button: one page on, never past the last page. */
  function NextPage(page: int, totalPages: int): int {
    if totalPages < page + 1 then totalPages else page + 1
  }

  /** From a page in range, Previous and Next stay in range. */
  lemma PreviousNextInRange(page: int, totalPages: int)
    requires 1 <= page <= totalPages
    ensures 1 <= PreviousPage(page) <= totalPages && 1 <= NextPage(page, totalPages) <= totalPages
    ensures PreviousPage(page) == page <==> page == 1
    ensures NextPage(page, totalPages) == page <==> page == totalPages
  {
  }

  // ---------------------------------------------------------------- page-number bar

  function Max(a: int, b: int): int { if a >= b then a else b }
  function Min(a: int, b: int): int { if a <= b then a else b }

  /** The bar `getPageNumbers` builds, in closed form. */
  function PageNumbersOf(totalPages: int, currentPage: int): seq<PageItem> {
    if totalPages <= 7 then Range(1, totalPages)
    else
      [Number(1)] + (if currentPage > 3 then [Ellipsis] else [])
      + Range(Max(2, currentPage - 1), Min(totalPages - 1, currentPage + 1))
      + (if currentPage < totalPages - 2 then [Ellipsis] else [])
      + [Number(totalPages)]
  }

  /** `getPageNumbers`: every page up to seven, otherwise first, window around current, last. */
  method GetPageNumbers(totalPages: int, currentPage: int) returns (pages: seq<PageItem>)
    ensures pages == PageNumbersOf(totalPages, currentPage)
  {
    if totalPages <= 7 {
      pages := AppendRange([], 1, totalPages);
    } else {
      pages := [Number(1)];
      if currentPage > 3 {
        pages := pages + [Ellipsis];
      }
      pages := AppendRange(pages, Max(2, currentPage - 1), Min(totalPages - 1, currentPage + 1));
      if currentPage < totalPages - 2 {
        pages := pages + [Ellipsis];
      }
      pages := pages + [Number(totalPages)];
    }
  }

  /**
   * Past seven pages the bar is well shaped, has at most seven entries, and numbers exactly
   * the first page, the last page and the pages next to the current one.
   */
  lemma PageNumbersShape(totalPages: int, currentPage: int, n: int)
    requires totalPages > 7
    ensures var items := PageNumbersOf(totalPages, currentPage);
      WindowShape(items, totalPages) && |items| <= 7
      && (Number(n) in items <==>
            n == 1 || n == totalPages || (2 <= n <= totalPages - 1 && currentPage - 1 <= n <= currentPage + 1))
  {
    var items := PageNumbersOf(totalPages, currentPage);
    var lo := Max(2, currentPage - 1);
    var hi := Min(totalPages - 1, currentPage + 1);
    var e1: seq<PageItem> := if currentPage > 3 then [Ellipsis] else [];
    var e2: seq<PageItem> := if currentPage < totalPages - 2 then [Ellipsis] else [];
    var mid := Range(lo, hi);
    assert items == [Number(1)] + e1 + mid + e2 + [Number(totalPages)];
    RangeContains(lo, hi, n);
    WindowPieces(totalPages, currentPage);
  }

  /**
   * A bar laid out as page 1, an optional ellipsis, the pages `lo..hi`, an optional ellipsis
   * and the last page is well shaped when each ellipsis stands for a gap.
   */
  lemma BarShape(items: seq<PageItem>, totalPages: int, lo: int, hi: int, a: nat, c: nat)
    requires 2 <= lo <= hi <= totalPages - 1
    requires 1 <= a <= 2 && (a == 2 <==> lo > 2)
    requires c <= 1 && (c == 1 <==> hi < totalPages - 1)
    requires |items| == a + (hi - lo + 1) + c + 1
    requires items[0] == Number(1) && items[|items| - 1] == Number(totalPages)
    requires a == 2 ==> items[1] == Ellipsis
    requires c == 1 ==> items[|items| - 2] == Ellipsis
    requires forall j | a <= j < a + (hi - lo + 1) :: items[j] == Number(lo + (j - a))
    ensures WindowShape(items, totalPages)
  {
    var b := a + (hi - lo + 1);
    assert items[a] == Number(lo) && items[b - 1] == Number(hi);
    forall i | 0 < i < |items| ensures Step(items[i - 1], items[i]) {
      if a < i < b {
        assert items[i - 1] == Number(lo + (i - 1 - a)) && items[i] == Number(lo + (i - a));
      }
    }
  }

  lemma WindowPieces(totalPages: int, currentPage: int)
    requires totalPages > 7
    ensures WindowShape(PageNumbersOf(totalPages, currentPage), totalPages)
  {
    var items := PageNumbersOf(totalPages, currentPage);
    var lo := Max(2, currentPage - 1);
    var hi := Min(totalPages - 1, currentPage + 1);
    var e1: seq<PageItem> := if currentPage > 3 then [Ellipsis] else [];
    var e2: seq<PageItem> := if currentPage < totalPages - 2 then [Ellipsis] else [];
    var mid := Range(lo, hi);
    assert items == [Number(1)] + e1 + mid + e2 + [Number(totalPages)];
    if lo <= hi {
      var a := 1 + |e1|;
      assert forall j | a <= j < a + |mid| :: items[j] == mid[j - a];
      BarShape(items, totalPages, lo, hi, a, |e2|);
    } else {
      assert items == [Number(1), Ellipsis, Number(totalPages)];
    }
  }

  /** Up to seven pages the bar lists every page, with no ellipsis. */
  lemma PageNumbersSmall(totalPages: int, currentPage: int)
    requires totalPages <= 7
    ensures PageNumbersOf(totalPages, currentPage) == Range(1, totalPages)
    ensures Ellipsis !in PageNumbersOf(totalPages, currentPage)
  {
    RangeContains(1, totalPages, 0);
  }

  // ---------------------------------------------------------------- page state

  /** The page's state: the list, the four filters, the current page and the record being edited. */
  class ScenariosPageState {
    var scenarios: seq<ScenarioDetail>
    var searchQuery: string
    var typeFilter: Choice<FailureType>
    var serviceFilter: string
    var statusFilter: Choice<ScenarioStatus>
    var currentPage: int
    var editing: Option<ScenarioDetail>

    /** The page number never drops below 1. */
    ghost predicate Valid()
      reads this
    {
      currentPage >= 1
    }

    constructor(initial: seq<ScenarioDetail>)
      ensures Valid()
      ensures scenarios == initial && searchQuery == "" && typeFilter == All
      ensures serviceFilter == AllServices && statusFilter == All
      ensures currentPage == 1 && editing == None
    {
      scenarios := initial;
      searchQuery := "";
      typeFilter := All;
      serviceFilter := AllServices;
      statusFilter := All;
      currentPage := 1;
      editing := None;
    }

    function Filtered(): seq<ScenarioDetail>
      reads this
    {
      FilterScenarios(scenarios, searchQuery, typeFilter, serviceFilter, statusFilter)
    }

    function PageCount(): nat
      reads this
    {
      TotalPages(|Filtered()|)
    }

    function Paginated(): seq<ScenarioDetail>
      reads this
    {
      Page(Filtered(), currentPage)
    }

    /** A new search resets the page to 1 when it differs from the current one. */
    method SetSearchQuery(query: string)
      requires Valid()
      modifies this
      ensures Valid()
      ensures searchQuery == query
      ensures currentPage == if query != old(searchQuery) then 1 else old(currentPage)
      ensures scenarios == old(scenarios) && typeFilter == old(typeFilter) && serviceFilter == old(serviceFilter)
      ensures statusFilter == old(statusFilter) && editing == old(editing)
    {
      if query != searchQuery {
        currentPage := 1;
      }
      searchQuery := query;
    }

    method SetTypeFilter(filter: Choice<FailureType>)
      requires Valid()
      modifies this
      ensures Valid()
      ensures typeFilter == filter
      ensures currentPage == if filter != old(typeFilter) then 1 else old(currentPage)
      ensures scenarios == old(scenarios) && searchQuery == old(searchQuery) && serviceFilter == old(serviceFilter)
      ensures statusFilter == old(statusFilter) && editing == old(editing)
    {
      if filter != typeFilter {
        currentPage := 1;
      }
      typeFilter := filter;
    }

    method SetServiceFilter(filter: string)
      requires Valid()
      modifies this
      ensures Valid()
      ensures serviceFilter == filter
      ensures currentPage == if filter != old(serviceFilter) then 1 else old(currentPage)
      ensures scenarios == old(scenarios) && searchQuery == old(searchQuery) && typeFilter == old(typeFilter)
      ensures statusFilter == old(statusFilter) && editing == old(editing)
    {
      if filter != serviceFilter {
        currentPage := 1;
      }
      serviceFilter := filter;
    }

    method SetStatusFilter(filter: Choice<ScenarioStatus>)
      requires Valid()
      modifies this
      ensures Valid()
      ensures statusFilter == filter
      ensures currentPage == if filter != old(statusFilter) then 1 else old(currentPage)
      ensures scenarios == old(scenarios) && searchQuery == old(searchQuery) && typeFilter == old(typeFilter)
      ensures serviceFilter == old(serviceFilter) && editing == old(editing)
    {
      if filter != statusFilter {
        currentPage := 1;
      }
      statusFilter := filter;
    }

    /** `clearFilters`: all filters back to their defaults; the page resets if any of them changed. */
    method ClearFilters()
      requires Valid()
      modifies this
      ensures Valid()
      ensures searchQuery == "" && typeFilter == All && serviceFilter == AllServices && statusFilter == All
      ensures Filtered() == scenarios
      ensures currentPage == if old(searchQuery) != "" || old(typeFilter) != All || old(serviceFilter) != AllServices
                                || old(statusFilter) != All then 1 else old(currentPage)
      ensures scenarios == old(scenarios) && editing == old(editing)
    {
      if searchQuery != "" || typeFilter != All || serviceFilter != AllServices || statusFilter != All {
        currentPage := 1;
      }
      typeFilter := All;
      serviceFilter := AllServices;
      statusFilter := All;
      searchQuery := "";
      DefaultFiltersKeepAll(scenarios);
    }

    /** `handleDuplicateScenario`: prepend the copy; every earlier record stays as it was. */
    method Duplicate(s: ScenarioDetail, now: Timestamp)
      requires Valid()
      modifies this
      ensures Valid()
      ensures scenarios == [Duplicated(s, now)] + old(scenarios)
      ensures searchQuery == old(searchQuery) && typeFilter == old(typeFilter) && serviceFilter == old(serviceFilter)
      ensures statusFilter == old(statusFilter) && currentPage == old(currentPage) && editing == old(editing)
    {
      scenarios := [Duplicated(s, now)] + scenarios;
    }

    /** `handleArchiveScenario`. */
    method Archive(s: ScenarioDetail)
      requires Valid()
      modifies this
      ensures Valid()
      ensures scenarios == ArchiveById(old(scenarios), s.id)
      ensures searchQuery == old(searchQuery) && typeFilter == old(typeFilter) && serviceFilter == old(serviceFilter)
      ensures statusFilter == old(statusFilter) && currentPage == old(currentPage) && editing == old(editing)
    {
      scenarios := ArchiveById(scenarios, s.id);
    }

    /** Open the sheet on a record (`handleEditScenario`) or on a blank form (`handleNewScenario`). */
    method Edit(s: Option<ScenarioDetail>)
      requires Valid()
      modifies this
      ensures Valid()
      ensures editing == s
      ensures scenarios == old(scenarios) && searchQuery == old(searchQuery) && typeFilter == old(typeFilter)
      ensures serviceFilter == old(serviceFilter) && statusFilter == old(statusFilter) && currentPage == old(currentPage)
    {
      editing := s;
    }

    /**
     * `handleSubmit`: in edit mode merge the form into the records with the edited id,
     * otherwise prepend a created record; then leave edit mode.
     */
    method Submit(data: ScenarioFormData, now: Timestamp)
      requires Valid()
      modifies this
      ensures Valid()
      ensures old(editing).Some? ==>
        var id := old(editing).value.id;
        scenarios == MapWhere(old(scenarios), (s: ScenarioDetail) => s.id == id, (s: ScenarioDetail) => Updated(s, data, now))
      ensures old(editing).None? ==> scenarios == [Created(data, now)] + old(scenarios)
      ensures editing == None
      ensures searchQuery == old(searchQuery) && typeFilter == old(typeFilter) && serviceFilter == old(serviceFilter)
      ensures statusFilter == old(statusFilter) && currentPage == old(currentPage)
    {
      if editing.Some? {
        var id := editing.value.id;
        scenarios := MapWhere(scenarios, (s: ScenarioDetail) => s.id == id, (s: ScenarioDetail) => Updated(s, data, now));
      } else {
        scenarios := [Created(data, now)] + scenarios;
      }
      editing := None;
    }

    method Previous()
      requires Valid()
      modifies this
      ensures Valid()
      ensures currentPage == PreviousPage(old(currentPage))
      ensures scenarios == old(scenarios) && searchQuery == old(searchQuery) && typeFilter == old(typeFilter)
      ensures serviceFilter == old(serviceFilter) && statusFilter == old(statusFilter) && editing == old(editing)
    {
      currentPage := PreviousPage(currentPage);
    }

    method Next()
      requires Valid() && PageCount() >= 1
      modifies this
      ensures Valid()
      ensures currentPage == NextPage(old(currentPage), old(PageCount()))
      ensures scenarios == old(scenarios) && searchQuery == old(searchQuery) && typeFilter == old(typeFilter)
      ensures serviceFilter == old(serviceFilter) && statusFilter == old(statusFilter) && editing == old(editing)
    {
      currentPage := NextPage(currentPage, PageCount());
    }

    /** A click on a page number of the bar. */
    method GoTo(page: int)
      requires Valid() && page >= 1
      modifies this
      ensures Valid()
      ensures currentPage == page
      ensures scenarios == old(scenarios) && searchQuery == old(searchQuery) && typeFilter == old(typeFilter)
      ensures serviceFilter == old(serviceFilter) && statusFilter == old(statusFilter) && editing == old(editing)
    {
      currentPage := page;
    }

    /** The bar for the current state. */
    method PageNumbers() returns (pages: seq<PageItem>)
      ensures pages == PageNumbersOf(PageCount(), currentPage)
    {
      pages := GetPageNumbers(PageCount(), currentPage);
    }
  }
}
