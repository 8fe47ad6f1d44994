/**
 * The incidents page: the filter pipeline, the acknowledge and resolve handlers that replace
 * records by id in the list and in the selected copy, and the open and critical counters.
 */
module IncidentsPage {
  import opened Wrappers
  import opened Text
  import opened Seqs
  import opened Types

  /** The service filter's "no filter" value. */
  const AllServices := "all"

  /** The owner the handlers assign. */
  const CurrentUser := "you@example.com"

  predicate SearchMatches(inc: IncidentDetail, query: string) {
    query == ""
    || ContainsIgnoringCase(inc.title, query) || ContainsIgnoringCase(inc.summary, query)
    || ContainsIgnoringCase(inc.id, query) || ContainsIgnoringCase(inc.service, query)
    || ContainsIgnoringCase(inc.runId, query)
  }

  predicate IncidentMatches(inc: IncidentDetail, severity: Choice<IncidentSeverity>, status: Choice<IncidentStatus>,
                            service: string, range: DateRange, query: string) {
    (severity.All? || inc.severity == severity.value)
    && (status.All? || inc.status == status.value)
    && (service == AllServices || inc.service == service)
    && InDateRange(inc.detectedAt, range)
    && SearchMatches(inc, query)
  }

  /** `filteredIncidents`. */
  function FilterIncidents(incidents: seq<IncidentDetail>, severity: Choice<IncidentSeverity>, status: Choice<IncidentStatus>,
                           service: string, range: DateRange, query: string): seq<IncidentDetail> {
    Filter(incidents, (inc: IncidentDetail) => IncidentMatches(inc, severity, status, service, range, query))
  }

  /** The filtered list keeps the list's order and holds exactly the incidents that match. */
  lemma FilterIncidentsSpec(incidents: seq<IncidentDetail>, severity: Choice<IncidentSeverity>, status: Choice<IncidentStatus>,
                            service: string, range: DateRange, query: string)
    ensures var r := FilterIncidents(incidents, severity, status, service, range, query);
      IsSubseq(r, incidents)
      && (forall i | 0 <= i < |r| :: IncidentMatches(r[i], severity, status, service, range, query))
      && (forall j | 0 <= j < |incidents| ::
            IncidentMatches(incidents[j], severity, status, service, range, query) ==> incidents[j] in r)
  {
    FilterIsSubseq(incidents, (inc: IncidentDetail) => IncidentMatches(inc, severity, status, service, range, query));
  }

  /** An end date without a start date filters nothing. */
  lemma EndDateAloneIgnored(incidents: seq<IncidentDetail>, severity: Choice<IncidentSeverity>, status: Choice<IncidentStatus>,
                            service: string, to: Option<Timestamp>, query: string)
    ensures FilterIncidents(incidents, severity, status, service, DateRange(None, to), query)
         == FilterIncidents(incidents, severity, status, service, DateRange(None, None), query)
  {
    FilterExt(incidents,
      (inc: IncidentDetail) => IncidentMatches(inc, severity, status, service, DateRange(None, to), query),
      (inc: IncidentDetail) => IncidentMatches(inc, severity, status, service, DateRange(None, None), query));
  }

  /** The search is case-insensitive: lower-casing the query changes nothing. */
  lemma SearchIgnoresCase(incidents: seq<IncidentDetail>, severity: Choice<IncidentSeverity>, status: Choice<IncidentStatus>,
                          service: string, range: DateRange, query: string)
    ensures FilterIncidents(incidents, severity, status, service, range, Lower(query))
         == FilterIncidents(incidents, severity, status, service, range, query)
  {
    forall i | 0 <= i < |incidents|
      ensures SearchMatches(incidents[i], Lower(query)) == SearchMatches(incidents[i], query)
    {
      var inc := incidents[i];
      QueryCaseIrrelevant(inc.title, query);
      QueryCaseIrrelevant(inc.summary, query);
      QueryCaseIrrelevant(inc.id, query);
      QueryCaseIrrelevant(inc.service, query);
      QueryCaseIrrelevant(inc.runId, query);
      if query == "" {
        assert Lower(query) == "";
      }
    }
    FilterExt(incidents,
      (inc: IncidentDetail) => IncidentMatches(inc, severity, status, service, range, Lower(query)),
      (inc: IncidentDetail) => IncidentMatches(inc, severity, status, service, range, query));
  }

  /** `hasActiveFilters`: only a start date makes the date range count. */
  predicate HasActiveFilters(severity: Choice<IncidentSeverity>, status: Choice<IncidentStatus>,
                             service: string, range: DateRange, query: string) {
    severity != All || status != All || service != AllServices || range.from != None || query != ""
  }

  /** Whenever no filter is active, the whole list is shown, so the indicator never lies. */
  lemma InactiveFiltersKeepAll(incidents: seq<IncidentDetail>, severity: Choice<IncidentSeverity>, status: Choice<IncidentStatus>,
                               service: string, range: DateRange, query: string)
    requires !HasActiveFilters(severity, status, service, range, query)
    ensures FilterIncidents(incidents, severity, status, service, range, query) == incidents
  {
    FilterAllPass(incidents, (inc: IncidentDetail) => IncidentMatches(inc, severity, status, service, range, query));
  }

  // ---------------------------------------------------------------- record actions

  /** Acknowledge: status acknowledged, owner the current user, whoever owned it before. */
  function MarkAcknowledged(inc: IncidentDetail): IncidentDetail {
    inc.(status := Acknowledged, owner := Some(CurrentUser))
  }

  /** `owner || "you@example.com"`: an absent or empty owner falls back to the current user. */
  function OwnerOrCurrentUser(owner: Option<string>): (r: Option<string>)
    ensures r.Some? && r.value != ""
    ensures owner.Some? && owner.value != "" ==> r == owner
    ensures owner.None? || owner.value == "" ==> r == Some(CurrentUser)
  {
    if owner.Some? && owner.value != "" then owner else Some(CurrentUser)
  }

  /** Resolve: status resolved; the owner is kept unless there is none. */
  function MarkResolved(inc: IncidentDetail): IncidentDetail {
    inc.(status := Resolved, owner := OwnerOrCurrentUser(inc.owner))
  }

  /** Order of the statuses along the incident's life. */
  function Rank(s: IncidentStatus): nat {
    match s
    case Open => 0
    case Acknowledged => 1
    case Resolved => 2
  }

  /**
   * Acknowledge changes only status and owner and overwrites any owner; resolve changes only
   * status and owner and never overwrites a non-empty owner; resolving after acknowledging
   * leaves the current user as owner.
   */
  lemma ActionsSpec(inc: IncidentDetail)
    ensures MarkAcknowledged(inc).(status := inc.status, owner := inc.owner) == inc
    ensures MarkAcknowledged(inc).status == Acknowledged && MarkAcknowledged(inc).owner == Some(CurrentUser)
    ensures MarkResolved(inc).(status := inc.status, owner := inc.owner) == inc
    ensures MarkResolved(inc).status == Resolved
    ensures inc.owner.Some? && inc.owner.value != "" ==> MarkResolved(inc).owner == inc.owner
    ensures MarkResolved(MarkAcknowledged(inc)).owner == Some(CurrentUser)
    ensures MarkResolved(MarkResolved(inc)) == MarkResolved(inc)
  {
  }

  /** Offered actions (the buttons): acknowledge while open, resolve until resolved. */
  predicate AcknowledgeOffered(inc: IncidentDetail) { inc.status == Open }
  predicate ResolveOffered(inc: IncidentDetail) { inc.status != Resolved }

  /** Through the offered buttons an incident's status only moves forward. */
  lemma OfferedActionsMoveForward(inc: IncidentDetail)
    ensures AcknowledgeOffered(inc) ==> Rank(MarkAcknowledged(inc).status) > Rank(inc.status)
    ensures ResolveOffered(inc) ==> Rank(MarkResolved(inc).status) > Rank(inc.status)
    ensures !AcknowledgeOffered(MarkAcknowledged(inc)) && !ResolveOffered(MarkResolved(inc)) && !AcknowledgeOffered(MarkResolved(inc))
  {
  }

  /** The handlers themselves are not guarded: acknowledging a resolved incident reopens it. */
  lemma UngatedAcknowledgeRegresses(inc: IncidentDetail)
    requires inc.status == Resolved
    ensures Rank(MarkAcknowledged(inc).status) < Rank(inc.status)
  {
  }

  /** Replace by id over the list: `prev.map(inc => inc.id === id ? f(inc) : inc)`. */
  function ReplaceById(incidents: seq<IncidentDetail>, id: string, f: IncidentDetail -> IncidentDetail): (r: seq<IncidentDetail>)
  {
    MapWhere(incidents, (inc: IncidentDetail) => inc.id == id, f)
  }

  /** The selected copy gets the same transformation exactly when its id is the acted-on one. */
  function ReplaceSelected(selected: Option<IncidentDetail>, id: string, f: IncidentDetail -> IncidentDetail): (r: Option<IncidentDetail>)
  {
    if selected.Some? && selected.value.id == id then Some(f(selected.value)) else selected
  }

  /**
   * Replacing by id touches exactly the records with the id, and a selected copy that equals a
   * list record still equals that record afterwards.
   */
  lemma ReplaceKeepsSelectionInSync(incidents: seq<IncidentDetail>, selected: Option<IncidentDetail>, id: string,
                                    f: IncidentDetail -> IncidentDetail, k: nat)
    requires k < |incidents| && selected == Some(incidents[k])
    ensures var r := ReplaceById(incidents, id, f);
      |r| == |incidents|
      && (forall i | 0 <= i < |r| :: r[i] == if incidents[i].id == id then f(incidents[i]) else incidents[i])
      && ReplaceSelected(selected, id, f) == Some(r[k])
  {
  }

  /** Along the list, offered actions only move statuses forward, and nothing else changes. */
  lemma ListMovesForward(incidents: seq<IncidentDetail>, id: string, acknowledge: bool)
    requires forall i | 0 <= i < |incidents| && incidents[i].id == id ::
      if acknowledge then AcknowledgeOffered(incidents[i]) else ResolveOffered(incidents[i])
    ensures var r := ReplaceById(incidents, id, if acknowledge then MarkAcknowledged else MarkResolved);
      forall i | 0 <= i < |r| ::
        (incidents[i].id == id ==> Rank(r[i].status) > Rank(incidents[i].status))
        && (incidents[i].id != id ==> r[i] == incidents[i])
  {
  }

  // ---------------------------------------------------------------- counters

  function OpenCount(incidents: seq<IncidentDetail>): nat {
    Count(incidents, (inc: IncidentDetail) => inc.status == Open)
  }

  function CriticalCount(incidents: seq<IncidentDetail>): nat {
    Count(incidents, (inc: IncidentDetail) => inc.severity == Critical && inc.status != Resolved)
  }

  /** Acknowledging takes exactly the open records with the id off the open count. */
  lemma AcknowledgeOpenCount(incidents: seq<IncidentDetail>, id: string)
    ensures OpenCount(ReplaceById(incidents, id, MarkAcknowledged))
          + Count(incidents, (inc: IncidentDetail) => inc.status == Open && inc.id == id) == OpenCount(incidents)
  {
    var q := (inc: IncidentDetail) => inc.status == Open;
    var d := (inc: IncidentDetail) => inc.id == id;
    CountPointwise(incidents, ReplaceById(incidents, id, MarkAcknowledged), q, d,
      (inc: IncidentDetail) => inc.status == Open && inc.id == id);
  }

  /** Resolving takes exactly the unresolved critical records with the id off the critical count. */
  lemma ResolveCriticalCount(incidents: seq<IncidentDetail>, id: string)
    ensures CriticalCount(ReplaceById(incidents, id, MarkResolved))
          + Count(incidents, (inc: IncidentDetail) => inc.severity == Critical && inc.status != Resolved && inc.id == id)
         == CriticalCount(incidents)
  {
    var q := (inc: IncidentDetail) => inc.severity == Critical && inc.status != Resolved;
    var d := (inc: IncidentDetail) => inc.id == id;
    CountPointwise(incidents, ReplaceById(incidents, id, MarkResolved), q, d,
      (inc: IncidentDetail) => inc.severity == Critical && inc.status != Resolved && inc.id == id);
  }

  /** An offered acknowledge leaves the critical count as it was. */
  lemma AcknowledgeKeepsCriticalCount(incidents: seq<IncidentDetail>, id: string)
    requires forall i | 0 <= i < |incidents| && incidents[i].id == id :: AcknowledgeOffered(incidents[i])
    ensures CriticalCount(ReplaceById(incidents, id, MarkAcknowledged)) == CriticalCount(incidents)
  {
    var q := (inc: IncidentDetail) => inc.severity == Critical && inc.status != Resolved;
    CountUnchanged(incidents, ReplaceById(incidents, id, MarkAcknowledged), q);
  }

  // ---------------------------------------------------------------- page state

  /** The page's state: the list (empty until loaded), the selected copy, the drawer, the filters. */
  class IncidentsPageState {
    var incidents: seq<IncidentDetail>
    var loading: bool
    var selected: Option<IncidentDetail>
    var drawerOpen: bool
    var severity: Choice<IncidentSeverity>
    var status: Choice<IncidentStatus>
    var service: string
    var dateRange: DateRange
    var searchQuery: string

    /** Nothing is listed while loading, and the selected copy is always a record of the list. */
    ghost predicate Valid()
      reads this
    {
      (loading ==> incidents == [])
      && (selected.Some? ==> selected.value in incidents)
    }

    constructor()
      ensures Valid()
      ensures incidents == [] && loading && selected == None && !drawerOpen
      ensures severity == All && status == All && service == AllServices
      ensures dateRange == DateRange(None, None) && searchQuery == ""
    {
      incidents := [];
      loading := true;
      selected := None;
      drawerOpen := false;
      severity := All;
      status := All;
      service := AllServices;
      dateRange := DateRange(None, None);
      searchQuery := "";
    }

    function Filtered(): seq<IncidentDetail>
      reads this
    {
      FilterIncidents(incidents, severity, status, service, dateRange, searchQuery)
    }

    function Active(): bool
      reads this
    {
      HasActiveFilters(severity, status, service, dateRange, searchQuery)
    }

    /** The end of the loading delay: the corpus becomes the list. */
    method Load(corpus: seq<IncidentDetail>)
      requires Valid() && loading
      modifies this
      ensures Valid()
      ensures incidents == corpus && !loading
      ensures selected == old(selected) && drawerOpen == old(drawerOpen)
      ensures severity == old(severity) && status == old(status) && service == old(service)
      ensures dateRange == old(dateRange) && searchQuery == old(searchQuery)
    {
      incidents := corpus;
      loading := false;
    }

    /** `handleSelectIncident`: a row of the list opens the drawer on its record. */
    method Select(inc: IncidentDetail)
      requires Valid() && inc in incidents
      modifies this
      ensures Valid()
      ensures selected == Some(inc) && drawerOpen
      ensures incidents == old(incidents) && loading == old(loading)
      ensures severity == old(severity) && status == old(status) && service == old(service)
      ensures dateRange == old(dateRange) && searchQuery == old(searchQuery)
    {
      selected := Some(inc);
      drawerOpen := true;
    }

    /** `handleCloseDrawer`. */
    method CloseDrawer()
      requires Valid()
      modifies this
      ensures Valid()
      ensures !drawerOpen && selected == old(selected) && incidents == old(incidents) && loading == old(loading)
      ensures severity == old(severity) && status == old(status) && service == old(service)
      ensures dateRange == old(dateRange) && searchQuery == old(searchQuery)
    {
      drawerOpen := false;
    }

    /** `clearFilters`: every filter to its default, after which no filter is active and all is listed. */
    method ClearFilters()
      requires Valid()
      modifies this
      ensures Valid()
      ensures severity == All && status == All && service == AllServices
      ensures dateRange == DateRange(None, None) && searchQuery == ""
      ensures !Active() && Filtered() == incidents
      ensures incidents == old(incidents) && loading == old(loading) && selected == old(selected) && drawerOpen == old(drawerOpen)
    {
      severity := All;
      status := All;
      service := AllServices;
      dateRange := DateRange(None, None);
      searchQuery := "";
      InactiveFiltersKeepAll(incidents, severity, status, service, dateRange, searchQuery);
    }

    /** Shared body of the two handlers: replace by id in the list and in the selected copy. */
    method Apply(id: string, f: IncidentDetail -> IncidentDetail)
      requires Valid()
      modifies this
      ensures Valid()
      ensures incidents == ReplaceById(old(incidents), id, f)
      ensures selected == ReplaceSelected(old(selected), id, f)
      ensures loading == old(loading) && drawerOpen == old(drawerOpen)
      ensures severity == old(severity) && status == old(status) && service == old(service)
      ensures dateRange == old(dateRange) && searchQuery == old(searchQuery)
    {
      if selected.Some? {
        var k :| 0 <= k < |incidents| && incidents[k] == selected.value;
        ReplaceKeepsSelectionInSync(incidents, selected, id, f, k);
        assert ReplaceSelected(selected, id, f).value == ReplaceById(incidents, id, f)[k];
      }
      var wasLoading := loading;
      incidents := ReplaceById(incidents, id, f);
      selected := ReplaceSelected(selected, id, f);
      assert wasLoading ==> incidents == [];
    }

    /** `handleAcknowledge`. */
    method Acknowledge(inc: IncidentDetail)
      requires Valid()
      modifies this
      ensures Valid()
      ensures incidents == ReplaceById(old(incidents), inc.id, MarkAcknowledged)
      ensures selected == ReplaceSelected(old(selected), inc.id, MarkAcknowledged)
      ensures OpenCount(incidents) + Count(old(incidents), (i: IncidentDetail) => i.status == Open && i.id == inc.id)
           == OpenCount(old(incidents))
      ensures loading == old(loading) && drawerOpen == old(drawerOpen)
      ensures severity == old(severity) && status == old(status) && service == old(service)
      ensures dateRange == old(dateRange) && searchQuery == old(searchQuery)
    {
      AcknowledgeOpenCount(incidents, inc.id);
      Apply(inc.id, MarkAcknowledged);
    }

    /** `handleResolve`. */
    method Resolve(inc: IncidentDetail)
      requires Valid()
      modifies this
      ensures Valid()
      ensures incidents == ReplaceById(old(incidents), inc.id, MarkResolved)
      ensures selected == ReplaceSelected(old(selected), inc.id, MarkResolved)
      ensures CriticalCount(incidents)
            + Count(old(incidents), (i: IncidentDetail) => i.severity == Critical && i.status != Resolved && i.id == inc.id)
           == CriticalCount(old(incidents))
      ensures loading == old(loading) && drawerOpen == old(drawerOpen)
      ensures severity == old(severity) && status == old(status) && service == old(service)
      ensures dateRange == old(dateRange) && searchQuery == old(searchQuery)
    {
      ResolveCriticalCount(incidents, inc.id);
      Apply(inc.id, MarkResolved);
    }
  }
}
