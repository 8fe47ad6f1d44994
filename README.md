# Failure-mode lab dashboard: a verified model of its data logic

This project models, in Dafny, the data logic of a chaos-engineering dashboard written in
TypeScript and React. The dashboard has four parts:

- a scenarios page: search, filters, pagination, and duplicate / archive / create / edit;
- a runs page: filters, a date range, a scenario multi-select, and a paginated table whose cells show formatted durations;
- an incidents page: filters, search, acknowledge / resolve, and counters;
- an incident detail page: the recommended-actions checklist and the root-cause confidence badge.

The dashboard also generates its own mock data: runs, scenarios with version histories, and incidents with signals.

How the model is laid out:

- **Pure computations are functions.** These are the generators, the filters, the formatting and the page-number bars.
- **Lemmas state what those functions promise.**
- **Stateful parts are classes.** Each page's React state, the scenario form and the checklist is a class. Its methods say precisely how every field changes.
- **Loops in the source are loops here.** This covers the page-number loops, the `push`-built generators, the splice in `moveStep`, the in-place item update in `updateStepType` and the version-history loops. Each such loop is a `method` proved equal to a specification function.

Modules:

| module | what it models |
|---|---|
| `Wrappers` | `Option`, standing for `null` / `undefined` |
| `Text` | the JavaScript string operations the code uses: `toLowerCase`, `includes`, `trim`, `String(n)`, `padStart`, `parseInt`, `replace`, `split` by the first separator |
| `Seqs` | `filter`, `find`, `findIndex`, `slice(0, n)`, replace-by-id `map`, counting |
| `Types` | the records of `lib/types.ts` |
| `MockRuns`, `MockScenarios`, `MockIncidents` | the generators and lookups of `lib/mock-data.ts` |
| `Pagination` | `Math.ceil(n / 10)`, `slice`, page-number ranges and the shape of a page bar |
| `ScenariosPage`, `RunsPage`, `IncidentsPage` | the three list pages |
| `RunsTable` | `formatDuration` and the runs table's page bar and arrows |
| `StepsEditor`, `ScenarioForm`, `ScenarioSheet` | the scenario editor |
| `ScenarioMultiSelect`, `ActionsChecklist`, `RootCause`, `ScenarioHeader` | the smaller components |

Randomness and the clock become parameters:

- a `Math.random()` draw is a `real` in [0, 1);
- `Date.now()` is an integer `now` in milliseconds;
- a `Date` is its millisecond timestamp.

## Model

| member | source | states |
|---|---|---|
| MockRuns.TruncToInt | lib/mock-data.ts:69 | `new Date(x)` truncates a fractional millisecond count toward zero: the result is within one of x, and it is the floor for non-negative x |
| MockRuns.TruncStrictlyMonotone | lib/mock-data.ts:69 | start times at least two milliseconds apart stay strictly ordered after truncation |
| MockRuns.StatusOf | lib/mock-data.ts:66-67 | a run is failed exactly at indices divisible by 3, degraded at the other multiples of 5, success otherwise |
| MockRuns.StatusPeriodic | lib/mock-data.ts:67 | the status pattern repeats every 15 runs |
| MockRuns.RunIdInjective | lib/mock-data.ts:73 | distinct indices give distinct run ids |
| MockRuns.ErrorsOf | lib/mock-data.ts:84-87 | success runs list no errors, failed runs the first four catalogue errors, degraded runs the first two, each keeping the catalogue message and type |
| MockRuns.ErrorCountBounds | lib/mock-data.ts:84-87 | every scaled error count lies between half and one and a half times its catalogue count |
| MockRuns.FloorBetween | lib/mock-data.ts:86 | the floor of a value in [c/2, 3c/2) lies between c div 2 and 3c div 2 |
| MockRuns.GenerateTimeline | lib/mock-data.ts:35-63 | the pushing method yields the three opening events followed by the three events of the status's branch |
| MockRuns.TimelineShape | lib/mock-data.ts:35-63 | every timeline has six strictly increasing events that start at the run's start, the first three are info, and the last event's kind gives the outcome |
| MockRuns.GenerateDetailedTimeline | lib/mock-data.ts:97-206 | pushing the three literal opening events and then the status branch's three yields DetailedTimelineOf |
| MockRuns.DetailedTimelineShape | lib/mock-data.ts:97-206 | six events in strictly increasing time from the start; the second is the fault injection; the last is info and has no metadata |
| MockRuns.DetailedTimelineIds | lib/mock-data.ts:97-206 | the events are numbered evt-001 to evt-006 in order, whatever the status |
| MockRuns.GenerateIncidents | lib/mock-data.ts:208-262 | the early return and the literal pushes of the two branches yield IncidentsOf |
| MockRuns.Severities | lib/mock-data.ts:208-262 | the severity list is pointwise the incidents' severities |
| MockRuns.IncidentsByStatus | lib/mock-data.ts:208-262 | success runs have no incidents, failed runs critical, high and medium, degraded runs medium and low; all are detected within 22 s after the start |
| MockRuns.GenerateRun | lib/mock-data.ts:65-91 | a run's id, status, scenario (index mod 6), errors and timeline are those of its index |
| MockRuns.RunMetricBounds | lib/mock-data.ts:70-82 | with draws in [0, 1), duration and metrics lie in their bands, p50 < p99, and the error rate alone tells the status (its three bands are disjoint) |
| MockRuns.MockRunsOf | lib/mock-data.ts:93 | the corpus has 50 runs and the i-th is generated from index i |
| MockRuns.CorpusNewestFirst | lib/mock-data.ts:69-93 | corpus run ids are distinct and later indices started strictly earlier |
| MockRuns.GetRunDetail | lib/mock-data.ts:592-609 | `None` exactly when no run has the id; otherwise the detail wraps a run with that id, the environment picked by the id's fifth character, and the generated incidents and detailed timeline |
| MockRuns.GetRunDetailOfCorpus | lib/mock-data.ts:592-609 | every corpus run is found by its own id, and its environment is "production" |
| MockRuns.CorpusScenarioNames | lib/mock-data.ts:68-74 | corpus run k carries the name of catalogue scenario k mod 6 |
| MockRuns.CorpusIds | lib/mock-data.ts:73-93 | corpus run k has id RunIdOf(k) |
| MockRuns.FoundByUniqueId | lib/mock-data.ts:593 | in a list with those ids, the lookup of the k-th id finds the k-th run |
| MockRuns.GetRunDetailUnknown | lib/mock-data.ts:593-594 | the id of a run past the corpus ("run-0051") is not found |
| MockRuns.NotFoundBeyond | lib/mock-data.ts:593-594 | no id past the end of the list is found |
| MockScenarios.GenerateSteps | lib/mock-data.ts:292-338 | the pushing method yields the two opening steps, the ramp for latency and resource faults, then recover and validate |
| MockScenarios.StepsShape | lib/mock-data.ts:292-338 | six steps for latency/resource and four otherwise, numbered step-1 onwards; the first injects the fault, the last two recover and validate |
| MockScenarios.ScenarioIdInjective | lib/mock-data.ts:347 | distinct indices give distinct scenario ids |
| MockScenarios.GenerateScenarioDetail | lib/mock-data.ts:340-367 | id, version, base name, failure type (index mod 4) and status (archived exactly at multiples of 7) follow the index; the steps are those of the type |
| MockScenarios.ScenarioDetailInvariants | lib/mock-data.ts:352-364 | a cron expression exists exactly for cron-scheduled scenarios; archived exactly at multiples of 7; intensity, duration and max error rate stay in their bands |
| MockScenarios.ScenarioStepCount | lib/mock-data.ts:341-365 | scenarios at indices 0 and 3 mod 4 get six steps, the others four |
| MockScenarios.MockScenariosOf | lib/mock-data.ts:369-371 | the corpus has 24 scenarios and the i-th is generated from index i |
| MockScenarios.GetScenarioById | lib/mock-data.ts:373-375 | `None` exactly when no scenario has the id; otherwise a scenario of the list with that id |
| MockScenarios.GetScenarioByIdOfCorpus | lib/mock-data.ts:373-375 | every corpus scenario is found by its id; an id past the corpus is not |
| MockScenarios.CorpusScenarioIds | lib/mock-data.ts:347-369 | corpus scenario k has id ScenarioIdOf(k) |
| MockScenarios.FoundByScenarioId | lib/mock-data.ts:374 | with those ids, the lookup of the k-th id finds the k-th scenario |
| MockScenarios.ParseVersion | lib/mock-data.ts:392-394 | parsing drops the first "v" and reads major and minor around the first "."; NaN is represented so that the loops behave as written |
| MockScenarios.ParseVersionString | lib/mock-data.ts:352-394 | parsing a printed version `v{major}.{minor}.0` gives back major and minor |
| MockScenarios.NoDotInDecimal | lib/mock-data.ts:392 | printed numbers contain no "." |
| MockScenarios.DivMod3 | lib/mock-data.ts:400-401 | index arithmetic for earlier majors with three minors each |
| MockScenarios.History | lib/mock-data.ts:399-414 | the closed-form history has the length the loops produce |
| MockScenarios.HistoryExtend | lib/mock-data.ts:402-410 | one more push extends the history by its next entry |
| MockScenarios.EntryAt | lib/mock-data.ts:399-401 | the pair the nested loops reach at step idx is the closed form's pair |
| MockScenarios.VersionHistory | lib/mock-data.ts:396-416 | the nested loops with their early breaks build exactly the closed-form history of min(6, ...) entries |
| MockScenarios.HistoryPairsInRange | lib/mock-data.ts:399-401 | every listed version is real: majors 1..major, minors up to the current one for the current major and up to 2 before |
| MockScenarios.HistoryStepDecreases | lib/mock-data.ts:399-401 | each entry is strictly older than the one before |
| MockScenarios.HistoryNewestFirst | lib/mock-data.ts:399-414 | the history lists versions strictly from newest to oldest |
| MockScenarios.HistoryStartsAtCurrent | lib/mock-data.ts:404-408 | the first entry is the current version and only it is marked current |
| MockScenarios.GetScenarioVersions | lib/mock-data.ts:388-417 | `[]` for an unknown id; otherwise the history of the scenario's current version |
| MockScenarios.CorpusHistory | lib/mock-data.ts:388-417 | corpus scenario k has min(6, k + 1) history entries, the first being its own version |
| MockScenarios.GetScenarioRuns | lib/mock-data.ts:419-426 | at most ten runs |
| MockScenarios.GetScenarioRunsSpec | lib/mock-data.ts:419-426 | unknown id: no runs; otherwise an order-preserving selection of runs named after the scenario, holding all of them when there are fewer than ten; exactly the first min(10, m) of the m runs named after the scenario, in corpus order |
| MockScenarios.FindAgrees | lib/mock-data.ts:374-423 | `find` and `findIndex` select the same scenario |
| MockIncidents.GenerateSignals | lib/mock-data.ts:486-529 | the pushing method yields the four canned signals, plus the SLO-budget one for critical and high |
| MockIncidents.SignalsShape | lib/mock-data.ts:486-529 | five signals exactly for critical and high, four otherwise; strictly increasing time; the alert fires at detection and pages P1 exactly for critical |
| MockIncidents.StatusOf | lib/mock-data.ts:535 | open below index 3, acknowledged below 8, then cycling open / acknowledged / resolved |
| MockIncidents.IncidentIdInjective | lib/mock-data.ts:540 | distinct indices give distinct incident ids |
| MockIncidents.GenerateIncidentDetail | lib/mock-data.ts:531-558 | id, status, severity (index mod 4) and signals follow the index |
| MockIncidents.IncidentDetailInvariants | lib/mock-data.ts:548-551 | an owner exists exactly when not open and comes from the owner list; two to five endpoints and three to five actions, each a prefix of its catalogue |
| MockIncidents.IncidentMetricsBands | lib/mock-data.ts:553-556 | latency in [200, 800); error rate in the band of the severity |
| MockIncidents.IncidentRunIsCorpusRun | lib/mock-data.ts:537-547 | incident k points at corpus run k mod 50 |
| MockIncidents.MockIncidentsOf | lib/mock-data.ts:560-562 | the corpus has 30 incidents and the i-th is generated from index i |
| MockIncidents.GetIncidentById | lib/mock-data.ts:564-566 | `None` exactly when no incident has the id; otherwise one of the list with that id |
| MockIncidents.FoundByIncidentId | lib/mock-data.ts:565 | with the corpus ids, the lookup of the k-th id finds the k-th incident |
| MockIncidents.GetIncidentByIdOfCorpus | lib/mock-data.ts:564-566 | every corpus incident is found by its id; an id past the corpus is not |
| MockIncidents.GetRelatedRunsForIncident | lib/mock-data.ts:568-579 | at most five runs, none for an unknown incident |
| MockIncidents.RelatedRunsSubseq | lib/mock-data.ts:573-578 | the related runs keep the order of the run list |
| MockIncidents.RelatedRunsAreFirstFive | lib/mock-data.ts:574-577 | when every run's scenario is catalogued and the service is known, the filter keeps everything: the result is the first five runs |
| MockIncidents.CorpusRelatedRuns | lib/mock-data.ts:568-579 | for every corpus incident the related runs are the first five corpus runs |
| MockIncidents.CorpusServicesKnown | lib/mock-data.ts:545-576 | every corpus incident's service is one of the target services |
| MockIncidents.GetIncidentConfidence | lib/mock-data.ts:581-590 | with a draw in [0, 1) the confidence is the severity's base with jitter in [-4, 3] |
| MockIncidents.JitterBounds | lib/mock-data.ts:589 | `floor(draw * 8) - 4` lies in [-4, 3] |
| Text.TrimEmptyIffBlank | components/scenarios/scenario-form.tsx:77 | `s.trim() === ""` holds exactly for strings made of white space |
| Text.QueryCaseIrrelevant | app/scenarios/page.tsx:55-59 | lower-casing the query first never changes a case-insensitive match |
| Text.ParseIntOfDecimal | lib/mock-data.ts:393-394 | `parseInt` reads back a printed number up to the first non-digit |
| Text.PaddedInjective | lib/mock-data.ts:73 | zero-padded ids of distinct numbers differ |
| Text.PrefixedId | lib/mock-data.ts:73 | a record id (run, scenario and incident ids alike) is its prefix followed by the number padded to the width |
| Text.PrefixedIdInjective | lib/mock-data.ts:73 | two ids with the same prefix are equal only for the same number |
| Text.PaddedLeadingZero | lib/mock-data.ts:73 | a number with fewer digits than the width is padded to exactly the width, starting with '0' |
| Pagination.TotalPages | app/scenarios/page.tsx:84 | `Math.ceil(n / 10)`: the least page count whose pages hold all n items |
| Pagination.PageIsSlice | app/scenarios/page.tsx:85-88 | page p (1 ≤ p) is the contiguous run of items from (p − 1)·10; it is full except possibly the last, and empty past the last page |
| Pagination.PagesArePrefix | app/runs/page.tsx:67-71 | reading pages 1..k yields the first min(10k, n) items |
| Pagination.PagesCoverList | app/runs/page.tsx:67-71 | pages 1..totalPages together are the whole list, in order |
| Pagination.RangeContains | app/scenarios/page.tsx:190 | a page range holds exactly the numbers between its ends |
| Pagination.AppendRange | app/scenarios/page.tsx:190-196 | the `for ... pages.push(i)` loop appends exactly the range lo..hi |
| Pagination.WindowIncreasing | app/scenarios/page.tsx:187-201 | in a well-shaped bar the page numbers strictly increase left to right |
| Pagination.WindowWithinPages | app/scenarios/page.tsx:187-201 | every number in a well-shaped bar is a page between 1 and the last |
| ScenariosPage.FilterScenariosSpec | app/scenarios/page.tsx:51-81 | the filtered list is an order-preserving selection holding exactly the scenarios that match the search and all three filters |
| ScenariosPage.DefaultFiltersKeepAll | app/scenarios/page.tsx:33-81 | with the initial filters nothing is filtered out |
| ScenariosPage.SearchIgnoresCase | app/scenarios/page.tsx:53-55 | lower-casing the query first does not change the result |
| ScenariosPage.DuplicatedSpec | app/scenarios/page.tsx:105-113 | the copy keeps every field but id, name and lastUpdated; its name is the original's plus " (Copy)"; its timestamp is the clock; from a clock of one second on, its id collides with no corpus scenario id |
| ScenariosPage.ArchiveSpec | app/scenarios/page.tsx:115-123 | only records with the id flip between active and archived, the others are untouched, and archiving twice restores the list |
| ScenariosPage.UpdatedSpec | app/scenarios/page.tsx:133-147 | an edit keeps id, version, owner and status; name, description, target service, environment, type, intensity, duration, schedule type, cron (as given) and steps come from the form; the safety config is built from the form and the time is stamped; the result is the created record with the original's identity; applying it again changes nothing |
| ScenariosPage.CreatedThenUpdated | app/scenarios/page.tsx:131-172 | editing a new scenario with its own form data only restamps the time |
| ScenariosPage.PreviousNextInRange | app/scenarios/page.tsx:253-286 | the arrows stay within 1..totalPages and stay put exactly at the first / last page |
| ScenariosPage.GetPageNumbers | app/scenarios/page.tsx:187-201 | the pushing method yields the closed-form bar |
| ScenariosPage.PageNumbersShape | app/scenarios/page.tsx:191-199 | above seven pages: a well-shaped bar of at most seven items in which a page appears exactly if it is the first, the last, or within one of the current page |
| ScenariosPage.BarShape | app/scenarios/page.tsx:192-198 | first, optional ellipsis, consecutive window, optional ellipsis, last: a well-shaped bar |
| ScenariosPage.WindowPieces | app/scenarios/page.tsx:191-199 | above seven pages the bar is well shaped |
| ScenariosPage.PageNumbersSmall | app/scenarios/page.tsx:189-190 | up to seven pages the bar is 1..totalPages with no ellipsis |
| ScenariosPage.ScenariosPageState.constructor | app/scenarios/page.tsx:25-39 | the initial state: no filters, page 1, nothing being edited |
| ScenariosPage.ScenariosPageState.SetSearchQuery | app/scenarios/page.tsx:91-93 | sets the query; the page goes back to 1 exactly when the query changed |
| ScenariosPage.ScenariosPageState.SetTypeFilter | app/scenarios/page.tsx:91-93 | sets the type filter; page reset exactly on change |
| ScenariosPage.ScenariosPageState.SetServiceFilter | app/scenarios/page.tsx:91-93 | sets the service filter; page reset exactly on change |
| ScenariosPage.ScenariosPageState.SetStatusFilter | app/scenarios/page.tsx:91-93 | sets the status filter; page reset exactly on change |
| ScenariosPage.ScenariosPageState.ClearFilters | app/scenarios/page.tsx:179-184 | all filters back to their defaults, so the filtered list is the whole list; page reset exactly when some filter changed |
| ScenariosPage.ScenariosPageState.Duplicate | app/scenarios/page.tsx:105-113 | prepends the copy; nothing else changes |
| ScenariosPage.ScenariosPageState.Archive | app/scenarios/page.tsx:115-123 | flips the records with the id; nothing else changes |
| ScenariosPage.ScenariosPageState.Edit | app/scenarios/page.tsx:95-103 | sets the scenario being edited (none for a new one) |
| ScenariosPage.ScenariosPageState.Submit | app/scenarios/page.tsx:125-177 | in edit mode updates the records with the edited id, otherwise prepends the created scenario; then nothing is being edited |
| ScenariosPage.ScenariosPageState.Previous | app/scenarios/page.tsx:253 | `max(1, p − 1)` |
| ScenariosPage.ScenariosPageState.Next | app/scenarios/page.tsx:286 | `min(totalPages, p + 1)` |
| ScenariosPage.ScenariosPageState.GoTo | app/scenarios/page.tsx:271 | jumps to the clicked page |
| ScenariosPage.ScenariosPageState.PageNumbers | app/scenarios/page.tsx:187-201 | the bar of the current state |
| RunsTable.DurationParts | components/runs/runs-table.tsx:55-58 | minutes and remaining seconds recombine into the seconds, remaining in 0..59; minutes are positive exactly from 60 s |
| RunsTable.SecondsLabelParse | components/runs/runs-table.tsx:59 | a "Ns" label reads back as N |
| RunsTable.MinutesLabelParse | components/runs/runs-table.tsx:59 | an "Mm Rs" label reads back as 60·M + R |
| RunsTable.MinutesLabelLeadingNumber | components/runs/runs-table.tsx:59 | an "Mm Rs" label starts with M |
| RunsTable.MinutesLabelAfterSpace | components/runs/runs-table.tsx:59 | after the space of "Mm Rs" comes "Rs" |
| RunsTable.NoSpaceAfterDigits | components/runs/runs-table.tsx:59 | the minutes' digits and the "m" hold no space |
| RunsTable.ParseDurationOfParts | components/runs/runs-table.tsx:59 | reading a label from its two numbers |
| RunsTable.FormatDurationRoundTrip | components/runs/runs-table.tsx:55-60 | for non-negative durations the label reads back as the whole seconds |
| RunsTable.LabelRoundTrip | components/runs/runs-table.tsx:57-59 | every whole-second label reads back as its seconds |
| RunsTable.FormatDurationInjective | components/runs/runs-table.tsx:55-60 | durations with different whole seconds get different labels |
| RunsTable.FormatDurationFormsAgree | components/scenario-detail/run-history-tab.tsx:54-59 | the run-history variant, which tests the seconds first, prints the same label |
| RunsTable.PaginationNumbers | components/runs/runs-table.tsx:102-116 | the pushing method yields the closed-form bar |
| RunsTable.RangeShape | components/runs/runs-table.tsx:104-107 | 1..totalPages is a well-shaped bar |
| RunsTable.RunsPageNumbersShape | components/runs/runs-table.tsx:102-116 | from two pages: a well-shaped bar of at most seven items that shows the current page |
| RunsTable.BarsAgree | components/runs/runs-table.tsx:102-116 | the runs bar and the scenarios bar agree up to seven pages and when the current page is away from both ends |
| RunsTable.BarsDifferNearStart | components/runs/runs-table.tsx:109-110 | near the first page the runs bar shows four numbers where the scenarios bar shows two |
| RunsTable.PreviousTarget | components/runs/runs-table.tsx:247 | the arrow moves exactly when not on page 1, to a smaller page ≥ 1 |
| RunsTable.NextTarget | components/runs/runs-table.tsx:263 | the arrow moves exactly when before the last page, to a larger page ≤ the last |
| RunsTable.TargetsInRange | components/runs/runs-table.tsx:247-263 | from a valid page the arrows stay within 1..totalPages and are idle exactly at the ends |
| RunsPage.FilterRunsSpec | app/runs/page.tsx:43-64 | an order-preserving selection holding exactly the runs matching status, picked date range and selected scenario ids |
| RunsPage.EndDateAloneIgnored | app/runs/page.tsx:51 | a range with an end but no start filters nothing |
| RunsPage.DefaultFiltersKeepAll | app/runs/page.tsx:29-64 | the initial filters keep every run |
| RunsPage.SingleSelection | app/runs/page.tsx:58 | selecting one scenario keeps exactly its runs |
| RunsPage.InactiveFiltersKeepAll | app/runs/page.tsx:43-93 | when `hasActiveFilters` is false nothing is filtered out |
| RunsPage.RunsPageState.constructor | app/runs/page.tsx:29-34 | the initial state |
| RunsPage.RunsPageState.Paginated | app/runs/page.tsx:67-71 | at most ten runs, a contiguous part of the filtered list, nonempty for every page in range |
| RunsPage.RunsPageState.SetStatusFilter | app/runs/page.tsx:74-76 | sets the status; page reset exactly on change |
| RunsPage.RunsPageState.SetDateRange | app/runs/page.tsx:74-76 | sets the range; page reset when a range is picked or one was set before |
| RunsPage.RunsPageState.SetSelectedScenarios | app/runs/page.tsx:74-76 | sets the selection; page always reset |
| RunsPage.RunsPageState.ClearFilters | app/runs/page.tsx:87-93 | no filter is active, the filtered list is all runs, and the page is 1 |
| RunsPage.RunsPageState.Previous | components/runs/runs-table.tsx:247 | moves to the previous page when there is one |
| RunsPage.RunsPageState.Next | components/runs/runs-table.tsx:263 | moves to the next page when there is one, never past the last |
| RunsPage.RunsPageState.GoTo | app/runs/page.tsx:176 | jumps to the clicked page |
| RunsPage.RunsPageState.SelectRun | app/runs/page.tsx:78-81 | selects the run and opens the drawer |
| RunsPage.RunsPageState.CloseDrawer | app/runs/page.tsx:83-85 | closes the drawer and keeps the selection |
| IncidentsPage.FilterIncidentsSpec | app/incidents/page.tsx:46-78 | an order-preserving selection holding exactly the incidents matching severity, status, service, date range and search |
| IncidentsPage.EndDateAloneIgnored | app/incidents/page.tsx:58 | a range with no start filters nothing |
| IncidentsPage.SearchIgnoresCase | app/incidents/page.tsx:65-73 | lower-casing the query first does not change the result |
| IncidentsPage.InactiveFiltersKeepAll | app/incidents/page.tsx:36-78 | when `hasActiveFilters` is false nothing is filtered out |
| IncidentsPage.OwnerOrCurrentUser | app/incidents/page.tsx:108 | `owner \|\| "you@example.com"`: a non-empty owner is kept, a missing or empty one becomes the current user |
| IncidentsPage.ActionsSpec | app/incidents/page.tsx:93-108 | acknowledging sets status and owner to the current user and nothing else; resolving sets the status and keeps a real owner; resolving is idempotent |
| IncidentsPage.OfferedActionsMoveForward | components/incidents/incident-drawer.tsx:130-141 | the actions the UI offers only move an incident forward, and neither is offered again afterwards |
| IncidentsPage.UngatedAcknowledgeRegresses | app/incidents/page.tsx:89-102 | the handler itself does not gate: acknowledging a resolved incident moves it back |
| IncidentsPage.ReplaceKeepsSelectionInSync | app/incidents/page.tsx:89-117 | the updated selection equals the updated list entry it came from |
| IncidentsPage.ListMovesForward | app/incidents/page.tsx:89-117 | when the UI offered the action, no incident's status moves back |
| IncidentsPage.AcknowledgeOpenCount | app/incidents/page.tsx:89-120 | acknowledging lowers the open count by the open incidents that carry the id |
| IncidentsPage.ResolveCriticalCount | app/incidents/page.tsx:104-121 | resolving lowers the critical count by the unresolved critical ones with the id |
| IncidentsPage.AcknowledgeKeepsCriticalCount | app/incidents/page.tsx:89-121 | acknowledging an open incident leaves the critical count unchanged |
| IncidentsPage.IncidentsPageState.constructor | app/incidents/page.tsx:15-25 | loading, no incidents, no filters |
| IncidentsPage.IncidentsPageState.Load | app/incidents/page.tsx:28-34 | stores the corpus and ends loading |
| IncidentsPage.IncidentsPageState.Select | app/incidents/page.tsx:80-83 | selects the incident and opens the drawer |
| IncidentsPage.IncidentsPageState.CloseDrawer | app/incidents/page.tsx:85-87 | closes the drawer |
| IncidentsPage.IncidentsPageState.ClearFilters | app/incidents/page.tsx:38-44 | clears every filter, so none is active and nothing is filtered out |
| IncidentsPage.IncidentsPageState.Apply | app/incidents/page.tsx:89-117 | replaces the records with the id and the matching selection |
| IncidentsPage.IncidentsPageState.Acknowledge | app/incidents/page.tsx:89-102 | the list and the selection are acknowledged by id; the open count drops accordingly |
| IncidentsPage.IncidentsPageState.Resolve | app/incidents/page.tsx:104-117 | the list and the selection are resolved by id; the critical count drops accordingly |
| StepsEditor.DefaultLabelsMatchCatalogue | components/scenarios/steps-editor.tsx:41-50 | the default labels agree with the step-type catalogue and are pairwise distinct |
| StepsEditor.AddStep | components/scenarios/steps-editor.tsx:53-61 | appends one "Inject fault" step with an empty config, keeping the others |
| StepsEditor.RemoveStepSpec | components/scenarios/steps-editor.tsx:63-66 | removes exactly the step at the index; an index out of range changes nothing |
| StepsEditor.AddThenRemove | components/scenarios/steps-editor.tsx:53-66 | removing the added step restores the list |
| StepsEditor.MoveStep | components/scenarios/steps-editor.tsx:68-76 | no change when the target is out of range; otherwise the step moves one place and the others keep their order |
| StepsEditor.MovedIndex | components/scenarios/steps-editor.tsx:72-74 | the two splices, pointwise |
| StepsEditor.MoveInPlace | components/scenarios/steps-editor.tsx:72-74 | the in-place array takes the element out and reinserts it at the target |
| StepsEditor.PutBack | components/scenarios/steps-editor.tsx:74 | writing the taken element into the gap completes the move |
| StepsEditor.ShiftTowardsStart | components/scenarios/steps-editor.tsx:73-74 | the elements between the two positions shift one place towards the start |
| StepsEditor.ShiftTowardsEnd | components/scenarios/steps-editor.tsx:73-74 | the elements between the two positions shift one place towards the end |
| StepsEditor.MovedNeighboursSwap | components/scenarios/steps-editor.tsx:68-76 | a one-place move swaps neighbours and keeps the multiset of steps |
| StepsEditor.UpThenDownRestores | components/scenarios/steps-editor.tsx:68-76 | moving a step up and then down restores the list |
| StepsEditor.Retyped | components/scenarios/steps-editor.tsx:80-84 | the retyped step keeps its id and config and takes the type and its default label |
| StepsEditor.UpdateStepType | components/scenarios/steps-editor.tsx:78-86 | only the step at the index is retyped |
| StepsEditor.RetypedLastWins | components/scenarios/steps-editor.tsx:78-86 | retyping twice is retyping with the last type |
| ScenarioForm.ValueOf | components/scenarios/scenario-form.tsx:140 | reading field f yields a value of field f |
| ScenarioForm.WithFieldSpec | components/scenarios/scenario-form.tsx:155 | writing a field sets it and leaves every other field as it was |
| ScenarioForm.WithOwnValue | components/scenarios/scenario-form.tsx:155 | writing a field's own value changes nothing |
| ScenarioForm.BlankFormDefaults | components/scenarios/scenario-form.tsx:44-69 | a new form starts with the documented defaults and the three default steps |
| ScenarioForm.FieldErrorSpec | components/scenarios/scenario-form.tsx:74-111 | each field's error holds exactly under its rule (blank or over-long name, over-long description, missing service or environment, blank cron when scheduled, no steps), and only the six checked fields can have one |
| ScenarioForm.Check | components/scenarios/scenario-form.tsx:116-132 | one `if (error) newErrors.f = error` step records exactly field f's error |
| ScenarioForm.ValidateForm | components/scenarios/scenario-form.tsx:113-136 | the error map holds exactly the failing fields with their messages, and the form is valid exactly when it is empty |
| ScenarioForm.BlankFormErrors | components/scenarios/scenario-form.tsx:74-136 | a blank form fails on name, service and environment only |
| ScenarioForm.FieldErrorLocal | components/scenarios/scenario-form.tsx:151-160 | editing one field does not change another field's error, except that the schedule type governs the cron error |
| ScenarioForm.ManualClearsCronError | components/scenarios/scenario-form.tsx:99-101 | a scheduled form with no cron has the cron error; switching to manual clears it |
| ScenarioForm.ScenarioFormState.constructor | components/scenarios/scenario-form.tsx:56-72 | form data from the seed, no errors, nothing touched |
| ScenarioForm.ScenarioFormState.HandleBlur | components/scenarios/scenario-form.tsx:138-142 | marks the field touched and records its current error |
| ScenarioForm.ScenarioFormState.UpdateField | components/scenarios/scenario-form.tsx:151-160 | writes the field, and re-validates it, with the schedule type of before the update, only if it was touched |
| ScenarioForm.ScenarioFormState.HandleSubmit | components/scenarios/scenario-form.tsx:144-149 | submits exactly a valid form, with its data, after showing every field's error |
| ScenarioSheet.InitialData | components/scenarios/scenario-sheet.tsx:28-45 | seeds exist exactly in edit mode |
| ScenarioSheet.FormStartsFromScenario | components/scenarios/scenario-sheet.tsx:30-45 | an edit form starts from the scenario's fields, with a missing cron as ""; a new form from the defaults |
| ScenarioSheet.UnchangedEditRoundTrip | components/scenarios/scenario-sheet.tsx:30-45 | submitting an unchanged edit form only restamps the time and turns a missing cron into "" |
| ScenarioSheet.UnchangedEditKeepsScenario | components/scenarios/scenario-sheet.tsx:30-45 | with a cron set, an unchanged edit only restamps the time |
| ScenarioSheet.CreatedScenarioReopens | components/scenarios/scenario-sheet.tsx:30-45 | reopening a newly created scenario yields the data it was created from |
| ScenarioMultiSelect.HandleSelectSpec | components/runs/scenario-multi-select.tsx:35-41 | a new id is appended; a selected id loses every occurrence while the others stay in order; selecting a new id twice restores the selection |
| ScenarioMultiSelect.HandleRemoveSpec | components/runs/scenario-multi-select.tsx:43-46 | the id is gone, the rest keep their order, and an absent id changes nothing |
| ScenarioMultiSelect.TriggerLabelSpec | components/runs/scenario-multi-select.tsx:48-66 | over distinct ids one selection shows that scenario's name, two or more show "N selected" |
| ScenarioMultiSelect.CatalogueIdsDistinct | lib/mock-data.ts:18-25 | the six catalogue scenarios have distinct ids |
| ActionsChecklist.ToggledSpec | components/incident-detail/actions-checklist.tsx:19-27 | a toggle flips the index and no other, toggling twice restores the set, and the size moves by one |
| ActionsChecklist.Indices | components/incident-detail/actions-checklist.tsx:66 | the action indices 0..total−1, total in number |
| ActionsChecklist.SubsetNoLarger | components/incident-detail/actions-checklist.tsx:29 | a subset is no larger |
| ActionsChecklist.PercentBounds | components/incident-detail/actions-checklist.tsx:31 | completed/total·100 lies in [0, 100], is 100 exactly when all are done and 0 exactly when none is |
| ActionsChecklist.ChecklistState.constructor | components/incident-detail/actions-checklist.tsx:17 | nothing is ticked |
| ActionsChecklist.ChecklistState.ToggleItem | components/incident-detail/actions-checklist.tsx:19-27 | the set after the copy-add/delete-store is the toggled set, and only action indices are ever ticked |
| ActionsChecklist.ChecklistState.CompletedCount | components/incident-detail/actions-checklist.tsx:29-30 | never more than the number of actions |
| ActionsChecklist.ChecklistState.ProgressPercent | components/incident-detail/actions-checklist.tsx:31 | the progress always lies in [0, 100] |
| ActionsChecklist.ChecklistState.ProgressExtremes | components/incident-detail/actions-checklist.tsx:31 | the bar is full exactly when every action is ticked and empty exactly when none is |
| RootCause.ConfidenceLevelBands | components/incident-detail/root-cause-section.tsx:17-21 | High exactly from 85, Medium exactly on [70, 85), Low exactly below 70 |
| RootCause.ConfidenceLevelMonotone | components/incident-detail/root-cause-section.tsx:17-21 | a higher confidence never gets a lower level |
| RootCause.SeverityDecidesLevel | components/incident-detail/root-cause-section.tsx:17-21 | whatever the jitter, critical incidents are High, low ones Low, medium ones never High |
| ScenarioHeader.ArchiveGatesActions | components/scenario-detail/scenario-header.tsx:87-108 | Edit, Publish and Run Now are enabled exactly for active scenarios, and archiving flips them |

## Left out

- Randomness and time are parameters. A `Math.random()` draw is a real in [0, 1); `Date.now()` is `now`. The random generators themselves are not modelled.
- The floating-point metrics of a run detail are left out, because they are float arithmetic on random draws: `latencyP95`, throughput, CPU and memory (`lib/mock-data.ts:599-605`). Metrics are exact reals, not IEEE doubles.
- Loading timers, the simulated one-second submit delay and `isSubmitting` are left out. They are timing only.
- Rendering, styles, colours, the hardcoded contributing factors, the dashboard cards and the display-only tabs are left out. They hold no logic.
- The UI-only gates: the arrow and step-move buttons are disabled at the ends, and the incident actions are offered only in the right status. These are modelled as predicates, and the page handlers are modelled ungated, as written.
- Text: `toLowerCase` and `trim` are modelled on ASCII. Unicode case mapping and Unicode white space are not part of this model.
- Text.ParseInt: models `parseInt` only on strings that start with their digits. Leading white space and signs never occur in the strings it parses here.
- The React reset effect is modelled by the equality of state values. For the runs page, a fresh range object or selection array always resets; `undefined` to `undefined` does not. Reference identity beyond that is not modelled.
- ScenariosPage.Updated: copies the form's fields into the record's own fields. The `maxErrorRate` and `autoStopEnabled` keys that the spread also adds at the top level of the record are not kept, since the record type has no such fields.
- MockRuns.GetRunDetail: the environment follows the id's fifth character only for ids of length at least five. For shorter ids, `charCodeAt(4)` is NaN and the JavaScript array index is undefined; this is not modelled.
- ScenariosPage.ScenariosPageState.Next: requires at least one page. The arrow is rendered only when there are two or more.
- StepsEditor.MoveStep and StepsEditor.UpdateStepType require a valid index. Only the row buttons call them, so out-of-range JavaScript behaviour (sparse arrays) is not modelled.
- ScenarioForm.ScenarioFormState.UpdateField: the validation of the cron field still uses the schedule type from before the update, as the code does. A cron error therefore stays until the cron field is edited or blurred again.
- GetScenarioRuns: its own contract states only the bound of ten; which runs are kept (the first ten matches, in order) is stated by MockScenarios.GetScenarioRunsSpec.
- ScenarioForm.FieldError: the length limits of name (100) and description (500) count Unicode scalar values, while JavaScript's `.length` counts UTF-16 code units. A name of 51 characters outside the Basic Multilingual Plane (emoji, say) is 102 code units long: the source rejects it, the model accepts it. The same holds for ScenarioForm.FieldErrorSpec and ScenarioForm.ValidateForm.
- Export, alerts, the publish action and navigation are not part of this model. They are links and callbacks with no data logic.
