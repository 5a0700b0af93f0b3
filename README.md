# Dashboard data-to-chart model

The dashboard is a React/Redux front end for monitoring an Oracle database. This project models, in Dafny, the logic between its data feeds and what its components draw. It covers:

- **CPUBySQL.** SQL statements are ranked by CPU share. Their samples are drawn as a cubic spline with a filled area underneath, and the ranked table has rows that expand.
- **CPUBySession.** Sessions are drawn as a polyline with a hover tooltip. A top-ten table shows rank badges, load bars and formatted CPU times.
- **IncidentTable.** Each incident gets a row highlight, a role badge, an elapsed-time colour and a wait-class badge. Each main row can be followed by a detail row.
- **WaitClassDistribution.** It gives each wait class a colour (with a fallback), totals the percentages and estimates session counts.
- **BlockingGraph.** Its tooltip reads series values out of the chart payload, and `mode` chooses which sections are shown.
- **The `data` slice.** Each of the four fetches goes through pending, fulfilled and rejected reducers, and `clearErrors` drops all errors.
- **The `dashboard` slice.** It has eight setter reducers.
- **The data hooks.** They decide which fetches a render starts and which auto-refresh period applies.

Modules:

- **Shared modules.**
  - `Wrappers` holds `Option`.
  - `Records` holds the feed records.
  - `Geometry` holds the SVG path commands M, L, C and Z of section 8.3 of SVG 1.1, kept as data rather than printed strings.
  - `StableSort` models `Array.prototype.sort` with a numeric comparator. ECMA-262 requires this sort to be stable, so for a given key the result is unique (`StableSort.SortByUnique`).
  - `Durations` holds the duration format that two components share, together with a reader that parses it back.
  - `Expansion` holds the expanded-row set and the `flatMap` that interleaves rows.
- **One module per component or slice.**
  - The two Redux slices are classes whose methods mutate their fields. Each method is proved equal to a pure `Reduce` function, and the lemmas are about `Reduce`.
  - The expanded-row state and the hover state are small classes.
  - Everything else is functions.

Session hover state is not cleared when new sessions arrive. `CPUBySession.Hover` has no reset method.

## Model

| member | source | states |
|---|---|---|
| StableSort.SortBy | src/app/components/CPUBySQL.jsx:19 | The result is a permutation of the input (same length, same multiset) and its keys are non-decreasing. |
| StableSort.SortByStable | src/app/components/CPUBySQL.jsx:19 | Elements with equal keys keep their input order (ECMA-262 stability). |
| StableSort.SortByUnique | src/app/components/CPUBySQL.jsx:19 | Every sorted rearrangement that keeps ties in input order equals SortBy: the result does not depend on how the engine sorts. |
| StableSort.SortedTiesUnique | src/app/components/CPUBySQL.jsx:19 | Two sorted sequences with the same tie classes are equal. |
| StableSort.SortByIdempotent | src/app/components/CPUBySQL.jsx:19 | Sorting a sorted copy changes nothing. |
| StableSort.PrefixDominates | src/app/components/CPUBySQL.jsx:20 | Every element left out of a prefix of a sorted sequence has a key at least that of every kept element. |
| CPUBySQL.SortedQueries | src/app/components/CPUBySQL.jsx:19 | `sortedQueries` is a permutation of the queries with CPU share non-increasing. Equal shares stay in input order. |
| CPUBySQL.SortedQueriesIsTheStableSort | src/app/components/CPUBySQL.jsx:19 | Any descending, tie-preserving rearrangement equals `sortedQueries`. |
| CPUBySQL.SortedQueriesIdempotent | src/app/components/CPUBySQL.jsx:19 | Re-ranking the ranking changes nothing. |
| CPUBySQL.TopQueries | src/app/components/CPUBySQL.jsx:20 | `topQueries` has min(10, n) entries and is a prefix of the ranking. No query left out has a higher CPU share than a kept one. |
| CPUBySQL.Chronological | src/app/components/CPUBySQL.jsx:31-33 | The chart copy is a permutation of the queries whose timestamps are non-decreasing. Samples with equal timestamps keep their feed order (stable sort), so their left-to-right order in the chart is fixed. |
| CPUBySQL.XAt | src/app/components/CPUBySQL.jsx:36 | x runs from 0 for the first sample to the full width 1400 for the last, staying within [0, 1400]. |
| CPUBySQL.XStrictlyIncreasing | src/app/components/CPUBySQL.jsx:36 | Later samples lie strictly to the right. |
| CPUBySQL.XEvenlySpaced | src/app/components/CPUBySQL.jsx:36 | Neighbouring samples are width/(n-1) apart. |
| CPUBySQL.YOf | src/app/components/CPUBySQL.jsx:37-39 | 0 % maps to the bottom (360) and 100 % to the top (0), and shares in 0..100 stay inside the viewport. CpuAt inverts the mapping. |
| CPUBySQL.YStrictlyDecreasing | src/app/components/CPUBySQL.jsx:37-39 | A higher share is drawn strictly higher. |
| CPUBySQL.Points | src/app/components/CPUBySQL.jsx:28-43 | One point per sample, in chronological order, at XAt and YOf. |
| CPUBySQL.Segment | src/app/components/CPUBySQL.jsx:52-58 | A cubic segment ends at the point. Both control points sit on the horizontal midpoint, at the previous point's height and then the point's own. |
| CPUBySQL.Spline | src/app/components/CPUBySQL.jsx:49-59 | The reduce's accumulator is a moveto to the first point, then one Segment per later point. |
| CPUBySQL.LinePath | src/app/components/CPUBySQL.jsx:46-60 | Empty for fewer than two points, otherwise the spline. |
| CPUBySQL.LinePassesThroughPoints | src/app/components/CPUBySQL.jsx:46-60 | The i-th command ends at the i-th point, so the curve passes through every sample in order. |
| CPUBySQL.AreaPath | src/app/components/CPUBySQL.jsx:62-67 | Without points the path has an undefined vertex. Otherwise it is the line, the baseline vertex under the last point, the baseline vertex under the first point, then a close. |
| CPUBySQL.AreaClosesLineAgainstBaseline | src/app/components/CPUBySQL.jsx:62-67 | For two or more samples in 0..100 %, the area closes along the viewport's bottom edge from (1400, 360) to (0, 360), and every vertex of the line lies inside the viewport. |
| CPUBySQL.SeverityOf | src/app/components/CPUBySQL.jsx:76-80 | Critical if and only if cpu >= 70, Warning if and only if 40 <= cpu < 70, Normal below 40. The same tiers colour the rows, bars and text (lines 206, 250, 259). |
| CPUBySQL.SeverityMonotone | src/app/components/CPUBySQL.jsx:76-80 | A higher CPU share never gets a milder tier. |
| CPUBySQL.TableRows | src/app/components/CPUBySQL.jsx:200-315 | The main rows are all ranked queries (not only the top ten) with ranks 1..n, in ranking order. |
| CPUBySQL.TableRowsInterleave | src/app/components/CPUBySQL.jsx:285-312 | A detail row always follows its own query's main row, and only for an expanded SQL id. A main row is followed by its detail row if and only if its id is expanded. |
| Expansion.Toggled | src/app/components/CPUBySQL.jsx:90-98 | The id is in the new set if and only if it was not in the old one, and no other id changes. IncidentTable.jsx:10-18 is the same code. |
| Expansion.ToggleTwice | src/app/components/CPUBySQL.jsx:90-98 | Toggling an id twice restores the set. |
| Expansion.ToggleCommutes | src/app/components/CPUBySQL.jsx:90-98 | Toggles of two ids commute. |
| Expansion.ExpandedRows.constructor | src/app/components/CPUBySQL.jsx:16 | The table starts with nothing expanded. |
| Expansion.ExpandedRows.Toggle | src/app/components/CPUBySQL.jsx:90-98 | Copying the set, deleting or adding the id, and installing the copy gives Toggled of the old set. |
| Expansion.FlatRows | src/app/components/IncidentTable.jsx:69-161 | No rows for no items. Otherwise the first row is the first item's main row. |
| Expansion.FlatRowsMains | src/app/components/IncidentTable.jsx:69-161 | The main rows are exactly the items, in input order, with consecutive ranks. |
| Expansion.DetailFollowsMain | src/app/components/IncidentTable.jsx:145-158 | A detail row sits right after its own item's main row, whose key is expanded. |
| Expansion.MainExpandedIff | src/app/components/IncidentTable.jsx:145-158 | A main row is followed by its detail row if and only if its key is expanded. |
| Durations.Breakdown | src/app/components/CPUBySession.jsx:13-20 | Under 60 s the value is kept. Under an hour it gives minutes and seconds with m*60+s equal to the value. Otherwise it gives hours and minutes, with the value inside the minute they name. |
| Durations.NatToString | src/app/components/CPUBySession.jsx:15-19 | Prints a number as decimal digits with no leading zero. |
| Durations.NatToStringRoundTrip | src/app/components/CPUBySession.jsx:15-19 | Parsing the printed digits gives the number back. |
| Durations.IntToString | src/app/components/CPUBySession.jsx:15 | The text is never empty and starts with a minus sign if and only if the value is negative. The digits that follow read back as the absolute value. |
| Durations.Format | src/app/components/CPUBySession.jsx:15-19 | Reading the formatted text back gives exactly its breakdown, and no other text reads back as that breakdown. So the texts are exactly "<s>s", "<m>m <s>s" and "<h>h <m>m", with no leading zeros. |
| Durations.ParseClockExact | src/app/components/CPUBySession.jsx:15-19 | A text that reads back as a breakdown is exactly that breakdown's rendering. Numbers with leading zeros and "-0s" are rejected. |
| Durations.ReadingDeterminesText | src/app/components/CPUBySession.jsx:15-19 | For each breakdown, its rendering is the only text that reads back as it. |
| Durations.RenderRoundTrip | src/app/components/CPUBySession.jsx:15-19 | Every breakdown renders to text that parses back to that breakdown. |
| Durations.FormatDistinguishes | src/app/components/CPUBySession.jsx:13-20 | Two durations print the same text only if they break down the same way. |
| Durations.FormatInjectiveBelowMinute | src/app/components/CPUBySession.jsx:15 | Below a minute, different values print differently. |
| CPUBySession.FormatCPUTime | src/app/components/CPUBySession.jsx:13-20 | A missing CPU time prints "0s". Whatever the input, the text reads back as the breakdown of the time, with a missing time counted as 0, and it is the only text that does. |
| CPUBySession.Chronological | src/app/components/CPUBySession.jsx:30-31 | A permutation of the samples with non-decreasing timestamps, equal timestamps kept in input order. |
| CPUBySession.Processed | src/app/components/CPUBySession.jsx:26-38 | Empty for a missing or empty feed. Otherwise it has one datum per sample, oldest first, with time, cpuPct, sid and username copied. |
| CPUBySession.ProcessedFromFeed | src/app/components/CPUBySession.jsx:26-38 | Every chart datum comes from a sample of the feed. |
| CPUBySession.TopSessions | src/app/components/CPUBySession.jsx:41-44 | A missing feed throws (None). Otherwise the result is the first min(10, n) of the descending stable ranking, in descending order. No session left out has a higher share than a kept one. |
| CPUBySession.XStep | src/app/components/CPUBySession.jsx:55 | With two or more points the gaps share the 1280-unit graph width exactly. Otherwise the step is 0. |
| CPUBySession.XOf | src/app/components/CPUBySession.jsx:59 | The first point is at x = 60 and the last (for n > 1) at x = 1340. Every point lies in [60, 1340]. |
| CPUBySession.XStrictlyIncreasing | src/app/components/CPUBySession.jsx:59 | Later points lie strictly to the right. |
| CPUBySession.YOf | src/app/components/CPUBySession.jsx:60 | 0 % maps to 360 and 100 % to 40, and shares in 0..100 stay in [40, 360]. CpuAt inverts the mapping. |
| CPUBySession.YStrictlyDecreasing | src/app/components/CPUBySession.jsx:60 | A higher CPU share is drawn strictly higher. |
| CPUBySession.Points | src/app/components/CPUBySession.jsx:58-62 | One point per datum, in order, at XOf and YOf. |
| CPUBySession.ChartSpansGraph | src/app/components/CPUBySession.jsx:55-62 | With two or more samples the chart runs from the left padding (60) to the right padding (1340). |
| CPUBySession.PathContent | src/app/components/CPUBySession.jsx:64-66 | The i-th command ends at the i-th point. Only the first command is a moveto, and every later one is a lineto. |
| CPUBySession.LastXOrPadding | src/app/components/CPUBySession.jsx:70 | With no points, or a last x of 0, the value is the padding. Otherwise it is the last x. |
| CPUBySession.AreaContent | src/app/components/CPUBySession.jsx:68-73 | The polyline, a lineto down to the baseline (y = 360), a lineto to the left padding, then a close. |
| CPUBySession.AreaClosesUnderCurve | src/app/components/CPUBySession.jsx:68-73 | For chart points the area drops straight from the last point to the baseline and returns under the first point. With no data it degenerates to the bottom-left corner. |
| CPUBySession.TooltipAt | src/app/components/CPUBySession.jsx:106-113 | The tooltip is placed at x/1400 and y/400 as percentages, and carries the point's time and CPU share. |
| CPUBySession.TooltipInsideViewport | src/app/components/CPUBySession.jsx:106-110 | For any chart series, the processed sessions among them, every point with a share in 0..100 % places its tooltip strictly inside the viewport. |
| CPUBySession.Hover.constructor | src/app/components/CPUBySession.jsx:23 | Nothing is hovered at first. |
| CPUBySession.Hover.MouseEnter | src/app/components/CPUBySession.jsx:157 | Entering a point's hit area makes it the hovered point. |
| CPUBySession.Hover.MouseLeave | src/app/components/CPUBySession.jsx:158 | Leaving clears the hovered point. |
| CPUBySession.Hover.Tooltip | src/app/components/CPUBySession.jsx:103-115 | The overlay is rendered if and only if a point is hovered, and it then shows that point's TooltipAt. |
| CPUBySession.RankCell | src/app/components/CPUBySession.jsx:218-227 | The badge number is index + 1. Gold, silver and bronze go to indices 0, 1 and 2 only, and a plain "#n" to index 3 and beyond. |
| CPUBySession.BadgesFollowLoad | src/app/components/CPUBySession.jsx:212-227 | Down the top-sessions table the CPU share never rises, the badge never improves and the number strictly increases. |
| CPUBySession.BarColorOf | src/app/components/CPUBySession.jsx:242-245 | Red if and only if cpu > 80, orange if and only if 50 < cpu <= 80, blue otherwise. |
| CPUBySession.BarColorMonotone | src/app/components/CPUBySession.jsx:242-245 | The bar colour never gets milder as the share grows. |
| CPUBySession.Sections | src/app/components/CPUBySession.jsx:79-187 | The chart is shown if and only if mode is 'full' or 'graph-only'. The table is shown if and only if mode is 'full' or 'table-only'. When both are shown, the chart comes first. |
| IncidentTable.FormatElapsedTime | src/app/components/IncidentTable.jsx:20-26 | The text reads back as the breakdown of the elapsed seconds, and it is the only text that does. |
| IncidentTable.RoleBadge | src/app/components/IncidentTable.jsx:28-35 | BLOCKER gets destructive, VICTIM secondary and LONG RUNNER default, each if and only if. Any other role has no variant (undefined). |
| IncidentTable.WaitClassBadge | src/app/components/IncidentTable.jsx:112-116 | Destructive if and only if the wait class is Application or Concurrency, otherwise outline. |
| IncidentTable.ElapsedColor | src/app/components/IncidentTable.jsx:106 | Red if and only if the elapsed time is over 1800 s, orange if and only if it is in (300, 1800], grey otherwise. |
| IncidentTable.ElapsedColorMonotone | src/app/components/IncidentTable.jsx:106 | A longer run never gets a milder colour. |
| IncidentTable.RowHighlight | src/app/components/IncidentTable.jsx:37-48 | Each of the four highlights holds if and only if its rule is the first to apply. The order is: a BLOCKER impacting more than 2 sessions, then an Application or Concurrency wait, then a run over 1800 s, then none. |
| IncidentTable.HighlightAgreesWithCells | src/app/components/IncidentTable.jsx:37-48 | An unhighlighted row has an outline wait badge and a non-red elapsed time. A long-run row shows red time. A destructive wait badge implies a red or orange row. |
| IncidentTable.BlockingSidCell | src/app/components/IncidentTable.jsx:121-127 | The SID is shown if and only if present and non-zero (truthy), and it is then the incident's blocking SID. |
| IncidentTable.ImpactCell | src/app/components/IncidentTable.jsx:130-137 | The count is shown if and only if some session is impacted. |
| IncidentTable.IncidentRows | src/app/components/IncidentTable.jsx:69-161 | The main rows are the incidents in feed order. There are no rows for no incidents. The rank that every main row carries is not displayed in this table. |
| IncidentTable.IncidentRowsInterleave | src/app/components/IncidentTable.jsx:145-158 | A detail row follows its own incident's main row, and only for an expanded id. A main row is followed by its detail row if and only if its id is expanded. |
| IncidentTable.CollapsedTableIsOneRowEach | src/app/components/IncidentTable.jsx:69-161 | With nothing expanded there is exactly one row per incident. |
| DataSlice.PerCategory.Set | src/store/dataSlice.js:91-92 | Assigning one key of `loading` or `errors` changes that key only. |
| DataSlice.InitialState | src/store/dataSlice.js:53-72 | Every feed is empty, nothing is loading and there are no errors. |
| DataSlice.Store | src/store/dataSlice.js:94-144 | A fulfilled payload replaces the fields of its own category and no other data, flag or error. |
| DataSlice.Reduce | src/store/dataSlice.js:74-150 | clearErrors clears every error and keeps data and flags. Pending raises the flag and clears the error, keeping the data. Fulfilled lowers the flag and stores the payload, keeping the error. Rejected lowers the flag and records the message, keeping the data. |
| DataSlice.CategoriesIsolated | src/store/dataSlice.js:88-148 | A fetch's action never changes another category's data, loading flag or error. |
| DataSlice.PendingThenFulfilled | src/store/dataSlice.js:90-97 | A successful fetch ends with its data stored, not loading and with no error. |
| DataSlice.PendingThenRejected | src/store/dataSlice.js:90-101 | A failed fetch ends not loading, with its message, and with the data it had before. |
| DataSlice.RetryClearsError | src/store/dataSlice.js:90-101 | Starting the fetch again clears the previous failure's message. |
| DataSlice.ClearErrorsIdempotent | src/store/dataSlice.js:78-85 | Clearing errors twice is the same as clearing them once. |
| DataSlice.FirstFetchIsolated | src/store/dataSlice.js:53-148 | From the initial state, one feed's fetch leaves the other feeds in their initial state. |
| DataSlice.DataStore.constructor | src/store/dataSlice.js:53-72 | The store starts in InitialState. |
| DataSlice.DataStore.ClearErrors | src/store/dataSlice.js:78-85 | After the mutation the state is Reduce(old, clearErrors). |
| DataSlice.DataStore.Pending | src/store/dataSlice.js:90-93 | After the mutation the state is Reduce(old, pending). |
| DataSlice.DataStore.Fulfilled | src/store/dataSlice.js:94-97 | After the mutation the state is Reduce(old, fulfilled). |
| DataSlice.DataStore.Rejected | src/store/dataSlice.js:98-101 | After the mutation the state is Reduce(old, rejected). |
| DataSlice.DataStore.Dispatch | src/store/dataSlice.js:87-149 | Routing any action to its case reducer gives Reduce(old, action). |
| DashboardSlice.InitialState | src/store/dashboardSlice.js:3-11 | ORCL_PROD, 5h, 30s and overview, with no incident selected, not loading and no error. |
| DashboardSlice.Reduce | src/store/dashboardSlice.js:16-41 | Each action stores its payload in its own field, and every other field stays as it was. clearError sets the error to null. |
| DashboardSlice.ReduceIdempotent | src/store/dashboardSlice.js:17-40 | Every reducer is a setter: dispatching it twice is the same as dispatching it once. |
| DashboardSlice.LastWriteWins | src/store/dashboardSlice.js:17-40 | Of two actions on the same field, the later one decides. |
| DashboardSlice.DistinctFieldsCommute | src/store/dashboardSlice.js:17-40 | Actions on different fields commute. |
| DashboardSlice.ClearErrorUndoesSetError | src/store/dashboardSlice.js:35-40 | clearError equals setError(null) and undoes any earlier setError. |
| DashboardSlice.Dashboard.constructor | src/store/dashboardSlice.js:3-11 | The slice starts in InitialState. |
| DashboardSlice.Dashboard.SetSelectedDb | src/store/dashboardSlice.js:17-19 | The new state is Reduce(old, setSelectedDb). |
| DashboardSlice.Dashboard.SetTimeRange | src/store/dashboardSlice.js:20-22 | The new state is Reduce(old, setTimeRange). |
| DashboardSlice.Dashboard.SetAutoRefresh | src/store/dashboardSlice.js:23-25 | The new state is Reduce(old, setAutoRefresh). |
| DashboardSlice.Dashboard.SetActiveSection | src/store/dashboardSlice.js:26-28 | The new state is Reduce(old, setActiveSection). |
| DashboardSlice.Dashboard.SetSelectedIncident | src/store/dashboardSlice.js:29-31 | The new state is Reduce(old, setSelectedIncident). |
| DashboardSlice.Dashboard.SetLoading | src/store/dashboardSlice.js:32-34 | The new state is Reduce(old, setLoading). |
| DashboardSlice.Dashboard.SetError | src/store/dashboardSlice.js:35-37 | The new state is Reduce(old, setError). |
| DashboardSlice.Dashboard.ClearError | src/store/dashboardSlice.js:38-40 | The new state is Reduce(old, clearError). |
| DatabaseData.Requests | src/hooks/useDatabaseData.js:32-58 | Incidents, storage and blocking are fetched if and only if their effect runs (first render, or the database changed) and the database is truthy. CPU metrics are fetched if and only if the database or the time range changed (or on the first render) and both are truthy. Every request carries the current database and range. |
| DatabaseData.InEffectOrder | src/hooks/useDatabaseData.js:32-58 | The requests come in effect order: incidents, CPU metrics, storage, blocking. |
| DatabaseData.RequestsOnePerFeed | src/hooks/useDatabaseData.js:32-58 | One render starts at most one fetch per feed. |
| DatabaseData.MountFetchesEverything | src/hooks/useDatabaseData.js:32-58 | The first render with the initial dashboard state fetches all four feeds of ORCL_PROD, and CPU with 5h. |
| DatabaseData.TimeRangeChangeRefetchesCpuOnly | src/hooks/useDatabaseData.js:39-44 | Changing only the time range refetches only the CPU metrics. |
| DatabaseData.UnchangedDepsFetchNothing | src/hooks/useDatabaseData.js:32-58 | A render with unchanged dependencies fetches nothing. |
| DatabaseData.NoDatabaseNoFetch | src/hooks/useDatabaseData.js:33-58 | With an empty (falsy) database nothing is fetched. |
| DatabaseData.RefreshInterval | src/hooks/useDatabaseData.js:78-87 | There is no timer if and only if the setting is 'off'. '10s', '30s' and '1m' give 10000, 30000 and 60000 ms, and any other value gives 30000. |
| DatabaseData.InitialRefreshEvery30s | src/hooks/useDatabaseData.js:83-87 | The initial dashboard refreshes every 30 000 ms. |
| WaitClass.ColorOf | src/app/components/WaitClassDistribution.jsx:33 | A known class gets its COLORS entry. An unknown class gets the Other grey. The colour is always one of the palette's. |
| WaitClass.KnownClassesDistinct | src/app/components/WaitClassDistribution.jsx:3-10 | The five named classes have five different colours, none of them the fallback. |
| WaitClass.TotalIsSum | src/app/components/WaitClassDistribution.jsx:13 | The left fold of the reduce equals the sum of the values. |
| WaitClass.TotalBoundsEachValue | src/app/components/WaitClassDistribution.jsx:13 | With non-negative values, each value lies between 0 and the total. |
| WaitClass.JsRound | src/app/components/WaitClassDistribution.jsx:62 | `Math.round` returns the integer within half of x, rounding halves up. |
| WaitClass.SessionCount | src/app/components/WaitClassDistribution.jsx:62 | The session count is within half a session of value/100 times total. |
| WaitClass.Legend | src/app/components/WaitClassDistribution.jsx:50-66 | One row per item in data order, with its name, value, fallback colour and session count. |
| WaitClass.SliceColors | src/app/components/WaitClassDistribution.jsx:32-34 | Each pie slice has the colour of its legend swatch. |
| WaitClass.CountsNearShares | src/app/components/WaitClassDistribution.jsx:62 | The rounded counts add up to within half a session per row of the exact shares. |
| WaitClass.LegendCountsNearTotal | src/app/components/WaitClassDistribution.jsx:13-62 | When the percentages add up to 100, the legend's counts add up to the total, to within half a session per row. |
| BlockingGraph.FindKey | src/app/components/BlockingGraph.jsx:26-28 | `find` returns the first entry with the key, or none if no entry has it. |
| BlockingGraph.ValueOf | src/app/components/BlockingGraph.jsx:26-28 | The value of the first entry with the key. A missing entry or a missing value reads as 0. |
| BlockingGraph.Tooltip | src/app/components/BlockingGraph.jsx:24-65 | The tooltip is rendered if and only if it is active and the payload is non-empty. It then shows the three values read, and their sum as the total. |
| BlockingGraph.TooltipOfPoint | src/app/components/BlockingGraph.jsx:24-29 | For a chart point's payload it shows active, waiting, idle and their sum. |
| BlockingGraph.MissingSeriesCountsZero | src/app/components/BlockingGraph.jsx:28-29 | A series missing from the payload shows 0 and adds nothing to the total. |
| BlockingGraph.FirstEntryWins | src/app/components/BlockingGraph.jsx:26 | Later entries with a key already present do not change the value read. |
| BlockingGraph.Sections | src/app/components/BlockingGraph.jsx:249-262 | 'graph-only' shows only the graph and 'cards-only' only the cards. Any other mode shows the cards, then the graph. |

## Left out

- Network and I/O: the async thunks, the API client, timers, `useEffect` scheduling and React rendering are not modelled. An effect is modelled as the requests one render issues, and the timer as its period.
- Charting library, JSX markup, icons and the UI kit: only the values passed to them are modelled.
- Number and date printing: `toFixed`, `toLocaleString`, `toUTCString` and `toLocaleTimeString` are not modelled. Path strings are modelled as lists of path commands rather than printed text.
- Floating point: CPU shares, coordinates and percentages are exact reals. Rounding error and NaN are not modelled, so `Math.round` is exact `floor(x + 0.5)`.
- CPUBySQL.Points: requires a number of samples other than 1. With exactly one sample the source divides 0 by 0 and places the point at NaN.
- CPUBySQL: a missing `queries` prop makes the sort on line 19 throw before the chart's own null guard is reached. Queries are therefore always a sequence here.
- CPUBySQL: the `chartData` list built from `topQueries` (lines 70-74) is never rendered and is not modelled.
- CPUBySQL: the component's own `formatCPUTime` (lines 82-88), the CPU efficiency formula (line 300) and the red top-three rank marks (lines 227-230) are not modelled. The first two print with `toFixed`.
- CPUBySession: highlighting the hovered point by object identity (`hoveredPoint === p`, lines 163-164) is not modelled. The x-axis labels (lines 173-179) format dates and are not modelled either.
- CPUBySession.FormatCPUTime and IncidentTable.FormatElapsedTime: seconds are whole numbers. A fractional CPU time, and the floor of a negative value, are not modelled.
- IncidentTable: row clicks, SQL text and other pass-through cells only forward props, and are not modelled.
- WaitClass.ColorOf: names that are JavaScript object-prototype keys such as `constructor` are not modelled. The source would look them up on the prototype.
- IncidentTable.RoleBadge: a role that is an object-prototype key such as `constructor` is not modelled. `variants[role]` (IncidentTable.jsx:28-35) would return an inherited function rather than `undefined`.
- DatabaseData.RefreshInterval: a setting that is an object-prototype key such as `constructor` is not modelled. The lookup at useDatabaseData.js:83-87 would yield an inherited function rather than falling back to 30000.
- CPUBySession.Sections and BlockingGraph.Sections: `mode` is always a string. An omitted `mode` prop takes its default (`'full'` at CPUBySession.jsx:22) and is modelled as `"full"`.
- DataSlice: every payload is modelled as well formed. A fulfilled payload missing a field, which would store `undefined`, and a rejected message that is `undefined` are not modelled.
- DatabaseData.Truthy: `selectedDb` and `timeRange` are strings, and only the empty string is falsy. A `null` set through the dashboard slice is not modelled.
- StorageHealth, App, Sidebar, SQLDetailDrawer, KPICard, LoadingStates, SessionStateDistribution and the server are not part of this model.
