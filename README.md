# DashboardEleicao in Dafny

A Dafny model of the client-side logic of DashboardEleicao. DashboardEleicao is a React dashboard for an opinion survey. Field researchers collect surveys, and the dashboard fetches and aggregates them. The model covers:

- **Charts.** The counters behind the charts of the dashboard page (`src/pages/Dashboard.tsx`) and the analytics page (`src/pages/Analytics.tsx`):
  - surveys per day over the last seven days;
  - age bands (five on the dashboard, six on the analytics page);
  - satisfaction levels;
  - voting intention.
- **Active researchers.** The dashboard's list of active researchers, and the status badge beside each one (`src/components/ui/StatusBadge.tsx`).
- **API client** (`src/api/index.ts`):
  - the query parameters `getSurveys` appends for a filter record, including the TypeError it throws for an age range with an `undefined` slot;
  - the mappings `getMapPoints` and `getHeatmapData`.
- **Filter record.** The record is edited one field at a time by the analytics, map and reports pages and reset to `{}`. The map page also shows the applied-filter count and the distinct-researcher count.
- **Report table.** The rows of the reports page and its page count.
- **Top bar.** The two drop-down menus of the top bar, which are never open together.

Modules, one per source file, plus shared helpers:

| module | file | models |
|---|---|---|
| `Wrappers` | wrappers.dfy | `Option` and `Result` |
| `Tally` | tally.dfy | counting into labelled buckets (`Histogram`), the partition and snoc lemmas |
| `Types` | types.dfy | `src/types/index.ts` |
| `Strings` | strings.dfy | template-literal integers, `parseInt`/`Number` of numerals, `split` |
| `Filters` | filters.dfy | `{ ...prev, [key]: value }` on the filter record |
| `PropertyOrder` | property_order.dfy | the order in which `Object.keys` and `Object.values` list a plain object's properties |
| `Api` | api.dfy | `src/api/index.ts` |
| `StatusBadge` | status_badge.dfy | `src/components/ui/StatusBadge.tsx` |
| `Dashboard` | dashboard.dfy | `src/pages/Dashboard.tsx` |
| `Analytics` | analytics.dfy | `src/pages/Analytics.tsx` |
| `MapView` | map_view.dfy | `src/pages/MapView.tsx` |
| `Reports` | reports.dfy | `src/pages/Reports.tsx` |
| `TopBar` | top_bar.dfy | `src/components/layout/TopBar.tsx` |

Points where the pages differ from one another, or where the code does something easy to miss:

- **Age bands.** The dashboard's chain has five bands, ending in "55+"; the analytics page has six, ending in "65+".
- **Unrecognised satisfaction answers.** The dashboard skips an answer that is not one of its five labels. The analytics page runs `satisfactionLevels[answer]++` without a guard, which adds a new key holding NaN (except for "__proto__", whose inherited setter ignores the number). The model keeps that key: see `Analytics.SatisfactionCounters` and `Analytics.SatisfactionKeys`. An answer such as "3" is an array index, so `Object.keys` lists it before the five labels: see `Analytics.SatisfactionChartOrder`.
- **Building the query.** `getSurveys` throws when `ageRange` has an `undefined` slot. The analytics page's "Todas as idades" option stores exactly such a range, `[0, undefined]`: see `Analytics.AgeOptionsQuery`.
- **Types the code reads but does not declare.** `vai_votar` is declared as a string but compared against booleans, so `Types.VoteAnswer` admits both. `Survey` declares no `pesquisador` field, but the API client reads `survey.pesquisador?.usuario?.nome`, so the model gives `Survey` an optional `pesquisador`.

Time is integer milliseconds. The current time is a parameter (`now`), and so are the date-fns labels:

- `dayLabel(i)`: the `dd/MM` of the day i days ago;
- `dayKey(t)`: the `dd/MM` of timestamp t;
- `formatDate` and `formatPlace` for the report's date and location columns.

React state is modelled as classes whose fields the handlers update:

- `Analytics.AnalyticsPage`
- `MapView.MapViewPage`
- `Reports.ReportsPage`
- `TopBar.TopBarState`

## Model

| member | source | states |
|---|---|---|
| Filters.With | src/pages/MapView.tsx:103-108 | the written field reads the new value, every other field reads what it read before |
| Filters.FieldsDetermineFilters | src/types/index.ts:49-60 | two records that agree on all six keys are equal |
| Filters.WithSameKey | src/pages/MapView.tsx:103-108 | writing a field twice keeps only the second write |
| Filters.WithCommutes | src/pages/MapView.tsx:103-108 | writes to two different fields commute |
| Filters.WithOwnField | src/pages/MapView.tsx:103-108 | writing back the value a field holds changes nothing |
| Filters.NoFiltersUnset | src/pages/MapView.tsx:110-112 | the cleared record `{}` has no key set |
| PropertyOrder.Insert | src/pages/Analytics.tsx:99 | one more property, same array-index keys plus the new one |
| PropertyOrder.InsertAscending | src/pages/Analytics.tsx:99 | inserting keeps array indices in ascending numeric order |
| PropertyOrder.Sort | src/pages/Analytics.tsx:99 | the same array-index properties, in ascending numeric order |
| PropertyOrder.SplitProperties | src/pages/Analytics.tsx:99 | each property is either an array index or not, and sits in exactly one group |
| PropertyOrder.NamedAppend | src/pages/Analytics.tsx:99 | the non-index keys of two lists are those of the first, then those of the second |
| PropertyOrder.NamedOfIndices | src/pages/Analytics.tsx:99 | array indices only: no other keys |
| PropertyOrder.NamedOfNamed | src/pages/Analytics.tsx:99 | no array indices: every key is kept, in order |
| PropertyOrder.AscendingPrepend | src/pages/Analytics.tsx:99 | a key no larger than the first of sorted ones keeps them sorted in front |
| PropertyOrder.IndicesThenNamed | src/pages/Analytics.tsx:99 | sorted array indices followed by other keys: an array index is preceded only by smaller-or-equal array indices |
| PropertyOrder.OwnOrder | src/pages/Analytics.tsx:99-103 | `Object.keys`/`Object.values` order: the same properties, array indices first in ascending order, other keys in creation order |
| PropertyOrder.NoIndexKeepsOrder | src/pages/Analytics.tsx:99-103 | without array-index keys the order is the creation order |
| PropertyOrder.IndexComesFirst | src/pages/Analytics.tsx:99-103 | with an array-index key present, the first property listed has one |
| Strings.IntToString | src/pages/Reports.tsx:34 | a non-empty numeral that starts with '-' iff the integer is negative |
| Strings.ParseInt | src/pages/MapView.tsx:206 | a number iff the text is a numeral, optionally after one '-'; a plain numeral reads as its value; a negative result comes from a leading '-' |
| Strings.ParseIntToString | src/pages/MapView.tsx:206 | `parseInt` of an integer written in a template literal gives back that integer |
| Strings.ToNumber | src/pages/Analytics.tsx:193 | `Number("")` is 0, `Number` of a numeral is its value, never undefined |
| Strings.Split | src/pages/Analytics.tsx:193 | `split` yields at least one piece |
| Strings.SplitAtSeparator | src/pages/Analytics.tsx:193 | a separator after a separator-free prefix cuts off exactly that prefix |
| Api.KeyNamesDistinct | src/api/index.ts:52-65 | the nine query key names ("startDate" … "radius") are pairwise different, so a name read back from the query identifies its key |
| Api.SearchParams | src/api/index.ts:46-64 | fails exactly when an age slot is `undefined`; otherwise returns the parameter list `Serialization` of the effective filter (absent reads as `{}`) |
| Api.AppendTextParams | src/api/index.ts:52-56 | the parameters of the first four sites: each of startDate, endDate, researcherId and gender when truthy |
| Api.AppendAgeParams | src/api/index.ts:57-60 | fails exactly when an age slot is `undefined`; otherwise appends ageMin and ageMax when a range is set |
| Api.AppendRegionParams | src/api/index.ts:61-65 | appends lat, lng and radius when a region is set, nothing otherwise |
| Api.ContributionBySite | src/api/index.ts:51-64 | each append site adds its one key exactly when its guard holds (a truthy string, a non-zero id, a present age range or region), with the field's text; it throws exactly when an age slot has no `toString` |
| Api.SerializationIsPrefix | src/api/index.ts:51-64 | the nine sites one after the other give the same list as the prefix of all nine |
| Api.PrefixValues | src/api/index.ts:51-64 | every parameter from the first n sites has one of their keys and carries that key's value |
| Api.PrefixOrdered | src/api/index.ts:51-64 | the parameters from the first n sites are in strictly increasing append order |
| Api.PrefixKeys | src/api/index.ts:51-64 | a key among the first n sites is present iff it has a value |
| Api.SerializedPrefixSpec | src/api/index.ts:51-64 | the first n append sites give exactly the keys among them that have a value, strictly in append order, each with its value |
| Api.FullPrefixMeaning | src/api/index.ts:51-64 | after all nine sites: a key is present iff it is emitted, in append order, with its value |
| Api.SerializationMeaning | src/api/index.ts:51-64 | a key is sent iff its field is truthy (empty dates and gender, and researcherId 0, are omitted; the age pair and the region triple go together); keys strictly in the order startDate, endDate, researcherId, gender, ageMin, ageMax, lat, lng, radius; each value is its field's |
| Api.EmptyFiltersSendNothing | src/api/index.ts:49-64 | an absent or empty filter sends no parameter and does not throw |
| Api.ResearcherName | src/api/index.ts:113 | the nested user name when present and non-empty, otherwise "Desconhecido"; never empty |
| Api.PointOf | src/api/index.ts:108-118 | id, coordinates, timestamp, age and gender copied; the researcher's name when present and non-empty, "Desconhecido" otherwise |
| Api.MapPoints | src/api/index.ts:103-119 | one point per survey, same order; id, lat, lng, dataHora copied, idade and sexo present and copied, researcher name as above |
| Api.Heatmap | src/api/index.ts:122-130 | one `[lat, lng, 1]` per survey in order, radius 25 |
| Api.HeatPoints | src/api/index.ts:127 | one unit-intensity point per survey at its coordinates |
| Api.HeatmapMatchesMapPoints | src/api/index.ts:108-127 | the i-th heat point and the i-th map point are at the same place |
| StatusBadge.StatusColor | src/components/ui/StatusBadge.tsx:16-28 | a Tailwind background class, "bg-…" |
| StatusBadge.DefaultLabel | src/components/ui/StatusBadge.tsx:34-45 | never empty |
| StatusBadge.BadgeTellsStatusesApart | src/components/ui/StatusBadge.tsx:14-53 | two badges for different statuses that pulse alike differ in the dot; without label props they differ in the text too |
| StatusBadge.StatusLabel | src/components/ui/StatusBadge.tsx:31-46 | a non-empty label prop wins, an absent or empty one falls back to the status's default; never empty |
| StatusBadge.Render | src/components/ui/StatusBadge.tsx:14-53 | the dot's classes end with the pulse class iff `pulsing` is true (default false) and contain the status's colour; the text is `getStatusLabel`'s |
| Dashboard.LastSevenDays | src/pages/Dashboard.tsx:47-51 | seven labels, oldest first: label i is the day 6 − i days ago, the last is today |
| Dashboard.SurveysByDate | src/pages/Dashboard.tsx:53-57 | one entry per day label: the number of surveys whose day label equals it |
| Dashboard.SurveysByDateBound | src/pages/Dashboard.tsx:53-57 | with seven different day labels the series has seven entries and sums to at most the number of surveys |
| Dashboard.AgeBand | src/pages/Dashboard.tsx:64-70 | one of five bands; the survey is past cut k (25, 35, 45, 55) iff its age is at least that cut; so ages under 25 (also under 18) go to "18-24", 25 to "25-34", 54 to "45-54", 55 and up to "55+" |
| Dashboard.AgeLabels | src/pages/Dashboard.tsx:60-70 | every survey gets one of the five band labels |
| Dashboard.CountAgeGroups | src/pages/Dashboard.tsx:60-70 | counter i is the number of surveys in band i |
| Dashboard.AgeGroupsPartition | src/pages/Dashboard.tsx:64-70 | the five counts add up to the number of surveys |
| Dashboard.CountSatisfaction | src/pages/Dashboard.tsx:73-88 | counter i is the number of surveys answering label i; empty or unknown answers change no counter |
| Dashboard.SatisfactionBound | src/pages/Dashboard.tsx:81-88 | the five counts add up to at most the number of surveys, and to exactly that iff every answer is a label |
| Dashboard.CalculateChartData | src/pages/Dashboard.tsx:43-117 | nothing iff the surveys are absent; each chart's labels are its bucket keys and its data the matching counters, position by position |
| Dashboard.SeenToday | src/pages/Dashboard.tsx:124 | keeps a researcher iff last seen after now − 24 h, each as many times as in the input and nothing extra |
| Dashboard.InsertByAccess | src/pages/Dashboard.tsx:125 | inserting keeps the list a permutation plus the new one, most recent first |
| Dashboard.SortByAccess | src/pages/Dashboard.tsx:125 | a permutation of the input, most recent first |
| Dashboard.ActiveResearchers | src/pages/Dashboard.tsx:123-126 | absent iff the researchers are; at most five, all seen after now − 24 h, most recent first, drawn from the input |
| Dashboard.ActiveAreMostRecent | src/pages/Dashboard.tsx:123-126 | a recent researcher left out means the list is full and everyone listed was seen at least as recently |
| Dashboard.DisplayName | src/pages/Dashboard.tsx:282 | the user's name when present and non-empty; never empty |
| Dashboard.DisplayNameFallback | src/pages/Dashboard.tsx:282 | without a name: "Pesquisador " followed by a numeral that reads back as the id |
| Dashboard.ResearcherBadge | src/pages/Dashboard.tsx:292-299 | online iff seen within 30 minutes, pulsing iff within 15, so pulsing implies online |
| Analytics.TotalSurveys | src/pages/Analytics.tsx:26-42 | the number of surveys; 0 when they are absent |
| Analytics.AgeBand | src/pages/Analytics.tsx:58-66 | one of six bands; past cut k (25, 35, 45, 55, 65) iff the age is at least that cut, so 65 and up go to "65+" |
| Analytics.AgeLabels | src/pages/Analytics.tsx:49-66 | every survey gets one of the six band labels |
| Analytics.CountAgeGroups | src/pages/Analytics.tsx:49-66 | counter i is the number of surveys in band i, labels "18-24" … "65+" in order |
| Analytics.AgeGroupsPartition | src/pages/Analytics.tsx:58-66 | the six counts add up to the number of surveys |
| Analytics.Increment | src/pages/Analytics.tsx:95 | `++` adds one to a number and gives NaN for `undefined` or NaN |
| Analytics.Bump | src/pages/Analytics.tsx:95 | `obj[x]++` keeps the keys distinct; afterwards `x` is a key iff it was one already or is not "__proto__" |
| Analytics.BumpAll | src/pages/Analytics.tsx:94-96 | the object stays well formed over the whole loop |
| Types.Answers | src/types/index.ts:30 | the `satisfacao_servicos` answers, survey by survey, that both chart pages count |
| Analytics.CountSatisfaction | src/pages/Analytics.tsx:86-96 | the object the loop builds is `BumpAll` of the answers |
| Analytics.BumpDescribes | src/pages/Analytics.tsx:95 | one more answer keeps the description of the object true |
| Analytics.SatisfactionCounters | src/pages/Analytics.tsx:86-96 | in creation order, the five lower-case labels come first with their counts; any other key is an unknown answer, not "__proto__", holding NaN; every answer but "__proto__" is a key |
| Analytics.SatisfactionKeys | src/pages/Analytics.tsx:86-96 | the object's keys are exactly the five iff every answer is one of them or "__proto__" |
| Analytics.IndexAnswerComesFirst | src/pages/Analytics.tsx:99-103 | an answer that is an array index, such as "3", makes the first bar an array-index key rather than "Muito insatisfeito" |
| Analytics.CreationOrderKept | src/pages/Analytics.tsx:99-103 | without array-index answers the bars are the object's properties in creation order |
| Analytics.SatisfactionChartOrder | src/pages/Analytics.tsx:99-103 | the bars keep creation order iff no answer is an array index; otherwise the first bar is an array-index key |
| Analytics.SatisfactionChartLabels | src/pages/Analytics.tsx:99-103 | when every answer is a label, the bars are the five labels in order |
| Analytics.SatisfactionPartition | src/pages/Analytics.tsx:86-96 | when every answer is a label the values are the five counts and add up to the number of surveys |
| Analytics.Votes | src/pages/Analytics.tsx:110-113 | the answers, survey by survey |
| Analytics.VotingIntention | src/pages/Analytics.tsx:110-113 | labels "Sim", "Não"; "Sim" is the number of surveys whose answer is exactly `true`, "Não" the number whose answer is exactly `false` |
| Analytics.VotingBound | src/pages/Analytics.tsx:110-113 | Sim + Não is at most the number of surveys, equal iff every answer is a boolean |
| Analytics.PrepareChartData | src/pages/Analytics.tsx:45-131 | nothing iff the surveys are absent; otherwise the age histogram, the satisfaction object's properties in `Object.keys` order, and the voting chart |
| Analytics.TemplateText | src/pages/Analytics.tsx:189 | `${n}` is never empty and has no '-' for a non-negative integer |
| Analytics.AgeOptionValue | src/pages/Analytics.tsx:187-191 | "" iff no range is set; otherwise a text holding the '-' that separates the two slots |
| Analytics.ParseAgeOption | src/pages/Analytics.tsx:192-194 | the minimum is never undefined |
| Analytics.NumberOfNumeral | src/pages/Analytics.tsx:193 | `Number` of a written natural is that natural |
| Analytics.AgeOptionRoundTrip | src/pages/Analytics.tsx:187-194 | "a-b" parses to (a, b) and the select then shows "a-b" again |
| Analytics.RangeOptionAccepted | src/pages/Analytics.tsx:192-194 | an option "a-b" of two numerals stores a range the query accepts |
| Analytics.RangeOptionsAccepted | src/pages/Analytics.tsx:197-202 | each of the five range options stores a range the query accepts |
| Analytics.AgeOptionsQuery | src/pages/Analytics.tsx:192-202 | "Todas as idades" stores [0, undefined]; the query then throws, and for no other option |
| Analytics.AnalyticsPage.constructor | src/pages/Analytics.tsx:17-18 | filter `{}`, panel closed |
| Analytics.AnalyticsPage.ToggleFilters | src/pages/Analytics.tsx:147 | flips the panel, filter unchanged |
| Analytics.AnalyticsPage.SetStartDate | src/pages/Analytics.tsx:166 | only startDate changes |
| Analytics.AnalyticsPage.SetEndDate | src/pages/Analytics.tsx:178 | only endDate changes |
| Analytics.AnalyticsPage.SelectAgeOption | src/pages/Analytics.tsx:192-194 | only ageRange changes, to the parsed option |
| Analytics.AnalyticsPage.ClearFilters | src/pages/Analytics.tsx:208 | filter back to `{}` |
| Analytics.AnalyticsPage.ApplyFilters | src/pages/Analytics.tsx:213 | closes the panel, filter unchanged |
| MapView.AppliedFlags | src/pages/MapView.tsx:340 | flag i tells whether key i is not undefined |
| MapView.NoFlagsMeansEmpty | src/pages/MapView.tsx:340 | no key is set iff the record is `{}` |
| MapView.AppliedFilterCount | src/pages/MapView.tsx:340 | at most six, and 0 iff the record is `{}` |
| MapView.AppliedFilterCountAfterWith | src/pages/MapView.tsx:340 | a write changes the count by that field alone: +1 for a value over undefined, −1 for undefined over a value |
| MapView.Names | src/pages/MapView.tsx:326 | the researcher name of each point |
| MapView.DistinctResearcherCount | src/pages/MapView.tsx:326 | 0 when absent; otherwise at most the number of points, and at least 1 when there are any |
| MapView.UnnamedResearchersCollapse | src/pages/MapView.tsx:326 | points of surveys without a researcher name count as one researcher |
| MapView.ResearcherNamesOnMap | src/pages/MapView.tsx:326 | for any surveys, the distinct names are exactly the non-empty researcher names that occur, plus "Desconhecido" iff some survey has no name |
| MapView.NamesCome | src/api/index.ts:113 | every name on a point is a survey's researcher name, or "Desconhecido" for a survey without one |
| MapView.NamesShown | src/api/index.ts:113 | every survey's researcher name is on some point, and so is "Desconhecido" when a survey has no name |
| MapView.PointCount | src/pages/MapView.tsx:313 | the number of points; 0 when absent |
| MapView.IsLoading | src/pages/MapView.tsx:114 | the points flag in points mode, the heat-map flag otherwise |
| MapView.MapViewPage.constructor | src/pages/MapView.tsx:76-78 | filter `{}`, points mode, panel closed |
| MapView.MapViewPage.ToggleFilters | src/pages/MapView.tsx:99-101 | flips the panel, nothing else |
| MapView.MapViewPage.HandleFilterChange | src/pages/MapView.tsx:103-108 | the filter becomes `With` of the old one; nothing else changes |
| MapView.MapViewPage.ClearFilters | src/pages/MapView.tsx:110-112 | filter back to `{}` |
| MapView.MapViewPage.ApplyFilters | src/pages/MapView.tsx:251 | closes the panel, nothing else |
| MapView.MapViewPage.SetMapView | src/pages/MapView.tsx:129-136 | sets the mode, nothing else |
| MapView.MapViewPage.SetStartDate | src/pages/MapView.tsx:171 | only startDate changes |
| MapView.MapViewPage.SetEndDate | src/pages/MapView.tsx:189 | only endDate changes |
| MapView.MapViewPage.SelectResearcher | src/pages/MapView.tsx:206 | "Todos" stores undefined; a researcher's option stores that researcher's id |
| MapView.MapViewPage.SelectGender | src/pages/MapView.tsx:230 | "Todos" stores undefined, any other option its value |
| Reports.RowOf | src/pages/Reports.tsx:32-40 | id and satisfaction copied, date and place formatted; researcher column starts with "Pesquisador ", interest column ends with "/10", profile ends with the gender |
| Reports.ReportRows | src/pages/Reports.tsx:32-40 | one row per survey, same order |
| Reports.GenerateReport | src/pages/Reports.tsx:29-43 | no rows when the surveys are absent; otherwise one per survey with its id and its satisfaction answer unchanged |
| Reports.ResearcherColumnReadBack | src/pages/Reports.tsx:34 | the researcher column is "Pesquisador " followed by a numeral that `parseInt` reads back as the pesquisador_id |
| Reports.ProfileColumnReadBack | src/pages/Reports.tsx:37 | the first space-separated word of the profile column reads back as the age, and the column ends with the gender |
| Reports.InterestColumnReadBack | src/pages/Reports.tsx:39 | the interest column splits on '/' into the interest's numeral and "10" |
| Reports.PageCount | src/pages/Reports.tsx:237 | the fewest pages of ten that hold every row; 0 exactly for no rows |
| Reports.ReportsPage.constructor | src/pages/Reports.tsx:20-22 | filter `{}`, panel closed, report type "daily" |
| Reports.ReportsPage.ToggleFilters | src/pages/Reports.tsx:65 | flips the panel, nothing else |
| Reports.ReportsPage.SetStartDate | src/pages/Reports.tsx:89 | only startDate changes |
| Reports.ReportsPage.SetEndDate | src/pages/Reports.tsx:99 | only endDate changes |
| Reports.ReportsPage.SelectReport | src/pages/Reports.tsx:108 | sets the report type, nothing else |
| Reports.ReportsPage.ClearFilters | src/pages/Reports.tsx:122-125 | filter back to `{}` and report type back to "daily" |
| Reports.ReportsPage.ApplyFilters | src/pages/Reports.tsx:131 | closes the panel, nothing else |
| TopBar.Apply | src/components/layout/TopBar.tsx:12-20 | the clicked menu flips and the other one is closed afterwards |
| TopBar.RunFromClosed | src/components/layout/TopBar.tsx:9-20 | from all closed, after any clicks: at most one menu open, only the last-clicked one, and it is open iff clicked an odd number of times in a row at the end |
| TopBar.NeverBothOpen | src/components/layout/TopBar.tsx:9-20 | the two menus are never open together |
| TopBar.ToggleTwice | src/components/layout/TopBar.tsx:12-20 | the same menu clicked twice from all closed leaves all closed |
| TopBar.TopBarState.constructor | src/components/layout/TopBar.tsx:9-10 | both menus start closed |
| TopBar.TopBarState.ToggleNotifications | src/components/layout/TopBar.tsx:12-15 | the new flags are `Apply` of the old ones: notifications flips, profile closed |
| TopBar.TopBarState.ToggleProfile | src/components/layout/TopBar.tsx:17-20 | the new flags are `Apply` of the old ones: profile flips, notifications closed |

## Left out

- Network I/O. `fetch` and its status handling, JSON decoding, `login`, `getDashboardSummary`, `getResearchers` and `getUsers` are not modelled. `getMapPoints` and `getHeatmapData` are modelled on the survey list the server returns.
- Browser state. The `localStorage` token and the route guard in `src/App.tsx` are not modelled.
- react-query. Caching, refetching and the `enabled` flag of the heat-map query are not modelled.
- Floating-point work is not modelled:
  - the averages on the analytics page and their `toFixed(1)`, including NaN for an empty list;
  - the dashboard's region count, which is built from `toFixed(1)` strings;
  - the report's coordinate formatting (the `formatPlace` parameter);
  - `toString` of lat, lng and radius in the query (kept as `Api.Decimal` values).
- Calendar formatting. date-fns formatting and `Date.now()` are parameters.
- Percent-encoding. The encoding done by `URLSearchParams` (section 5.2 of the WHATWG URL Standard, application/x-www-form-urlencoded serializing) is not modelled. `Api.SearchParams` yields the ordered key/value list.
- Dashboard.CountSatisfaction: treats only the five labels as keys. An answer naming an inherited `Object.prototype` member other than "__proto__", such as "toString", passes the `!== undefined` test; `++` then creates an own key holding NaN, which `Object.keys` (src/pages/Dashboard.tsx:110) charts as a sixth label. The model counts such an answer nowhere and its chart always has the five labels.
- Dashboard.SortByAccess: the insertion keeps equally recent researchers in input order, as the stable `Array.prototype.sort` does, but that stability is not stated. Timestamps are integers, so the NaN comparisons of unparsable date strings are not modelled.
- Numbers. The `number` fields of `src/types/index.ts` (`id`, `pesquisador_id`, `idade`, `confianca`, `interesse`, coordinates aside) are integers in the model. A fractional value (`${24.5}` writes "24.5" in the report) and a missing or NaN `idade` are not modelled; in the source such an age fails every `<` test of the band chains and lands in "55+" or "65+".
- Strings.ParseInt: reads only an optional '-' and decimal digits. Leading blanks, trailing characters and other radixes are not modelled, because the pages only parse numerals they wrote themselves.
- Strings.ToNumber: reads only the empty string and integer numerals. Decimals, exponents and blanks give NaN, where `Number` would give a value.
- Rendering. Leaflet, Chart.js, the JSX of every page, `Card.tsx`, `ChartContainer.tsx`, `Layout.tsx`, `Sidebar.tsx`, `Settings.tsx` and `Researchers.tsx` are not part of this model. Neither are the dashboard's recent-survey list and its labels.
