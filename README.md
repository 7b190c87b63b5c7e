# Booking-Dashboard aggregation, modelled in Dafny

The booking dashboard loads a JSON array of containers. Each container may hold a
`documents` array of booking documents. Whenever the dataset or the selected city
changes, an effect does the following:

- It walks the visible documents with the `safeDocs` visitor.
- It folds them into four KPI cards: orders, profit, cancelled and rescheduled.
- It counts them into four objects that feed four charts, keyed by year, booking
  status, payment method and month label.
- Its map section is meant to draw circle markers for the cities it knows coordinates for.
  As written, it iterates the year counting object instead and draws no marker (see "Findings").

Beside the effect, the component builds the options of the city selector from the
whole dataset.

This project models that effect and the selector list. It proves what each step
computes.

| file | module | what it models |
|---|---|---|
| `wrappers.dfy` | `Wrappers` | `Option`, for absent JSON members |
| `seqs.dfy` | `Seqs` | occurrence counts, first-seen deduplication (what a JavaScript `Set` keeps), permutation steps |
| `bookings.dfy` | `Bookings` | documents, containers (raw and as read), JavaScript truthiness of string members, and the `safeDocs` visitor as two nested loops |
| `kpis.dfy` | `Kpis` | the KPI counters, as a loop (`Accumulate`) proved against the fold `KpiOf` |
| `tallies.dfy` | `Tallies` | the `m[k] = (m[k] \|\| 0) + 1` counting objects, as a loop (`CountBy`) proved against `TallyOf` |
| `jsobjects.dfy` | `JsObjects` | the order `Object.keys`/`Object.values` enumerate an object in: array-index keys first, ascending, then the other keys in creation order |
| `citymap.dfy` | `CityMap` | the coordinate table and the marker loop of the map section |
| `cityoptions.dfy` | `CityOptions` | the city selector's option list |
| `dashboard.dfy` | `Dashboard` | the year, status, payment and month keys; one run of the effect (`Recompute`); the component state as a class (`DashboardState`) |
| `scenario.dfy` | `Scenario` | a two-booking dataset worked through every chart |

## Modelling choices

- **Calendar.** `new Date(s)` is a parameter, `Calendar(yearOf, monthLabel)`:
  - `yearOf(s)` is `None` where `getFullYear()` gives NaN.
  - `monthLabel(s)` is the `toLocaleString("en", …)` label of a valid date.
  - An invalid date is labelled "Invalid Date".
- **Truthiness.** The checks `if (d.bookingStatus)`, `if (d.paymentMethod)`, `if (!dt)`
  and `filter(Boolean)` treat an absent member and `""` alike (`Bookings.Truthy`).
  `if (y)` also rejects a year of 0.
- **Year keys.** A year becomes a property name in `yearMap`. Non-negative years up
  to 2^32 - 2 are array indices, so `Object.keys(yearMap)` lists them ascending,
  ahead of the negative years. All other counting objects have string keys. A
  canonical decimal numeral such as "2024" is an array index there too
  (`JsObjects.StringIndex`).
- **Amounts.** `orderAmount` is the integer `Number(...)` would give for a truthy
  amount, or `None`. Profit is their left-to-right integer sum.
- **The map.** The map section is modelled both as written and as intended; see
  "Findings". A run of the effect (`Dashboard.FrameOf`) uses the intended markers.
  When the map element is not mounted (line 185), the frame carries no markers and
  the map keeps its previous ones.
- **Raw containers.** `DashboardState.Load` takes the parsed JSON as `RawContainer`s, whose `documents` is absent, an array or some other value. It reads a non-array `documents` as absent (`Bookings.Normalize`), the corrected reading of lines 52 and 209 (see "Findings"); the code as written is `Bookings.VisitAsWritten` for the visitor and `CityOptions.OptionsAsWritten` for the option list.
- **Month grouping.** An unparseable date is meant to be left out of the month
  grouping. The code counts it under "Invalid Date" (what `toLocaleString` gives
  for an invalid date), and the model follows the code. Such a date is dropped
  only from the year grouping.

## Model

| member | source | states |
|---|---|---|
| Bookings.Truthy | src/components/Dashboard.js:114-116 | a string member counts as present exactly when it is present and not `""`, and is then passed on unchanged |
| Bookings.DateOf | src/components/Dashboard.js:90 | defines `d?.dateTime?.$date`: the date string, absent when the wrapper or its `$date` is absent |
| Bookings.CityKey | src/components/Dashboard.js:209 | defines the city `filter(Boolean)` keeps: a present, non-empty city |
| Bookings.Flatten | src/components/Dashboard.js:51-52 | defines the documents of every container in order; a container without `documents` contributes none |
| Bookings.Visible | src/components/Dashboard.js:53 | defines the city test: a document passes when "ALL" is selected or its city is the selected one; a document without a city never passes a concrete city |
| Bookings.Select | src/components/Dashboard.js:52-55 | defines the documents of `ds` that pass the city test, in their order |
| Bookings.Visited | src/components/Dashboard.js:50-57 | defines what the visitor hands its callback: the documents of `Flatten(data)` that pass the city test, in order |
| Bookings.SafeDocs | src/components/Dashboard.js:50-57 | the visitor hands its callback exactly `Visited(data, selectedCity)`: containers in order, each container's documents in order, a container without `documents` skipped, and documents of another city skipped |
| Bookings.SelectVisible | src/components/Dashboard.js:52-55 | the inner `forEach` passes on exactly those documents of one container that pass the city test, in their order |
| Bookings.VisitedSnoc | src/components/Dashboard.js:51-52 | visiting one more container appends its visible documents and changes nothing before them |
| Bookings.SelectSnoc | src/components/Dashboard.js:53-54 | one more document is appended exactly when it passes the city test |
| Bookings.VisitAll | src/components/Dashboard.js:50-57 | with "ALL" selected, the visited sequence is the in-order concatenation of every container's documents |
| Bookings.SelectMembers | src/components/Dashboard.js:53 | every visited document is in the dataset and passes the test, and every document that passes is visited |
| Bookings.VisitCity | src/components/Dashboard.js:53 | with a city `c` selected, the visited documents are exactly the documents whose city is `c`, and a document without a city is never visited |
| Bookings.AbsentDocumentsIgnored | src/components/Dashboard.js:52 | a container without `documents`, wherever it stands, changes nothing and causes no failure |
| Bookings.VisitPermutation | src/components/Dashboard.js:50-57 | reordering the containers only reorders the visited documents: their multiset is unchanged |
| Bookings.VisitAsWritten | src/components/Dashboard.js:52 | defines the visitor as written on raw containers: an absent or `null` `documents` is skipped, and one that is not an array ends the pass with a TypeError |
| Bookings.Normalize | src/components/Dashboard.js:52 | the intended dataset: one container per raw one, holding documents exactly when the raw `documents` is an array |
| Bookings.VisitAsWrittenThrows | src/components/Dashboard.js:52 | the visitor as written throws exactly when some container's `documents` is not an array; when it completes it hands over exactly the intended `Visited` documents |
| Bookings.MalformedDocumentsIgnored | src/components/Dashboard.js:52 | the intended visitor: a container whose `documents` is not an array changes nothing, wherever it stands |
| Kpis.Accumulate | src/components/Dashboard.js:60-70 | `totalOrders` is the number of visited documents; `profit` is the left-to-right sum of the present amounts; `cancelled` and `rescheduled` count the exact statuses; and `cancelled + rescheduled <= totalOrders` |
| Kpis.Amount | src/components/Dashboard.js:67 | defines what one document adds to `profit`: its amount when present and truthy, 0 otherwise |
| Kpis.Profit | src/components/Dashboard.js:67 | defines profit: the left-to-right sum of the present amounts |
| Kpis.StatusCount | src/components/Dashboard.js:68-69 | defines the number of documents whose status is exactly the given string |
| Kpis.KpiOf | src/components/Dashboard.js:60-72 | defines the four cards `setSummary` receives: orders, profit, cancelled and rescheduled |
| Kpis.StatusCountsDisjoint | src/components/Dashboard.js:68-69 | two different status strings are never counted for the same document, so their counts add up to at most the document count |
| Kpis.KpiAppend | src/components/Dashboard.js:65-70 | profit and every status count are additive over concatenated document sequences |
| Kpis.KpiRemove | src/components/Dashboard.js:65-70 | removing one document removes exactly its own share of profit and of each status count |
| Kpis.KpiPermutation | src/components/Dashboard.js:60-70 | the four KPIs depend only on the multiset of visited documents, not on their order |
| Kpis.ContainerOrderIrrelevant | src/components/Dashboard.js:50-70 | reordering the containers of the dataset leaves every KPI unchanged |
| Tallies.CountBy | src/components/Dashboard.js:88-92 | updating a fresh counting object once per visited document that has a key leaves exactly `TallyOf` of the derived keys |
| Tallies.KeysOf | src/components/Dashboard.js:113-117 | defines the keys a grouping pass counts: each visited document's key in order, documents without one skipped |
| Tallies.TallyOf | src/components/Dashboard.js:88-92 | defines what a counting object holds after the pass: the distinct keys in first-seen order, each with its number of occurrences |
| Tallies.CountsSnoc | src/components/Dashboard.js:91 | `m[k] = (m[k] \|\| 0) + 1`: counting one more `k` raises its count by one, or creates it at one, and leaves every other count unchanged |
| Tallies.DedupSnoc | src/components/Dashboard.js:115-116 | a key is appended to the creation order only the first time it is counted |
| Tallies.TallyOfSpec | src/components/Dashboard.js:135-139 | the counting object holds each derived key once, in first-seen order, under its number of occurrences (at least 1), and its counts add up to the number of keys |
| Tallies.TallyTotal | src/components/Dashboard.js:157-166 | the counts of a counting object add up to the number of keys counted |
| Tallies.KeysOfSpec | src/components/Dashboard.js:113-117 | there are never more derived keys than documents; every key is the key of some document, and every document with a key contributes it |
| Tallies.KeysOfOccurrences | src/components/Dashboard.js:136-139 | a key occurs among the derived keys once per document filed under it |
| Tallies.CountKeyPositive | src/components/Dashboard.js:91 | a document filed under `k` gives `k` a positive count |
| Seqs.Dedup | src/components/Dashboard.js:208 | defines `new Set(...)`, and the key creation order of a counting object: each element once, in first-seen order |
| Seqs.DedupSpec | src/components/Dashboard.js:208-210 | `new Set(...)` keeps each element once, only elements of its input, and in first-seen order |
| Seqs.OccurrencesPositive | src/components/Dashboard.js:91 | a key has a positive count exactly when it occurs |
| JsObjects.YearIndex | src/components/Dashboard.js:91 | defines which years are array-index property names: 0 to 2^32 - 2 |
| JsObjects.StringIndex | src/components/Dashboard.js:122 | defines which strings are array-index property names: canonical decimal numerals (no leading zero) up to 2^32 - 2 |
| JsObjects.ObjectKeys | src/components/Dashboard.js:97 | defines `Object.keys`: the array-index keys ascending, then the other keys in creation order |
| JsObjects.Values | src/components/Dashboard.js:101 | defines `Object.values`: the count of each key, in the order of the keys |
| JsObjects.ObjectKeysSpec | src/components/Dashboard.js:97 | `Object.keys` lists every key once (a permutation of the creation order); its array-index keys come first and ascend; the keys after them are not array indices and are the other keys in creation order, none skipped (`OtherPositions` places them at increasing positions of the creation order) |
| JsObjects.IndexKeysFirst | src/components/Dashboard.js:97 | proof step of `ObjectKeysSpec`: in `Object.keys` order no array-index key follows any other kind of key, and the index keys ascend |
| JsObjects.NoIndexKeepsOrder | src/components/Dashboard.js:122 | when no key is an array index, `Object.keys` gives the creation order |
| JsObjects.InsertSpec | src/components/Dashboard.js:97 | proof step of `ObjectKeysSpec`: placing an index key before the first larger one keeps the index keys ascending |
| JsObjects.InsertMultiset | src/components/Dashboard.js:97 | proof step of `ObjectKeysSpec`: placing a key adds exactly that key |
| JsObjects.ChartOf | src/components/Dashboard.js:97-101 | `Object.keys` and `Object.values` of a counting object have one datum per label |
| JsObjects.ValuesSpec | src/components/Dashboard.js:101 | `Object.values` lists the count of each label at the label's position, and the data add up to the object's total |
| JsObjects.ChartSpec | src/components/Dashboard.js:119-125 | a chart of counted keys: distinct labels, each a counted key with its number of occurrences (at least 1); every counted key is a label; the data add up to the number of keys; index keys first and ascending |
| JsObjects.ChartCounts | src/components/Dashboard.js:141-147 | the chart of the documents' keys: distinct labels, each the key of some document, with the number of documents filed under it; every document's key is a label; the data add up to the number of documents that have a key |
| JsObjects.ChartEntry | src/components/Dashboard.js:144-147 | proof step of `ChartCounts`: the datum under label `k` is the number of documents filed under `k`, and `k` is a label exactly when that number is positive |
| JsObjects.ChartLabels | src/components/Dashboard.js:171 | proof step of `ChartSpec`: the labels are distinct, and are exactly the counted keys |
| JsObjects.ChartSources | src/components/Dashboard.js:122 | proof step of `ChartCounts`: each label is the key of some document, and each document's key is a label |
| CityMap.CityLatLng | src/components/Dashboard.js:8-15 | defines `cityLatLng`: the six cities with their latitude and longitude |
| CityMap.DecimalString | src/components/Dashboard.js:91 | defines the property name a year becomes: its decimal numeral, with a leading "-" for a negative year |
| CityMap.Names | src/components/Dashboard.js:197 | defines the entry names of the year object: each year label as a decimal numeral |
| CityMap.Plot | src/components/Dashboard.js:197-204 | defines the marker loop: the entries in order, each whose name is a city of the table drawn at its coordinates with its count, the others skipped |
| CityMap.CityMarkers | src/components/Dashboard.js:197-204 | defines the intended marker loop: the marker loop over the entries of a city counting object |
| CityMap.YearMarkers | src/components/Dashboard.js:197 | defines the map as written: the marker loop over the year object's entries, whose names are the years in decimal |
| CityMap.PlotSpec | src/components/Dashboard.js:197-204 | each marker comes from an entry whose name has coordinates, placed at them and carrying that entry's count; each such entry gives a marker |
| CityMap.PlotSource | src/components/Dashboard.js:197-199 | proof step of `PlotSpec`: every marker is the marker of one particular entry |
| CityMap.PlotKeeps | src/components/Dashboard.js:198-203 | proof step of `PlotSpec`: every entry whose name has coordinates is drawn |
| CityMap.PlotNothing | src/components/Dashboard.js:198 | when no entry names a city of the table, nothing is drawn |
| CityMap.PlotDistinct | src/components/Dashboard.js:197 | entries with distinct names give markers with distinct names |
| CityMap.NumberIsNoCity | src/components/Dashboard.js:8-15 | no integer written out in decimal is a city of the coordinate table |
| CityMap.YearMarkersEmpty | src/components/Dashboard.js:197-198 | iterating the entries of the year object draws no marker |
| CityOptions.Options | src/components/Dashboard.js:208-210 | defines the selector options: "ALL", then each truthy city of the dataset once, in first-seen order |
| CityOptions.OptionsSpec | src/components/Dashboard.js:208-210 | the options start with "ALL", then list each truthy city of the dataset exactly once, each the city of some document, in first-seen order |
| CityOptions.OptionsOrder | src/components/Dashboard.js:208 | proof step of `OptionsSpec`: the cities after "ALL" are distinct and in the order they first appear |
| CityOptions.OptionsComplete | src/components/Dashboard.js:209 | proof step of `OptionsSpec`: every truthy city of any document is an option |
| CityOptions.OptionSource | src/components/Dashboard.js:209 | proof step of `OptionsSpec`: every option after "ALL" is the non-empty city of some document |
| CityOptions.OptionSelectsSome | src/components/Dashboard.js:221-224 | choosing any city from the list shows at least one order |
| CityOptions.OptionsCoverVisited | src/components/Dashboard.js:208-210 | whatever city is selected, every truthy city among the shown documents is an option |
| CityOptions.CitiesAsWritten | src/components/Dashboard.js:209 | defines the cities `flatMap` and `filter(Boolean)` collect from raw containers, or a TypeError when `map` meets a `documents` that is not an array |
| CityOptions.OptionsAsWritten | src/components/Dashboard.js:208-210 | defines the option list as written on raw containers: `None` where the render throws |
| CityOptions.OptionsAsWrittenThrows | src/components/Dashboard.js:208-210 | the option list as written fails exactly when some container's `documents` is not an array, and otherwise equals the intended `Options` list |
| CityOptions.MalformedCitiesIgnored | src/components/Dashboard.js:209 | the intended option list: a container whose `documents` is not an array adds no city, wherever it stands |
| Dashboard.YearKey | src/components/Dashboard.js:90-91 | defines the year key: none for an absent or empty `$date`, for an invalid date (NaN) and for year 0, the values `if (y)` rejects; otherwise the full year |
| Dashboard.StatusKey | src/components/Dashboard.js:114 | defines the status key: the status when present and non-empty |
| Dashboard.PaymentKey | src/components/Dashboard.js:137 | defines the payment key: the payment method when present and non-empty |
| Dashboard.MonthOf | src/components/Dashboard.js:161-164 | defines the month label of a present date: the calendar's label when the date is valid, "Invalid Date" otherwise |
| Dashboard.MonthKey | src/components/Dashboard.js:159-165 | defines the month key: none for an absent or empty `$date`, otherwise its month label |
| Dashboard.YearChart | src/components/Dashboard.js:94-101 | defines the year chart: `labels: Object.keys(yearMap)` and `data: Object.values(yearMap)` of the year counting object, with years as array-index keys |
| Dashboard.StatusChart | src/components/Dashboard.js:119-125 | defines the status chart: `Object.keys` and `Object.values` of the status counting object |
| Dashboard.PaymentChart | src/components/Dashboard.js:141-147 | defines the payment chart: `Object.keys` and `Object.values` of the payment counting object |
| Dashboard.MonthChart | src/components/Dashboard.js:168-175 | defines the month chart: `Object.keys` and `Object.values` of the month counting object |
| Dashboard.ChartsOf | src/components/Dashboard.js:86-182 | defines the labels and data of the year, status, payment and month charts of the visited documents |
| Dashboard.CityChart | src/components/Dashboard.js:197 | defines the intended entries of the map: a counting object of the visited documents' truthy cities |
| Dashboard.YearMapMarkers | src/components/Dashboard.js:197-204 | defines the map section as written: the marker loop over the entries of the year object |
| Dashboard.MarkersOf | src/components/Dashboard.js:197-204 | defines the intended map: the marker loop over the entries of `CityChart` (see Findings) |
| Dashboard.FrameOf | src/components/Dashboard.js:46-204 | defines one run of the effect: the KPIs, the four charts and, when the map is mounted, the intended city markers |
| Dashboard.Recompute | src/components/Dashboard.js:46-204 | on an empty dataset the effect produces nothing; otherwise it produces exactly `FrameOf`: the KPIs, the four charts and (when the map is mounted) the corrected city markers (see Findings) |
| Dashboard.StatusCountsAgree | src/components/Dashboard.js:114-116 | for a non-empty status, the status grouping counts exactly the documents the KPI fold counts |
| Dashboard.StatusChartSpec | src/components/Dashboard.js:112-125 | a non-empty status's slice holds the number of documents with that status; the slice exists exactly when some document has the status; no slice is labelled `""` |
| Dashboard.StatusLabelsNonEmpty | src/components/Dashboard.js:114 | proof step of `StatusChartSpec`: no status slice is labelled with the empty string |
| Dashboard.KpiMatchesStatusChart | src/components/Dashboard.js:68-69 | the CANCELLED and RESCHEDULED slices equal their KPI cards, and each is present exactly when its card is non-zero |
| Dashboard.MonthKeysDated | src/components/Dashboard.js:158-165 | the month grouping has one key per document with a present `$date`, the year grouping at most that many, and neither more than documents |
| Dashboard.StatusesCovered | src/components/Dashboard.js:114-116 | the cancelled and rescheduled documents are among the documents with a status |
| Dashboard.ChartTotals | src/components/Dashboard.js:88-166 | year bars ≤ month points = dated documents ≤ orders; cancelled + rescheduled ≤ status slices ≤ orders; payment bars ≤ orders |
| Dashboard.YearChartSpec | src/components/Dashboard.js:88-101 | there is never a bar for year 0 or NaN; each bar is the year of a visited, present date; every visited valid year has a bar; years 0 to 2^32 - 2 come first and ascend |
| Dashboard.YearLabelsSourced | src/components/Dashboard.js:90-91 | proof step of `YearChartSpec`: each year bar is a non-zero year of a visited date |
| Dashboard.YearLabelsComplete | src/components/Dashboard.js:91 | proof step of `YearChartSpec`: every visited document with a valid, non-zero year has its year among the bars |
| Dashboard.YearKeysOrdered | src/components/Dashboard.js:97 | proof step of `YearChartSpec`: in the year object's key order, the array-index years come first and strictly ascend |
| Dashboard.MonthChartSpec | src/components/Dashboard.js:157-171 | each month label is the label of some visited present date ("Invalid Date" for one that does not parse), and every visited present date has its label there |
| Dashboard.MonthLabelsSourced | src/components/Dashboard.js:159-164 | proof step of `MonthChartSpec`: each month label comes from a visited present date |
| Dashboard.MonthLabelsComplete | src/components/Dashboard.js:160-165 | proof step of `MonthChartSpec`: every visited document with a present date has its label among the points |
| Dashboard.InvalidDateShown | src/components/Dashboard.js:159-165 | a present date that does not parse always produces an "Invalid Date" point |
| Dashboard.InvalidDatePoint | src/components/Dashboard.js:159-165 | when no valid date is labelled "Invalid Date", that point appears exactly when some visited present date does not parse |
| Dashboard.MarkersSpec | src/components/Dashboard.js:197-204 | the intended map: one marker per visited city of the coordinate table, at its coordinates, sized by that city's number of visited documents, and no city twice |
| Dashboard.MarkersSourced | src/components/Dashboard.js:198-203 | proof step of `MarkersSpec`: every intended marker is a visited city of the table with its coordinates and its count |
| Dashboard.MarkerSourced | src/components/Dashboard.js:198-203 | proof step of `MarkersSpec`: the same, for one marker |
| Dashboard.MarkersComplete | src/components/Dashboard.js:197-203 | proof step of `MarkersSpec`: every visited document in a city of the table has its city's marker |
| Dashboard.MarkerOfCity | src/components/Dashboard.js:198-203 | proof step of `MarkersSpec`: a city of the table with a positive count has its marker |
| Dashboard.FilteredMarkers | src/components/Dashboard.js:53 | with a city selected, the intended map shows at most one marker, and only for that city |
| Dashboard.YearMapNeverPlots | src/components/Dashboard.js:197-198 | the map as written never shows a marker, whatever the documents |
| Dashboard.YearMapMissesCities | src/components/Dashboard.js:197 | once one visited document is in a city of the table, the map as written differs from the intended one |
| Dashboard.DashboardState.constructor | src/components/Dashboard.js:19-26 | initial state: no data, "ALL" selected, all KPIs zero, no charts and no map; `Current()`, the invariant every method keeps, holds from the start |
| Dashboard.DashboardState.Cities | src/components/Dashboard.js:208-210 | the selector's options start with "ALL" and list no city twice |
| Dashboard.DashboardState.Refresh | src/components/Dashboard.js:46-205 | on an empty dataset the state is left exactly as it was (stale KPIs stay); otherwise KPIs and charts are replaced by those of the current selection; markers are replaced, by the corrected city markers (see Findings), only when the map is mounted; data and selection are untouched |
| Dashboard.DashboardState.Load | src/components/Dashboard.js:41 | `setData(json)` then the effect: the data become `json`, with a `documents` that is not an array read as absent (see Findings); the selection is kept, and the KPIs and charts follow as in `Refresh` |
| Dashboard.DashboardState.SelectCity | src/components/Dashboard.js:221 | `setSelectedCity(c)` then the effect: the selection becomes `c`, the data are kept, and the KPIs and charts follow as in `Refresh` |
| Scenario.SampleAll | src/components/Dashboard.js:60-166 | a cancelled Mumbai order of 500 and a confirmed Delhi order of 300, both from March 2024, give: 2 orders, profit 800, 1 cancelled and 0 rescheduled; one 2024 bar of 2; one "Mar 2024" point of 2; slices CANCELLED 1 and CONFIRMED 1; and, in the intended city counting object `Dashboard.CityChart` (which the source does not build), Mumbai 1 and Delhi 1 |
| Scenario.SampleMumbai | src/components/Dashboard.js:53 | with Mumbai selected, the same dataset gives 1 order, profit 500 and 1 cancelled, and a single Mumbai count of 1 in the intended `Dashboard.CityChart` |

## Left out

- Fetching the JSON (src/components/Dashboard.js:38-43, src/Fetchdata.js). This is network I/O. The dataset is a parameter of `DashboardState.Load`, and a failed fetch is the same as never calling it.
- React hooks and re-render timing. The effect's dependency list `[data, selectedCity]` is modelled as `Load` and `SelectCity` each ending with `Refresh`.
- JSX rendering and src/components/Appsidebar.js. These are UI only.
- Chart.js: creating and destroying charts, options and colours. The model keeps only each chart's labels and data (`Dashboard.Charts`).
- Leaflet: the map view, the tile layer, removing an old map instance, and the marker colour and opacity. A marker keeps its name, coordinates and count.
- The marker radius `Math.sqrt(count) * 3`. This is floating point.
- `new Date`, `getFullYear` (local time zone) and `toLocaleString`. These are parameters (`Dashboard.Calendar`), not implemented.
- A `$date` of another JSON type: `null`, a number or an object. `$date` is a string or absent. For `null`, `new Date(null)` is the epoch, so line 90 counts a 1970 bar (1969 west of UTC) while `if (!dt)` at line 160 skips the month; the source then breaks the "year bars ≤ month points" bound that `Dashboard.MonthKeysDated` and `Dashboard.ChartTotals` prove for the model.
- `Number(doc.orderAmount)` on a non-numeric string, which makes `profit` NaN. This is floating point. Amounts are integers.
- Non-string `city`, `bookingStatus` or `paymentMethod` values. Each becomes a string property name in JavaScript; the model has strings only.
- A `null` container or document in the array, which makes the source throw. Containers and documents are always objects.
- A top-level JSON value that is not an array. `data.forEach` (line 51) or `data.flatMap` (line 209) then fails or the guard at line 47 returns; the dataset is always a sequence of containers.
- Tallies.CountBy: keys that name `Object.prototype` members are not modelled in the status, payment and intended city groupings. The counting objects are plain `{}`: for a key such as "constructor", "toString", "valueOf" or "hasOwnProperty", `(m[k] || 0) + 1` reads the inherited function and stores a string, and for "__proto__" the assignment does nothing. The model counts every key from 1, and the chart lemmas built on `CountBy` (`TallyOfSpec`, `ChartCounts`, `StatusChartSpec`) carry the same gap. Year keys are numerals and are not affected.
- Tallies.CountsSnoc: the same gap; the line-91 update is modelled as raising a number, which for an inherited key name the source does not do (see `Tallies.CountBy` above).
- `cityLatLng` lookups of inherited property names (such as "constructor"). The table is its six own entries.
- `safeDocs` is called once per chart and per KPI fold in the source. The model visits once and reuses the result, which gives the same sequence because nothing changes in between.
- A typed filter (`All | City(c)`). The filter stays the source's string, with "ALL" as the sentinel. A city literally named "ALL" cannot be singled out, and it would appear twice among the options.

## Findings

| source | as written | input that shows it | evidently intended | confidence | as-written member | corrected member |
|---|---|---|---|---|---|---|
| src/components/Dashboard.js:197 | the map iterates `Object.entries(yearMap)`, whose names are years such as "2024", and looks each one up in `cityLatLng` | any visited document with city "Mumbai" and a valid date: the year entry "2024" has no coordinates, so no marker is drawn | iterate a count of the visited documents by city, so each known city gets a marker sized by its orders | high (not executed) | Dashboard.YearMapNeverPlots | Dashboard.MarkersSpec |
| src/components/Dashboard.js:209 | after `setData(json)` every render computes `cities`, calling `i.documents?.map` on whatever `documents` holds; `?.` guards only an absent or `null` member | a container `{"documents": {}}` or `{"documents": "n/a"}`: `map` is not a function, so the render throws a TypeError before the effect runs; the component has no error boundary, so the dashboard unmounts | a `documents` member that is not an array adds no city, like an absent one, and nothing throws | high (not executed) | CityOptions.OptionsAsWrittenThrows | CityOptions.MalformedCitiesIgnored |
| src/components/Dashboard.js:52 | `item.documents?.forEach` is called on whatever `documents` holds; this is what the visitor alone does, reached only if line 209 did not throw first | the same container: `forEach` is not a function, so the effect throws a TypeError | a `documents` member that is not an array contributes nothing, like an absent one, and nothing throws | high (not executed) | Bookings.VisitAsWrittenThrows | Bookings.MalformedDocumentsIgnored |
