# Sales analytics dashboard — a verified model of its core

The dashboard is a small two-tier application.

On the backend:
- A GraphQL server holds an in-memory sales store and fills it with random sales for the last few months.
- It answers `getSales(startDate, endDate, category)` by filtering the store on a date range and a case-insensitive category.
- It memoises every answer in a string-keyed cache.
- `getCategories` returns a fixed catalogue of ten product categories.

On the client:
- A reducer keeps one `Store` record: the sales, the categories, loading flags, error strings, the filter and a transition flag.
- The filter bar turns the user's choices into FILTER actions.
- The sales table lists a sorted copy of the sales.
- A bar chart totals the sales per category, and doughnut charts total them per region.
- The doughnut legends are split into at most four pages of equal height.

The model, module by module:

- `SaleTypes` (`sale_types.dfy`): the `Sale` and `Product` records. A sale's ISO date is a day number, counted in days since 1970-01-01.
- `Constants` (`constants.dfy`): the category catalogue, and the two databases as a class `Database`. The sales store and the response cache are its fields; the methods that update them change them in place. A ghost log `scans` records each cache key for which the store was scanned.
- `SalesHelpers` (`sales_helpers.dfy`):
  - The filter, a pure function over the store.
  - The random category draw.
  - The generator, as two imperative methods with loop invariants. Every random draw is a nondeterministic choice.
- `SaleResolver` (`sale_resolver.dfy`): the cache key and the check-then-insert memoisation of `getSales`.
- `CategoryResolver` (`category_resolver.dfy`): `getCategories`.
- `Context` (`context.dfy`): the initial store and the reducer.
  - A field-by-field reading states each action's effect: what the action writes, and that nothing else changes.
  - That reading is shown to determine the reducer completely.
- `ClientHelpers` (`client_helpers.dfy`):
  - `secsToMs`.
  - `splitIntoBatches`, as a loop proved against a recursive definition of the batches.
  - `apolloErrorMessage`.
- `FilterView` (`filter_view.dfy`): the category options, the two change handlers, the select's value and the error line.
- `SalesView` (`sales_view.dfy`): the sorted copy, the numbered rows and the spinner / "No Sales." / list choice.
- `Aggregation` (`aggregation.dfy`): the `reduce` into a string-keyed object that both charts use, as a loop over a key list and a map. It is proved against a specification of group keys in first-occurrence order and per-key totals.
- `BarGraph` (`bar_graph.dfy`) and `PieGraph` (`pie_graph.dfy`): the chart data, the batch size, the legend pages and the chart height.
- `Scenario` (`scenario.dfy`): the five mock sales of the client's tests, run through the filter, both aggregations, the sort and the chart layout.

How the model treats dates and I/O:
- `new Date(x)` for a string is the parameter `parse: string -> Instant`, which may return the invalid date.
- `undefined` reads as the invalid date and `null` as the epoch.
- The raw argument's falsiness is tracked separately from the parsed value, as the source tests `!startDate` on the raw value.
- The clock, the calendar and the random sources are parameters or choices.

The cache key is not injective (`SaleResolver.KeyCollision`). Dates contain `-`, so two different argument pairs can build the same key. The second of two such calls is answered from the cache with the first call's list. When the platform's date parser reads "2024-05-01" and "2024" as dates but rejects "05-01-2024-05-01", the filter selects differently for the two pairs, so that answer is wrong (`SaleResolver.CollidingArgumentsSelectDifferently`, under exactly those parser results). The model keeps this behaviour as written.

## Model

| member | source | states |
|---|---|---|
| Constants.CatalogueShape | backend/src/api/v1/constants/index.ts:19-30 | the catalogue has exactly ten names, Electronics first and Groceries last, pairwise distinct |
| Constants.Database.constructor | backend/src/api/v1/constants/index.ts:15-16 | the sales store and the cache both start empty, and the store invariant holds |
| SalesHelpers.SameIgnoringCaseIsEquivalence | backend/src/api/v1/helpers/index.ts:64 | comparing lower-cased strings is reflexive, symmetric and transitive, and relates a name to its lower-case form |
| SalesHelpers.ToInstant | backend/src/api/v1/helpers/index.ts:51-52 | `new Date(x)`: a string is read by the platform parser, null is the epoch, and only an undefined argument or a string the parser rejects gives the invalid date |
| SalesHelpers.WithinDateRange | backend/src/api/v1/helpers/index.ts:59-61 | two falsy bounds impose nothing; a non-falsy bound that is the invalid date fails every sale; with only the start bound given and parsed a sale passes iff start <= its time, with only the end bound iff its time <= end, with both iff start <= its time <= end |
| SalesHelpers.CategoryMatches | backend/src/api/v1/helpers/index.ts:64 | an absent or empty category passes every sale; otherwise a sale passes iff its lower-cased category equals the lower-cased argument |
| SalesHelpers.Matches | backend/src/api/v1/helpers/index.ts:59-67 | a sale passes iff it is within the date range and, when a non-empty category is given, its lower-cased category equals the lower-cased argument; so with all three arguments falsy every sale passes, and a non-falsy bound that does not parse lets none through |
| SalesHelpers.SalesByDateAndCategory | backend/src/api/v1/helpers/index.ts:45-69 | the filter returns no more records than the store holds; what it returns is stated by the lemmas below |
| SalesHelpers.FilterMembers | backend/src/api/v1/helpers/index.ts:54-68 | a sale is returned exactly when it is in the store and passes the date-range test and the category test |
| SalesHelpers.FilterAppend | backend/src/api/v1/helpers/index.ts:54-68 | filtering a concatenation concatenates the filtered parts, so the result keeps store order |
| SalesHelpers.FilterKeepsAll | backend/src/api/v1/helpers/index.ts:54-68 | when every record passes, the result is the store itself, in its own order |
| SalesHelpers.NoArgumentsReturnsStore | backend/src/api/v1/helpers/index.ts:59-64 | with all three arguments falsy (absent, null or ""), the whole store is returned |
| SalesHelpers.InvalidBoundMatchesNothing | backend/src/api/v1/helpers/index.ts:51-60 | a non-empty date bound that parses to the invalid date makes the result empty |
| SalesHelpers.BoundsRespected | backend/src/api/v1/helpers/index.ts:59-64 | for every form of the three arguments, a sale is returned iff it is in the store, at or after the start bound if one is given, at or before the end bound if one is given (a given bound must parse), and of the category ignoring case if one is given |
| SalesHelpers.CaseVariantsSelectAlike | backend/src/api/v1/helpers/index.ts:64 | two category arguments that differ only in letter case select the same records |
| SalesHelpers.GetRandomCategory | backend/src/api/v1/helpers/index.ts:76-81 | the drawn category is an entry of the catalogue, because the index lies in [0, length) |
| SalesHelpers.GenerateDay | backend/src/api/v1/helpers/index.ts:22-33 | one day appends at most 9 records and keeps every earlier record in place; each new record is dated that day, has an amount in [100, 1000] and a catalogue category, and ids stay unique |
| SalesHelpers.GenerateLastNSalesData | backend/src/api/v1/helpers/index.ts:12-35 | the store only grows at the end, with earlier records unchanged in place; every new record is dated within [lastMonthStart, today] with an amount in [100, 1000] and a catalogue category; no day gets more than 9 new records; ids stay unique |
| SaleResolver.CategoryText | backend/src/api/v1/graphql/resolvers/saleResolver.ts:12 | `category \|\| ''` is empty exactly when the category is absent or empty, and is the category otherwise |
| SaleResolver.CacheKey | backend/src/api/v1/graphql/resolvers/saleResolver.ts:12 | the key is the start date as written, "-", the end date, "-", then `category \|\| ''`: its length is their sum plus two, it starts with the start date and a dash and ends with a dash and the category text |
| SaleResolver.DistinctCategoriesDistinctKeys | backend/src/api/v1/graphql/resolvers/saleResolver.ts:12 | two calls whose equally long categories differ (for instance only in letter case) get different keys, whatever their dates |
| SaleResolver.KeyCollision | backend/src/api/v1/graphql/resolvers/saleResolver.ts:12 | the key is not injective: ("2024-05-01", "2024-05-01") and ("2024", "05-01-2024-05-01") build the same key |
| SaleResolver.CollidingArgumentsSelectDifferently | backend/src/api/v1/graphql/resolvers/saleResolver.ts:12-20 | under the parser results it assumes ("2024-05-01" and "2024" parse, "05-01-2024-05-01" does not), the two colliding argument pairs select differently (one sale versus nothing), so one of the two calls is answered with the wrong list |
| SaleResolver.GetSales | backend/src/api/v1/graphql/resolvers/saleResolver.ts:10-23 | after the call the key is cached with the returned list. On a hit, the stored list is returned and neither cache nor scan log changes. On a miss, the result is the filter's, stored under the key, and exactly one scan is logged. No key is ever scanned twice, even for an empty result |
| SaleResolver.GetSalesTwice | backend/src/api/v1/graphql/resolvers/saleResolver.ts:15-22 | asking twice with the same arguments returns the same list and scans the store at most once |
| CategoryResolver.GetCategories | backend/src/api/v1/graphql/resolvers/categoryResolver.ts:11-14 | the catalogue verbatim: ten distinct names in declared order; no arguments, no error path, no access to either database |
| Context.InitialStateShape | frontend/src/providers/context.tsx:9-27 | all three loading flags are up; the transition is hidden; lists and error strings are empty; no filter is set |
| Context.Reducer | frontend/src/providers/context.tsx:34-84 | the result carries the action's payload, and every field the action does not write is unchanged: one field per action, only the present keys for FILTER, none for an unhandled type |
| Context.ReducerIsDetermined | frontend/src/providers/context.tsx:34-84 | any record that carries the payload and keeps every unwritten field is the reducer's result, so the field-by-field reading is complete |
| Context.UnhandledActionIsIdentity | frontend/src/providers/context.tsx:81-82 | ERROR_UI, which no case handles, returns the state unchanged |
| Context.ShownStaysShown | frontend/src/providers/context.tsx:78-79 | once the transition is "show", no sequence of actions sets it back to "hide" |
| ClientHelpers.SecsToMs | frontend/src/utils/helpers/index.ts:10 | the millisecond value divided by 1000 gives the seconds back, and it is no smaller for non-negative input |
| ClientHelpers.Batches | frontend/src/utils/helpers/index.ts:119-125 | there are no batches exactly when the input is empty |
| ClientHelpers.BatchesLengths | frontend/src/utils/helpers/index.ts:121-123 | every batch has 1 to size elements, and all but the last have exactly size |
| ClientHelpers.BatchesFlatten | frontend/src/utils/helpers/index.ts:119-125 | concatenating the batches gives back the input |
| ClientHelpers.BatchesCount | frontend/src/utils/helpers/index.ts:120-124 | the number of batches is ceil(length / size) |
| ClientHelpers.BatchesAt | frontend/src/utils/helpers/index.ts:122 | element j of batch i is element i * size + j of the input |
| ClientHelpers.SplitIntoBatches | frontend/src/utils/helpers/index.ts:119-125 | the loop builds exactly the batches of the input; size 0 with a non-empty input is excluded because the source loops forever on it |
| ClientHelpers.FirstTruthy | frontend/src/utils/helpers/index.ts:143-148 | the result is "" exactly when no candidate is a non-empty string; otherwise it is the first candidate that is one |
| ClientHelpers.ApolloErrorMessage | frontend/src/utils/helpers/index.ts:133-154 | the message is the first non-empty one of: network message, the extension named after the query, first GraphQL error message, the error's message; else "". The id is the first GraphQL error's extensions.id, whichever message was chosen |
| FilterView.CategoryOptions | frontend/src/components/Filter.tsx:49-51 | "All" first, then the store's categories in order |
| FilterView.CategoryChange | frontend/src/components/Filter.tsx:54-59 | a FILTER action writing only the category; the payload is exactly `{category: ""}` for "All" and `{category: option}` for any other option |
| FilterView.DateChange | frontend/src/components/Filter.tsx:62-69 | a FILTER action whose payload holds only the changed bound, carrying the picked date |
| FilterView.SelectValue | frontend/src/components/Filter.tsx:89 | the select shows the category when it is non-empty, and "All" exactly when the category is empty or literally "All" |
| FilterView.ErrorMessage | frontend/src/components/Filter.tsx:46 | the sales error when it is non-empty, else the categories error; empty exactly when both are |
| FilterView.SelectionRoundTrip | frontend/src/components/Filter.tsx:54-89 | after selecting any non-empty option and reducing, the select shows that same option |
| FilterView.ShownSelectionIsNeutral | frontend/src/components/Filter.tsx:54-89 | re-selecting the shown option leaves the store unchanged, except exactly when the filter holds a category literally named "All" |
| FilterView.DateChangeWritesOneBound | frontend/src/components/Filter.tsx:62-69 | reducing a date change replaces that one bound of the filter and nothing else |
| SalesView.Insert | frontend/src/components/Sales.tsx:29 | inserting into a list sorted largest first keeps it sorted and adds one element |
| SalesView.InsertPermutes | frontend/src/components/Sales.tsx:29 | insertion adds exactly the one sale, as a multiset |
| SalesView.SortedSales | frontend/src/components/Sales.tsx:28-31 | the sorted copy is non-increasing in amount |
| SalesView.SortedSalesPermutes | frontend/src/components/Sales.tsx:29 | the sorted copy is a permutation of the sales: same multiset |
| SalesView.RenderRow | frontend/src/components/Sales.tsx:34-38 | row `index` is labelled index + 1 and shows the sale at that index of the sorted copy |
| SalesView.Rows | frontend/src/components/Sales.tsx:34-38 | row i shows the i-th sale of the sorted copy, labelled i + 1, one row per sale |
| SalesView.SalesPanelFor | frontend/src/components/Sales.tsx:49-66 | loading shows a spinner; otherwise empty sales show "No Sales."; otherwise the list has one row per sale, numbered from 1, showing a non-increasing permutation of the sales |
| Aggregation.GroupKeysMembers | frontend/src/components/BarGraph.tsx:41-48 | the key list has no duplicates, and a key is listed exactly when some sale carries it, compared as exact strings |
| Aggregation.GroupTotalAbsent | frontend/src/components/BarGraph.tsx:42-43 | a key that no sale carries totals zero, which makes `acc[k] \|\| 0` start a new key at 0 |
| Aggregation.TotalsSumToAll | frontend/src/components/BarGraph.tsx:41-45 | the per-key totals add up to the sum of all amounts |
| Aggregation.GroupKeysOfPrefix | frontend/src/components/BarGraph.tsx:48 | the keys of any prefix of the sales are a prefix of the keys of all of them: first-occurrence order |
| Aggregation.Values | frontend/src/components/BarGraph.tsx:49 | `Object.values`: one value per key, the i-th being the value under the i-th key, so every key's value is listed |
| Aggregation.Aggregate | frontend/src/components/PieGraph.tsx:36-41 | the reduce leaves the keys in first-occurrence order, one entry per key, each holding the total of exactly the sales with that key |
| BarGraph.CategoryTotals | frontend/src/components/BarGraph.tsx:40-51 | each category appears once, in first-occurrence order, beside the total of the sales with exactly that category string; the lists are aligned; the totals sum to all amounts; no sales give no bars |
| PieGraph.LabelEntries | frontend/src/components/PieGraph.tsx:44-54 | the entries loop pushes one label and one amount per key, in key order: the amounts are the record's values, each label beside its own amount |
| PieGraph.RegionsAndTotals | frontend/src/components/PieGraph.tsx:36-54 | one label per region in first-occurrence order, beside that region's total; the totals sum to all amounts |
| PieGraph.BatchSize | frontend/src/components/PieGraph.tsx:57-60 | the batch size is max(ceil(n / 4), 20): at least 20, large enough for four batches to hold n, and the least such value |
| PieGraph.AtMostFourCharts | frontend/src/components/PieGraph.tsx:57-62 | the slices never need more than four batches |
| PieGraph.BatchesAligned | frontend/src/components/PieGraph.tsx:61-68 | labels and amounts split into the same number of batches with the same lengths, each label beside its own amount |
| PieGraph.MaxHeight | frontend/src/components/PieGraph.tsx:122-127 | the height is at least 30 and at least twice every batch's length, and is 30 or twice some batch's length |
| PieGraph.Charts | frontend/src/components/PieGraph.tsx:36-127 | the label batches are exactly the batches of batch size of the region labels (each region in first-occurrence order with its total), and the amount batches those of the totals; at most four, none exactly when there are no sales, each non-empty and no larger than the batch size, aligned label by amount; they concatenate back to the labels and the totals; the height is MaxHeight of the label batches |
| Scenario.FilterOneDay | backend/src/api/v1/helpers/index.ts:54-68 | on the five mock sales, 2024-05-02 to 2024-05-02 in "home appliances" returns the three Home Appliances sales in store order |
| Scenario.CategoryBars | frontend/src/components/BarGraph.tsx:40-51 | on the mock sales the bars are Toys then Home Appliances, totalling 331 and 1279 |
| Scenario.RegionSlices | frontend/src/components/PieGraph.tsx:36-41 | on the mock sales the regions are Egypt, Mexico, United States of America and Cocos (Keeling) Islands, with totals 571, 133, 336 and 570 |
| Scenario.SortedTable | frontend/src/components/Sales.tsx:28-31 | the mock sales sort to amounts 570, 373, 336, 198, 133 |
| Scenario.CategoriesAreCaseSensitive | frontend/src/components/BarGraph.tsx:42-43 | "Toys" and "toys" make two bars, although the backend filter treats them as one category |
| Scenario.OneChart | frontend/src/components/PieGraph.tsx:57-127 | four regions give batch size 20, a single batch and the minimum height 30 |

## Left out

- The clock and calendar arithmetic of the generator are parameters. `today` and `lastMonthStart` are day numbers; that `lastMonthStart` is the first day of the month N months back is not modelled.
- Luxon's `toISODate` is not modelled: a sale's date is its day number.
- The faker product names and countries are arbitrary strings.
- `randomUUID` is modelled as a draw of an id not yet in the store, so ids are unique by construction.
- JavaScript's date parser is the parameter `parse`; only a date's time value and validity matter.
- The filter's number and `Date` argument forms are not modelled; the GraphQL arguments are strings. The falsy number 0 is therefore not modelled either.
- `toLowerCase` is modelled for ASCII letters only; Unicode case mapping is not.
- The payload casts of the reducer are replaced by one typed payload per action type. TRANSITION carries no payload, as it is dispatched without one.
- `SecsToMs` is stated over real numbers; floating-point rounding is not modelled.
- The `numeral` currency formatting of the legend labels is not modelled: a label holds the region and the amount.
- The charts' reduce treats every key as an ordinary string key in insertion order. JavaScript lists integer-like keys first and gives `__proto__` special meaning; neither is modelled.
- Aggregation.Aggregate: a key that names an inherited `Object.prototype` member ("constructor", "toString", "valueOf", ...) starts at 0 in the model, while `acc[k] || 0` in the source reads the inherited function and `+` then builds a string.
- Context.Reducer: ERROR_SALES and ERROR_CATEGORIES are dispatched with `undefined` after a load without error (frontend/src/pages/Home.tsx:61 and :70). The model's payload is a string, so the store holds "" where the source holds `undefined`; the error line reads both the same way.
- SalesView.SortedSales: stability (sales with equal amounts keep their store order) is not stated, only order and permutation.
- `generateRandomColors`, the chart and canvas drawing, CSS updates, tooltips and legend callbacks are left out: random colours and DOM output.
- React hooks, memoisation, the virtualised list's geometry and the Apollo client are left out.
- ClientHelpers.SplitIntoBatches: a negative or fractional size is not modelled; sizes are natural numbers, and size 0 is excluded for non-empty input.
