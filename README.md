# sapsanasap analyzer, modelled in Dafny

This project models `analyzer.js` of the sapsanasap ticket bot: the `analyze`
operation that, given the catalog of roundtrips and a request
`{filter, more, segment}`, picks the roundtrip(s) to show and the message that
explains them, and its helper `excludeMin`.

`analyze` works in four steps, and the model follows them:

1. **Normalise the filter** (`Analyzer.NormalizeFilter`, specified by the
   function `Analyzer.Normalize`). The caller's filter is merged over the
   default route. The price ceiling is taken out. A weekday equal to the "any"
   value is dropped. A `null` originating-ticket date is deleted. The copy
   made by `_.extend` is shallow, so that last deletion happens in the
   caller's own nested `originatingTicket` object. The model keeps that object
   as a class (`Analyzer.TicketFilter`) referenced from the filter value, and
   `Analyzer.Analyze` states what it holds afterwards.
2. **Equality-filter the catalog** (`Analyzer.Matching`, with `_.filter`
   modelled as `Ranking.FilterBy` and `_.matches` as the per-field
   `Analyzer.Matches`).
3. **Dispatch to the first branch that applies** (`Analyzer.Select`):
   - "more" (sort by cost then departure, `excludeMin`, page of 5);
   - a truthy price ceiling;
   - an empty search for an explicit month;
   - an empty search for a specific date;
   - otherwise, the cheapest match.
4. **Wrap a single pick into a one-element list** (`Analyzer.Wrap`).

`Analyzer.Analysis` is the whole computation as a function of the filter's
value before the call. `Analyzer.Analyze` is the operation itself: it changes
the caller's ticket object and returns `Analysis` of the old filter. Because
the result is a function of the catalog and the request, and because the
`null` date the first call deletes constrained nothing
(`AnalyzerProperties.NullDateLikeUnset`), a second call on the same request
gives the same result (`AnalyzerProperties.AnalyzeTwice`).

The lodash and `Array` primitives are modelled in `ranking.dfy` by their
documented behaviour:
- `_.minBy` returns the first element holding the least key, since it only
  replaces on a strictly smaller one.
- `_.sortBy` is stable; the model sorts by the key pair with a stable insertion sort.
- `slice` reads negative indices from the end and clamps every index.

The code has these quirks, and the model keeps them:
- `excludeMin` does not look for the minimum. Its `_.minBy` gets an array
  iteratee, which lodash reads as a property matcher. Every entry then maps
  to `false`, so the first entry is chosen. `_.remove` drops every entry
  sharing that entry's `_id`. On the sorted list the first entry is also the
  best-ranked one.
- "more" with no matching entry does not yield `noMoreTickets`. `excludeMin`
  reads `_id` of `undefined` and the call fails (`Analyzer.Fault`).
- A price ceiling of 0 counts as no ceiling (JavaScript truthiness).
- The empty-month branch tests the explicit `filter.month`, not the month
  derived from a date.
- The default branch on an empty match returns neither roundtrips nor a
  message.

Files: `wrappers.dfy` (Option, Result), `catalog.dfy` (entities, messages,
configuration), `ranking.dfy` (filter, min, stable sort, slice),
`analyzer.dfy` (normalisation, `excludeMin`, paging, dispatch, `Analyze`),
`properties.dfy` (what `analyze` promises), `scenarios.dfy` (concrete
requests).

## Model

| member | source | states |
|---|---|---|
| `Ranking.FilterBy` | analyzer.js:50 | `_.filter` keeps exactly the elements of the input that satisfy the predicate, and no more of them |
| `Ranking.FilterByCounts` | analyzer.js:50 | every kept element occurs as many times as in the input, every other element not at all |
| `Ranking.FilterByAppend` | analyzer.js:50 | filtering a concatenation is the concatenation of the filtered parts, so the kept elements stay in their input order |
| `Ranking.MinIndex` | analyzer.js:79 | the index `_.minBy` settles on holds the least key, and every earlier index holds a strictly larger key |
| `Ranking.MinBy` | analyzer.js:83 | `_.minBy` is undefined exactly on an empty list; otherwise it gives an element of the list that is its first least element by the key |
| `Ranking.FirstMinUnique` | analyzer.js:97 | a list has only one first least element, so the pick of `_.minBy` is determined |
| `Ranking.SortByCostThenTime` | analyzer.js:56 | the sorted list is ordered by (totalCost, originatingTicket.datetime) and is a permutation of the input |
| `Ranking.InsertSorted` | analyzer.js:56 | inserting into a sorted list keeps it sorted |
| `Ranking.InsertKeepsTies` | analyzer.js:56 | an inserted entry comes before the entries it ties with |
| `Ranking.SortIsStable` | analyzer.js:56 | entries tied on both keys keep their catalog order after sorting |
| `Ranking.Slice` | analyzer.js:59 | `slice` returns only elements of the list, never more than `end - start`, and for `0 <= start <= end` exactly the elements from `start` up to `end`, cut at the list's end |
| `Analyzer.NormalizeFilter` | analyzer.js:20-48 | the normalised filter is `Normalize` of the filter as passed; the caller's ticket object loses a null date and keeps any other date |
| `Analyzer.ExcludeMin` | analyzer.js:108-112 | fails exactly on an empty list; otherwise it is shorter, keeps exactly the entries whose id differs from the first entry's id, and is the tail of the list with those entries filtered out in order |
| `Analyzer.Page` | analyzer.js:58-59 | at most 5 entries from the list; none for an undefined segment; for segment `k >= 0` the entries at offsets `5k` to `5k+4` that exist |
| `Analyzer.Analyze` | analyzer.js:16-103 | the result is `Analysis` of the filter as passed; only the caller's ticket object changes, and only by losing a null date |
| `AnalyzerProperties.NormalizedFilterMeaning` | analyzer.js:20-48 | an entry passes the normalised filter iff it has the given or default route, the given month, the given weekday unless "any", and the given date unless absent or null |
| `AnalyzerProperties.FilteredMeaning` | analyzer.js:50 | an entry is among the matches iff it is in the catalog and satisfies the caller's filter |
| `AnalyzerProperties.ReturnedAreFiltered` | analyzer.js:55-100 | every roundtrip returned by any branch is one of the matches |
| `AnalyzerProperties.MoreDispatch` | analyzer.js:55-59 | with `more` set, the outcome is the "more" strategy applied to the matches, whatever the ceiling, month or date |
| `AnalyzerProperties.ReturnedEntriesMatch` | analyzer.js:50-100 | every roundtrip returned by any branch is a catalog entry that satisfies the caller's route, month, weekday and date constraints |
| `AnalyzerProperties.AnyWeekdayIsNoConstraint` | analyzer.js:41-43 | a request whose weekday is the "any" value has the same outcome as the request without a weekday |
| `AnalyzerProperties.CeilingIsNoEqualityTest` | analyzer.js:28-38 | the equality filter does not depend on the price ceiling |
| `AnalyzerProperties.ZeroCeilingIsNoCeiling` | analyzer.js:73 | a ceiling of 0 gives the same outcome as no ceiling |
| `AnalyzerProperties.NullDateLikeUnset` | analyzer.js:46-48 | a `null` ticket date gives the same outcome as the date deleted |
| `AnalyzerProperties.AnalyzeTwice` | analyzer.js:16-48 | calling `analyze` twice on the same request, the second call seeing the caller's object as the first left it, gives equal results |
| `AnalyzerProperties.FilterBySorted` | analyzer.js:56-57 | dropping entries from a sorted list leaves it sorted |
| `AnalyzerProperties.SliceSorted` | analyzer.js:59 | a slice of a sorted list is sorted |
| `AnalyzerProperties.MoreBranch` | analyzer.js:55-71 | with `more`: failure iff nothing matches; else at most 5 sorted matches, none with the best-ranked match's id, and the message is chosen by the page length (more than 1, exactly 1, 0 with a specific date, 0 otherwise) |
| `AnalyzerProperties.ExcludeMinDropsHead` | analyzer.js:108-111 | when no other entry has the head's id, `excludeMin` drops exactly the head and keeps the rest in order |
| `AnalyzerProperties.MorePageOfSortedMatches` | analyzer.js:56-59 | with unique ids, page `k` is the sorted matches from offset `1 + 5k`, at most five of them |
| `AnalyzerProperties.MoreStrategyPagesTail` | analyzer.js:56-59 | when no other sorted match shares the head's id, the "more" strategy succeeds and returns the requested page of the sorted matches without their head |
| `AnalyzerProperties.PageOfTail` | analyzer.js:58-59 | page `k` of a list without its head holds the list's entries from offset `1 + 5k`, at most five of them |
| `AnalyzerProperties.SortedMatchesKeepUniqueIds` | analyzer.js:50-56 | for a catalog with unique ids, the sorted matches are as many as the matches and no later entry shares the head's id |
| `AnalyzerProperties.UniqueIdsCons` | analyzer.js:110 | prefixing an entry whose id is new keeps ids unique |
| `AnalyzerProperties.FilterByKeepsUniqueIds` | analyzer.js:50 | filtering keeps ids unique |
| `AnalyzerProperties.InsertKeepsUniqueIds` | analyzer.js:56 | inserting an entry with a new id into a list keeps ids unique |
| `AnalyzerProperties.SortKeepsUniqueIds` | analyzer.js:56 | sorting keeps ids unique |
| `AnalyzerProperties.PriceCeilingBranch` | analyzer.js:73-84 | with a truthy ceiling and no `more`: if some match is within the ceiling, the one result is the first earliest-departing such match and there is no message; otherwise the price message with the ceiling, and the first cheapest match or nothing |
| `AnalyzerProperties.CeilingStrategyMeaning` | analyzer.js:74-83 | on any matches and ceiling, the price-ceiling strategy gives the outcome described for `PriceCeilingBranch` |
| `AnalyzerProperties.EmptyMonthBranch` | analyzer.js:86-91 | explicit month, no match, no truthy ceiling, no `more`: no roundtrips and `noTicketsForGivenMonth` with the month's name if the month is in the span, else the beyond-timespan message |
| `AnalyzerProperties.EmptyDateBranch` | analyzer.js:93-94 | specific date, no explicit month, no match, no truthy ceiling, no `more`: no roundtrips and `noTicketsForGivenDate` if the date's month is in the span, else the beyond-timespan message |
| `AnalyzerProperties.CheapestBranch` | analyzer.js:96-100 | otherwise: no message, no roundtrips iff nothing matches, else exactly the first cheapest match |
| `Scenarios.ExcludeMinKeepsTiedCost` | analyzer.js:108-111 | on costs 10, 10, 20, 30 only the first 10 is removed |
| `Scenarios.NoConstraintsPicksCheapest` | analyzer.js:96-100 | with no constraints, entries costing 100 and 80 give just the 80 one and no message |
| `Scenarios.EmptyDecemberWithinSpan` | analyzer.js:86-88 | asking for December with no December entry and December in the span gives `noTicketsForGivenMonth("december")` and no roundtrips |
| `Scenarios.MoreWithOneLeftover` | analyzer.js:55-63 | two matching entries with different ids and `more` on page 0 leave the one ranked second, with `lastPairOfTickets` |
| `Scenarios.MoreStrategyOnTwo` | analyzer.js:56-63 | the "more" strategy on two entries with different ids returns page 0 holding the one ranked second, with `lastPairOfTickets` |
| `Scenarios.OnePageOfOne` | analyzer.js:58-59 | page 0 of a one-entry list is that list |
| `Scenarios.SecondOfTwoIsLeft` | analyzer.js:56-57 | sorting two entries with different ids and applying `excludeMin` leaves the one ranked second |
| `Scenarios.SortTwo` | analyzer.js:56 | two entries come out ordered by rank |

## Left out

- Retrieving the catalog (`Kiosk.getAll()` and the promise chain) is not modelled: the catalog is an input sequence. A failed retrieval is not modelled; the only failure is that of `excludeMin`.
- `Kiosk.defaultRoute`, `Kiosk.weekdays.any`, `Kiosk.isMonthWithinTimespan` and `Kiosk.timespan` live in a module that is not part of this model. They are the fields of `Catalog.Config`, and the timespan test is membership in a set of months.
- `polyglot.t` turns a message into display text. The model keeps only the message key and its parameters (`Catalog.Message`).
- `moment` month names and `Date.getMonth` are replaced by a fixed table of lower-case English month names and a date with a month field. Month numbers outside 0 to 11 are not modelled. The month name that a `null` date makes (`null + 1` read as January) is not modelled. No branch ever shows it.
- `debug` logging is not modelled.
- `_.matches` is modelled as field-by-field equality on route, weekday, originating-ticket date and month. Deep partial matching of arbitrary objects and filter keys outside these fields are not modelled. A key the caller set explicitly to `undefined` is treated as unset.
- Catalog entries are assumed well formed, with every field present. Costs and departure instants are integers, not JavaScript numbers, so NaN and fractions are not modelled. Non-integer segments are not modelled.
- Analyzer.NormalizeFilter: the outer filter object is modelled as a value. Only the nested ticket object, which the caller shares, is modelled in place.
