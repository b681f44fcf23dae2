# Sales dashboard: filter-and-aggregate core in Dafny

This project models the logic beneath `Dashboard.py`, a Streamlit sales
dashboard, and proves properties of that model. The dashboard fetches sales
records from a products endpoint. It can narrow them to chosen sellers. It
then turns them into aggregate tables by purchase location, calendar month,
product category and seller. It shows top-N views of those tables and two
headline metrics, formatted with a scaled-unit number formatter.

A sales record (`Records.SalesRecord`) carries the seller, the purchase
location with its latitude and longitude, the product category, the price in
whole cents, and the purchase date as year, month and day.

Modules, one per part of the pipeline:

- `Formatting` (formatting.dfy): `formata_numero` as a loop over the tiers
  `''`, `'mil'`, `'milhões'`, proved against the tier function `Scale`.
  `formata_numero_v2` is `FormatPlain`. The `:.2f` rendering is the
  function parameter `fixed2`.
- `Query` (query.dfy): the `regiao`/`ano` request parameters built from the
  sidebar choices. The region list keeps the source's spelling `'Sudesde'`,
  which is sent as `'sudesde'`.
- `SellerFilter` (seller_filter.dfy): the seller multiselect filter. It is
  the only client-side filter the code has.
- `Grouping` (grouping.dfy): one group-by. Groups come in first-seen key
  order, which is the order `drop_duplicates` leaves. Each group is
  summarised by its first record, its summed price and its price count.
- `Ranking` (ranking.dfy): `sort_values(..., ascending=False)` as a
  descending insertion sort, and `head(n)`.
- `Tables` (tables.dfy): the location, category and seller tables, and the
  top-5 location and top-N seller views.
- `Monthly` (monthly.dfy): the `pd.Grouper(freq='M')` month tables. A
  `MonthlyTable` class gains its `'Ano'` and `'Mês'` columns by in-place
  assignment.
- `Dashboard` (dashboard.dfy): one top-to-bottom pass of the script, with
  `dados` rebound by the seller filter, plus the headline metrics.

Behaviour of `Dashboard.py` that the model keeps:

- `pd.Grouper(freq='M')` emits every month from the first purchase to the
  last, and a month without purchases gets value 0. Purchases in January
  2022, February 2022 and January 2023 give 13 rows
  (`Monthly.GrouperEmitsEveryMonth`).
- `formata_numero` labels thousands `'mil'` and millions `'milhões'`.
- An empty seller selection leaves `dados` as fetched; a non-empty one keeps
  exactly the chosen sellers' records.

## Model

| member | source | states |
|---|---|---|
| Formatting.Scale | Dashboard.py:20-23 | the tier chosen for a value: when there is one, the scaled amount is below 1000 and its label is one of the tiers; there is none only when the tiers run out at a value of 1000 or more |
| Formatting.Formatted | Dashboard.py:19-23 | a rendering exists exactly when a tier exists, and it starts with the prefix and a space |
| Formatting.FormatNumber | Dashboard.py:19-23 | the loop returns the plain rendering of the value scaled by the first tier under 1000, followed by a space and that tier's label; it returns nothing once the three tiers are used up |
| Formatting.ScaleTiers | Dashboard.py:19-23 | below 1000 the value itself with an empty label; from 1000 to below 10^6 the value over 1000 with 'mil'; from 10^6 to below 10^9 the value over 10^6 with 'milhões'; from 10^9 on no result |
| Formatting.ScaleInverse | Dashboard.py:20-23 | the formatted amount is below 1000, is at least 1 when a label is attached, and times its label's factor gives back the input |
| Formatting.FormatPlain | Dashboard.py:26-28 | the prefix, one space, then the two-decimal rendering of the unscaled value |
| Query.Normalise | Dashboard.py:45-57 | region 'Brasil' is sent as '', any other region lower-cased; the year is 'all' exactly when the whole-period box is checked, otherwise the slider's year in [2020, 2023] |
| Query.RegionParameter | Dashboard.py:41-57 | among the offered regions only 'Brasil' gives an empty region parameter, and every region parameter has no upper-case letter |
| Query.ToLower | Dashboard.py:57 | lower-casing keeps the length and lower-cases each character |
| Query.ToLowerIdempotent | Dashboard.py:57 | lower-casing twice equals lower-casing once |
| SellerFilter.KeepSellers | Dashboard.py:68 | the kept records are records of the input whose seller is chosen, and there are no more of them than input records |
| SellerFilter.FilterBySellers | Dashboard.py:66-68 | the result is drawn from the input records and is no longer; with a non-empty selection every kept record has a chosen seller |
| SellerFilter.KeepSellersExact | Dashboard.py:68 | `isin` keeps each record with all its occurrences when its seller is chosen and drops it otherwise, as an order-preserving subsequence |
| SellerFilter.FilterBySellersExact | Dashboard.py:66-68 | an empty selection returns the records unchanged; otherwise exactly the chosen sellers' records, in their original order |
| SellerFilter.KeepSellersIdempotent | Dashboard.py:68 | the `isin` filter applied to its own output changes nothing |
| SellerFilter.FilterBySellersIdempotent | Dashboard.py:66-68 | applying the seller filter twice equals applying it once |
| Grouping.FirstIndexIsEarliest | Dashboard.py:77 | the row `drop_duplicates` keeps for a key is the earliest record with that key |
| Grouping.FirstIndexHeadsGroup | Dashboard.py:76-77 | the row `drop_duplicates` keeps for a key is the first record of that key's group |
| Grouping.Summaries | Dashboard.py:76-77 | at most one row per record; that it is the group table (one true row per distinct key) is `Grouping.SummariesDescribe` |
| Grouping.SplitByKey | Dashboard.py:76 | one key's group and the remaining records together hold the whole revenue and count |
| Grouping.SummariesDescribe | Dashboard.py:76-77 | one row per distinct key; each row's sum and count are those of its key's records and its representative is the first record with that key |
| Grouping.SummariesConserve | Dashboard.py:104 | the group sums add up to the total price and the group counts to the number of records |
| Grouping.DistinctByCount | Dashboard.py:76 | a table's keys are distinct exactly when it has as many keys as rows |
| Grouping.GroupTableSize | Dashboard.py:77 | a group table has one row per distinct key, and any reordering of it is still a group table |
| Ranking.SortDesc | Dashboard.py:77 | the sorted table is non-increasing in the chosen measure, is a permutation of its input and keeps both totals |
| Ranking.Head | Dashboard.py:191 | `head(n)` is the first min(n, rows) rows |
| Ranking.HeadDominates | Dashboard.py:191 | the head of a sorted table is sorted and no row left out has a strictly larger measure than a row kept |
| Tables.RankedTable | Dashboard.py:86 | a group table of the records, one row per distinct key, sorted by the measure, a permutation of the unsorted groups, conserving the measure |
| Tables.LocationRevenue | Dashboard.py:76-77 | revenue per location with the first record's coordinates, one row per location, largest first, summing to the total price |
| Tables.LocationSales | Dashboard.py:91-92 | sales count per location with the first record's coordinates, one row per location, largest first, summing to the number of records |
| Tables.CategoryRevenue | Dashboard.py:86 | revenue per category, one row per category, largest first, summing to the total price |
| Tables.CategorySales | Dashboard.py:100 | sales count per category, one row per category, largest first, summing to the number of records |
| Tables.SellerTable | Dashboard.py:104 | one row per seller holding both its price sum and its count; sums add up to the total price, counts to the number of records |
| Tables.TopLocations | Dashboard.py:191-203 | min(5, locations) true location rows, sorted, and no location left out has a strictly larger measure than one shown |
| Tables.RankedSellers | Dashboard.py:268 | the seller table sorted by the measure, largest first: a permutation of the seller table, one true row per seller |
| Tables.TopSellers | Dashboard.py:264-280 | for N in [2, 10], the first min(N, sellers) rows of the ranked seller table: distinct sellers, each row true, sorted by sum or count, and no seller left out has a strictly larger measure than one shown |
| Monthly.MonthIndexRoundTrip | Dashboard.py:81 | counting months from year 0 and naming the n-th month are inverse to each other |
| Monthly.MonthIndexOrder | Dashboard.py:81 | month numbering follows calendar order |
| Monthly.FirstMonth | Dashboard.py:81 | the earliest purchase month is no later than any record's and is some record's |
| Monthly.LastMonth | Dashboard.py:81 | the latest purchase month is no earlier than any record's and is some record's |
| Monthly.MonthBins | Dashboard.py:81 | one row per month of the span from the first purchase to the last; their order and coverage are `Monthly.MonthBinsChronological` and `Monthly.MonthBinsCover` |
| Monthly.MonthlyValues | Dashboard.py:81-95 | one value per month row (the sum of line 81, the count of line 95); what each value is, is `Monthly.MonthlyValuesExact` |
| Monthly.MonthBinsChronological | Dashboard.py:81 | month rows are in strictly increasing calendar order, one month apart |
| Monthly.MonthBinsCover | Dashboard.py:81 | the rows run from the earliest purchase month to the latest, so every purchase month has a row |
| Monthly.MonthlyValuesExact | Dashboard.py:95 | each month row's value is the sum or count of that month's purchases |
| Monthly.InMonthAbsent | Dashboard.py:81 | a month without purchases has measure 0 |
| Monthly.MonthlyConserves | Dashboard.py:81 | the month rows add up to the total price (sum) or to the number of records (count) |
| Monthly.GrouperEmitsEveryMonth | Dashboard.py:81 | purchases in Jan 2022, Feb 2022 and Jan 2023 give 13 rows in order, the middle months with value 0 |
| Monthly.CalendarLabelsDistinct | Dashboard.py:82-83 | no two month rows carry the same 'Ano' and 'Mês', so the same month in different years stays apart |
| Monthly.MonthlyTable.Group | Dashboard.py:81 | the grouped table holds the month rows and their values, with no 'Ano' or 'Mês' column yet |
| Monthly.MonthlyTable.AssignYear | Dashboard.py:82 | sets 'Ano' to each row's year and changes no other column |
| Monthly.MonthlyTable.AssignMonthName | Dashboard.py:83 | sets 'Mês' to each row's English month name and changes no other column |
| Monthly.BuildMonthlyTable | Dashboard.py:95-97 | a fresh month table with its month rows, their values, and 'Ano' and 'Mês' taken from each row's month |
| Records.SalesTotalIsLength | Dashboard.py:246 | counting the records' sales gives the row count |
| Dashboard.Recompute | Dashboard.py:45-104 | one pass: the query parameters, `dados` after the seller filter, every table, both top views, both metrics and both month tables computed from the filtered records |
| Dashboard.RevenueInReais | Dashboard.py:240 | the revenue metric's amount in reais is the total price in cents over 100 |
| Dashboard.ViewsAgreeOnTotals | Dashboard.py:240-246 | the revenue metric's amount equals the sum of the location, category, seller and month revenue tables; the count metric's number equals the sums of the count tables |

## Left out

- Streamlit page setup, sidebar widgets, tabs, columns and `st.metric` rendering: presentation. The model takes the widget values as inputs.
- The HTTP request and JSON decoding (`requests.get`, `DataFrame.from_dict`): network I/O. The fetched records are an input of `Dashboard.Recompute`. When the endpoint returns no records, the script fails at line 62 because the frame has no 'Data da Compra' column; the model does not capture that failure and yields empty tables and a zero metric instead.
- `pd.to_datetime` parsing of 'Data da Compra': a library call. Records carry year, month and day already. Day is only bounded to 1-31.
- All Plotly figures, map styling and the `range_y` bounds: presentation.
- The `:.2f` rendering and binary floating point: prices are whole cents, so sums are exact. The rendering is the parameter `fixed2`, and the revenue metric divides cents by 100.
- `str.lower()` beyond ASCII: `Query.ToLower` lower-cases only A-Z. Every region name in the list is ASCII.
- Ranking.SortDesc: pandas' default sort promises no order among equal measures; the model keeps ties in incoming order, and no contract relies on that.
- Tables.SellerTable: pandas orders the seller table by seller name; the model keeps first-seen order. Every use re-sorts it by a measure, where tie order is not promised.
- Grouping.Summaries: a row carries both the sum and the count of its group. Each pandas table except the seller table shows only one of them.
- Monthly.MonthlyTable: 'Data da Compra' holds month-end timestamps in pandas; the model holds year and month.
- Missing prices: pandas' `count` skips null prices. The model assumes every record has a price.
- `pages/Tabela de dados.py` is not part of this model.
