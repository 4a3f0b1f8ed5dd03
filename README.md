# MangoShow dashboard pipeline in Dafny

MangoShow turns a sales spreadsheet into a dashboard. Each spreadsheet row holds:
- the amount paid;
- a free-text order cell ("product - location , day.month : qty", possibly repeated);
- a quantity column;
- the row's position.

The pipeline in `utils/dataProcessor.ts` works in four stages:
1. **Parsing.** `parseOrderDetails` reads the order cell into line items.
2. **Price learning.** `learnPrices` learns a unit price per (product, location, date) from the rows that hold a single item.
3. **Price lookup.** `getProductPrice` resolves a price in three tiers: exact key, then product at the location, then product anywhere.
4. **Aggregation.** `processDashboardData` splits each row's amount across its items and accumulates the dashboard:
   - per-product totals with price, location and date breakdowns;
   - per-location totals with product breakdowns and sales days;
   - one sale summary per row;
   - the grand totals and a date range.

   It then fills in the average prices and the location summaries, and sorts the three lists.

This project models those four functions and proves what they promise.

- `OrderParser` models the two regular expressions of `parseOrderDetails` as JavaScript's backtracking engine runs them:
  - lazy `(.*?)` groups, greedy `\s*` and `\d{1,2}`;
  - `.` stops at line terminators;
  - the `g`-flag `exec` loop.

  The model proves that the match it computes is the first match in the engine's sense, that the scan of all matches is unique, and what each branch of the function returns.
- `PriceLearning` models `learnPrices`:
  - `LearnPrices`, a method with the source's two loops over a `map`, is proved equal to the specification function `Learned`;
  - `Learned` is shown to produce one entry per key, with the mean of its samples as the price and a confidence between 0 and 1.
- `PriceResolver` models `getProductPrice` and its three tiers, with a lemma per tier and the "null exactly when the product is unknown" property.
- `Allocation` states how a row's amount is split, and proves that the split always adds up to the row's amount.
- `Aggregates` and `Summaries` state the product and location maps as functions of the items recorded so far, and prove the step lemmas that the in-place updates need.
- `Dashboard` holds the aggregation itself:
  - `ProcessDashboardData` is a method with the source's loops and map updates, proved equal to the function `DashboardOf`;
  - lemmas about `DashboardOf` state the promised properties: sale summaries balance and are sorted, totals agree, every product and location is listed once with the right totals, the lists are sorted by revenue, and the date range bounds every date.
- `StringKeys` models the string keys that `learnPrices` actually uses (see Findings).

The parser and the price resolver enter the pipeline as function parameters:
- `Parser`: `Dashboard.ProcessDashboardData` takes any parser, and `Dashboard.ProcessOrders` runs it with `OrderParser.ParseOrderDetails`;
- `Pricer`: `ProcessDashboardData` passes `Allocation.PriceLookup(learned)`, which calls `PriceResolver.GetProductPrice` on the prices it has just learned.

The pipeline's properties hold for any parser and resolver. Both are modelled and proved on their own.

Two behaviours of the code to note:
- **A row of two items where only one has a learned price.** The item without a price gets nothing and the other receives the whole amount (lines 378-384).
- **The date range.** It is updated for every allocated item, not once per row (lines 360-361, 457-458, 541-542).

## Model

| member | source | states |
|---|---|---|
| OrderParser.ParseOrderDetails | utils/dataProcessor.ts:91-143 | a blank cell gives no items; a cell without `:` gives at most one item, carrying the default quantity |
| OrderParser.ParseSingle | utils/dataProcessor.ts:121-139 | the no-colon branch yields at most one item, with the default quantity |
| OrderParser.ParseSingleMatched | utils/dataProcessor.ts:123-130 | when the anchored pattern's first match is found, the result is exactly that match's trimmed product, location and date with the default quantity |
| OrderParser.ParseSingleUnmatched | utils/dataProcessor.ts:131-138 | without a match, the result is the trimmed text before the first `-` at location `אחר` with an empty date, or nothing when that text is empty |
| OrderParser.ParseWithColon | utils/dataProcessor.ts:99-120 | with a colon, the result is the entries of the unique chain of successive matches; when nothing matches, it is one fallback item at `אחר`, with an empty date, the default quantity and, when no line break comes before the first `:`, the trimmed text before that `:` |
| OrderParser.ParseWithQuantities | utils/dataProcessor.ts:99-120 | the colon branch: the items of all matches of the repeated pattern, or else the one fallback item from the colon pattern; a cell with a colon always yields at least one item. `ParseWithColon` states which items |
| OrderParser.ColonFallback | utils/dataProcessor.ts:115-117 | `/(.*?)\s*:/` always matches a cell that contains `:`; on a single line, its group is the text before the first `:`, trimmed |
| OrderParser.DateEnd | utils/dataProcessor.ts:101 | the greedy `\d{1,2}\.\d{1,2}` group ends after its start and inside the text |
| OrderParser.DateEndShape | utils/dataProcessor.ts:101 | what the date group reads has the form one or two digits, a dot, one or two digits |
| OrderParser.TailFrom | utils/dataProcessor.ts:101 | the scan of `\s*,\s*(date)\s*:\s*(\d+)` places the groups in order, and the quantity group is non-empty |
| OrderParser.TailFromGroups | utils/dataProcessor.ts:101 | the date and quantity groups the scan reports are exactly what the greedy date and digit patterns read there |
| OrderParser.FindLocationEndLeast | utils/dataProcessor.ts:101 | the lazy location group ends at the first position from which the rest of the pattern matches, and no earlier |
| OrderParser.AfterProductSpec | utils/dataProcessor.ts:101 | after a product group, the rest of the pattern matches at the reported end and at no earlier one |
| OrderParser.FindProductEndMatches | utils/dataProcessor.ts:101 | the product end found yields a match whose location group is the shortest possible |
| OrderParser.FindProductEndLeast | utils/dataProcessor.ts:101 | the lazy product group is the shortest one that leads to a match |
| OrderParser.FindProductEndNone | utils/dataProcessor.ts:101 | no product end is found exactly when no product group from that point can match |
| OrderParser.FindMatch | utils/dataProcessor.ts:104 | a match found from a position starts there or later, with its product group inside the text |
| OrderParser.FindMatchMatches | utils/dataProcessor.ts:104 | what is found is a match of the pattern |
| OrderParser.FindMatchIsFirst | utils/dataProcessor.ts:104 | `exec` from a position returns the leftmost match with the shortest lazy groups, or there is no match from there |
| OrderParser.FirstMatchUnique | utils/dataProcessor.ts:104 | the first match from a position is unique |
| OrderParser.ScanAll | utils/dataProcessor.ts:104-111 | every position the loop reports is a match of the repeated pattern |
| OrderParser.TailShape | utils/dataProcessor.ts:101-108 | a match's date group is a day.month date, and its quantity group is all digits |
| OrderParser.ScanAllIsChain | utils/dataProcessor.ts:104-111 | the `while (exec)` loop visits the chain of successive first matches |
| OrderParser.MatchChainUnique | utils/dataProcessor.ts:104-111 | that chain is unique |
| OrderParser.ChainEmptyIff | utils/dataProcessor.ts:104-114 | the chain is empty exactly when the pattern matches nowhere |
| OrderParser.EntryOf | utils/dataProcessor.ts:105-110 | the item a match of the repeated pattern pushes: its product, location and date groups trimmed and its quantity group read as a number; `EntryOfShape` states their form |
| OrderParser.EntryOfShape | utils/dataProcessor.ts:105-110 | each item from the repeated pattern has a trimmed product and location, a day.month date, and a whole non-negative quantity |
| OrderParser.SingleEntryOfShape | utils/dataProcessor.ts:126-130 | the single-pattern item has a trimmed product and location, a day.month date and the default quantity |
| OrderParser.BeforeFirst | utils/dataProcessor.ts:134 | `split(c)[0]` is the longest prefix without `c` |
| Text.Trim | utils/dataProcessor.ts:96 | `trim` returns the part of its input left after removing the white space at both ends: a slice of the input with only white space before and after it, and no white space at either end |
| Text.TrimProperties | utils/dataProcessor.ts:94-96 | trimming leaves nothing exactly for blank text, and trimming twice changes nothing |
| Text.NatToStringRoundTrip | utils/dataProcessor.ts:313 | the digits `toFixed` writes for a whole number of cents read back, as `Number` reads a digit run, as that number |
| Text.ToFixed2 | utils/dataProcessor.ts:313 | a `toFixed(2)` price key starts with `-` exactly for a negative number; every other character is a digit except the dot, which has exactly two digits after it and at least one before it; the integer part has no leading zero beyond a single `0` |
| Text.Cents | utils/dataProcessor.ts:313 | the number `toFixed(2)` writes out is the integer nearest to 100 times the absolute value, the larger one on a tie |
| Text.ToFixed2Value | utils/dataProcessor.ts:313 | the digits of a `toFixed(2)` price key, read without the sign and the dot, are exactly `Cents(x)` |
| Text.LexLessTransitive | utils/dataProcessor.ts:360-361 | JavaScript's string `<` is transitive |
| Text.LexLessTotal | utils/dataProcessor.ts:360-361 | two different strings are ordered one way or the other |
| PriceLearning.SampleOf | utils/dataProcessor.ts:150-160 | a row gives a sample exactly when it is before row 5433 and parses to one item; the sample's key is that item's (product, location, date) and its price is positive |
| PriceLearning.Samples | utils/dataProcessor.ts:150-171 | every sample price is positive |
| PriceLearning.SamplePricesFromRows | utils/dataProcessor.ts:150-171 | a key's sample prices are exactly those of the eligible rows with that key, and are positive |
| PriceLearning.SamplesFromRows | utils/dataProcessor.ts:150-171 | the samples are exactly those of the eligible rows |
| PriceLearning.PricesForMembers | utils/dataProcessor.ts:167-170 | a key's sample list holds exactly the prices observed for that key |
| PriceLearning.KeysInOrderDistinct | utils/dataProcessor.ts:163-165 | each key enters the price map once |
| PriceLearning.KeysInOrderMembers | utils/dataProcessor.ts:163-165 | the map's keys are exactly the keys with at least one sample |
| PriceLearning.RecordSample | utils/dataProcessor.ts:151-171 | reading one row keeps the key order and price map in step with the samples read so far, that row's included |
| PriceLearning.CollectSamples | utils/dataProcessor.ts:148-172 | after the first loop, the key order and the price map hold each key's running sum, count and samples over all rows |
| PriceLearning.EntryFrom | utils/dataProcessor.ts:176-191 | a key's entry built from its running sum, count and samples carries the mean of its prices and the confidence from their spread |
| PriceLearning.Learned | utils/dataProcessor.ts:146-195 | the table `learnPrices` returns: one entry per key with samples, in order of first appearance, each built by `Entry` from that key's prices; every entry's key has at least one sample. `LearnedAt`, `LearnedKeysDistinct`, `RowKeysLearned`, `LearnedConfidence` and `LearnedPriceBetween` state its properties |
| PriceLearning.LearnPrices | utils/dataProcessor.ts:146-195 | the method's result equals the specification `Learned` |
| PriceLearning.LearnedFor | utils/dataProcessor.ts:175-192 | one learned entry per key, in key order, each carrying its key's fields |
| PriceLearning.LearnedForAt | utils/dataProcessor.ts:175-191 | the entry at each position is built from that key's prices |
| PriceLearning.Max | utils/dataProcessor.ts:183 | `Math.max` is at least both arguments and equals one of them |
| PriceLearning.LearnedAt | utils/dataProcessor.ts:175-191 | each learned price is the mean of its key's samples, with the confidence computed from those samples |
| PriceLearning.LearnedKeysDistinct | utils/dataProcessor.ts:175 | no key is learned twice |
| PriceLearning.LearnedKeysFromRows | utils/dataProcessor.ts:150-176 | every learned key comes from an eligible row |
| PriceLearning.RowKeysLearned | utils/dataProcessor.ts:150-176 | every eligible row's key is learned |
| PriceLearning.LearnedPriceBetween | utils/dataProcessor.ts:177 | a learned price lies between the smallest and largest of its samples, and is positive |
| PriceLearning.ConfidenceRange | utils/dataProcessor.ts:180-183 | confidence is between 0 and 1, and it is 1 exactly when all samples are equal |
| PriceLearning.LearnedConfidence | utils/dataProcessor.ts:180-190 | the same, for every learned entry |
| PriceLearning.LearnedSingleSample | utils/dataProcessor.ts:177-183 | one sample gives that sample as the price, with confidence 1 |
| Stats.Mean | utils/dataProcessor.ts:177 | the mean times the number of samples is their sum |
| Stats.MeanBetween | utils/dataProcessor.ts:177 | a mean lies between the bounds of its values |
| Stats.SumSquaresAboutMeanZero | utils/dataProcessor.ts:180-182 | the variance is zero exactly when all values are equal |
| PriceResolver.FindExact | utils/dataProcessor.ts:205-207 | `find` returns an exact entry from the table, or none exists |
| PriceResolver.FindExactFirst | utils/dataProcessor.ts:205-207 | `find` returns the first exact entry |
| PriceResolver.PricesIn | utils/dataProcessor.ts:212-222 | `filter` keeps no more entries than the table has |
| PriceResolver.PricesInEmpty | utils/dataProcessor.ts:216-224 | a tier's list is non-empty exactly when some entry is in its scope |
| PriceResolver.ScopeWithin | utils/dataProcessor.ts:217-225 | a tier's mean lies within the range of the prices in its scope |
| PriceResolver.PricesInMembers | utils/dataProcessor.ts:212-222 | a tier's price list holds exactly the prices of the entries in its scope |
| PriceResolver.GetProductPrice | utils/dataProcessor.ts:198-230 | the three-tier lookup: the first exact entry's price, else the mean at the location, else the mean anywhere, else null; a price is returned only for a product the table has. `ExactWins`, `LocationTier`, `ProductTier` and `NullIffUnknownProduct` state each tier |
| PriceResolver.ExactWins | utils/dataProcessor.ts:205-209 | with an exact entry, the price is that of the first one |
| PriceResolver.LocationTier | utils/dataProcessor.ts:212-219 | with no exact entry but some at the location, the price is their mean |
| PriceResolver.ProductTier | utils/dataProcessor.ts:222-227 | with no entry at the location but some for the product, the price is their mean |
| PriceResolver.NullIffUnknownProduct | utils/dataProcessor.ts:198-230 | the result is null exactly when no entry has the product |
| PriceResolver.PriceWithinTable | utils/dataProcessor.ts:198-230 | a resolved price lies within the range of the table's prices |
| PriceResolver.PricePositive | utils/dataProcessor.ts:198-230 | a table of positive prices resolves to positive prices |
| Allocation.EstimatedTotal | utils/dataProcessor.ts:365-372 | `estimatedTotal`: the sum of `price * qty` over the items whose price is truthy; `EstimatedTotalNonNegative` and `EstimatedTotalWitness` state its sign and when it is non-zero |
| Allocation.EstimatedTotalNonNegative | utils/dataProcessor.ts:365-376 | with positive quantities and prices the estimate is never negative, so the price split is skipped only on an estimate of zero |
| Allocation.Allocate | utils/dataProcessor.ts:280-477 | a row's items with their revenues: one item takes the whole amount, several share it by price when the estimate is positive and by quantity otherwise; never more allocated items than items. `Conservation`, `AllocateNonEmpty`, `AllocateFromOrders`, `PriceSharesAt`, `PriceSharesItems` and `QtySharesItems` state the split |
| Allocation.QtyTotalPositive | utils/dataProcessor.ts:462-465 | the quantity total of a non-empty row is positive, so the quantity split never divides by zero |
| Allocation.Conservation | utils/dataProcessor.ts:280-477 | the items' revenues add up to exactly the row's amount, in every branch |
| Allocation.PriceShares | utils/dataProcessor.ts:379-384 | the price split has no more items than the row |
| Allocation.QtyShares | utils/dataProcessor.ts:467-468 | the quantity split has one item per row item |
| Allocation.EstimatedTotalWitness | utils/dataProcessor.ts:365-372 | a non-zero estimate has at least one item with a truthy price |
| Allocation.PriceSharesSum | utils/dataProcessor.ts:378-384 | the price-proportional shares add up to `estimated(all priced items) / estimatedTotal * amount` |
| Allocation.QtySharesSum | utils/dataProcessor.ts:467-468 | the quantity shares add up to `totalQty(all) / totalQty * amount` |
| Allocation.PriceSharesItems | utils/dataProcessor.ts:379-381 | as sets: an item appears in the price split exactly when it is one of the row's items and its price is truthy; `PriceSharesAt` states order, multiplicity and each revenue |
| Allocation.Priced | utils/dataProcessor.ts:379-381 | the filter of the row's items whose price is truthy: never more items than the row; `PricedCounts` states which items it keeps and how often |
| Allocation.PricedCounts | utils/dataProcessor.ts:379-381 | each item occurs among the priced items exactly as often as in the row when its price is truthy, and not at all otherwise |
| Allocation.PriceSharesAt | utils/dataProcessor.ts:376-384 | the price split has one share per priced item, in row order: the k-th share is the k-th truthy-priced item with revenue `(price * qty / estimatedTotal) * amount` |
| Allocation.QtySharesItems | utils/dataProcessor.ts:467-468 | the quantity split gives each item `qty / totalQty * amount` |
| Allocation.AllocateNonEmpty | utils/dataProcessor.ts:378-384 | a row with items always gets at least one allocated item |
| Allocation.AllocateFromOrders | utils/dataProcessor.ts:280-477 | every allocated item is one of the row's items |
| Sorting.Insert | utils/dataProcessor.ts:578-589 | inserting adds exactly one element |
| Sorting.Sort | utils/dataProcessor.ts:578-589 | sorting keeps the length |
| Sorting.InsertSorted | utils/dataProcessor.ts:578-589 | under a total comparator, inserting into an ordered list keeps it ordered |
| Sorting.SortPermutes | utils/dataProcessor.ts:578-589 | sorting is a permutation |
| Sorting.SortSorted | utils/dataProcessor.ts:578-589 | under a total comparator, sorting gives an ordered list |
| Sorting.SortedPairs | utils/dataProcessor.ts:578-589 | in an ordered list under a transitive comparator, every earlier element precedes every later one |
| Aggregates.FirstSeenDistinct | utils/dataProcessor.ts:242-243 | a `Map`'s iteration order lists each key once |
| Aggregates.FirstSeenMembers | utils/dataProcessor.ts:242-243 | it lists exactly the keys that were set |
| Aggregates.KeysWhereMembers | utils/dataProcessor.ts:314-357 | a breakdown has an entry for exactly the keys of the selected items |
| Aggregates.AddTo | utils/dataProcessor.ts:314-318 | a breakdown update adds exactly its key |
| Aggregates.TallyStep | utils/dataProcessor.ts:309-310 | recording an item adds its quantity and revenue to every total that selects it, and to no other |
| Aggregates.BreakdownStep | utils/dataProcessor.ts:314-330 | recording an item adds its quantity and revenue to its own key's entry, creating it at zero if absent |
| Aggregates.BreakdownUnchanged | utils/dataProcessor.ts:314-330 | an item of another product or location leaves the breakdown unchanged |
| Aggregates.TallyOfMissingKey | utils/dataProcessor.ts:314-316 | an absent key starts from `{qty: 0, revenue: 0}` |
| Summaries.ProductAggStep | utils/dataProcessor.ts:308-330 | recording an item adds it to its product's totals and its price, location and date entries |
| Summaries.ProductAggOther | utils/dataProcessor.ts:308-330 | other products are unchanged |
| Summaries.ProductAggUnseen | utils/dataProcessor.ts:296-305 | a product not seen before starts from the fresh summary |
| Summaries.LocationAggStep | utils/dataProcessor.ts:344-357 | recording an item adds its revenue and product entry to its location, and adds its date to the sales days when the date is not empty |
| Summaries.LocationAggOther | utils/dataProcessor.ts:344-357 | other locations are unchanged |
| Summaries.LocationAggUnseen | utils/dataProcessor.ts:333-342 | a location not seen before starts from the fresh entry |
| Summaries.Bump | utils/dataProcessor.ts:314-318 | the in-place breakdown update equals `AddTo` |
| Summaries.AddToProduct | utils/dataProcessor.ts:308-330 | adding an item to its product's summary gives the summary of all items recorded so far, that item included |
| Summaries.RecordProduct | utils/dataProcessor.ts:296-330 | recording an item keeps the product map equal to the totals of all items recorded so far, with `Map` insertion order |
| Summaries.RecordLocation | utils/dataProcessor.ts:333-357 | the same for the location map |
| Dashboard.EstimateTotal | utils/dataProcessor.ts:365-372 | the loop computes `estimatedTotal` |
| Dashboard.SplitByPrice | utils/dataProcessor.ts:378-393 | the loop computes the price-proportional items |
| Dashboard.SumQty | utils/dataProcessor.ts:462-465 | the loop computes `totalQty` |
| Dashboard.SplitByQty | utils/dataProcessor.ts:467-477 | the loop computes the quantity-proportional items |
| Dashboard.AllocateRow | utils/dataProcessor.ts:280-477 | a row's items and revenues are those of `Allocate` |
| Dashboard.RecordItem | utils/dataProcessor.ts:293-361 | recording one item keeps both maps, their orders and the date bounds in agreement with all items so far |
| Dashboard.RecordItems | utils/dataProcessor.ts:379-459 | recording a row's items keeps that agreement, and collects the row's sale lines |
| Dashboard.RecordNext | utils/dataProcessor.ts:379-459 | one more item of a row extends the agreement to that item and appends its sale line |
| Dashboard.RecordRows | utils/dataProcessor.ts:251-557 | after the row loop, the maps agree with all items, the sale summaries are `SalesOf`, the revenue is the summed amounts of rows with items, and `totalOrders` counts those rows |
| Dashboard.FinaliseProducts | utils/dataProcessor.ts:560-562 | the loop sets each product's `avgPrice` and lists the products in insertion order |
| Dashboard.FinaliseLocations | utils/dataProcessor.ts:565-575 | the loop builds each location's summary with the global `totalOrders` and its number of sales days |
| Dashboard.DashboardOf | utils/dataProcessor.ts:233-597 | the dashboard for a learned table and resolver: the sorted product, location and sale lists, the learned table, the totals and the date range; there is one sale summary per counted order. The `Dashboard*` lemmas below state its properties |
| Dashboard.Aggregate | utils/dataProcessor.ts:239-596 | given the learned table, the method's output equals `DashboardOf` |
| Dashboard.ProcessDashboardData | utils/dataProcessor.ts:233-597 | the output equals `DashboardOf` over `Learned(rows)` and the resolver over it |
| Dashboard.ProcessOrders | utils/dataProcessor.ts:233-597 | with `parseOrderDetails` as the parser, the output equals `DashboardOf` over the rows, the prices learned from them and the resolver over those prices |
| Dashboard.EmptyAgrees | utils/dataProcessor.ts:242-249 | the empty maps and the `''` date bounds agree with no items |
| Dashboard.RowItemsPositive | utils/dataProcessor.ts:283 | every allocated item has a positive quantity, so `revenue / qty` is defined |
| Dashboard.KeyQtyPositive | utils/dataProcessor.ts:561 | every listed product has a positive total quantity, so `avgPrice` is defined |
| Dashboard.Details | utils/dataProcessor.ts:286-291 | one sale line per item |
| Dashboard.ProductList | utils/dataProcessor.ts:560-562 | one finalised summary per product |
| Dashboard.LocationList | utils/dataProcessor.ts:565-575 | one public summary per location |
| Dashboard.ProductListElem | utils/dataProcessor.ts:560-562 | each finalised product is its accumulated summary with `avgPrice` set |
| Dashboard.LocationListElem | utils/dataProcessor.ts:566-574 | each location summary is built from that location's accumulated entry |
| Dashboard.RowsStep | utils/dataProcessor.ts:251-557 | one more row appends its items and its sale, and adds its order and amount when it has items |
| Dashboard.ItemsOfPositive | utils/dataProcessor.ts:283 | every allocated item of valid rows has a positive quantity |
| Dashboard.DetailsTotal | utils/dataProcessor.ts:286-291 | a sale's line totals add up to the revenues of its items |
| Dashboard.SaleBalanced | utils/dataProcessor.ts:548-555 | a sale summary's line totals add up to its `totalRevenue`, which is the row's amount |
| Dashboard.SalesBalanced | utils/dataProcessor.ts:548-555 | the same, for every sale summary |
| Dashboard.SaleOf | utils/dataProcessor.ts:273-277 | the sale summary a row pushes (lines 546-554), if its allocation has items: the first item's date and location, the row's amount and one line per allocated item. `SaleOfExists` and `SaleBalanced` state when it exists and that it balances |
| Dashboard.SaleOfExists | utils/dataProcessor.ts:251-556 | a row gets a sale summary exactly when it has items |
| Dashboard.SalesCount | utils/dataProcessor.ts:251-556 | there are exactly `totalOrders` sale summaries |
| Dashboard.AmountIsRevenue | utils/dataProcessor.ts:293-375 | the revenue total equals the sum of all allocated revenues |
| Dashboard.SaleOrderTotal | utils/dataProcessor.ts:585-589 | the sale comparator, dates descending and then locations ascending, is total |
| Dashboard.ProductListAt | utils/dataProcessor.ts:560-562 | each finalised product has the total quantity and revenue of its items, and `avgPrice = totalRevenue / totalQty` |
| Dashboard.ProductsSound | utils/dataProcessor.ts:560-580 | every product summary belongs to some item and carries that product's totals and average price |
| Dashboard.ProductsComplete | utils/dataProcessor.ts:296-305 | every item's product has a summary |
| Dashboard.ProductsDistinct | utils/dataProcessor.ts:296-305 | no product is summarised twice |
| Dashboard.UniqueDatesAreSalesDays | utils/dataProcessor.ts:349-351 | a location's collected dates are exactly its non-empty item dates |
| Dashboard.LocationsSound | utils/dataProcessor.ts:565-575 | every location summary belongs to some item, has its revenue, the global order count and its number of sales days |
| Dashboard.LocationsComplete | utils/dataProcessor.ts:333-342 | every item's location has a summary |
| Dashboard.LocationsDistinct | utils/dataProcessor.ts:333-342 | no location is summarised twice |
| Dashboard.DashboardSales | utils/dataProcessor.ts:544-589 | the dashboard has `totalOrders` sale summaries, sorted by date descending and then location, a permutation of the rows' sales, each balanced |
| Dashboard.DashboardRevenue | utils/dataProcessor.ts:590 | `totalRevenue` is the sum of all allocated revenues |
| Dashboard.DashboardProductOrder | utils/dataProcessor.ts:578-580 | the product list is a permutation of the finalised products, in non-increasing revenue |
| Dashboard.DashboardProducts | utils/dataProcessor.ts:560-580 | every listed product has its true totals and average price, and every item's product is listed |
| Dashboard.DashboardLocations | utils/dataProcessor.ts:565-583 | the location list is a permutation of the location summaries, in non-increasing revenue, each with the global order count and its sales days |
| Dashboard.UpdateMin | utils/dataProcessor.ts:360 | the new `minDate` is the old one or the date, is at most the date, and is at most the old one unless that was `''` |
| Dashboard.UpdateMax | utils/dataProcessor.ts:361 | the new `maxDate` is the old one or the date, is at least the date, and is at least the old one unless that was `''` |
| Dashboard.MaxDateIsMax | utils/dataProcessor.ts:361 | `dateRange.end` is at least every item's date and is one of them |
| Dashboard.MinDateIsMin | utils/dataProcessor.ts:360 | when every item is dated, `dateRange.start` is at most every item's date and is one of them |
| Dashboard.MinDateRestart | utils/dataProcessor.ts:360 | an undated item resets `minDate`: for dates 5.1, '' and 9.1 the start becomes 9.1 |
| Dashboard.MinDatedIsMin | utils/dataProcessor.ts:360 | with undated items skipped, the start is at most every dated item's date and is one of them, and is `''` exactly when no item is dated |
| Dashboard.MinDatedAgrees | utils/dataProcessor.ts:360 | when every item is dated, skipping undated items changes nothing: the corrected start is the start the code computes |
| Dashboard.MinDatedKeepsStart | utils/dataProcessor.ts:360 | for dates 5.1, '' and 9.1 the corrected start is 5.1 |
| StringKeys.Split | utils/dataProcessor.ts:176 | splitting on the bar character gives at least one piece, and no piece contains a bar |
| StringKeys.SplitJoin | utils/dataProcessor.ts:161-176 | when no field contains a bar, splitting the joined key gives the fields back |
| StringKeys.JoinCollides | utils/dataProcessor.ts:161 | two different keys can join to the same string |
| StringKeys.SplitMisreads | utils/dataProcessor.ts:176 | a product whose name is A, bar, B, sold at L, comes back as product A, location B and date L |

## Left out

- The date filter of `processDashboardData` (lines 256-269) and `parseDateString` (lines 599-617): they read the clock. The model is the pipeline with no `startDate` or `endDate`.
- `parseCSV` (lines 619-645), the pages and the UI are not part of this model.
- Floating point: amounts, quantities and prices are reals. Rounding, `NaN` and `Infinity` are not modelled. `Number(...)` of a digit run is its exact value.
- `Math.sqrt` is a parameter: the model relies only on `PriceLearning.SqrtLike`.
- `toFixed(2)` is `Text.ToFixed2`, which rounds half away from zero on exact reals.
- String order: `<`, `>` and `localeCompare` are all modelled as code-point order (`Text.LexLess`). JavaScript's `<` and `>` compare UTF-16 code units; the two orders agree except when a character outside the Basic Multilingual Plane is involved. Locale collation is not modelled.
- Object keys are modelled as string maps. JavaScript's ordering of integer-like keys in a plain object does not matter to any stated property.
- Breakdown keys that name a property every plain object inherits (`constructor`, `toString`, `valueOf`, `hasOwnProperty`, `__proto__` and the like) are not modelled. In the source, such a product, location, date or price key finds the inherited property, which is truthy, so no entry of its own is created and `.qty +=` writes onto the inherited object (lines 313-330, 353-357). The model treats every key as an ordinary new entry.
- The per-location `totalOrders++` of line 346 is not kept. Line 571 overwrites it with the global count.
- Revenue computation and recording are separated. The source computes each item's revenue inside the recording loop; the model allocates a row's items first and then records them. The values recorded are the same.
- The `avgPrice` of each product summary is modelled as building a new list, not as an update in place.
- Dashboard.DashboardSales: states the sorted order and the permutation, but not that the sort is stable.
- Dashboard.DashboardProductOrder: the same.
- Dashboard.DashboardLocations: the same.
- `Aggregates.UnitPrice` guards `qty == 0`. That case cannot happen under the row precondition below.
- `Map` iteration order is modelled by the first-seen sequences `Aggregates.FirstSeen` and `PriceLearning.KeysInOrder`.
- PriceLearning.ValidRows: learning, allocation and aggregation require every row to have a positive amount and every line item a positive quantity.
  - The caller filters rows by `totalAmount > 0` (pages/index.tsx:60).
  - The source divides by each quantity (lines 159, 283, 385, 469). A zero quantity would give `Infinity` or `NaN`, which reals cannot express.
- Dashboard.MinDateIsMin: only covers items that all have a date. With undated items, `minDate` behaves as written in the source, and `Dashboard.MinDateRestart` shows the reset (see Findings).
- The learned prices are keyed by the (product, location, date) triple, not by the joined string. The string behaviour is modelled separately in `StringKeys`.

## Findings

| source | as written | input that shows it | evidently intended | confidence | as-written member | corrected member |
|---|---|---|---|---|---|---|
| utils/dataProcessor.ts:161-176 | samples are keyed by product, location and date joined with a bar character, and the key is split on bars to recover them | product `A` + bar + `B` at location `C` and product `A` at location `B` + bar + `C` (same date) join to one key; product `A` + bar + `B` at `L` on `1.1` comes back as product `A`, location `B`, date `L` | one learned price per distinct (product, location, date), carrying that item's own fields | not executed | StringKeys.JoinCollides, StringKeys.SplitMisreads | PriceLearning.LearnedKeysDistinct, PriceLearning.RowKeysLearned |
| utils/dataProcessor.ts:360 | the `minDate` update treats `''` as unset but also runs for undated items, so an item with date `''` resets `minDate`, and the next dated item becomes the start | items dated 5.1, `''` and 9.1, in that order: the range starts at 9.1 although 5.1 is earlier | the start is the least date among the dated items | not executed | Dashboard.MinDateRestart | Dashboard.MinDatedIsMin |
