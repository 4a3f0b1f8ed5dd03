/**
  `processDashboardData(rows)` (utils/dataProcessor.ts:233-597) without its date filter: learn the
  prices, split each row's amount across its line items, record every item in the product and
  location maps, keep one sale summary per row, running totals and a date range, then finalise
  the average prices and location counts and sort the three lists.
 */
module Dashboard {
  import opened Wrappers
  import opened Text
  import opened OrderParser
  import opened PriceLearning
  import opened PriceResolver
  import opened Allocation
  import opened Aggregates
  import opened Summaries
  import opened Sorting

  /** One product of a sale. */
  datatype SaleDetail = SaleDetail(product: string, qty: real, unitPrice: real, totalPrice: real)

  /** One row's sale: the first item's date and location, the row's amount and its products. */
  datatype SaleSummary = SaleSummary(date: string, location: string, totalRevenue: real, products: seq<SaleDetail>, rowIndex: int)

  datatype LocationSummary = LocationSummary(location: string, totalRevenue: real, totalOrders: nat, salesDays: nat, productBreakdown: map<string, Tally>)

  datatype DateRange = DateRange(start: string, end: string)

  datatype DashboardData = DashboardData(
    productSummaries: seq<ProductSummary>, locationSummaries: seq<LocationSummary>,
    learnedPrices: seq<LearnedPrice>, saleSummaries: seq<SaleSummary>,
    totalRevenue: real, totalOrders: nat, dateRange: DateRange)

  // ---------------------------------------------------------------- rows, items and sales

  /** The allocated items of one row. */
  function RowItems(row: RawRow, parse: Parser, price: Pricer): seq<Allocated>
    requires ValidRow(row, parse)
  {
    Allocate(Orders(row, parse), price, row.totalAmount)
  }

  /** The allocated items of all rows, in the order they are recorded. */
  function ItemsOf(rows: seq<RawRow>, parse: Parser, price: Pricer): seq<Allocated>
    requires ValidRows(rows, parse)
    decreases |rows|
  {
    if |rows| == 0 then []
    else ItemsOf(rows[..|rows| - 1], parse, price) + RowItems(rows[|rows| - 1], parse, price)
  }

  /** The number of rows with at least one line item. */
  function OrderCount(rows: seq<RawRow>, parse: Parser): nat
    decreases |rows|
  {
    if |rows| == 0 then 0
    else OrderCount(rows[..|rows| - 1], parse) + if |Orders(rows[|rows| - 1], parse)| > 0 then 1 else 0
  }

  /** The summed amounts of the rows with at least one line item. */
  function AmountOf(rows: seq<RawRow>, parse: Parser): real
    decreases |rows|
  {
    if |rows| == 0 then 0.0
    else AmountOf(rows[..|rows| - 1], parse) + if |Orders(rows[|rows| - 1], parse)| > 0 then rows[|rows| - 1].totalAmount else 0.0
  }

  /** The sale line of an item: its unit price is `revenue / qty` (lines 284-289). */
  function DetailOf(it: Allocated): SaleDetail
    requires it.entry.qty > 0.0
  {
    SaleDetail(it.entry.product, it.entry.qty, it.revenue / it.entry.qty, it.revenue)
  }

  predicate ItemsPositive(items: seq<Allocated>) {
    forall i :: 0 <= i < |items| ==> items[i].entry.qty > 0.0
  }

  /** The sale lines of some items, in order. */
  function Details(items: seq<Allocated>): (r: seq<SaleDetail>)
    requires ItemsPositive(items)
    ensures |r| == |items|
    decreases |items|
  {
    if |items| == 0 then [] else Details(items[..|items| - 1]) + [DetailOf(items[|items| - 1])]
  }

  /** Every allocated item of a valid row has a positive quantity. */
  lemma RowItemsPositive(row: RawRow, parse: Parser, price: Pricer)
    requires ValidRow(row, parse)
    ensures ItemsPositive(RowItems(row, parse, price))
  {
    AllocateFromOrders(Orders(row, parse), price, row.totalAmount);
    var items := RowItems(row, parse, price);
    forall i | 0 <= i < |items| ensures items[i].entry.qty > 0.0 {
      var orders := Orders(row, parse);
      var k :| 0 <= k < |orders| && orders[k] == items[i].entry;
    }
  }

  /** The sale summary a row adds (lines 546-554), if any. */
  function SaleOf(row: RawRow, parse: Parser, price: Pricer): Option<SaleSummary>
    requires ValidRow(row, parse)
  {
    var orders := Orders(row, parse);
    var items := RowItems(row, parse, price);
    RowItemsPositive(row, parse, price);
    if |orders| == 0 || |items| == 0 then None
    else Some(SaleSummary(orders[0].date, orders[0].location, row.totalAmount, Details(items), row.rowIndex))
  }

  /** The sale summaries of all rows, in row order. */
  function SalesOf(rows: seq<RawRow>, parse: Parser, price: Pricer): seq<SaleSummary>
    requires ValidRows(rows, parse)
    decreases |rows|
  {
    if |rows| == 0 then []
    else
      var init := SalesOf(rows[..|rows| - 1], parse, price);
      match SaleOf(rows[|rows| - 1], parse, price)
      case None => init
      case Some(s) => init + [s]
  }

  // ---------------------------------------------------------------- date range

  /** `if (!minDate || date < minDate) minDate = date;` */
  function UpdateMin(minDate: string, date: string): (r: string)
    ensures r == minDate || r == date
    ensures LexLeq(r, date)
    ensures minDate != "" ==> LexLeq(r, minDate)
  {
    if minDate == "" || LexLess(date, minDate) then date
    else
      assert minDate != date ==> LexLess(minDate, date) || LexLess(date, minDate) by {
        if minDate != date { LexLessTotal(minDate, date); }
      }
      minDate
  }

  /** `if (!maxDate || date > maxDate) maxDate = date;` */
  function UpdateMax(maxDate: string, date: string): (r: string)
    ensures r == maxDate || r == date
    ensures LexLeq(date, r)
    ensures maxDate != "" ==> LexLeq(maxDate, r)
  {
    if maxDate == "" || LexLess(maxDate, date) then date
    else
      assert maxDate != date ==> LexLess(maxDate, date) || LexLess(date, maxDate) by {
        if maxDate != date { LexLessTotal(maxDate, date); }
      }
      maxDate
  }

  /** `minDate` after recording `items`, starting from `''`. */
  function MinDateOf(items: seq<Allocated>): string
    decreases |items|
  {
    if |items| == 0 then "" else UpdateMin(MinDateOf(items[..|items| - 1]), items[|items| - 1].entry.date)
  }

  /** `maxDate` after recording `items`, starting from `''`. */
  function MaxDateOf(items: seq<Allocated>): string
    decreases |items|
  {
    if |items| == 0 then "" else UpdateMax(MaxDateOf(items[..|items| - 1]), items[|items| - 1].entry.date)
  }

  // ---------------------------------------------------------------- the per-row methods

  /** `estimatedTotal` (lines 366-373). */
  method EstimateTotal(orders: seq<OrderEntry>, price: Pricer) returns (estimatedTotal: real)
    ensures estimatedTotal == EstimatedTotal(orders, price)
  {
    estimatedTotal := 0.0;
    for j := 0 to |orders|
      invariant estimatedTotal == EstimatedTotal(orders[..j], price)
    {
      assert orders[..j + 1][..j] == orders[..j];
      var p := price(orders[j]);
      if Truthy(p) {
        estimatedTotal := estimatedTotal + p.value * orders[j].qty;
      }
    }
    assert orders[..|orders|] == orders;
  }

  /** The price-share loop (lines 378-384): items whose price is not truthy are skipped. */
  method SplitByPrice(orders: seq<OrderEntry>, price: Pricer, estimatedTotal: real, amount: real) returns (rowItems: seq<Allocated>)
    requires estimatedTotal > 0.0
    ensures rowItems == PriceShares(orders, price, estimatedTotal, amount)
  {
    rowItems := [];
    for j := 0 to |orders|
      invariant rowItems == PriceShares(orders[..j], price, estimatedTotal, amount)
    {
      PriceSharesStep(orders, price, estimatedTotal, amount, j);
      var p := price(orders[j]);
      if !Truthy(p) {
        continue;
      }
      var orderEstimate := p.value * orders[j].qty;
      var revenue := (orderEstimate / estimatedTotal) * amount;
      assert Allocated(orders[j], revenue) == PriceShare(orders[j], p.value, estimatedTotal, amount);
      rowItems := rowItems + [Allocated(orders[j], revenue)];
    }
    assert orders[..|orders|] == orders;
  }

  /** `totalQty` (lines 461-464). */
  method SumQty(orders: seq<OrderEntry>) returns (totalQty: real)
    ensures totalQty == QtyTotal(orders)
  {
    totalQty := 0.0;
    for j := 0 to |orders|
      invariant totalQty == QtyTotal(orders[..j])
    {
      assert orders[..j + 1][..j] == orders[..j];
      totalQty := totalQty + orders[j].qty;
    }
    assert orders[..|orders|] == orders;
  }

  /** The quantity-share loop (lines 466-468). */
  method SplitByQty(orders: seq<OrderEntry>, totalQty: real, amount: real) returns (rowItems: seq<Allocated>)
    requires totalQty > 0.0
    ensures rowItems == QtyShares(orders, totalQty, amount)
  {
    rowItems := [];
    for j := 0 to |orders|
      invariant rowItems == QtyShares(orders[..j], totalQty, amount)
    {
      assert orders[..j + 1][..j] == orders[..j] && orders[..j + 1][j] == orders[j];
      var revenue := (orders[j].qty / totalQty) * amount;
      assert Allocated(orders[j], revenue) == QtyShare(orders[j], totalQty, amount);
      QtySharesStep(orders, totalQty, amount, j);
      rowItems := rowItems + [Allocated(orders[j], revenue)];
    }
    assert orders[..|orders|] == orders;
  }

  /** The revenue split of a row with items: the whole amount, price shares or quantity shares. */
  method AllocateRow(orders: seq<OrderEntry>, price: Pricer, amount: real) returns (rowItems: seq<Allocated>)
    requires |orders| > 0 && PositiveQuantities(orders)
    ensures rowItems == Allocate(orders, price, amount)
  {
    if |orders| == 1 {
      return [Allocated(orders[0], amount)];
    }
    var estimatedTotal := EstimateTotal(orders, price);
    if estimatedTotal > 0.0 {
      rowItems := SplitByPrice(orders, price, estimatedTotal, amount);
    } else {
      var totalQty := SumQty(orders);
      QtyTotalPositive(orders);
      rowItems := SplitByQty(orders, totalQty, amount);
    }
  }

  /** The running state of the main loop: the two maps with their insertion orders, and the date range. */
  datatype Recorded = Recorded(
    productMap: map<string, ProductSummary>, products: seq<string>,
    locationMap: map<string, LocationAcc>, locations: seq<string>,
    minDate: string, maxDate: string)

  /** The running state agrees with the items recorded so far. */
  ghost predicate Agrees(items: seq<Allocated>, acc: Recorded) {
    && ProductsAgree(items, acc.products, acc.productMap)
    && LocationsAgree(items, acc.locations, acc.locationMap)
    && acc.minDate == MinDateOf(items) && acc.maxDate == MaxDateOf(items)
  }

  /** Nothing recorded: empty maps and `''` dates. */
  lemma EmptyAgrees()
    ensures Agrees([], Recorded(map[], [], map[], [], "", ""))
  {
  }

  /** Records one item: the product map, the location map and the date range (e.g. lines 293-360). */
  method RecordItem(acc: Recorded, it: Allocated, ghost items: seq<Allocated>) returns (acc': Recorded)
    requires it.entry.qty > 0.0 && Agrees(items, acc)
    ensures Agrees(items + [it], acc')
  {
    var productMap, products := RecordProduct(acc.productMap, acc.products, it, items);
    var locationMap, locations := RecordLocation(acc.locationMap, acc.locations, it, items);
    var minDate, maxDate := acc.minDate, acc.maxDate;
    if minDate == "" || LexLess(it.entry.date, minDate) {
      minDate := it.entry.date;
    }
    if maxDate == "" || LexLess(maxDate, it.entry.date) {
      maxDate := it.entry.date;
    }
    assert (items + [it])[..|items|] == items;
    acc' := Recorded(productMap, products, locationMap, locations, minDate, maxDate);
  }

  /** Records a row's items one by one, building the sale's product lines as it goes. */
  method RecordItems(acc: Recorded, rowItems: seq<Allocated>, ghost items: seq<Allocated>)
    returns (acc': Recorded, saleProducts: seq<SaleDetail>)
    requires ItemsPositive(rowItems) && Agrees(items, acc)
    ensures Agrees(items + rowItems, acc')
    ensures saleProducts == Details(rowItems)
  {
    acc' := acc;
    saleProducts := [];
    assert items + rowItems[..0] == items;
    for j := 0 to |rowItems|
      invariant Agrees(items + rowItems[..j], acc')
      invariant saleProducts == Details(rowItems[..j])
    {
      acc', saleProducts := RecordNext(acc', saleProducts, rowItems, j, items);
    }
    assert rowItems[..|rowItems|] == rowItems;
  }

  /** One allocated item of a row: its sale line (lines 286, 388, 472), then the item itself. */
  method RecordNext(acc: Recorded, saleProducts: seq<SaleDetail>, rowItems: seq<Allocated>, j: nat, ghost items: seq<Allocated>)
    returns (acc': Recorded, saleProducts': seq<SaleDetail>)
    requires j < |rowItems| && ItemsPositive(rowItems)
    requires Agrees(items + rowItems[..j], acc) && saleProducts == Details(rowItems[..j])
    ensures Agrees(items + rowItems[..j + 1], acc') && saleProducts' == Details(rowItems[..j + 1])
  {
    var it := rowItems[j];
    ghost var seen := items + rowItems[..j];
    assert items + rowItems[..j + 1] == seen + [it];
    assert rowItems[..j + 1][..j] == rowItems[..j] && rowItems[..j + 1][j] == it;
    saleProducts' := saleProducts + [SaleDetail(it.entry.product, it.entry.qty, it.revenue / it.entry.qty, it.revenue)];
    acc' := RecordItem(acc, it, seen);
  }

  // ---------------------------------------------------------------- finalisation

  /** `product.avgPrice = product.totalRevenue / product.totalQty` (lines 560-562). */
  function Finalised(s: ProductSummary): ProductSummary
    requires s.totalQty != 0.0
  {
    s.(avgPrice := s.totalRevenue / s.totalQty)
  }

  /** The finalised summaries of the products `ps`, in that order: `Array.from(productMap.values())`. */
  function ProductList(items: seq<Allocated>, ps: seq<string>): (r: seq<ProductSummary>)
    requires forall k :: 0 <= k < |ps| ==> TallyWhere(items, Where(ByProduct, ps[k])).qty > 0.0
    ensures |r| == |ps|
    decreases |ps|
  {
    if |ps| == 0 then []
    else ProductList(items, ps[..|ps| - 1]) + [Finalised(ProductAgg(items, ps[|ps| - 1]))]
  }

  /** The public summary of a location (lines 565-575): every location carries the dataset-wide order count. */
  function LocationSummaryOf(a: LocationAcc, totalOrders: nat): LocationSummary {
    LocationSummary(a.location, a.totalRevenue, totalOrders, |a.uniqueDates|, a.productBreakdown)
  }

  /** The public summaries of the locations `ls`, in that order. */
  function LocationList(items: seq<Allocated>, ls: seq<string>, totalOrders: nat): (r: seq<LocationSummary>)
    ensures |r| == |ls|
    decreases |ls|
  {
    if |ls| == 0 then []
    else LocationList(items, ls[..|ls| - 1], totalOrders) + [LocationSummaryOf(LocationAgg(items, ls[|ls| - 1]), totalOrders)]
  }

  /** `(a, b) => b.totalRevenue - a.totalRevenue` does not put `a` after `b`. */
  predicate ProductOrder(a: ProductSummary, b: ProductSummary) {
    a.totalRevenue >= b.totalRevenue
  }

  predicate LocationOrder(a: LocationSummary, b: LocationSummary) {
    a.totalRevenue >= b.totalRevenue
  }

  /** The sale comparator of lines 585-589, with code-point order for `localeCompare`: later dates first, then locations ascending. */
  predicate SaleOrder(a: SaleSummary, b: SaleSummary) {
    if a.date != b.date then LexLess(b.date, a.date) else LexLeq(a.location, b.location)
  }

  /** Every positive item leaves a positive total quantity under each key it has, and no key a negative one. */
  lemma {:induction false} KeyQtyPositive(items: seq<Allocated>, d: Dim)
    requires ItemsPositive(items)
    ensures forall k :: TallyWhere(items, Where(d, k)).qty >= 0.0
    ensures forall k :: k in FirstSeen(items, d) ==> TallyWhere(items, Where(d, k)).qty > 0.0
    decreases |items|
  {
    if |items| > 0 {
      var init := items[..|items| - 1];
      var it := items[|items| - 1];
      assert items == init + [it];
      KeyQtyPositive(init, d);
      forall k ensures TallyWhere(items, Where(d, k)) == TallyWhere(init + [it], Where(d, k)) {
      }
      FirstSeenStep(init, it, d);
    }
  }

  /** `Array.from(productMap.values())` after the finalisation: every product seen, in order of first sight. */
  function ProductsOf(items: seq<Allocated>): seq<ProductSummary>
    requires ItemsPositive(items)
  {
    KeyQtyPositive(items, ByProduct);
    ProductList(items, FirstSeen(items, ByProduct))
  }

  /** The location summaries in map order, each with the dataset-wide order count. */
  function LocationsOf(items: seq<Allocated>, totalOrders: nat): seq<LocationSummary> {
    LocationList(items, FirstSeen(items, ByLocation), totalOrders)
  }

  /** The output of `processDashboardData(rows)` for a given learned table and the resolver over it. */
  function DashboardOf(rows: seq<RawRow>, parse: Parser, learned: seq<LearnedPrice>, price: Pricer): (data: DashboardData)
    requires ValidRows(rows, parse)
    ensures |data.saleSummaries| == data.totalOrders
  {
    SalesCount(rows, parse, price);
    var items := ItemsOf(rows, parse, price);
    ItemsOfPositive(rows, parse, price);
    var orders := OrderCount(rows, parse);
    DashboardData(
      Sort(ProductsOf(items), ProductOrder),
      Sort(LocationsOf(items, orders), LocationOrder),
      learned,
      Sort(SalesOf(rows, parse, price), SaleOrder),
      AmountOf(rows, parse), orders,
      DateRange(MinDateOf(items), MaxDateOf(items)))
  }

  // ---------------------------------------------------------------- the main loop

  /** One more row appends its items, its sale and its count and amount, if it has items. */
  lemma RowsStep(rows: seq<RawRow>, parse: Parser, price: Pricer, i: nat)
    requires ValidRows(rows, parse) && i < |rows|
    ensures ValidRows(rows[..i], parse) && ValidRows(rows[..i + 1], parse)
    ensures ItemsOf(rows[..i + 1], parse, price) == ItemsOf(rows[..i], parse, price) + RowItems(rows[i], parse, price)
    ensures OrderCount(rows[..i + 1], parse) == OrderCount(rows[..i], parse) + if |Orders(rows[i], parse)| > 0 then 1 else 0
    ensures AmountOf(rows[..i + 1], parse) == AmountOf(rows[..i], parse) + if |Orders(rows[i], parse)| > 0 then rows[i].totalAmount else 0.0
    ensures SalesOf(rows[..i + 1], parse, price) ==
      if SaleOf(rows[i], parse, price).Some? then SalesOf(rows[..i], parse, price) + [SaleOf(rows[i], parse, price).value]
      else SalesOf(rows[..i], parse, price)
  {
    assert rows[..i + 1][..i] == rows[..i];
  }

  lemma {:induction false} ItemsOfPositive(rows: seq<RawRow>, parse: Parser, price: Pricer)
    requires ValidRows(rows, parse)
    ensures ItemsPositive(ItemsOf(rows, parse, price))
    decreases |rows|
  {
    if |rows| > 0 {
      var n := |rows| - 1;
      RowsStep(rows, parse, price, n);
      assert rows[..n + 1] == rows;
      ItemsOfPositive(rows[..n], parse, price);
      RowItemsPositive(rows[n], parse, price);
    }
  }

  /** The row loop (lines 251-557): allocates each row's amount and records its items, its sale, its count and its amount. */
  method RecordRows(rows: seq<RawRow>, parse: Parser, price: Pricer)
    returns (acc: Recorded, saleSummaries: seq<SaleSummary>, totalRevenue: real, totalOrders: nat)
    requires ValidRows(rows, parse)
    ensures Agrees(ItemsOf(rows, parse, price), acc)
    ensures saleSummaries == SalesOf(rows, parse, price)
    ensures totalRevenue == AmountOf(rows, parse) && totalOrders == OrderCount(rows, parse)
  {
    acc := Recorded(map[], [], map[], [], "", "");
    saleSummaries := [];
    totalRevenue := 0.0;
    totalOrders := 0;
    ghost var items: seq<Allocated> := [];
    EmptyAgrees();
    for i := 0 to |rows|
      invariant ValidRows(rows[..i], parse)
      invariant items == ItemsOf(rows[..i], parse, price)
      invariant Agrees(items, acc)
      invariant totalOrders == OrderCount(rows[..i], parse)
      invariant totalRevenue == AmountOf(rows[..i], parse)
      invariant saleSummaries == SalesOf(rows[..i], parse, price)
    {
      var row := rows[i];
      RowsStep(rows, parse, price, i);
      var orders := parse(row.orderDetails, row.totalQty);
      if |orders| == 0 {
        continue;
      }
      totalOrders := totalOrders + 1;
      var saleDate := orders[0].date;
      var saleLocation := orders[0].location;
      var rowItems := AllocateRow(orders, price, row.totalAmount);
      totalRevenue := totalRevenue + row.totalAmount;
      RowItemsPositive(row, parse, price);
      var saleProducts;
      acc, saleProducts := RecordItems(acc, rowItems, items);
      items := items + rowItems;
      if |saleProducts| > 0 {
        saleSummaries := saleSummaries + [SaleSummary(saleDate, saleLocation, row.totalAmount, saleProducts, row.rowIndex)];
      }
    }
    assert rows[..|rows|] == rows;
  }

  /** Sets every product's `avgPrice` (lines 560-562) and lists the products in map order. */
  method FinaliseProducts(productMap: map<string, ProductSummary>, products: seq<string>, ghost items: seq<Allocated>)
    returns (productSummaries: seq<ProductSummary>)
    requires ProductsAgree(items, products, productMap)
    requires forall k :: 0 <= k < |products| ==> TallyWhere(items, Where(ByProduct, products[k])).qty > 0.0
    ensures productSummaries == ProductList(items, products)
  {
    productSummaries := [];
    for k := 0 to |products|
      invariant productSummaries == ProductList(items, products[..k])
    {
      assert products[..k + 1][..k] == products[..k];
      var product := productMap[products[k]];
      productSummaries := productSummaries + [product.(avgPrice := product.totalRevenue / product.totalQty)];
    }
    assert products[..|products|] == products;
  }

  /** Lists the locations in map order with the dataset-wide order count and their number of sales days (lines 565-575). */
  method FinaliseLocations(locationMap: map<string, LocationAcc>, locations: seq<string>, totalOrders: nat, ghost items: seq<Allocated>)
    returns (locationSummaries: seq<LocationSummary>)
    requires LocationsAgree(items, locations, locationMap)
    ensures locationSummaries == LocationList(items, locations, totalOrders)
  {
    locationSummaries := [];
    for k := 0 to |locations|
      invariant locationSummaries == LocationList(items, locations[..k], totalOrders)
    {
      assert locations[..k + 1][..k] == locations[..k];
      var location := locationMap[locations[k]];
      locationSummaries := locationSummaries + [LocationSummary(location.location, location.totalRevenue, totalOrders, |location.uniqueDates|, location.productBreakdown)];
    }
    assert locations[..|locations|] == locations;
  }

  /** The allocation and aggregation of `processDashboardData` (lines 251-596), for a given learned table. */
  method Aggregate(rows: seq<RawRow>, parse: Parser, learned: seq<LearnedPrice>, price: Pricer) returns (data: DashboardData)
    requires ValidRows(rows, parse)
    ensures data == DashboardOf(rows, parse, learned, price)
  {
    var acc, saleSummaries, totalRevenue, totalOrders := RecordRows(rows, parse, price);
    ghost var items := ItemsOf(rows, parse, price);
    ItemsOfPositive(rows, parse, price);
    KeyQtyPositive(items, ByProduct);
    var productSummaries := FinaliseProducts(acc.productMap, acc.products, items);
    var locationSummaries := FinaliseLocations(acc.locationMap, acc.locations, totalOrders, items);
    data := DashboardData(
      Sort(productSummaries, ProductOrder), Sort(locationSummaries, LocationOrder), learned,
      Sort(saleSummaries, SaleOrder), totalRevenue, totalOrders, DateRange(acc.minDate, acc.maxDate));
  }

  /** `processDashboardData(rows)` without a date filter: learn the prices, then allocate and aggregate with them. */
  method ProcessDashboardData(rows: seq<RawRow>, parse: Parser, sqrt: real -> real) returns (data: DashboardData)
    requires ValidRows(rows, parse)
    ensures data == DashboardOf(rows, parse, Learned(rows, parse, sqrt), PriceLookup(Learned(rows, parse, sqrt)))
  {
    var learnedPrices := LearnPrices(rows, parse, sqrt);
    data := Aggregate(rows, parse, learnedPrices, PriceLookup(learnedPrices));
  }

  // ---------------------------------------------------------------- properties

  /** The sum of the `totalPrice` fields of some sale lines. */
  function LineTotal(ds: seq<SaleDetail>): real
    decreases |ds|
  {
    if |ds| == 0 then 0.0 else LineTotal(ds[..|ds| - 1]) + ds[|ds| - 1].totalPrice
  }

  /** A sale line's total is its item's revenue, so the lines add up to the items' revenues. */
  lemma {:induction false} DetailsTotal(items: seq<Allocated>)
    requires ItemsPositive(items)
    ensures LineTotal(Details(items)) == RevenueSum(items)
    decreases |items|
  {
    if |items| > 0 {
      var init := items[..|items| - 1];
      DetailsTotal(init);
      assert Details(items)[..|items| - 1] == Details(init);
    }
  }

  /** Conservation: the `totalPrice` values of a row's sale add up to the row's `totalAmount`. */
  lemma SaleBalanced(row: RawRow, parse: Parser, price: Pricer)
    requires ValidRow(row, parse) && SaleOf(row, parse, price).Some?
    ensures LineTotal(SaleOf(row, parse, price).value.products) == SaleOf(row, parse, price).value.totalRevenue == row.totalAmount
  {
    RowItemsPositive(row, parse, price);
    DetailsTotal(RowItems(row, parse, price));
    Conservation(Orders(row, parse), price, row.totalAmount);
  }

  /** Every sale of every row is balanced. */
  lemma {:induction false} SalesBalanced(rows: seq<RawRow>, parse: Parser, price: Pricer)
    requires ValidRows(rows, parse)
    ensures forall s :: s in SalesOf(rows, parse, price) ==> LineTotal(s.products) == s.totalRevenue
    decreases |rows|
  {
    if |rows| > 0 {
      var n := |rows| - 1;
      RowsStep(rows, parse, price, n);
      assert rows[..n + 1] == rows;
      SalesBalanced(rows[..n], parse, price);
      if SaleOf(rows[n], parse, price).Some? {
        SaleBalanced(rows[n], parse, price);
      }
    }
  }

  /** A row yields a sale exactly when it yields line items. */
  lemma SaleOfExists(row: RawRow, parse: Parser, price: Pricer)
    requires ValidRow(row, parse)
    ensures SaleOf(row, parse, price).Some? <==> |Orders(row, parse)| > 0
  {
    if |Orders(row, parse)| > 0 {
      AllocateNonEmpty(Orders(row, parse), price, row.totalAmount);
    }
  }

  /** There is one sale summary per counted order. */
  lemma {:induction false} SalesCount(rows: seq<RawRow>, parse: Parser, price: Pricer)
    requires ValidRows(rows, parse)
    ensures |SalesOf(rows, parse, price)| == OrderCount(rows, parse)
    decreases |rows|
  {
    if |rows| > 0 {
      var n := |rows| - 1;
      RowsStep(rows, parse, price, n);
      assert rows[..n + 1] == rows;
      SalesCount(rows[..n], parse, price);
      SaleOfExists(rows[n], parse, price);
    }
  }

  lemma {:induction false} RevenueSumAppend(a: seq<Allocated>, b: seq<Allocated>)
    ensures RevenueSum(a + b) == RevenueSum(a) + RevenueSum(b)
    decreases |b|
  {
    if |b| > 0 {
      var n := |b| - 1;
      RevenueSumAppend(a, b[..n]);
      assert (a + b)[..|a| + n] == a + b[..n];
    } else {
      assert a + b == a;
    }
  }

  /** The dataset total, which adds each row's amount once, is also the sum of the allocated revenues. */
  lemma {:induction false} AmountIsRevenue(rows: seq<RawRow>, parse: Parser, price: Pricer)
    requires ValidRows(rows, parse)
    ensures AmountOf(rows, parse) == RevenueSum(ItemsOf(rows, parse, price))
    decreases |rows|
  {
    if |rows| > 0 {
      var n := |rows| - 1;
      RowsStep(rows, parse, price, n);
      assert rows[..n + 1] == rows;
      AmountIsRevenue(rows[..n], parse, price);
      RevenueSumAppend(ItemsOf(rows[..n], parse, price), RowItems(rows[n], parse, price));
      var orders := Orders(rows[n], parse);
      if |orders| > 0 {
        Conservation(orders, price, rows[n].totalAmount);
      }
    }
  }

  lemma SortMembers<T>(xs: seq<T>, le: (T, T) -> bool)
    ensures forall x :: x in Sort(xs, le) <==> x in xs
  {
    SortPermutes(xs, le);
    forall x ensures x in Sort(xs, le) <==> x in xs {
      assert x in Sort(xs, le) <==> x in multiset(Sort(xs, le));
      assert x in xs <==> x in multiset(xs);
    }
  }

  lemma ProductOrderTotal()
    ensures Total(ProductOrder)
  {
  }

  lemma LocationOrderTotal()
    ensures Total(LocationOrder)
  {
  }

  lemma SaleOrderTotal()
    ensures Total(SaleOrder)
  {
    forall a: SaleSummary, b: SaleSummary ensures SaleOrder(a, b) || SaleOrder(b, a) {
      if a.date != b.date {
        LexLessTotal(a.date, b.date);
      } else if a.location != b.location {
        LexLessTotal(a.location, b.location);
      }
    }
  }

  /** The `k`-th listed product is the finalised summary of `ps[k]`. */
  lemma {:induction false} ProductListElem(items: seq<Allocated>, ps: seq<string>, k: nat)
    requires forall j :: 0 <= j < |ps| ==> TallyWhere(items, Where(ByProduct, ps[j])).qty > 0.0
    requires k < |ps|
    ensures ProductList(items, ps)[k] == Finalised(ProductAgg(items, ps[k]))
    decreases |ps|
  {
    var init := ps[..|ps| - 1];
    if k < |init| {
      ProductListElem(items, init, k);
      assert ProductList(items, ps)[k] == ProductList(items, init)[k];
    }
  }

  /** A listed product's totals are those of its items, its quantity is positive and `avgPrice = totalRevenue / totalQty`. */
  lemma ProductListAt(items: seq<Allocated>, ps: seq<string>, k: nat)
    requires forall j :: 0 <= j < |ps| ==> TallyWhere(items, Where(ByProduct, ps[j])).qty > 0.0
    requires k < |ps|
    ensures var s := ProductList(items, ps)[k];
      && s.product == ps[k]
      && s.totalQty == TallyWhere(items, Where(ByProduct, ps[k])).qty > 0.0
      && s.totalRevenue == TallyWhere(items, Where(ByProduct, ps[k])).revenue
      && s.avgPrice == s.totalRevenue / s.totalQty
  {
    ProductListElem(items, ps, k);
  }

  /** The dashboard's sales: one per counted order, sorted by the sale comparator, a permutation of the rows' sales, each balanced. */
  lemma DashboardSales(rows: seq<RawRow>, parse: Parser, learned: seq<LearnedPrice>, price: Pricer)
    requires ValidRows(rows, parse)
    ensures var data := DashboardOf(rows, parse, learned, price);
      && |data.saleSummaries| == data.totalOrders
      && Sorted(data.saleSummaries, SaleOrder)
      && multiset(data.saleSummaries) == multiset(SalesOf(rows, parse, price))
      && forall s :: s in data.saleSummaries ==> LineTotal(s.products) == s.totalRevenue
  {
    var sales := SalesOf(rows, parse, price);
    SalesCount(rows, parse, price);
    SaleOrderTotal();
    SortSorted(sales, SaleOrder);
    SortPermutes(sales, SaleOrder);
    SortMembers(sales, SaleOrder);
    SalesBalanced(rows, parse, price);
  }

  /** The dashboard's total revenue is the sum of all allocated revenues. */
  lemma DashboardRevenue(rows: seq<RawRow>, parse: Parser, learned: seq<LearnedPrice>, price: Pricer)
    requires ValidRows(rows, parse)
    ensures DashboardOf(rows, parse, learned, price).totalRevenue == RevenueSum(ItemsOf(rows, parse, price))
  {
    AmountIsRevenue(rows, parse, price);
  }

  /** The dashboard's products are sorted by descending revenue and are a permutation of the product map's values. */
  lemma DashboardProductOrder(rows: seq<RawRow>, parse: Parser, learned: seq<LearnedPrice>, price: Pricer)
    requires ValidRows(rows, parse)
    ensures var items := ItemsOf(rows, parse, price);
      var ps := DashboardOf(rows, parse, learned, price).productSummaries;
      && (ItemsOfPositive(rows, parse, price); multiset(ps) == multiset(ProductsOf(items)))
      && forall i, j :: 0 <= i < j < |ps| ==> ps[i].totalRevenue >= ps[j].totalRevenue
  {
    var items := ItemsOf(rows, parse, price);
    ItemsOfPositive(rows, parse, price);
    var list := ProductsOf(items);
    var ps := Sort(list, ProductOrder);
    SortPermutes(list, ProductOrder);
    ProductOrderTotal();
    SortSorted(list, ProductOrder);
    forall i, j | 0 <= i < j < |ps| ensures ps[i].totalRevenue >= ps[j].totalRevenue {
      SortedPairs(ps, ProductOrder, i, j);
    }
  }

  /** Every product summary belongs to a product sold, carries its items' totals and `avgPrice = totalRevenue / totalQty`. */
  lemma ProductsSound(items: seq<Allocated>)
    requires ItemsPositive(items)
    ensures forall s :: s in ProductsOf(items) ==>
      && (exists i :: 0 <= i < |items| && items[i].entry.product == s.product)
      && s.totalQty == TallyWhere(items, Where(ByProduct, s.product)).qty > 0.0
      && s.totalRevenue == TallyWhere(items, Where(ByProduct, s.product)).revenue
      && s.avgPrice == s.totalRevenue / s.totalQty
  {
    KeyQtyPositive(items, ByProduct);
    var ps := FirstSeen(items, ByProduct);
    var list := ProductsOf(items);
    FirstSeenMembers(items, ByProduct);
    forall s | s in list
      ensures && (exists i :: 0 <= i < |items| && items[i].entry.product == s.product)
              && s.totalQty == TallyWhere(items, Where(ByProduct, s.product)).qty > 0.0
              && s.totalRevenue == TallyWhere(items, Where(ByProduct, s.product)).revenue
              && s.avgPrice == s.totalRevenue / s.totalQty
    {
      var k :| 0 <= k < |list| && list[k] == s;
      ProductListAt(items, ps, k);
      assert ps[k] in ps;
      var i :| 0 <= i < |items| && KeyAt(items[i], ByProduct) == ps[k];
    }
  }

  /** Every product sold has a summary. */
  lemma ProductsComplete(items: seq<Allocated>)
    requires ItemsPositive(items)
    ensures forall i :: 0 <= i < |items| ==> exists s :: s in ProductsOf(items) && s.product == items[i].entry.product
  {
    KeyQtyPositive(items, ByProduct);
    var ps := FirstSeen(items, ByProduct);
    var list := ProductsOf(items);
    FirstSeenMembers(items, ByProduct);
    forall i | 0 <= i < |items| ensures exists s :: s in list && s.product == items[i].entry.product {
      var p := KeyAt(items[i], ByProduct);
      assert p in ps;
      var k :| 0 <= k < |ps| && ps[k] == p;
      ProductListAt(items, ps, k);
      assert list[k] in list;
    }
  }

  /** No product has two summaries. */
  lemma ProductsDistinct(items: seq<Allocated>)
    requires ItemsPositive(items)
    ensures forall i, j :: 0 <= i < j < |ProductsOf(items)| ==> ProductsOf(items)[i].product != ProductsOf(items)[j].product
  {
    KeyQtyPositive(items, ByProduct);
    var ps := FirstSeen(items, ByProduct);
    FirstSeenDistinct(items, ByProduct);
    forall i, j | 0 <= i < j < |ps| ensures ProductsOf(items)[i].product != ProductsOf(items)[j].product {
      ProductListAt(items, ps, i);
      ProductListAt(items, ps, j);
    }
  }

  /** The `k`-th listed location is the public summary of `ls[k]`. */
  lemma {:induction false} LocationListElem(items: seq<Allocated>, ls: seq<string>, n: nat, k: nat)
    requires k < |ls|
    ensures LocationList(items, ls, n)[k] == LocationSummaryOf(LocationAgg(items, ls[k]), n)
    decreases |ls|
  {
    var init := ls[..|ls| - 1];
    if k < |init| {
      LocationListElem(items, init, n, k);
      assert LocationList(items, ls, n)[k] == LocationList(items, init, n)[k];
    }
  }

  /** The distinct non-empty dates of the items sold at `l`. */
  function SalesDays(items: seq<Allocated>, l: string): set<string> {
    set i | 0 <= i < |items| && items[i].entry.location == l && items[i].entry.date != "" :: items[i].entry.date
  }

  /** The dates a location collects are exactly its sales days. */
  lemma UniqueDatesAreSalesDays(items: seq<Allocated>, l: string)
    ensures LocationAgg(items, l).uniqueDates == SalesDays(items, l)
  {
    KeysWhereMembers(items, Where(ByLocation, l), ByDate);
  }

  /** Every location summary belongs to a location sold at, with its revenue, the dataset-wide order count and its number of sales days. */
  lemma LocationsSound(items: seq<Allocated>, n: nat)
    ensures forall s :: s in LocationsOf(items, n) ==>
      && (exists i :: 0 <= i < |items| && items[i].entry.location == s.location)
      && s.totalRevenue == TallyWhere(items, Where(ByLocation, s.location)).revenue
      && s.totalOrders == n
      && s.salesDays == |SalesDays(items, s.location)|
  {
    var ls := FirstSeen(items, ByLocation);
    var list := LocationsOf(items, n);
    FirstSeenMembers(items, ByLocation);
    forall s | s in list
      ensures && (exists i :: 0 <= i < |items| && items[i].entry.location == s.location)
              && s.totalRevenue == TallyWhere(items, Where(ByLocation, s.location)).revenue
              && s.totalOrders == n
              && s.salesDays == |SalesDays(items, s.location)|
    {
      var k :| 0 <= k < |list| && list[k] == s;
      LocationListElem(items, ls, n, k);
      UniqueDatesAreSalesDays(items, ls[k]);
      assert ls[k] in ls;
      var i :| 0 <= i < |items| && KeyAt(items[i], ByLocation) == ls[k];
    }
  }

  /** Every location sold at has a summary. */
  lemma LocationsComplete(items: seq<Allocated>, n: nat)
    ensures forall i :: 0 <= i < |items| ==> exists s :: s in LocationsOf(items, n) && s.location == items[i].entry.location
  {
    var ls := FirstSeen(items, ByLocation);
    var list := LocationsOf(items, n);
    FirstSeenMembers(items, ByLocation);
    forall i | 0 <= i < |items| ensures exists s :: s in list && s.location == items[i].entry.location {
      var l := KeyAt(items[i], ByLocation);
      assert l in ls;
      var k :| 0 <= k < |ls| && ls[k] == l;
      LocationListElem(items, ls, n, k);
      assert list[k] in list;
    }
  }

  /** No location has two summaries. */
  lemma LocationsDistinct(items: seq<Allocated>, n: nat)
    ensures forall i, j :: 0 <= i < j < |LocationsOf(items, n)| ==> LocationsOf(items, n)[i].location != LocationsOf(items, n)[j].location
  {
    var ls := FirstSeen(items, ByLocation);
    FirstSeenDistinct(items, ByLocation);
    forall i, j | 0 <= i < j < |ls| ensures LocationsOf(items, n)[i].location != LocationsOf(items, n)[j].location {
      LocationListElem(items, ls, n, i);
      LocationListElem(items, ls, n, j);
    }
  }

  /** The dashboard's locations are sorted by descending revenue, a permutation of the location map's values, and each carries the dataset-wide order count and its sales days. */
  lemma DashboardLocations(rows: seq<RawRow>, parse: Parser, learned: seq<LearnedPrice>, price: Pricer)
    requires ValidRows(rows, parse)
    ensures var data := DashboardOf(rows, parse, learned, price);
      var items := ItemsOf(rows, parse, price);
      var ls := data.locationSummaries;
      && multiset(ls) == multiset(LocationsOf(items, data.totalOrders))
      && (forall i, j :: 0 <= i < j < |ls| ==> ls[i].totalRevenue >= ls[j].totalRevenue)
      && forall s :: s in ls ==> s.totalOrders == data.totalOrders && s.salesDays == |SalesDays(items, s.location)|
  {
    var items := ItemsOf(rows, parse, price);
    var list := LocationsOf(items, OrderCount(rows, parse));
    var ls := Sort(list, LocationOrder);
    SortPermutes(list, LocationOrder);
    SortMembers(list, LocationOrder);
    LocationOrderTotal();
    SortSorted(list, LocationOrder);
    forall i, j | 0 <= i < j < |ls| ensures ls[i].totalRevenue >= ls[j].totalRevenue {
      SortedPairs(ls, LocationOrder, i, j);
    }
    LocationsSound(items, OrderCount(rows, parse));
  }

  /** Every product summary of the dashboard carries its items' totals and `avgPrice = totalRevenue / totalQty`, and every product sold has one. */
  lemma DashboardProducts(rows: seq<RawRow>, parse: Parser, learned: seq<LearnedPrice>, price: Pricer)
    requires ValidRows(rows, parse)
    ensures var items := ItemsOf(rows, parse, price);
      var ps := DashboardOf(rows, parse, learned, price).productSummaries;
      && (forall s :: s in ps ==>
        && s.totalQty == TallyWhere(items, Where(ByProduct, s.product)).qty > 0.0
        && s.totalRevenue == TallyWhere(items, Where(ByProduct, s.product)).revenue
        && s.avgPrice == s.totalRevenue / s.totalQty)
      && forall i :: 0 <= i < |items| ==> exists s :: s in ps && s.product == items[i].entry.product
  {
    var items := ItemsOf(rows, parse, price);
    ItemsOfPositive(rows, parse, price);
    SortMembers(ProductsOf(items), ProductOrder);
    ProductsSound(items);
    ProductsComplete(items);
  }

  // ---------------------------------------------------------------- the date range

  /** `dateRange.end` is the greatest date of all items, in JavaScript string order, and is one of them. */
  lemma {:induction false} MaxDateIsMax(items: seq<Allocated>)
    ensures forall i :: 0 <= i < |items| ==> LexLeq(items[i].entry.date, MaxDateOf(items))
    ensures |items| > 0 ==> exists i :: 0 <= i < |items| && items[i].entry.date == MaxDateOf(items)
    decreases |items|
  {
    if |items| > 0 {
      var init := items[..|items| - 1];
      var d := items[|items| - 1].entry.date;
      var cur := MaxDateOf(init);
      MaxDateIsMax(init);
      forall i | 0 <= i < |items| ensures LexLeq(items[i].entry.date, MaxDateOf(items)) {
        var x := items[i].entry.date;
        if i < |init| {
          assert items[i] == init[i];
          if cur == "" {
            EmptyIsLeast(d);
          } else if LexLess(cur, d) && x != cur {
            LexLessTransitive(x, cur, d);
          }
        } else if cur != "" && !LexLess(cur, d) && d != cur {
          LexLessTotal(d, cur);
        }
      }
      if |init| > 0 {
        var i :| 0 <= i < |init| && init[i].entry.date == cur;
        assert items[i] == init[i];
      }
    }
  }

  /** When every item is dated, `dateRange.start` is the least date of all items, in JavaScript string order, and is one of them. */
  lemma {:induction false} MinDateIsMin(items: seq<Allocated>)
    requires forall i :: 0 <= i < |items| ==> items[i].entry.date != ""
    ensures forall i :: 0 <= i < |items| ==> LexLeq(MinDateOf(items), items[i].entry.date)
    ensures |items| > 0 ==> exists i :: 0 <= i < |items| && items[i].entry.date == MinDateOf(items)
    decreases |items|
  {
    if |items| > 0 {
      var init := items[..|items| - 1];
      var d := items[|items| - 1].entry.date;
      var cur := MinDateOf(init);
      MinDateIsMin(init);
      if |init| > 0 {
        var j :| 0 <= j < |init| && init[j].entry.date == cur;
        assert items[j] == init[j];
      }
      forall i | 0 <= i < |items| ensures LexLeq(MinDateOf(items), items[i].entry.date) {
        var x := items[i].entry.date;
        if i < |init| {
          assert items[i] == init[i];
          if LexLess(d, cur) && x != cur {
            LexLessTransitive(d, cur, x);
          }
        } else if cur != "" && !LexLess(d, cur) && d != cur {
          LexLessTotal(d, cur);
        }
      }
    }
  }

  /**
    An undated item (the fallback parses give `date: ''`) resets `minDate` to `''`, so the next
    dated item becomes the start of the range even when an earlier item has a smaller date.
   */
  lemma MinDateRestart()
    ensures
      var e := (d: string) => Allocated(OrderEntry("p", "l", d, 1.0), 1.0);
      var items := [e("5.1"), e(""), e("9.1")];
      MinDateOf(items) == "9.1" && LexLess(items[0].entry.date, MinDateOf(items))
  {
    var e := (d: string) => Allocated(OrderEntry("p", "l", d, 1.0), 1.0);
    var items := [e("5.1"), e(""), e("9.1")];
    assert items[..1] == [e("5.1")] && items[..2] == [e("5.1"), e("")];
    assert items[..1][..0] == [];
  }

  /** `minDate` as evidently intended: an undated item leaves it alone. */
  function UpdateMinDated(minDate: string, date: string): string {
    if date == "" then minDate else UpdateMin(minDate, date)
  }

  /** The corrected `minDate` after recording `items`, starting from `''`. */
  function MinDatedOf(items: seq<Allocated>): string
    decreases |items|
  {
    if |items| == 0 then "" else UpdateMinDated(MinDatedOf(items[..|items| - 1]), items[|items| - 1].entry.date)
  }

  /**
    With undated items skipped, the start of the range is the least date among the dated items,
    and one of them; it is `''` exactly when no item is dated.
   */
  lemma {:induction false} MinDatedIsMin(items: seq<Allocated>)
    ensures forall i :: 0 <= i < |items| && items[i].entry.date != "" ==> LexLeq(MinDatedOf(items), items[i].entry.date)
    ensures MinDatedOf(items) == "" ==> forall i :: 0 <= i < |items| ==> items[i].entry.date == ""
    ensures MinDatedOf(items) != "" ==> exists i :: 0 <= i < |items| && items[i].entry.date == MinDatedOf(items)
    decreases |items|
  {
    if |items| > 0 {
      var init := items[..|items| - 1];
      var d := items[|items| - 1].entry.date;
      var cur := MinDatedOf(init);
      MinDatedIsMin(init);
      if cur != "" {
        var j :| 0 <= j < |init| && init[j].entry.date == cur;
        assert items[j] == init[j];
      }
      forall i | 0 <= i < |items| && items[i].entry.date != "" ensures LexLeq(MinDatedOf(items), items[i].entry.date) {
        var x := items[i].entry.date;
        if i < |init| {
          assert items[i] == init[i];
          if d != "" && LexLess(d, cur) && x != cur {
            LexLessTransitive(d, cur, x);
          }
        } else if cur != "" && !LexLess(d, cur) && d != cur {
          LexLessTotal(d, cur);
        }
      }
      if MinDatedOf(items) == "" {
        forall i | 0 <= i < |items| ensures items[i].entry.date == "" {
          if i < |init| { assert items[i] == init[i]; }
        }
      }
    }
  }

  /** On dated items the corrected start is the start the code computes. */
  lemma {:induction false} MinDatedAgrees(items: seq<Allocated>)
    requires forall i :: 0 <= i < |items| ==> items[i].entry.date != ""
    ensures MinDatedOf(items) == MinDateOf(items)
    decreases |items|
  {
    if |items| > 0 {
      MinDatedAgrees(items[..|items| - 1]);
    }
  }

  /** On the items of `MinDateRestart` the corrected start is the least date. */
  lemma MinDatedKeepsStart()
    ensures
      var e := (d: string) => Allocated(OrderEntry("p", "l", d, 1.0), 1.0);
      var items := [e("5.1"), e(""), e("9.1")];
      MinDatedOf(items) == "5.1"
  {
    var e := (d: string) => Allocated(OrderEntry("p", "l", d, 1.0), 1.0);
    var items := [e("5.1"), e(""), e("9.1")];
    assert items[..1] == [e("5.1")] && items[..2] == [e("5.1"), e("")];
    assert items[..1][..0] == [];
    assert MinDatedOf(items[..1]) == "5.1";
    assert items[..2][..1] == items[..1] && items[..2][1].entry.date == "";
    assert MinDatedOf(items[..2]) == "5.1";
    assert !LexLess("9.1", "5.1");
  }

  /** `processDashboardData(rows)` with the application's parser, `parseOrderDetails`. */
  method ProcessOrders(rows: seq<RawRow>, sqrt: real -> real) returns (data: DashboardData)
    requires ValidRows(rows, ParseOrderDetails)
    ensures data == DashboardOf(rows, ParseOrderDetails, Learned(rows, ParseOrderDetails, sqrt),
                                PriceLookup(Learned(rows, ParseOrderDetails, sqrt)))
  {
    data := ProcessDashboardData(rows, ParseOrderDetails, sqrt);
  }
}
