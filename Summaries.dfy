/**
  The product and location maps of `processDashboardData` (utils/dataProcessor.ts:242-243) and how
  one allocated item is recorded into them (lines 293-357, repeated at 386-457 and 470-541).
 */
module Summaries {
  import opened OrderParser
  import opened Text
  import opened Allocation
  import opened Aggregates

  /** A product's running totals and breakdowns; `avgPrice` stays 0 until the end. */
  datatype ProductSummary = ProductSummary(
    product: string, totalQty: real, totalRevenue: real, avgPrice: real,
    priceBreakdown: map<string, Tally>, locationBreakdown: map<string, Tally>, dateBreakdown: map<string, Tally>)

  /** A location's running totals, product breakdown and set of sales days. */
  datatype LocationAcc = LocationAcc(location: string, totalRevenue: real, productBreakdown: map<string, Tally>, uniqueDates: set<string>)

  /** What the product map holds for `p` after recording `items`. */
  function ProductAgg(items: seq<Allocated>, p: string): ProductSummary {
    var t := TallyWhere(items, Where(ByProduct, p));
    ProductSummary(p, t.qty, t.revenue, 0.0,
      BreakdownOf(items, ByProduct, p, ByUnitPrice),
      BreakdownOf(items, ByProduct, p, ByLocation),
      BreakdownOf(items, ByProduct, p, ByDate))
  }

  /** What the location map holds for `l` after recording `items`: sales days are the non-empty dates seen there. */
  function LocationAgg(items: seq<Allocated>, l: string): LocationAcc {
    LocationAcc(l, TallyWhere(items, Where(ByLocation, l)).revenue,
      BreakdownOf(items, ByLocation, l, ByProduct),
      KeysWhere(items, Where(ByLocation, l), ByDate) - {""})
  }

  /** The product map and its insertion order agree with the items recorded so far. */
  ghost predicate ProductsAgree(items: seq<Allocated>, products: seq<string>, productMap: map<string, ProductSummary>) {
    && products == FirstSeen(items, ByProduct)
    && (forall p :: p in productMap <==> p in products)
    && (forall p :: p in productMap ==> productMap[p] == ProductAgg(items, p))
  }

  /** The location map and its insertion order agree with the items recorded so far. */
  ghost predicate LocationsAgree(items: seq<Allocated>, locations: seq<string>, locationMap: map<string, LocationAcc>) {
    && locations == FirstSeen(items, ByLocation)
    && (forall l :: l in locationMap <==> l in locations)
    && (forall l :: l in locationMap ==> locationMap[l] == LocationAgg(items, l))
  }

  lemma FirstSeenStep(items: seq<Allocated>, it: Allocated, d: Dim)
    ensures FirstSeen(items + [it], d) == if KeyAt(it, d) in FirstSeen(items, d) then FirstSeen(items, d) else FirstSeen(items, d) + [KeyAt(it, d)]
  {
    assert (items + [it])[..|items|] == items;
  }

  /** A key that no item has yet has empty totals and breakdowns, as the source's fresh summaries do. */
  lemma {:induction false} UnseenKey(items: seq<Allocated>, d0: Dim, k0: string, d: Dim)
    requires forall i :: 0 <= i < |items| ==> KeyAt(items[i], d0) != k0
    ensures TallyWhere(items, Where(d0, k0)) == Tally(0.0, 0.0)
    ensures KeysWhere(items, Where(d0, k0), d) == {}
    decreases |items|
  {
    if |items| > 0 {
      UnseenKey(items[..|items| - 1], d0, k0, d);
    }
  }

  /** Recording an item of product `p`: its quantity and revenue are added to the totals and to its price, location and date entries. */
  lemma ProductAggStep(items: seq<Allocated>, it: Allocated)
    ensures
      var s := ProductAgg(items, it.entry.product);
      ProductAgg(items + [it], it.entry.product) == s.(
        totalQty := s.totalQty + it.entry.qty,
        totalRevenue := s.totalRevenue + it.revenue,
        priceBreakdown := AddTo(s.priceBreakdown, KeyAt(it, ByUnitPrice), it.entry.qty, it.revenue),
        locationBreakdown := AddTo(s.locationBreakdown, it.entry.location, it.entry.qty, it.revenue),
        dateBreakdown := AddTo(s.dateBreakdown, it.entry.date, it.entry.qty, it.revenue))
  {
    var p := it.entry.product;
    TallyStep(items, it, Where(ByProduct, p));
    BreakdownStep(items, it, ByProduct, p, ByUnitPrice);
    BreakdownStep(items, it, ByProduct, p, ByLocation);
    BreakdownStep(items, it, ByProduct, p, ByDate);
  }

  /** Recording an item of another product changes nothing for `p`. */
  lemma ProductAggOther(items: seq<Allocated>, it: Allocated, p: string)
    requires it.entry.product != p
    ensures ProductAgg(items + [it], p) == ProductAgg(items, p)
  {
    TallyStep(items, it, Where(ByProduct, p));
    BreakdownUnchanged(items, it, ByProduct, p, ByUnitPrice);
    BreakdownUnchanged(items, it, ByProduct, p, ByLocation);
    BreakdownUnchanged(items, it, ByProduct, p, ByDate);
  }

  /** A product not seen yet has the fresh summary of lines 295-303. */
  lemma ProductAggUnseen(items: seq<Allocated>, p: string)
    requires p !in FirstSeen(items, ByProduct)
    ensures ProductAgg(items, p) == ProductSummary(p, 0.0, 0.0, 0.0, map[], map[], map[])
  {
    FirstSeenMembers(items, ByProduct);
    UnseenKey(items, ByProduct, p, ByUnitPrice);
    UnseenKey(items, ByProduct, p, ByLocation);
    UnseenKey(items, ByProduct, p, ByDate);
  }

  /** Recording an item at location `l`: its revenue is added to the total and to its product entry, and its date, if not empty, joins the sales days. */
  lemma LocationAggStep(items: seq<Allocated>, it: Allocated)
    ensures
      var a := LocationAgg(items, it.entry.location);
      LocationAgg(items + [it], it.entry.location) == a.(
        totalRevenue := a.totalRevenue + it.revenue,
        productBreakdown := AddTo(a.productBreakdown, it.entry.product, it.entry.qty, it.revenue),
        uniqueDates := if it.entry.date != "" then a.uniqueDates + {it.entry.date} else a.uniqueDates)
  {
    var l := it.entry.location;
    TallyStep(items, it, Where(ByLocation, l));
    BreakdownStep(items, it, ByLocation, l, ByProduct);
    KeysStep(items, it, Where(ByLocation, l), ByDate);
  }

  lemma LocationAggOther(items: seq<Allocated>, it: Allocated, l: string)
    requires it.entry.location != l
    ensures LocationAgg(items + [it], l) == LocationAgg(items, l)
  {
    TallyStep(items, it, Where(ByLocation, l));
    BreakdownUnchanged(items, it, ByLocation, l, ByProduct);
    KeysStep(items, it, Where(ByLocation, l), ByDate);
  }

  /** A location not seen yet has the fresh summary of lines 333-340. */
  lemma LocationAggUnseen(items: seq<Allocated>, l: string)
    requires l !in FirstSeen(items, ByLocation)
    ensures LocationAgg(items, l) == LocationAcc(l, 0.0, map[], {})
  {
    FirstSeenMembers(items, ByLocation);
    UnseenKey(items, ByLocation, l, ByProduct);
    UnseenKey(items, ByLocation, l, ByDate);
  }

  /** `if (!b[k]) b[k] = { qty: 0, revenue: 0 }; b[k].qty += qty; b[k].revenue += revenue;` */
  method Bump(b: map<string, Tally>, k: string, qty: real, revenue: real) returns (b': map<string, Tally>)
    ensures b' == AddTo(b, k, qty, revenue)
  {
    b' := b;
    if k !in b' {
      b' := b'[k := Tally(0.0, 0.0)];
    }
    b' := b'[k := Tally(b'[k].qty + qty, b'[k].revenue + revenue)];
  }

  /** Adds an item to its product's summary (lines 308-330): the totals and the three breakdowns. */
  method AddToProduct(s: ProductSummary, it: Allocated, ghost items: seq<Allocated>) returns (s': ProductSummary)
    requires it.entry.qty > 0.0
    requires s == ProductAgg(items, it.entry.product)
    ensures s' == ProductAgg(items + [it], it.entry.product)
  {
    var order := it.entry;
    var revenue := it.revenue;
    s' := s.(totalQty := s.totalQty + order.qty, totalRevenue := s.totalRevenue + revenue);
    var priceKey := ToFixed2(revenue / order.qty);
    assert priceKey == KeyAt(it, ByUnitPrice);
    var priceBreakdown := Bump(s'.priceBreakdown, priceKey, order.qty, revenue);
    var locationBreakdown := Bump(s'.locationBreakdown, order.location, order.qty, revenue);
    var dateBreakdown := Bump(s'.dateBreakdown, order.date, order.qty, revenue);
    s' := s'.(priceBreakdown := priceBreakdown, locationBreakdown := locationBreakdown, dateBreakdown := dateBreakdown);
    ProductAggStep(items, it);
  }

  /** Records an item in the product map (lines 293-330): creates the product's summary on first sight, then adds to it. */
  method RecordProduct(productMap: map<string, ProductSummary>, products: seq<string>, it: Allocated, ghost items: seq<Allocated>)
    returns (productMap': map<string, ProductSummary>, products': seq<string>)
    requires it.entry.qty > 0.0
    requires ProductsAgree(items, products, productMap)
    ensures ProductsAgree(items + [it], products', productMap')
  {
    var order := it.entry;
    productMap' := productMap;
    products' := products;
    if order.product !in productMap' {
      ProductAggUnseen(items, order.product);
      productMap' := productMap'[order.product := ProductSummary(order.product, 0.0, 0.0, 0.0, map[], map[], map[])];
      products' := products' + [order.product];
    }
    var s := AddToProduct(productMap'[order.product], it, items);
    productMap' := productMap'[order.product := s];
    FirstSeenStep(items, it, ByProduct);
    forall p | p in productMap' && p != order.product
      ensures productMap'[p] == ProductAgg(items + [it], p)
    {
      ProductAggOther(items, it, p);
    }
  }

  /** Records an item in the location map (lines 328-350): creates the location's entry on first sight, then adds to it. */
  method RecordLocation(locationMap: map<string, LocationAcc>, locations: seq<string>, it: Allocated, ghost items: seq<Allocated>)
    returns (locationMap': map<string, LocationAcc>, locations': seq<string>)
    requires LocationsAgree(items, locations, locationMap)
    ensures LocationsAgree(items + [it], locations', locationMap')
  {
    var order := it.entry;
    var revenue := it.revenue;
    locationMap' := locationMap;
    locations' := locations;
    if order.location !in locationMap' {
      LocationAggUnseen(items, order.location);
      locationMap' := locationMap'[order.location := LocationAcc(order.location, 0.0, map[], {})];
      locations' := locations' + [order.location];
    }
    var a := locationMap'[order.location];
    a := a.(totalRevenue := a.totalRevenue + revenue);
    if order.date != "" && order.date !in a.uniqueDates {
      a := a.(uniqueDates := a.uniqueDates + {order.date});
    }
    var productBreakdown := Bump(a.productBreakdown, order.product, order.qty, revenue);
    a := a.(productBreakdown := productBreakdown);
    locationMap' := locationMap'[order.location := a];
    LocationAggStep(items, it);
    FirstSeenStep(items, it, ByLocation);
    forall l | l in locationMap' && l != order.location
      ensures locationMap'[l] == LocationAgg(items + [it], l)
    {
      LocationAggOther(items, it, l);
    }
  }
}
