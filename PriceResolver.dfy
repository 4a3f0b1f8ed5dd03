/**
  Price lookup (`getProductPrice`, utils/dataProcessor.ts:198-230): the unit price of a product at a
  location on a date, from the learned-price table, in three tiers of decreasing precision.
 */
module PriceResolver {
  import opened Wrappers
  import opened Stats
  import opened PriceLearning

  /** The entry is for exactly this product, location and date. */
  predicate IsExact(p: LearnedPrice, product: string, location: string, date: string) {
    p.product == product && p.location == location && p.date == date
  }

  /** The entries the coarser tiers average over: one product at one location, or one product anywhere. */
  datatype Scope = AtLocation(product: string, location: string) | Anywhere(product: string)

  predicate InScope(p: LearnedPrice, scope: Scope) {
    match scope
    case AtLocation(product, location) => p.product == product && p.location == location
    case Anywhere(product) => p.product == product
  }

  /** `table.find(p => IsExact(p, ...))`: the first exact entry, if any. */
  function FindExact(table: seq<LearnedPrice>, product: string, location: string, date: string): (r: Option<LearnedPrice>)
    ensures r.Some? ==> r.value in table && IsExact(r.value, product, location, date)
    ensures r.None? ==> forall j :: 0 <= j < |table| ==> !IsExact(table[j], product, location, date)
    decreases |table|
  {
    if |table| == 0 then None
    else if IsExact(table[0], product, location, date) then Some(table[0])
    else FindExact(table[1..], product, location, date)
  }

  /** `find` returns the entry at the first index that matches. */
  lemma {:induction false} FindExactFirst(table: seq<LearnedPrice>, product: string, location: string, date: string, i: nat)
    requires i < |table| && IsExact(table[i], product, location, date)
    requires forall j :: 0 <= j < i ==> !IsExact(table[j], product, location, date)
    ensures FindExact(table, product, location, date) == Some(table[i])
    decreases i
  {
    if i > 0 {
      FindExactFirst(table[1..], product, location, date, i - 1);
    }
  }

  /** `table.filter(p => InScope(p, scope))`, keeping only the prices, in table order. */
  function PricesIn(table: seq<LearnedPrice>, scope: Scope): (r: seq<real>)
    ensures |r| <= |table|
    decreases |table|
  {
    if |table| == 0 then []
    else
      var init := PricesIn(table[..|table| - 1], scope);
      if InScope(table[|table| - 1], scope) then init + [table[|table| - 1].price] else init
  }

  /** A price is averaged in a scope exactly when some entry in that scope carries it. */
  lemma {:induction false} PricesInMembers(table: seq<LearnedPrice>, scope: Scope)
    ensures forall x :: x in PricesIn(table, scope) <==> exists j :: 0 <= j < |table| && InScope(table[j], scope) && table[j].price == x
    decreases |table|
  {
    if |table| > 0 {
      var init := table[..|table| - 1];
      PricesInMembers(init, scope);
      assert forall j :: 0 <= j < |init| ==> init[j] == table[j];
    }
  }

  /** A scope has prices exactly when some entry is in it. */
  lemma PricesInEmpty(table: seq<LearnedPrice>, scope: Scope)
    ensures |PricesIn(table, scope)| > 0 <==> exists j :: 0 <= j < |table| && InScope(table[j], scope)
  {
    PricesInMembers(table, scope);
    if |PricesIn(table, scope)| > 0 {
      assert PricesIn(table, scope)[0] in PricesIn(table, scope);
    }
  }

  /** `getProductPrice(product, location, date, table)`; `None` stands for `null`. */
  function GetProductPrice(product: string, location: string, date: string, table: seq<LearnedPrice>): (r: Option<real>)
    ensures r.Some? ==> exists j :: 0 <= j < |table| && table[j].product == product
  {
    PricesInEmpty(table, AtLocation(product, location));
    PricesInEmpty(table, Anywhere(product));
    match FindExact(table, product, location, date)
    case Some(exact) => Some(exact.price)
    case None =>
      var byLocationProduct := PricesIn(table, AtLocation(product, location));
      if |byLocationProduct| > 0 then Some(Mean(byLocationProduct))
      else
        var byProduct := PricesIn(table, Anywhere(product));
        if |byProduct| > 0 then Some(Mean(byProduct)) else None
  }

  /** When an exact entry exists, the first one's price is returned, never an average. */
  lemma ExactWins(product: string, location: string, date: string, table: seq<LearnedPrice>, i: nat)
    requires i < |table| && IsExact(table[i], product, location, date)
    requires forall j :: 0 <= j < i ==> !IsExact(table[j], product, location, date)
    ensures GetProductPrice(product, location, date, table) == Some(table[i].price)
  {
    FindExactFirst(table, product, location, date, i);
  }

  /** Without an exact entry, the mean over the product at the location is returned, if it has any entries. */
  lemma LocationTier(product: string, location: string, date: string, table: seq<LearnedPrice>)
    requires forall j :: 0 <= j < |table| ==> !IsExact(table[j], product, location, date)
    requires exists j :: 0 <= j < |table| && InScope(table[j], AtLocation(product, location))
    ensures |PricesIn(table, AtLocation(product, location))| > 0
    ensures GetProductPrice(product, location, date, table) == Some(Mean(PricesIn(table, AtLocation(product, location))))
  {
    PricesInEmpty(table, AtLocation(product, location));
  }

  /** Without an exact entry or an entry at the location, the mean over the product everywhere is returned. */
  lemma ProductTier(product: string, location: string, date: string, table: seq<LearnedPrice>)
    requires forall j :: 0 <= j < |table| ==> !InScope(table[j], AtLocation(product, location))
    requires exists j :: 0 <= j < |table| && InScope(table[j], Anywhere(product))
    ensures |PricesIn(table, Anywhere(product))| > 0
    ensures GetProductPrice(product, location, date, table) == Some(Mean(PricesIn(table, Anywhere(product))))
  {
    PricesInEmpty(table, AtLocation(product, location));
    PricesInEmpty(table, Anywhere(product));
  }

  /** `null` is returned exactly when no entry has the product. */
  lemma NullIffUnknownProduct(product: string, location: string, date: string, table: seq<LearnedPrice>)
    ensures GetProductPrice(product, location, date, table).None? <==> forall j :: 0 <= j < |table| ==> table[j].product != product
  {
    PricesInEmpty(table, AtLocation(product, location));
    PricesInEmpty(table, Anywhere(product));
    if exists j :: 0 <= j < |table| && table[j].product == product {
      var j :| 0 <= j < |table| && table[j].product == product;
      assert InScope(table[j], Anywhere(product));
    }
  }

  /** Every price in the table lies within any bounds on all the table's prices: so does the result. */
  lemma PriceWithinTable(product: string, location: string, date: string, table: seq<LearnedPrice>, lo: real, hi: real)
    requires forall j :: 0 <= j < |table| ==> lo <= table[j].price <= hi
    ensures GetProductPrice(product, location, date, table).Some? ==> lo <= GetProductPrice(product, location, date, table).value <= hi
  {
    ScopeWithin(table, AtLocation(product, location), lo, hi);
    ScopeWithin(table, Anywhere(product), lo, hi);
  }

  /** The mean over a scope lies within bounds on the prices in the scope. */
  lemma ScopeWithin(table: seq<LearnedPrice>, scope: Scope, lo: real, hi: real)
    requires forall j :: 0 <= j < |table| && InScope(table[j], scope) ==> lo <= table[j].price <= hi
    ensures |PricesIn(table, scope)| > 0 ==> lo <= Mean(PricesIn(table, scope)) <= hi
  {
    var prices := PricesIn(table, scope);
    PricesInMembers(table, scope);
    forall k | 0 <= k < |prices| ensures lo <= prices[k] <= hi {
      assert prices[k] in prices;
    }
    if |prices| > 0 {
      MeanBetween(prices, lo, hi);
    }
  }

  /** With a table of positive prices, every price returned is positive. */
  lemma PricePositive(product: string, location: string, date: string, table: seq<LearnedPrice>)
    requires forall j :: 0 <= j < |table| ==> table[j].price > 0.0
    ensures GetProductPrice(product, location, date, table).Some? ==> GetProductPrice(product, location, date, table).value > 0.0
  {
    var r := GetProductPrice(product, location, date, table);
    PricesInMembers(table, AtLocation(product, location));
    PricesInMembers(table, Anywhere(product));
    var a := PricesIn(table, AtLocation(product, location));
    var b := PricesIn(table, Anywhere(product));
    forall k | 0 <= k < |a| ensures a[k] > 0.0 { assert a[k] in a; }
    forall k | 0 <= k < |b| ensures b[k] > 0.0 { assert b[k] in b; }
    if |a| > 0 { MeanPositive(a); }
    if |b| > 0 { MeanPositive(b); }
  }
}
