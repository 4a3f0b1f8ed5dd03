/**
  How `processDashboardData` (utils/dataProcessor.ts:233-597) splits the single amount paid for a
  row across the row's line items: a lone item gets all of it; several items share it in proportion
  to their estimated value `price * qty` when some learned prices resolve, or else in proportion to
  their quantities.
 */
module Allocation {
  import opened Wrappers
  import opened OrderParser
  import opened Stats
  import opened PriceLearning
  import opened PriceResolver

  /** A line item with the part of the row's amount it receives. */
  datatype Allocated = Allocated(entry: OrderEntry, revenue: real)

  /**
    How a line item's unit price is resolved. The split is stated for any resolver;
    `Dashboard.ProcessDashboardData` passes `PriceLookup(learnedPrices)`. None of its properties depends on how prices are found.
   */
  type Pricer = OrderEntry -> Option<real>

  /** `getProductPrice(order.product, order.location, order.date, learnedPrices)`. */
  function PriceLookup(table: seq<LearnedPrice>): Pricer {
    (e: OrderEntry) => GetProductPrice(e.product, e.location, e.date, table)
  }

  /** JavaScript truthiness of a resolved price, as in `if (price)`: neither `null` nor `0`. */
  predicate Truthy(p: Option<real>) {
    p.Some? && p.value != 0.0
  }

  predicate PositiveQuantities(orders: seq<OrderEntry>) {
    forall i :: 0 <= i < |orders| ==> orders[i].qty > 0.0
  }

  /** Every price found for the items is positive, as it is for a table of positive learned prices. */
  predicate PositivePrices(orders: seq<OrderEntry>, price: Pricer) {
    forall i :: 0 <= i < |orders| && price(orders[i]).Some? ==> price(orders[i]).value > 0.0
  }

  /** `estimatedTotal` (lines 366-373): the sum of `price * qty` over the items whose price is truthy. */
  function EstimatedTotal(orders: seq<OrderEntry>, price: Pricer): real
    decreases |orders|
  {
    if |orders| == 0 then 0.0
    else
      var e := orders[|orders| - 1];
      var p := price(e);
      EstimatedTotal(orders[..|orders| - 1], price) + if Truthy(p) then p.value * e.qty else 0.0
  }

  /**
    With positive quantities and positive prices the estimate is never negative, so the
    `estimatedTotal > 0` test of line 376 fails only on an estimate of zero.
   */
  lemma {:induction false} EstimatedTotalNonNegative(orders: seq<OrderEntry>, price: Pricer)
    requires PositiveQuantities(orders) && PositivePrices(orders, price)
    ensures EstimatedTotal(orders, price) >= 0.0
    decreases |orders|
  {
    if |orders| > 0 {
      var init := orders[..|orders| - 1];
      var e := orders[|orders| - 1];
      assert forall i :: 0 <= i < |init| ==> init[i] == orders[i];
      EstimatedTotalNonNegative(init, price);
      if Truthy(price(e)) { ProductPositive(price(e).value, e.qty); }
    }
  }

  /** `totalQty` (lines 461-464): the sum of the quantities. */
  function QtyTotal(orders: seq<OrderEntry>): real
    decreases |orders|
  {
    if |orders| == 0 then 0.0 else QtyTotal(orders[..|orders| - 1]) + orders[|orders| - 1].qty
  }

  /** The price-share split (lines 376-384): each item with a truthy price gets `(price * qty / estimatedTotal) * amount`; the others are skipped. */
  function PriceShares(orders: seq<OrderEntry>, price: Pricer, estimated: real, amount: real): (r: seq<Allocated>)
    requires estimated != 0.0
    ensures |r| <= |orders|
    decreases |orders|
  {
    if |orders| == 0 then []
    else
      var init := PriceShares(orders[..|orders| - 1], price, estimated, amount);
      var e := orders[|orders| - 1];
      var p := price(e);
      if Truthy(p) then init + [PriceShare(e, p.value, estimated, amount)] else init
  }

  /** `(price * qty / estimatedTotal) * amount` */
  function PriceShare(e: OrderEntry, price: real, estimated: real, amount: real): Allocated
    requires estimated != 0.0
  {
    Allocated(e, (price * e.qty / estimated) * amount)
  }

  /** The quantity-share split (lines 466-468): every item gets `(qty / totalQty) * amount`. */
  function QtyShares(orders: seq<OrderEntry>, totalQty: real, amount: real): (r: seq<Allocated>)
    requires totalQty != 0.0
    ensures |r| == |orders|
    decreases |orders|
  {
    if |orders| == 0 then []
    else
      var e := orders[|orders| - 1];
      QtyShares(orders[..|orders| - 1], totalQty, amount) + [QtyShare(e, totalQty, amount)]
  }

  /** `(qty / totalQty) * amount` */
  function QtyShare(e: OrderEntry, totalQty: real, amount: real): Allocated
    requires totalQty != 0.0
  {
    Allocated(e, (e.qty / totalQty) * amount)
  }

  /** The items of a row with their revenues (lines 280-291, 363-384, 459-477). */
  function Allocate(orders: seq<OrderEntry>, price: Pricer, amount: real): (r: seq<Allocated>)
    requires PositiveQuantities(orders)
    ensures |r| <= |orders|
  {
    if |orders| == 0 then []
    else if |orders| == 1 then [Allocated(orders[0], amount)]
    else
      var estimated := EstimatedTotal(orders, price);
      if estimated > 0.0 then PriceShares(orders, price, estimated, amount)
      else
        QtyTotalPositive(orders);
        QtyShares(orders, QtyTotal(orders), amount)
  }

  /** One more item in the loop of lines 466-468 appends its quantity share. */
  lemma QtySharesStep(orders: seq<OrderEntry>, totalQty: real, amount: real, j: nat)
    requires totalQty != 0.0 && j < |orders|
    ensures QtyShares(orders[..j + 1], totalQty, amount) == QtyShares(orders[..j], totalQty, amount) + [QtyShare(orders[j], totalQty, amount)]
  {
    assert orders[..j + 1][..j] == orders[..j];
  }

  /** One more item in the loop of lines 378-384 appends its price share, if its price is truthy. */
  lemma PriceSharesStep(orders: seq<OrderEntry>, price: Pricer, estimated: real, amount: real, j: nat)
    requires estimated != 0.0 && j < |orders|
    ensures
      var p := price(orders[j]);
      PriceShares(orders[..j + 1], price, estimated, amount) ==
        if Truthy(p) then PriceShares(orders[..j], price, estimated, amount) + [PriceShare(orders[j], p.value, estimated, amount)]
        else PriceShares(orders[..j], price, estimated, amount)
  {
    assert orders[..j + 1][..j] == orders[..j];
  }

  /** The sum of the revenues of some items. */
  function RevenueSum(items: seq<Allocated>): real
    decreases |items|
  {
    if |items| == 0 then 0.0 else RevenueSum(items[..|items| - 1]) + items[|items| - 1].revenue
  }

  lemma {:induction false} QtyTotalPositive(orders: seq<OrderEntry>)
    requires |orders| > 0 && PositiveQuantities(orders)
    ensures QtyTotal(orders) > 0.0
    decreases |orders|
  {
    if |orders| > 1 {
      QtyTotalPositive(orders[..|orders| - 1]);
    }
  }

  /** Splitting `e` and then `x` of a total in proportion adds up to splitting `e + x`. */
  lemma ShareAdd(e: real, x: real, sum: real, total: real, amount: real)
    requires total != 0.0 && sum == e + x
    ensures (e / total) * amount + (x / total) * amount == (sum / total) * amount
  {
  }

  /** The price shares add up to the estimated total's part of the amount. */
  lemma {:induction false} PriceSharesSum(orders: seq<OrderEntry>, price: Pricer, estimated: real, amount: real)
    requires estimated != 0.0
    ensures RevenueSum(PriceShares(orders, price, estimated, amount)) == (EstimatedTotal(orders, price) / estimated) * amount
    decreases |orders|
  {
    if |orders| == 0 {
      assert PriceShares(orders, price, estimated, amount) == [];
      assert EstimatedTotal(orders, price) == 0.0;
      assert (0.0 / estimated) * amount == 0.0;
    } else {
      PriceSharesSum(orders[..|orders| - 1], price, estimated, amount);
      PriceSharesSumStep(orders, price, estimated, amount);
    }
  }

  /** Appending a share of `x` to shares of `before` gives shares of `before + x`. */
  lemma AppendShare(shares: seq<Allocated>, last: Allocated, before: real, x: real, total: real, estimated: real, amount: real)
    requires estimated != 0.0 && total == before + x
    requires RevenueSum(shares) == (before / estimated) * amount && last.revenue == (x / estimated) * amount
    ensures RevenueSum(shares + [last]) == (total / estimated) * amount
  {
    assert RevenueSum(shares + [last]) == RevenueSum(shares) + last.revenue;
    assert (shares + [last])[..|shares|] == shares;
    ShareAdd(before, x, total, estimated, amount);
  }

  /** The inductive step of `PriceSharesSum`: one more item adds its share, if it has one. */
  lemma PriceSharesSumStep(orders: seq<OrderEntry>, price: Pricer, estimated: real, amount: real)
    requires estimated != 0.0 && |orders| > 0
    requires
      var init := orders[..|orders| - 1];
      RevenueSum(PriceShares(init, price, estimated, amount)) == (EstimatedTotal(init, price) / estimated) * amount
    ensures RevenueSum(PriceShares(orders, price, estimated, amount)) == (EstimatedTotal(orders, price) / estimated) * amount
  {
    var init := orders[..|orders| - 1];
    var e := orders[|orders| - 1];
    var p := price(e);
    var shares := PriceShares(init, price, estimated, amount);
    var before := EstimatedTotal(init, price);
    if Truthy(p) {
      var last := PriceShare(e, p.value, estimated, amount);
      var x := p.value * e.qty;
      var total := EstimatedTotal(orders, price);
      assert total == before + x;
      assert PriceShares(orders, price, estimated, amount) == shares + [last];
      AppendShare(shares, last, before, x, total, estimated, amount);
    } else {
      assert PriceShares(orders, price, estimated, amount) == shares;
      assert EstimatedTotal(orders, price) == before;
    }
  }

  /** The quantity shares add up to the quantities' part of the amount. */
  lemma {:induction false} QtySharesSum(orders: seq<OrderEntry>, totalQty: real, amount: real)
    requires totalQty != 0.0
    ensures RevenueSum(QtyShares(orders, totalQty, amount)) == (QtyTotal(orders) / totalQty) * amount
    decreases |orders|
  {
    if |orders| == 0 {
      assert (0.0 / totalQty) * amount == 0.0;
    } else {
      var init := orders[..|orders| - 1];
      var e := orders[|orders| - 1];
      QtySharesSum(init, totalQty, amount);
      var shares := QtyShares(init, totalQty, amount);
      var last := QtyShare(e, totalQty, amount);
      assert (shares + [last])[..|shares|] == shares;
      ShareAdd(QtyTotal(init), e.qty, QtyTotal(orders), totalQty, amount);
    }
  }

  /** Conservation: the revenues of a row with at least one item add up to exactly the row's amount. */
  lemma Conservation(orders: seq<OrderEntry>, price: Pricer, amount: real)
    requires |orders| > 0 && PositiveQuantities(orders)
    ensures RevenueSum(Allocate(orders, price, amount)) == amount
  {
    if |orders| == 1 {
      assert RevenueSum([Allocated(orders[0], amount)]) == 0.0 + amount;
    } else {
      var estimated := EstimatedTotal(orders, price);
      if estimated > 0.0 {
        PriceSharesSum(orders, price, estimated, amount);
        SelfRatio(estimated, amount);
      } else {
        QtyTotalPositive(orders);
        QtySharesSum(orders, QtyTotal(orders), amount);
        SelfRatio(QtyTotal(orders), amount);
      }
    }
  }

  lemma SelfRatio(total: real, amount: real)
    requires total != 0.0
    ensures (total / total) * amount == amount
  {
  }

  /** The items whose price is truthy, in row order: the ones the loop of lines 378-384 does not skip. */
  function Priced(orders: seq<OrderEntry>, price: Pricer): (r: seq<OrderEntry>)
    ensures |r| <= |orders|
    decreases |orders|
  {
    if |orders| == 0 then []
    else
      var init := Priced(orders[..|orders| - 1], price);
      var e := orders[|orders| - 1];
      if Truthy(price(e)) then init + [e] else init
  }

  /** Each item is kept as often as it occurs in the row when its price is truthy, and never otherwise. */
  lemma {:induction false} PricedCounts(orders: seq<OrderEntry>, price: Pricer)
    ensures forall e :: multiset(Priced(orders, price))[e] == if Truthy(price(e)) then multiset(orders)[e] else 0
    decreases |orders|
  {
    if |orders| > 0 {
      var init := orders[..|orders| - 1];
      PricedCounts(init, price);
      assert orders == init + [orders[|orders| - 1]];
    }
  }

  /**
    The price split gives the `k`-th priced item, and nothing else, the share
    `(price * qty / estimatedTotal) * amount` (lines 383-384).
   */
  lemma PriceSharesAt(orders: seq<OrderEntry>, price: Pricer, estimated: real, amount: real)
    requires estimated != 0.0
    ensures |PriceShares(orders, price, estimated, amount)| == |Priced(orders, price)|
    ensures forall k :: 0 <= k < |Priced(orders, price)| ==>
      var e := Priced(orders, price)[k];
      Truthy(price(e)) && PriceShares(orders, price, estimated, amount)[k] == Allocated(e, (price(e).value * e.qty / estimated) * amount)
  {
    PriceSharesAlign(orders, price, estimated, amount);
    var kept := Priced(orders, price);
    var shares := PriceShares(orders, price, estimated, amount);
    forall k | 0 <= k < |kept|
      ensures Truthy(price(kept[k])) && shares[k] == Allocated(kept[k], (price(kept[k]).value * kept[k].qty / estimated) * amount)
    {
      assert shares[k] == PriceShare(kept[k], price(kept[k]).value, estimated, amount);
    }
  }

  /** `PriceSharesAt`, with each share left as `PriceShare`. */
  lemma {:induction false} PriceSharesAlign(orders: seq<OrderEntry>, price: Pricer, estimated: real, amount: real)
    requires estimated != 0.0
    ensures |PriceShares(orders, price, estimated, amount)| == |Priced(orders, price)|
    ensures forall k :: 0 <= k < |Priced(orders, price)| ==>
      Truthy(price(Priced(orders, price)[k])) &&
      PriceShares(orders, price, estimated, amount)[k] ==
        PriceShare(Priced(orders, price)[k], price(Priced(orders, price)[k]).value, estimated, amount)
    decreases |orders|
  {
    if |orders| > 0 {
      var init := orders[..|orders| - 1];
      var e := orders[|orders| - 1];
      PriceSharesAlign(init, price, estimated, amount);
      var shares := PriceShares(init, price, estimated, amount);
      var kept := Priced(init, price);
      if Truthy(price(e)) {
        assert PriceShares(orders, price, estimated, amount) == shares + [PriceShare(e, price(e).value, estimated, amount)];
        assert Priced(orders, price) == kept + [e];
      } else {
        assert PriceShares(orders, price, estimated, amount) == shares;
        assert Priced(orders, price) == kept;
      }
    }
  }

  /** The price-share split keeps exactly the items whose price is truthy. */
  lemma {:induction false} PriceSharesItems(orders: seq<OrderEntry>, price: Pricer, estimated: real, amount: real)
    requires estimated != 0.0
    ensures forall e ::
      (exists i :: 0 <= i < |PriceShares(orders, price, estimated, amount)| && PriceShares(orders, price, estimated, amount)[i].entry == e)
      <==> e in orders && Truthy(price(e))
    decreases |orders|
  {
    if |orders| > 0 {
      var init := orders[..|orders| - 1];
      var last := orders[|orders| - 1];
      PriceSharesItems(init, price, estimated, amount);
      assert orders == init + [last];
      var shares := PriceShares(init, price, estimated, amount);
      var r := PriceShares(orders, price, estimated, amount);
      forall e ensures (exists i :: 0 <= i < |r| && r[i].entry == e) <==> e in orders && Truthy(price(e)) {
        if exists i :: 0 <= i < |r| && r[i].entry == e {
          var i :| 0 <= i < |r| && r[i].entry == e;
          if i < |shares| {
            assert r[i] == shares[i];
          }
        }
        if e in orders && Truthy(price(e)) {
          if e in init {
            var i :| 0 <= i < |shares| && shares[i].entry == e;
            assert r[i] == shares[i];
          } else {
            assert r[|r| - 1].entry == e;
          }
        }
      }
    }
  }

  /** When the estimated total is positive, at least one item has a truthy price, so the price-share split is not empty. */
  lemma {:induction false} EstimatedTotalWitness(orders: seq<OrderEntry>, price: Pricer)
    requires EstimatedTotal(orders, price) != 0.0
    ensures exists i :: 0 <= i < |orders| && Truthy(price(orders[i]))
    decreases |orders|
  {
    var n := |orders| - 1;
    if !Truthy(price(orders[n])) {
      EstimatedTotalWitness(orders[..n], price);
      var i :| 0 <= i < n && Truthy(price(orders[..n][i]));
      assert orders[..n][i] == orders[i];
    }
  }

  /** The quantity-share split gives every item, in row order, a share proportional to its quantity. */
  lemma {:induction false} QtySharesItems(orders: seq<OrderEntry>, totalQty: real, amount: real)
    requires totalQty != 0.0
    ensures forall i :: 0 <= i < |orders| ==>
      QtyShares(orders, totalQty, amount)[i] == Allocated(orders[i], (orders[i].qty / totalQty) * amount)
    decreases |orders|
  {
    if |orders| > 0 {
      QtySharesItems(orders[..|orders| - 1], totalQty, amount);
    }
  }

  /** Every row with an item yields at least one allocated item. */
  lemma AllocateNonEmpty(orders: seq<OrderEntry>, price: Pricer, amount: real)
    requires |orders| > 0 && PositiveQuantities(orders)
    ensures |Allocate(orders, price, amount)| > 0
  {
    if |orders| > 1 {
      var estimated := EstimatedTotal(orders, price);
      if estimated > 0.0 {
        EstimatedTotalWitness(orders, price);
        PriceSharesItems(orders, price, estimated, amount);
        var i :| 0 <= i < |orders| && Truthy(price(orders[i]));
        assert orders[i] in orders;
      }
    }
  }

  /** Every allocated item is one of the row's items. */
  lemma AllocateFromOrders(orders: seq<OrderEntry>, price: Pricer, amount: real)
    requires PositiveQuantities(orders)
    ensures forall i :: 0 <= i < |Allocate(orders, price, amount)| ==> Allocate(orders, price, amount)[i].entry in orders
  {
    if |orders| > 1 {
      var estimated := EstimatedTotal(orders, price);
      if estimated > 0.0 {
        PriceSharesItems(orders, price, estimated, amount);
      } else {
        QtyTotalPositive(orders);
        QtySharesItems(orders, QtyTotal(orders), amount);
      }
    }
  }
}
