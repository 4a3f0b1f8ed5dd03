/**
  Price learning (`learnPrices`, utils/dataProcessor.ts): every row before the cutoff whose
  order text parses to exactly one line item is a sample, `totalAmount / qty`, of the unit
  price of that item's (product, location, date) key. Each key seen gets the mean of its
  samples as its price and a confidence figure that falls as the samples spread out.

  `Math.sqrt` is a parameter: the model relies only on what `SqrtLike` says of it.
 */
module PriceLearning {
  import opened Wrappers
  import opened OrderParser
  import opened Stats

  /** One spreadsheet row: the amount paid, the free-text order cell, the quantity column and the row's position. */
  datatype RawRow = RawRow(totalAmount: real, orderDetails: string, totalQty: real, rowIndex: int)

  /** A learned unit price for one (product, location, date) key. */
  datatype LearnedPrice = LearnedPrice(product: string, location: string, date: string, price: real, confidence: real)

  /** The (product, location, date) key of a learned price. */
  type Key = (string, string, string)

  /** Rows at or after this index do not take part in learning. */
  const LearningCutoff: int := 5433

  /**
    The order-text parser, `parseOrderDetails`. The pipeline is stated for any parser;
    `Dashboard.ProcessOrders` runs it with `OrderParser.ParseOrderDetails`. None of its properties depends on how the text is parsed.
   */
  type Parser = (string, real) -> seq<OrderEntry>

  /** The line items of a row, with the row's quantity column as the default quantity. */
  function Orders(row: RawRow, parse: Parser): seq<OrderEntry> {
    parse(row.orderDetails, row.totalQty)
  }

  /**
    What the pipeline is called with: only rows with a positive amount reach it, and every
    line item carries a positive quantity (the source divides by it).
   */
  predicate ValidRow(row: RawRow, parse: Parser) {
    && row.totalAmount > 0.0
    && forall k :: 0 <= k < |Orders(row, parse)| ==> Orders(row, parse)[k].qty > 0.0
  }

  predicate ValidRows(rows: seq<RawRow>, parse: Parser) {
    forall i :: 0 <= i < |rows| ==> ValidRow(rows[i], parse)
  }

  function KeyOf(e: OrderEntry): Key {
    (e.product, e.location, e.date)
  }

  function LearnedKey(p: LearnedPrice): Key {
    (p.product, p.location, p.date)
  }

  /** A row takes part in learning: it comes before the cutoff and holds exactly one line item. */
  predicate Eligible(row: RawRow, parse: Parser) {
    row.rowIndex < LearningCutoff && |Orders(row, parse)| == 1
  }

  /** A unit price observed for a key. */
  datatype Sample = Sample(key: Key, price: real)

  /** The sample a row contributes, if it is eligible. */
  function SampleOf(row: RawRow, parse: Parser): (r: Option<Sample>)
    requires ValidRow(row, parse)
    ensures r.Some? <==> Eligible(row, parse)
    ensures r.Some? ==> r.value.key == KeyOf(Orders(row, parse)[0]) && r.value.price > 0.0
  {
    if row.rowIndex >= LearningCutoff then None
    else
      var orders := Orders(row, parse);
      if |orders| == 1 then Some(Sample(KeyOf(orders[0]), row.totalAmount / orders[0].qty)) else None
  }

  /** The samples of all rows, in row order. */
  function Samples(rows: seq<RawRow>, parse: Parser): (ss: seq<Sample>)
    requires ValidRows(rows, parse)
    ensures forall i :: 0 <= i < |ss| ==> ss[i].price > 0.0
    decreases |rows|
  {
    if |rows| == 0 then []
    else
      var init := Samples(rows[..|rows| - 1], parse);
      match SampleOf(rows[|rows| - 1], parse)
      case None => init
      case Some(s) => init + [s]
  }

  /** Every sample comes from an eligible row, and every eligible row gives one. */
  lemma {:induction false} SamplesFromRows(rows: seq<RawRow>, parse: Parser)
    requires ValidRows(rows, parse)
    ensures forall s :: s in Samples(rows, parse) <==> exists r :: 0 <= r < |rows| && SampleOf(rows[r], parse) == Some(s)
    decreases |rows|
  {
    if |rows| > 0 {
      var init := rows[..|rows| - 1];
      SamplesFromRows(init, parse);
      forall s ensures s in Samples(rows, parse) <==> exists r :: 0 <= r < |rows| && SampleOf(rows[r], parse) == Some(s) {
        if s in Samples(init, parse) {
          var r :| 0 <= r < |init| && SampleOf(init[r], parse) == Some(s);
          assert SampleOf(rows[r], parse) == Some(s);
        }
        if exists r :: 0 <= r < |rows| && SampleOf(rows[r], parse) == Some(s) {
          var r :| 0 <= r < |rows| && SampleOf(rows[r], parse) == Some(s);
          if r < |init| {
            assert SampleOf(init[r], parse) == Some(s);
          }
        }
      }
    }
  }

  /** The unit prices sampled for key `k`, in row order. */
  function PricesFor(ss: seq<Sample>, k: Key): (r: seq<real>)
    ensures |r| <= |ss|
    decreases |ss|
  {
    if |ss| == 0 then []
    else
      var init := PricesFor(ss[..|ss| - 1], k);
      if ss[|ss| - 1].key == k then init + [ss[|ss| - 1].price] else init
  }

  /** The prices sampled for `k` are exactly the prices of the samples with key `k`. */
  lemma {:induction false} PricesForMembers(ss: seq<Sample>, k: Key)
    ensures forall x :: x in PricesFor(ss, k) <==> Sample(k, x) in ss
    decreases |ss|
  {
    if |ss| > 0 {
      var init := ss[..|ss| - 1];
      PricesForMembers(init, k);
      assert ss == init + [ss[|ss| - 1]];
    }
  }

  /** The keys of the samples, each once, in order of first appearance (the iteration order of a `Map`). */
  function KeysInOrder(ss: seq<Sample>): (ks: seq<Key>)
    decreases |ss|
  {
    if |ss| == 0 then []
    else
      var init := KeysInOrder(ss[..|ss| - 1]);
      if ss[|ss| - 1].key in init then init else init + [ss[|ss| - 1].key]
  }

  /** No key is listed twice. */
  lemma {:induction false} KeysInOrderDistinct(ss: seq<Sample>)
    ensures forall i, j :: 0 <= i < j < |KeysInOrder(ss)| ==> KeysInOrder(ss)[i] != KeysInOrder(ss)[j]
    decreases |ss|
  {
    if |ss| > 0 {
      KeysInOrderDistinct(ss[..|ss| - 1]);
    }
  }

  /** A key is listed exactly when it has samples. */
  lemma {:induction false} KeysInOrderMembers(ss: seq<Sample>)
    ensures forall k :: k in KeysInOrder(ss) <==> |PricesFor(ss, k)| > 0
    decreases |ss|
  {
    if |ss| > 0 {
      KeysInOrderMembers(ss[..|ss| - 1]);
    }
  }

  predicate Positive(xs: seq<real>) {
    forall i :: 0 <= i < |xs| ==> xs[i] > 0.0
  }

  /** Samples with positive prices give positive prices for every key. */
  lemma PricesForPositive(ss: seq<Sample>, k: Key)
    requires forall i :: 0 <= i < |ss| ==> ss[i].price > 0.0
    ensures Positive(PricesFor(ss, k))
  {
    PricesForMembers(ss, k);
    forall i | 0 <= i < |PricesFor(ss, k)| ensures PricesFor(ss, k)[i] > 0.0 {
      assert Sample(k, PricesFor(ss, k)[i]) in ss;
    }
  }

  /** `Math.max`. */
  function Max(a: real, b: real): (r: real)
    ensures r >= a && r >= b && (r == a || r == b)
  {
    if a >= b then a else b
  }

  /** What the model relies on of `Math.sqrt` on the non-negative reals: never negative, and zero only at zero. */
  ghost predicate SqrtLike(sqrt: real -> real) {
    forall x :: x >= 0.0 ==> sqrt(x) >= 0.0 && (sqrt(x) == 0.0 <==> x == 0.0)
  }

  /** The population variance: the mean squared deviation from the mean. */
  function Variance(prices: seq<real>): real
    requires |prices| > 0
  {
    SumSquares(prices, Mean(prices)) / (|prices| as real)
  }

  /** Confidence: 1 when the standard deviation is 0, otherwise `max(0, 1 - stdDev / mean)`. */
  function Confidence(prices: seq<real>, sqrt: real -> real): real
    requires |prices| > 0 && Positive(prices)
  {
    MeanPositive(prices);
    var stdDev := sqrt(Variance(prices));
    if stdDev == 0.0 then 1.0 else Max(0.0, 1.0 - stdDev / Mean(prices))
  }

  /** The learned price of key `k` from its samples. */
  function Entry(k: Key, prices: seq<real>, sqrt: real -> real): LearnedPrice
    requires |prices| > 0 && Positive(prices)
  {
    LearnedPrice(k.0, k.1, k.2, Mean(prices), Confidence(prices, sqrt))
  }

  /** The learned prices of keys `ks`, in that order. */
  function LearnedFor(ss: seq<Sample>, ks: seq<Key>, sqrt: real -> real): (r: seq<LearnedPrice>)
    requires forall i :: 0 <= i < |ss| ==> ss[i].price > 0.0
    requires forall i :: 0 <= i < |ks| ==> |PricesFor(ss, ks[i])| > 0
    ensures |r| == |ks|
    ensures forall i :: 0 <= i < |r| ==> LearnedKey(r[i]) == ks[i]
    decreases |ks|
  {
    if |ks| == 0 then []
    else
      var k := ks[|ks| - 1];
      PricesForPositive(ss, k);
      LearnedFor(ss, ks[..|ks| - 1], sqrt) + [Entry(k, PricesFor(ss, k), sqrt)]
  }

  /** What `learnPrices(rows)` returns: one entry per key seen, in order of first appearance. */
  function Learned(rows: seq<RawRow>, parse: Parser, sqrt: real -> real): (r: seq<LearnedPrice>)
    requires ValidRows(rows, parse)
    ensures forall i :: 0 <= i < |r| ==> |PricesFor(Samples(rows, parse), LearnedKey(r[i]))| > 0
  {
    var ss := Samples(rows, parse);
    var ks := KeysInOrder(ss);
    KeysInOrderMembers(ss);
    assert forall i :: 0 <= i < |ks| ==> ks[i] in ks;
    LearnedFor(ss, ks, sqrt)
  }

  /** The running sum, count and list of samples the source keeps per key. */
  datatype PriceAcc = PriceAcc(sum: real, count: nat, samples: seq<real>)

  function Accumulated(prices: seq<real>): PriceAcc {
    PriceAcc(Sum(prices), |prices|, prices)
  }

  /** The samples a row contributes: none, or its one sample. */
  function RowSamples(row: RawRow, parse: Parser): seq<Sample>
    requires ValidRow(row, parse)
  {
    match SampleOf(row, parse)
    case None => []
    case Some(s) => [s]
  }

  /** The samples of one more row are those of the rows before it, then the row's own. */
  lemma SamplesStep(rows: seq<RawRow>, i: nat, parse: Parser)
    requires i < |rows| && ValidRows(rows, parse)
    ensures ValidRows(rows[..i + 1], parse)
    ensures Samples(rows[..i + 1], parse) == Samples(rows[..i], parse) + RowSamples(rows[i], parse)
  {
    assert rows[..i + 1][..i] == rows[..i];
  }

  /**
    The state `learnPrices` keeps while it reads samples `ss`: the keys in order of first appearance
    (the iteration order of its `Map`) and, for each of them, the running sum, count and list of its prices.
   */
  ghost predicate Tracks(ss: seq<Sample>, keys: seq<Key>, priceMap: map<Key, PriceAcc>) {
    && keys == KeysInOrder(ss)
    && (forall k :: k in priceMap <==> k in keys)
    && (forall k :: k in priceMap ==> priceMap[k] == Accumulated(PricesFor(ss, k)))
  }

  /** Adding a price to the running sum, count and list accumulates one more price. */
  lemma AccumulatedStep(prices: seq<real>, x: real)
    ensures Accumulated(prices + [x]) == PriceAcc(Accumulated(prices).sum + x, Accumulated(prices).count + 1, Accumulated(prices).samples + [x])
  {
    assert (prices + [x])[..|prices|] == prices;
  }

  /** Recording one more sample (lines 158-166) keeps the state in step with the samples. */
  lemma TracksAppend(ss: seq<Sample>, keys: seq<Key>, priceMap: map<Key, PriceAcc>, s: Sample,
                     keys': seq<Key>, priceMap': map<Key, PriceAcc>)
    requires Tracks(ss, keys, priceMap)
    requires keys' == if s.key in priceMap then keys else keys + [s.key]
    requires
      var e := if s.key in priceMap then priceMap[s.key] else PriceAcc(0.0, 0, []);
      priceMap' == priceMap[s.key := PriceAcc(e.sum + s.price, e.count + 1, e.samples + [s.price])]
    ensures Tracks(ss + [s], keys', priceMap')
  {
    var ss' := ss + [s];
    assert ss'[..|ss|] == ss;
    KeysInOrderMembers(ss);
    var prices := PricesFor(ss, s.key);
    if s.key !in priceMap {
      assert prices == [];
    }
    assert PricesFor(ss', s.key) == prices + [s.price];
    AccumulatedStep(prices, s.price);
    forall k | k != s.key ensures PricesFor(ss', k) == PricesFor(ss, k) {
    }
  }

  /** The body of the first loop of `learnPrices` (lines 151-171) for one row. */
  method RecordSample(keys: seq<Key>, priceMap: map<Key, PriceAcc>, row: RawRow, parse: Parser, ghost ss: seq<Sample>)
    returns (keys': seq<Key>, priceMap': map<Key, PriceAcc>)
    requires ValidRow(row, parse) && Tracks(ss, keys, priceMap)
    ensures Tracks(ss + RowSamples(row, parse), keys', priceMap')
  {
    keys', priceMap' := keys, priceMap;
    if row.rowIndex >= LearningCutoff {
      assert ss + RowSamples(row, parse) == ss;
      return;
    }
    var orders := parse(row.orderDetails, row.totalQty);
    if |orders| == 1 {
      var order := orders[0];
      var pricePerUnit := row.totalAmount / order.qty;
      var key := (order.product, order.location, order.date);
      ghost var sample := Sample(key, pricePerUnit);
      assert RowSamples(row, parse) == [sample];
      if key !in priceMap' {
        priceMap' := priceMap'[key := PriceAcc(0.0, 0, [])];
        keys' := keys' + [key];
      }
      var entry := priceMap'[key];
      assert entry == if key in priceMap then priceMap[key] else PriceAcc(0.0, 0, []);
      priceMap' := priceMap'[key := PriceAcc(entry.sum + pricePerUnit, entry.count + 1, entry.samples + [pricePerUnit])];
      assert priceMap' == priceMap[key := PriceAcc(entry.sum + pricePerUnit, entry.count + 1, entry.samples + [pricePerUnit])];
      TracksAppend(ss, keys, priceMap, sample, keys', priceMap');
    } else {
      assert ss + RowSamples(row, parse) == ss;
    }
  }

  /** The first pass of `learnPrices` (lines 150-171): one running sum, count and price list per key. */
  method CollectSamples(rows: seq<RawRow>, parse: Parser) returns (keys: seq<Key>, priceMap: map<Key, PriceAcc>)
    requires ValidRows(rows, parse)
    ensures Tracks(Samples(rows, parse), keys, priceMap)
  {
    keys := [];
    priceMap := map[];
    for i := 0 to |rows|
      invariant Tracks(Samples(rows[..i], parse), keys, priceMap)
    {
      SamplesStep(rows, i, parse);
      keys, priceMap := RecordSample(keys, priceMap, rows[i], parse, Samples(rows[..i], parse));
    }
    assert rows[..|rows|] == rows;
  }

  /** The body of the second loop of `learnPrices` (lines 176-191): a key's entry from its running sum, count and samples. */
  method EntryFrom(key: Key, data: PriceAcc, sqrt: real -> real, ghost prices: seq<real>) returns (entry: LearnedPrice)
    requires |prices| > 0 && Positive(prices) && data == Accumulated(prices)
    ensures entry == Entry(key, prices, sqrt)
  {
    MeanPositive(prices);
    var avgPrice := data.sum / (data.count as real);
    var variance := SumSquares(data.samples, avgPrice) / (data.count as real);
    var stdDev := sqrt(variance);
    var confidence := if stdDev == 0.0 then 1.0 else Max(0.0, 1.0 - stdDev / avgPrice);
    assert avgPrice == Mean(prices) && variance == Variance(prices);
    entry := LearnedPrice(key.0, key.1, key.2, avgPrice, confidence);
  }

  /** `learnPrices(rows)` (lines 146-195). */
  method LearnPrices(rows: seq<RawRow>, parse: Parser, sqrt: real -> real) returns (learned: seq<LearnedPrice>)
    requires ValidRows(rows, parse)
    ensures learned == Learned(rows, parse, sqrt)
  {
    var keys, priceMap := CollectSamples(rows, parse);
    ghost var ss := Samples(rows, parse);
    KeysInOrderMembers(ss);
    learned := [];
    for j := 0 to |keys|
      invariant learned == LearnedFor(ss, keys[..j], sqrt)
    {
      assert keys[..j + 1][..j] == keys[..j];
      var key := keys[j];
      PricesForPositive(ss, key);
      var entry := EntryFrom(key, priceMap[key], sqrt, PricesFor(ss, key));
      learned := learned + [entry];
    }
    assert keys[..|keys|] == keys;
  }

  /** The unit prices sampled for key `k` over all rows, in row order. */
  ghost function SamplePrices(rows: seq<RawRow>, parse: Parser, k: Key): seq<real>
    requires ValidRows(rows, parse)
  {
    PricesFor(Samples(rows, parse), k)
  }

  /** A price is sampled for `k` exactly when some eligible row of key `k` has that unit price. */
  lemma SamplePricesFromRows(rows: seq<RawRow>, parse: Parser, k: Key)
    requires ValidRows(rows, parse)
    ensures forall x :: x in SamplePrices(rows, parse, k) <==>
      exists r :: 0 <= r < |rows| && SampleOf(rows[r], parse) == Some(Sample(k, x))
    ensures Positive(SamplePrices(rows, parse, k))
  {
    PricesForMembers(Samples(rows, parse), k);
    SamplesFromRows(rows, parse);
    PricesForPositive(Samples(rows, parse), k);
  }

  /** Entry `i` of `LearnedFor` is the entry computed from the prices of key `ks[i]`. */
  lemma {:induction false} LearnedForAt(ss: seq<Sample>, ks: seq<Key>, sqrt: real -> real, i: nat)
    requires forall j :: 0 <= j < |ss| ==> ss[j].price > 0.0
    requires forall j :: 0 <= j < |ks| ==> |PricesFor(ss, ks[j])| > 0
    requires i < |ks|
    ensures Positive(PricesFor(ss, ks[i]))
    ensures LearnedFor(ss, ks, sqrt)[i] == Entry(ks[i], PricesFor(ss, ks[i]), sqrt)
    decreases |ks|
  {
    PricesForPositive(ss, ks[i]);
    if i < |ks| - 1 {
      LearnedForAt(ss, ks[..|ks| - 1], sqrt, i);
    }
  }

  /** Each learned entry carries the mean and the confidence of the samples of its own key, of which there is at least one. */
  lemma LearnedAt(rows: seq<RawRow>, parse: Parser, sqrt: real -> real, i: nat)
    requires ValidRows(rows, parse) && i < |Learned(rows, parse, sqrt)|
    ensures |SamplePrices(rows, parse, LearnedKey(Learned(rows, parse, sqrt)[i]))| > 0
    ensures Positive(SamplePrices(rows, parse, LearnedKey(Learned(rows, parse, sqrt)[i])))
    ensures
      var prices := SamplePrices(rows, parse, LearnedKey(Learned(rows, parse, sqrt)[i]));
      && Learned(rows, parse, sqrt)[i].price == Mean(prices)
      && Learned(rows, parse, sqrt)[i].confidence == Confidence(prices, sqrt)
  {
    var ss := Samples(rows, parse);
    KeysInOrderMembers(ss);
    LearnedForAt(ss, KeysInOrder(ss), sqrt, i);
  }

  /** No key is learned twice. */
  lemma LearnedKeysDistinct(rows: seq<RawRow>, parse: Parser, sqrt: real -> real)
    requires ValidRows(rows, parse)
    ensures forall i, j :: 0 <= i < j < |Learned(rows, parse, sqrt)| ==>
      LearnedKey(Learned(rows, parse, sqrt)[i]) != LearnedKey(Learned(rows, parse, sqrt)[j])
  {
    KeysInOrderDistinct(Samples(rows, parse));
  }

  /** Every learned key is the key of some eligible row. */
  lemma LearnedKeysFromRows(rows: seq<RawRow>, parse: Parser, sqrt: real -> real)
    requires ValidRows(rows, parse)
    ensures forall i :: 0 <= i < |Learned(rows, parse, sqrt)| ==>
      exists r :: 0 <= r < |rows| && Eligible(rows[r], parse) && KeyOf(Orders(rows[r], parse)[0]) == LearnedKey(Learned(rows, parse, sqrt)[i])
  {
    var ss := Samples(rows, parse);
    var ks := KeysInOrder(ss);
    var learned := Learned(rows, parse, sqrt);
    KeysInOrderMembers(ss);
    SamplesFromRows(rows, parse);
    forall i | 0 <= i < |learned|
      ensures exists r :: 0 <= r < |rows| && Eligible(rows[r], parse) && KeyOf(Orders(rows[r], parse)[0]) == LearnedKey(learned[i])
    {
      var k := ks[i];
      PricesForMembers(ss, k);
      var x := PricesFor(ss, k)[0];
      assert Sample(k, x) in ss;
      var r :| 0 <= r < |rows| && SampleOf(rows[r], parse) == Some(Sample(k, x));
      assert Eligible(rows[r], parse) && KeyOf(Orders(rows[r], parse)[0]) == k;
    }
  }

  /** The key of every eligible row is learned. */
  lemma RowKeysLearned(rows: seq<RawRow>, parse: Parser, sqrt: real -> real)
    requires ValidRows(rows, parse)
    ensures forall r :: 0 <= r < |rows| && Eligible(rows[r], parse) ==>
      exists i :: 0 <= i < |Learned(rows, parse, sqrt)| && LearnedKey(Learned(rows, parse, sqrt)[i]) == KeyOf(Orders(rows[r], parse)[0])
  {
    var ss := Samples(rows, parse);
    var ks := KeysInOrder(ss);
    var learned := Learned(rows, parse, sqrt);
    KeysInOrderMembers(ss);
    SamplesFromRows(rows, parse);
    forall r | 0 <= r < |rows| && Eligible(rows[r], parse)
      ensures exists i :: 0 <= i < |learned| && LearnedKey(learned[i]) == KeyOf(Orders(rows[r], parse)[0])
    {
      var s := SampleOf(rows[r], parse).value;
      var k := s.key;
      PricesForMembers(ss, k);
      assert s in ss;
      assert s.price in PricesFor(ss, k);
      var i :| 0 <= i < |ks| && ks[i] == k;
      assert LearnedKey(learned[i]) == k;
    }
  }

  /** The learned price lies within any bounds on the unit prices sampled for its key, and is positive. */
  lemma LearnedPriceBetween(rows: seq<RawRow>, parse: Parser, sqrt: real -> real, i: nat, lo: real, hi: real)
    requires ValidRows(rows, parse) && i < |Learned(rows, parse, sqrt)|
    requires forall r, x :: 0 <= r < |rows| && SampleOf(rows[r], parse) == Some(Sample(LearnedKey(Learned(rows, parse, sqrt)[i]), x)) ==> lo <= x <= hi
    ensures lo <= Learned(rows, parse, sqrt)[i].price <= hi
    ensures Learned(rows, parse, sqrt)[i].price > 0.0
  {
    var k := LearnedKey(Learned(rows, parse, sqrt)[i]);
    var prices := SamplePrices(rows, parse, k);
    LearnedAt(rows, parse, sqrt, i);
    SamplePricesFromRows(rows, parse, k);
    forall j | 0 <= j < |prices| ensures lo <= prices[j] <= hi {
      assert prices[j] in prices;
    }
    MeanBetween(prices, lo, hi);
    MeanPositive(prices);
  }

  /** With a square root that is never negative and zero only at zero, the confidence lies in [0, 1] and is 1 exactly when all samples agree. */
  lemma ConfidenceRange(prices: seq<real>, sqrt: real -> real)
    requires |prices| > 0 && Positive(prices) && SqrtLike(sqrt)
    ensures 0.0 <= Confidence(prices, sqrt) <= 1.0
    ensures Confidence(prices, sqrt) == 1.0 <==> forall j :: 0 <= j < |prices| ==> prices[j] == prices[0]
  {
    var n := |prices| as real;
    var ss := SumSquares(prices, Mean(prices));
    SumSquaresZero(prices, Mean(prices));
    SumSquaresAboutMeanZero(prices);
    MeanPositive(prices);
    assert Variance(prices) == ss / n;
    assert ss / n >= 0.0;
    assert ss / n == 0.0 <==> ss == 0.0;
    var stdDev := sqrt(Variance(prices));
    assert stdDev >= 0.0 && (stdDev == 0.0 <==> ss == 0.0);
    if stdDev != 0.0 {
      assert stdDev / Mean(prices) > 0.0;
    }
  }

  /** The confidence of every learned entry lies in [0, 1], and is 1 exactly when all unit prices sampled for its key are equal. */
  lemma LearnedConfidence(rows: seq<RawRow>, parse: Parser, sqrt: real -> real, i: nat)
    requires ValidRows(rows, parse) && i < |Learned(rows, parse, sqrt)| && SqrtLike(sqrt)
    ensures 0.0 <= Learned(rows, parse, sqrt)[i].confidence <= 1.0
    ensures
      var prices := SamplePrices(rows, parse, LearnedKey(Learned(rows, parse, sqrt)[i]));
      Learned(rows, parse, sqrt)[i].confidence == 1.0 <==> forall j :: 0 <= j < |prices| ==> prices[j] == prices[0]
  {
    LearnedAt(rows, parse, sqrt, i);
    ConfidenceRange(SamplePrices(rows, parse, LearnedKey(Learned(rows, parse, sqrt)[i])), sqrt);
  }

  /** A key with a single sample learns that sample's unit price, with full confidence. */
  lemma LearnedSingleSample(rows: seq<RawRow>, parse: Parser, sqrt: real -> real, i: nat)
    requires ValidRows(rows, parse) && i < |Learned(rows, parse, sqrt)| && SqrtLike(sqrt)
    requires |SamplePrices(rows, parse, LearnedKey(Learned(rows, parse, sqrt)[i]))| == 1
    ensures Learned(rows, parse, sqrt)[i].price == SamplePrices(rows, parse, LearnedKey(Learned(rows, parse, sqrt)[i]))[0]
    ensures Learned(rows, parse, sqrt)[i].confidence == 1.0
  {
    var prices := SamplePrices(rows, parse, LearnedKey(Learned(rows, parse, sqrt)[i]));
    LearnedAt(rows, parse, sqrt, i);
    ConfidenceRange(prices, sqrt);
    MeanConstant(prices, prices[0]);
  }
}
