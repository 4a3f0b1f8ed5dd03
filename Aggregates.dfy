/**
  What `processDashboardData` accumulates from the allocated items, stated over the whole list of
  items recorded so far: per-product and per-location totals, the `{qty, revenue}` breakdowns keyed
  by unit price, location, date or product, the set of sales days, and the order in which products
  and locations are first seen (the iteration order of a `Map`).
 */
module Aggregates {
  import opened OrderParser
  import opened Text
  import opened Allocation

  /** The fields an item is grouped by. */
  datatype Dim = ByProduct | ByLocation | ByDate | ByUnitPrice

  /** The unit price an item was sold at, `revenue / qty` (quantities are positive, so the guard never applies). */
  function UnitPrice(it: Allocated): real {
    if it.entry.qty == 0.0 then 0.0 else it.revenue / it.entry.qty
  }

  /** The key of an item along a field; unit prices are keyed by `toFixed(2)`. */
  function KeyAt(it: Allocated, d: Dim): string {
    match d
    case ByProduct => it.entry.product
    case ByLocation => it.entry.location
    case ByDate => it.entry.date
    case ByUnitPrice => ToFixed2(UnitPrice(it))
  }

  /** A selection of items by one key, or by two. */
  datatype Filter = Where(d: Dim, k: string) | WhereBoth(d1: Dim, k1: string, d2: Dim, k2: string)

  predicate Selects(it: Allocated, f: Filter) {
    match f
    case Where(d, k) => KeyAt(it, d) == k
    case WhereBoth(d1, k1, d2, k2) => KeyAt(it, d1) == k1 && KeyAt(it, d2) == k2
  }

  /** A `{qty, revenue}` pair. */
  datatype Tally = Tally(qty: real, revenue: real)

  /** The total quantity and revenue of the selected items. */
  function TallyWhere(items: seq<Allocated>, f: Filter): Tally
    decreases |items|
  {
    if |items| == 0 then Tally(0.0, 0.0)
    else
      var t := TallyWhere(items[..|items| - 1], f);
      var it := items[|items| - 1];
      if Selects(it, f) then Tally(t.qty + it.entry.qty, t.revenue + it.revenue) else t
  }

  /** The keys along `d` of the selected items. */
  function KeysWhere(items: seq<Allocated>, f: Filter, d: Dim): set<string>
    decreases |items|
  {
    if |items| == 0 then {}
    else
      var ks := KeysWhere(items[..|items| - 1], f, d);
      var it := items[|items| - 1];
      if Selects(it, f) then ks + {KeyAt(it, d)} else ks
  }

  /** A key is collected exactly when some selected item has it. */
  lemma {:induction false} KeysWhereMembers(items: seq<Allocated>, f: Filter, d: Dim)
    ensures forall k :: k in KeysWhere(items, f, d) <==> exists i :: 0 <= i < |items| && Selects(items[i], f) && KeyAt(items[i], d) == k
    decreases |items|
  {
    if |items| > 0 {
      var init := items[..|items| - 1];
      KeysWhereMembers(init, f, d);
      assert forall i :: 0 <= i < |init| ==> init[i] == items[i];
    }
  }

  /** The keys along `d` of all items, each once, in order of first appearance. */
  function FirstSeen(items: seq<Allocated>, d: Dim): seq<string>
    decreases |items|
  {
    if |items| == 0 then []
    else
      var ks := FirstSeen(items[..|items| - 1], d);
      var k := KeyAt(items[|items| - 1], d);
      if k in ks then ks else ks + [k]
  }

  /** No key is listed twice. */
  lemma {:induction false} FirstSeenDistinct(items: seq<Allocated>, d: Dim)
    ensures forall i, j :: 0 <= i < j < |FirstSeen(items, d)| ==> FirstSeen(items, d)[i] != FirstSeen(items, d)[j]
    decreases |items|
  {
    if |items| > 0 {
      FirstSeenDistinct(items[..|items| - 1], d);
    }
  }

  /** A key is listed exactly when some item has it. */
  lemma FirstSeenMembers(items: seq<Allocated>, d: Dim)
    ensures forall k :: k in FirstSeen(items, d) <==> exists i :: 0 <= i < |items| && KeyAt(items[i], d) == k
  {
    forall k ensures k in FirstSeen(items, d) <==> exists i :: 0 <= i < |items| && KeyAt(items[i], d) == k {
      FirstSeenHas(items, d, k);
    }
  }

  /** `FirstSeenMembers` for one key. */
  lemma {:induction false} FirstSeenHas(items: seq<Allocated>, d: Dim, k: string)
    ensures k in FirstSeen(items, d) <==> exists i :: 0 <= i < |items| && KeyAt(items[i], d) == k
    decreases |items|
  {
    if |items| > 0 {
      var init := items[..|items| - 1];
      var last := KeyAt(items[|items| - 1], d);
      var ks := FirstSeen(init, d);
      FirstSeenHas(init, d, k);
      assert FirstSeen(items, d) == if last in ks then ks else ks + [last];
      if k != last {
        assert k in FirstSeen(items, d) <==> k in ks;
        if exists i :: 0 <= i < |items| && KeyAt(items[i], d) == k {
          var i :| 0 <= i < |items| && KeyAt(items[i], d) == k;
          assert KeyAt(init[i], d) == k;
        }
        if k in ks {
          var i :| 0 <= i < |init| && KeyAt(init[i], d) == k;
          assert items[i] == init[i];
        }
      }
    }
  }

  /** A breakdown `{[key]: {qty, revenue}}`: for each key along `d` among the items with `k0` along `d0`, their totals. */
  function BreakdownOf(items: seq<Allocated>, d0: Dim, k0: string, d: Dim): map<string, Tally> {
    map k | k in KeysWhere(items, Where(d0, k0), d) :: TallyWhere(items, WhereBoth(d0, k0, d, k))
  }

  /** `if (!b[k]) b[k] = {qty: 0, revenue: 0}; b[k].qty += qty; b[k].revenue += revenue;` */
  function AddTo(b: map<string, Tally>, k: string, qty: real, revenue: real): (r: map<string, Tally>)
    ensures r.Keys == b.Keys + {k}
  {
    var t := if k in b then b[k] else Tally(0.0, 0.0);
    b[k := Tally(t.qty + qty, t.revenue + revenue)]
  }

  /** Recording one more item adds it to the tally of every filter that selects it, and to no other. */
  lemma TallyStep(items: seq<Allocated>, it: Allocated, f: Filter)
    ensures TallyWhere(items + [it], f) ==
      if Selects(it, f) then Tally(TallyWhere(items, f).qty + it.entry.qty, TallyWhere(items, f).revenue + it.revenue)
      else TallyWhere(items, f)
  {
    assert (items + [it])[..|items|] == items;
  }

  lemma KeysStep(items: seq<Allocated>, it: Allocated, f: Filter, d: Dim)
    ensures KeysWhere(items + [it], f, d) == if Selects(it, f) then KeysWhere(items, f, d) + {KeyAt(it, d)} else KeysWhere(items, f, d)
  {
    assert (items + [it])[..|items|] == items;
  }

  /** Without an item, a key has no tally; this is where `AddTo` starts from. */
  lemma {:induction false} TallyOfMissingKey(items: seq<Allocated>, d0: Dim, k0: string, d: Dim, k: string)
    requires k !in KeysWhere(items, Where(d0, k0), d)
    ensures TallyWhere(items, WhereBoth(d0, k0, d, k)) == Tally(0.0, 0.0)
    decreases |items|
  {
    if |items| > 0 {
      var init := items[..|items| - 1];
      TallyOfMissingKey(init, d0, k0, d, k);
    }
  }

  /** Recording an item with `k0` along `d0` adds it to the breakdown's entry for its own key, as the source does in place. */
  lemma BreakdownStep(items: seq<Allocated>, it: Allocated, d0: Dim, k0: string, d: Dim)
    requires KeyAt(it, d0) == k0
    ensures BreakdownOf(items + [it], d0, k0, d) == AddTo(BreakdownOf(items, d0, k0, d), KeyAt(it, d), it.entry.qty, it.revenue)
  {
    var items' := items + [it];
    var k := KeyAt(it, d);
    KeysStep(items, it, Where(d0, k0), d);
    var b := BreakdownOf(items, d0, k0, d);
    var b' := BreakdownOf(items', d0, k0, d);
    var r := AddTo(b, k, it.entry.qty, it.revenue);
    if k !in b {
      TallyOfMissingKey(items, d0, k0, d, k);
    }
    forall k' | k' in b'
      ensures b'[k'] == r[k']
    {
      TallyStep(items, it, WhereBoth(d0, k0, d, k'));
    }
    assert b'.Keys == r.Keys;
  }

  /** Recording an item without `k0` along `d0` leaves the breakdown as it is. */
  lemma BreakdownUnchanged(items: seq<Allocated>, it: Allocated, d0: Dim, k0: string, d: Dim)
    requires KeyAt(it, d0) != k0
    ensures BreakdownOf(items + [it], d0, k0, d) == BreakdownOf(items, d0, k0, d)
  {
    KeysStep(items, it, Where(d0, k0), d);
    forall k' | k' in KeysWhere(items, Where(d0, k0), d)
      ensures TallyWhere(items + [it], WhereBoth(d0, k0, d, k')) == TallyWhere(items, WhereBoth(d0, k0, d, k'))
    {
      TallyStep(items, it, WhereBoth(d0, k0, d, k'));
    }
  }
}
