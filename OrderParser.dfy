/**
  The order-line parser: `parseOrderDetails` turns the free-text order cell of a
  row into zero or more line items (product, location, date, quantity).

  The source relies on three JavaScript regular expressions:

    Repeated   /(.*?)\s*-\s*(.*?)\s*,\s*(\d{1,2}\.\d{1,2})\s*:\s*(\d+)/g
    Single     /^(.*?)\s*-\s*(.*?)\s*,\s*(\d{1,2}\.\d{1,2})/
    UpToColon  /(.*?)\s*:/

  A match is modelled by a relational predicate (`IsMatch`) over the positions where
  the lazy product group and the lazy location group end, and the match a backtracking
  engine returns is characterised as the least such position triple (`IsFirstMatch`):
  the leftmost start, then the shortest product, then the shortest location. This is
  exact for these patterns because none of their greedy parts ever needs to give back
  characters: `\s*` is always followed by a character that is not white space (`-`,
  `,`, `:`, a digit), and `\d{1,2}` is always followed by `.`, by `\s*:` or by nothing,
  so taking fewer digits never turns a failure into a match. For the same reason the
  `\s*` in front of the location group always takes every white-space character: if a
  location can end somewhere, it can also end there (or right at the next non-space
  character) when it starts after all the white space.
 */
module OrderParser {
  import opened Wrappers
  import opened Text

  /** One line item of a row. */
  datatype OrderEntry = OrderEntry(product: string, location: string, date: string, qty: real)

  /** The sentinel location used when only a product name could be recovered: Hebrew for "other". */
  const Other: string := "\U{05D0}\U{05D7}\U{05E8}"

  /** The three regular expressions of the parser. */
  datatype Pattern = Repeated | Single | UpToColon

  /** Where the date group `[dateStart, dateEnd)` and, for `Repeated`, the quantity group `[qtyStart, qtyEnd)` lie. */
  datatype Tail = Tail(dateStart: nat, dateEnd: nat, qtyStart: nat, qtyEnd: nat)

  /** A match: where it starts, where the product group ends and where the location group ends. */
  datatype Match = Match(start: nat, productEnd: nat, locationEnd: nat)

  predicate AllDigits(d: string) {
    forall k :: 0 <= k < |d| ==> IsDigit(d[k])
  }

  /** `\d{1,2}\.\d{1,2}`: one or two digits, a dot, one or two digits. */
  predicate IsDayMonth(d: string) {
    exists k :: 1 <= k <= 2 && k + 2 <= |d| <= k + 3 && d[k] == '.' && AllDigits(d[..k]) && AllDigits(d[k + 1..])
  }

  /**
    Where `\d{1,2}\.\d{1,2}` ends when matched greedily at `j`, if it matches there at all.
    A third digit before the dot makes it fail; after the dot at most two digits are taken.
   */
  function DateEnd(s: string, j: nat): (r: Option<nat>)
    requires j <= |s|
    ensures r.Some? ==> j < r.value <= |s|
  {
    var a := DigitsEnd(s, j);
    if a == j || a > j + 2 || a == |s| || s[a] != '.' then None
    else
      var b := DigitsEnd(s, a + 1);
      if b == a + 1 then None else Some(if b > a + 3 then a + 3 else b)
  }

  /** What `DateEnd` accepts has the form `\d{1,2}\.\d{1,2}`. */
  lemma DateEndShape(s: string, j: nat)
    requires j <= |s| && DateEnd(s, j).Some?
    ensures IsDayMonth(s[j..DateEnd(s, j).value])
  {
    var e := DateEnd(s, j).value;
    var a := DigitsEnd(s, j);
    DigitsEndAllDigits(s, j);
    DigitsEndAllDigits(s, a + 1);
    var d := s[j..e];
    var k := a - j;
    assert d[k] == '.';
    assert d[..k] == s[j..a];
    assert d[k + 1..] == s[a + 1..e];
    assert AllDigits(s[j..a]) by {
      forall q | 0 <= q < a - j ensures IsDigit(s[j..a][q]) {
        assert s[j..a][q] == s[j + q];
      }
    }
    var b := a + 1;
    assert AllDigits(s[b..e]) by {
      forall q | 0 <= q < e - b ensures IsDigit(s[b..e][q]) {
        assert s[b..e][q] == s[b + q];
      }
    }
    assert 1 <= k <= 2 && k + 2 <= |d| <= k + 3 && d[k] == '.' && AllDigits(d[..k]) && AllDigits(d[k + 1..]);
  }

  /** How far the scan of what follows the location group has got. */
  datatype TailStage = BeforeComma | BeforeDate | BeforeColon(dateStart: nat, dateEnd: nat) | BeforeQty(dateStart: nat, dateEnd: nat)

  /** A stage reached only after the date group `[dateStart, dateEnd)` was read, which ends at or before `p`. */
  predicate ValidStage(s: string, p: nat, st: TailStage) {
    (st.BeforeColon? || st.BeforeQty?) ==> st.dateStart < st.dateEnd <= p <= |s| && DateEnd(s, st.dateStart) == Some(st.dateEnd)
  }

  /**
    The scan of `\s*,\s*(\d{1,2}\.\d{1,2})` (and, when `withQty` holds, `\s*:\s*(\d+)` after it)
    from `p` onwards, at stage `st`: every `\s*` takes all the white space there is, and the
    digit groups are read greedily.
   */
  function TailFrom(s: string, p: nat, st: TailStage, withQty: bool): (r: Option<Tail>)
    requires p <= |s| && ValidStage(s, p, st)
    ensures r.Some? ==> r.value.dateStart < r.value.dateEnd <= r.value.qtyStart <= r.value.qtyEnd <= |s|
    ensures r.Some? && st.BeforeComma? ==> p < r.value.dateStart
    ensures r.Some? && st.BeforeDate? ==> p <= r.value.dateStart
    ensures r.Some? && (st.BeforeColon? || st.BeforeQty?) ==> r.value.dateStart == st.dateStart
    ensures r.Some? && withQty ==> r.value.qtyStart < r.value.qtyEnd
    decreases |s| - p
  {
    if p < |s| && IsSpace(s[p]) then TailFrom(s, p + 1, st, withQty)
    else
      match st
      case BeforeComma =>
        if p < |s| && s[p] == ',' then TailFrom(s, p + 1, BeforeDate, withQty) else None
      case BeforeDate =>
        (match DateEnd(s, p)
         case None => None
         case Some(de) => if withQty then TailFrom(s, de, BeforeColon(p, de), withQty) else Some(Tail(p, de, de, de)))
      case BeforeColon(ds, de) =>
        if p < |s| && s[p] == ':' then TailFrom(s, p + 1, BeforeQty(ds, de), withQty) else None
      case BeforeQty(ds, de) =>
        var qe := DigitsEnd(s, p);
        if qe == p then None else Some(Tail(ds, de, p, qe))
  }

  /** The groups `TailFrom` reports are what the date pattern and `\d+` read there. */
  lemma {:induction false} TailFromGroups(s: string, p: nat, st: TailStage, withQty: bool)
    requires p <= |s| && ValidStage(s, p, st)
    ensures TailFrom(s, p, st, withQty).Some? ==>
      var t := TailFrom(s, p, st, withQty).value;
      DateEnd(s, t.dateStart) == Some(t.dateEnd) && (withQty ==> DigitsEnd(s, t.qtyStart) == t.qtyEnd)
    decreases |s| - p
  {
    if p < |s| && IsSpace(s[p]) {
      TailFromGroups(s, p + 1, st, withQty);
    } else {
      match st
      case BeforeComma =>
        if p < |s| && s[p] == ',' { TailFromGroups(s, p + 1, BeforeDate, withQty); }
      case BeforeDate =>
        if DateEnd(s, p).Some? && withQty {
          TailFromGroups(s, DateEnd(s, p).value, BeforeColon(p, DateEnd(s, p).value), withQty);
        }
      case BeforeColon(ds, de) =>
        if p < |s| && s[p] == ':' { TailFromGroups(s, p + 1, BeforeQty(ds, de), withQty); }
      case BeforeQty(ds, de) =>
    }
  }

  /** What follows the location group ending at `le`. */
  function TailAt(s: string, le: nat, withQty: bool): (r: Option<Tail>)
    requires le <= |s|
    ensures r.Some? ==> le < r.value.dateStart < r.value.dateEnd <= r.value.qtyStart <= r.value.qtyEnd <= |s|
    ensures r.Some? && withQty ==> r.value.qtyStart < r.value.qtyEnd
  {
    TailFrom(s, le, BeforeComma, withQty)
  }

  /** Where the location group starts: after `\s*-\s*`, all white space taken. */
  function LocationStart(s: string, pe: nat): (r: nat)
    requires pe <= |s| && SkipSpaces(s, pe) < |s|
    ensures pe < r <= |s|
  {
    SkipSpaces(s, SkipSpaces(s, pe) + 1)
  }

  /** The part of pattern `pat` after the product group matches from `pe`, the location group ending at `le`. */
  predicate Rest(s: string, pat: Pattern, pe: nat, le: nat)
    requires pe <= |s|
  {
    if pat == UpToColon then
      le == pe && SkipSpaces(s, pe) < |s| && s[SkipSpaces(s, pe)] == ':'
    else
      && SkipSpaces(s, pe) < |s| && s[SkipSpaces(s, pe)] == '-'
      && LocationStart(s, pe) <= le <= DotEnd(s, LocationStart(s, pe))
      && TailAt(s, le, pat == Repeated).Some?
  }

  /** Pattern `pat` matches from `i`, the product group being `[i, pe)` and the location group ending at `le`. */
  predicate IsMatch(s: string, pat: Pattern, i: nat, pe: nat, le: nat) {
    i <= pe <= |s| && pe <= DotEnd(s, i) && Rest(s, pat, pe, le)
  }

  /** No match of `pat` starts at `i` with its product group ending at `pe`. */
  ghost predicate ProductFails(s: string, pat: Pattern, i: nat, pe: nat) {
    forall le: nat :: !IsMatch(s, pat, i, pe, le)
  }

  /** No match of `pat` starts at `i`. */
  ghost predicate StartFails(s: string, pat: Pattern, i: nat) {
    forall pe: nat :: ProductFails(s, pat, i, pe)
  }

  /**
    `m` is the match a backtracking engine finds when it starts searching at `from`:
    the leftmost start, then the shortest product group, then the shortest location group.
   */
  ghost predicate IsFirstMatch(s: string, pat: Pattern, from: nat, m: Match) {
    && from <= m.start
    && IsMatch(s, pat, m.start, m.productEnd, m.locationEnd)
    && (forall i: nat :: from <= i < m.start ==> StartFails(s, pat, i))
    && (forall pe: nat :: m.start <= pe < m.productEnd ==> ProductFails(s, pat, m.start, pe))
    && (forall le: nat :: le < m.locationEnd ==> !IsMatch(s, pat, m.start, m.productEnd, le))
  }

  /** No match of `pat` starts at `from` or later. */
  ghost predicate NoMatchFrom(s: string, pat: Pattern, from: nat) {
    forall i: nat :: from <= i ==> StartFails(s, pat, i)
  }

  /** The shortest location group that starts at `ls` and ends at `le` or later. */
  function FindLocationEnd(s: string, withQty: bool, ls: nat, le: nat): (r: Option<nat>)
    requires ls <= le <= |s| && le <= DotEnd(s, ls)
    ensures r.Some? ==> le <= r.value <= DotEnd(s, ls)
    decreases DotEnd(s, ls) - le
  {
    if TailAt(s, le, withQty).Some? then Some(le)
    else if le == DotEnd(s, ls) then None
    else FindLocationEnd(s, withQty, ls, le + 1)
  }

  /** `FindLocationEnd` stops at the first end after which the rest of the pattern matches. */
  lemma {:induction false} FindLocationEndLeast(s: string, withQty: bool, ls: nat, le: nat)
    requires ls <= le <= |s| && le <= DotEnd(s, ls)
    ensures FindLocationEnd(s, withQty, ls, le).Some? ==> TailAt(s, FindLocationEnd(s, withQty, ls, le).value, withQty).Some?
    ensures FindLocationEnd(s, withQty, ls, le).Some? ==>
      forall q: nat :: le <= q < FindLocationEnd(s, withQty, ls, le).value ==> TailAt(s, q, withQty).None?
    ensures FindLocationEnd(s, withQty, ls, le).None? ==> forall q: nat :: le <= q <= DotEnd(s, ls) ==> TailAt(s, q, withQty).None?
    decreases DotEnd(s, ls) - le
  {
    if TailAt(s, le, withQty).None? && le < DotEnd(s, ls) {
      FindLocationEndLeast(s, withQty, ls, le + 1);
    }
  }

  /** With the product group ending at `pe`: where the shortest location group ends, if the rest can match. */
  function AfterProduct(s: string, pat: Pattern, pe: nat): (r: Option<nat>)
    requires pe <= |s|
    ensures r.Some? ==> pe <= r.value <= |s|
  {
    var h := SkipSpaces(s, pe);
    if pat == UpToColon then
      if h < |s| && s[h] == ':' then Some(pe) else None
    else if h < |s| && s[h] == '-' then
      var ls := LocationStart(s, pe);
      FindLocationEnd(s, pat == Repeated, ls, ls)
    else None
  }

  /** `AfterProduct` finds the shortest location group with which the rest matches, and fails only when there is none. */
  lemma AfterProductSpec(s: string, pat: Pattern, pe: nat)
    requires pe <= |s|
    ensures AfterProduct(s, pat, pe).Some? ==> Rest(s, pat, pe, AfterProduct(s, pat, pe).value)
    ensures AfterProduct(s, pat, pe).Some? ==> forall le: nat :: le < AfterProduct(s, pat, pe).value ==> !Rest(s, pat, pe, le)
    ensures AfterProduct(s, pat, pe).None? ==> forall le: nat :: !Rest(s, pat, pe, le)
  {
    var h := SkipSpaces(s, pe);
    if pat != UpToColon && h < |s| && s[h] == '-' {
      var ls := LocationStart(s, pe);
      FindLocationEndLeast(s, pat == Repeated, ls, ls);
    }
  }

  /** What `AfterProductSpec` says about `Rest`, restated for whole matches. */
  lemma AfterProductLeast(s: string, pat: Pattern, i: nat, pe: nat)
    requires i <= pe <= |s|
    ensures AfterProduct(s, pat, pe).Some? ==> pe <= DotEnd(s, i) ==> IsMatch(s, pat, i, pe, AfterProduct(s, pat, pe).value)
    ensures AfterProduct(s, pat, pe).Some? ==> forall le: nat :: le < AfterProduct(s, pat, pe).value ==> !IsMatch(s, pat, i, pe, le)
    ensures AfterProduct(s, pat, pe).None? ==> ProductFails(s, pat, i, pe)
  {
    AfterProductSpec(s, pat, pe);
    forall le: nat | !Rest(s, pat, pe, le) ensures !IsMatch(s, pat, i, pe, le) {
    }
  }

  /** For a match starting at `i`: the shortest product group ending at `pe` or later, with its shortest location group. */
  function FindProductEnd(s: string, pat: Pattern, i: nat, pe: nat): (r: Option<(nat, nat)>)
    requires i <= pe <= |s| && pe <= DotEnd(s, i)
    ensures r.Some? ==> pe <= r.value.0 <= DotEnd(s, i) && AfterProduct(s, pat, r.value.0) == Some(r.value.1)
    decreases |s| - pe
  {
    match AfterProduct(s, pat, pe)
    case Some(le) => Some((pe, le))
    case None => if pe == DotEnd(s, i) then None else FindProductEnd(s, pat, i, pe + 1)
  }

  /** What `FindProductEnd` finds is a match, with the shortest location group for its product group. */
  lemma FindProductEndMatches(s: string, pat: Pattern, i: nat, pe: nat)
    requires i <= pe <= |s| && pe <= DotEnd(s, i)
    ensures FindProductEnd(s, pat, i, pe).Some? ==>
      IsMatch(s, pat, i, FindProductEnd(s, pat, i, pe).value.0, FindProductEnd(s, pat, i, pe).value.1)
    ensures FindProductEnd(s, pat, i, pe).Some? ==>
      forall le: nat :: le < FindProductEnd(s, pat, i, pe).value.1 ==> !IsMatch(s, pat, i, FindProductEnd(s, pat, i, pe).value.0, le)
  {
    if FindProductEnd(s, pat, i, pe).Some? {
      AfterProductLeast(s, pat, i, FindProductEnd(s, pat, i, pe).value.0);
    }
  }

  /** `FindProductEnd` finds the shortest product group, and fails only when no product group ending at `pe` or later matches. */
  lemma {:induction false} FindProductEndLeast(s: string, pat: Pattern, i: nat, pe: nat)
    requires i <= pe <= |s| && pe <= DotEnd(s, i)
    ensures FindProductEnd(s, pat, i, pe).None? ==> forall pe': nat :: pe <= pe' ==> ProductFails(s, pat, i, pe')
    ensures FindProductEnd(s, pat, i, pe).Some? ==>
      forall pe': nat :: pe <= pe' < FindProductEnd(s, pat, i, pe).value.0 ==> ProductFails(s, pat, i, pe')
    decreases |s| - pe
  {
    AfterProductLeast(s, pat, i, pe);
    if AfterProduct(s, pat, pe).None? {
      if pe < DotEnd(s, i) {
        FindProductEndLeast(s, pat, i, pe + 1);
      } else {
        forall pe': nat | pe < pe' ensures ProductFails(s, pat, i, pe') {
          PastLineEnd(s, pat, i, pe');
        }
      }
    }
  }

  /** `FindProductEnd` fails exactly when no product group ending at `pe` or later matches. */
  lemma FindProductEndNone(s: string, pat: Pattern, i: nat, pe: nat)
    requires i <= pe <= |s| && pe <= DotEnd(s, i)
    ensures FindProductEnd(s, pat, i, pe).None? <==> forall pe': nat :: pe <= pe' ==> ProductFails(s, pat, i, pe')
  {
    FindProductEndLeast(s, pat, i, pe);
    FindProductEndMatches(s, pat, i, pe);
    if FindProductEnd(s, pat, i, pe).Some? {
      var r := FindProductEnd(s, pat, i, pe).value;
      MatchWitness(s, pat, i, r.0, r.1);
    }
  }

  /** The product group cannot reach past a line terminator. */
  lemma PastLineEnd(s: string, pat: Pattern, i: nat, pe: nat)
    requires i <= |s| && DotEnd(s, i) < pe
    ensures ProductFails(s, pat, i, pe)
  {
  }

  /** The product group cannot end before it starts. */
  lemma BeforeStart(s: string, pat: Pattern, i: nat, pe: nat)
    requires pe < i
    ensures ProductFails(s, pat, i, pe)
  {
  }

  /** No match starts past the end of the text. */
  lemma PastEnd(s: string, pat: Pattern, i: nat)
    requires |s| < i
    ensures StartFails(s, pat, i)
  {
  }

  /** A match is a witness against `ProductFails` and `StartFails`. */
  lemma MatchWitness(s: string, pat: Pattern, i: nat, pe: nat, le: nat)
    requires IsMatch(s, pat, i, pe, le)
    ensures !ProductFails(s, pat, i, pe) && !StartFails(s, pat, i)
  {
    assert !ProductFails(s, pat, i, pe);
  }

  /** The match found by `RegExp.prototype.exec` when the search starts at `from`. */
  function FindMatch(s: string, pat: Pattern, from: nat): (r: Option<Match>)
    requires from <= |s|
    ensures r.Some? ==> from <= r.value.start <= r.value.productEnd <= |s|
    decreases |s| - from
  {
    match FindProductEnd(s, pat, from, from)
    case Some((pe, le)) => Some(Match(from, pe, le))
    case None => if from == |s| then None else FindMatch(s, pat, from + 1)
  }

  /** What `FindMatch` finds is a match. */
  lemma {:induction false} FindMatchMatches(s: string, pat: Pattern, from: nat)
    requires from <= |s|
    ensures FindMatch(s, pat, from).Some? ==>
      var m := FindMatch(s, pat, from).value;
      IsMatch(s, pat, m.start, m.productEnd, m.locationEnd)
    decreases |s| - from
  {
    FindProductEndMatches(s, pat, from, from);
    if FindProductEnd(s, pat, from, from).None? && from < |s| {
      FindMatchMatches(s, pat, from + 1);
    }
  }

  /** `FindMatch` finds the first match a backtracking engine finds, and fails only when nothing matches. */
  lemma {:induction false} FindMatchIsFirst(s: string, pat: Pattern, from: nat)
    requires from <= |s|
    ensures FindMatch(s, pat, from).Some? ==> IsFirstMatch(s, pat, from, FindMatch(s, pat, from).value)
    ensures FindMatch(s, pat, from).None? ==> NoMatchFrom(s, pat, from)
    decreases |s| - from
  {
    FindProductEndLeast(s, pat, from, from);
    if FindProductEnd(s, pat, from, from).Some? {
      FindProductEndMatches(s, pat, from, from);
    } else {
      forall pe: nat | pe < from ensures ProductFails(s, pat, from, pe) {
        BeforeStart(s, pat, from, pe);
      }
      assert StartFails(s, pat, from);
      if from < |s| {
        FindMatchIsFirst(s, pat, from + 1);
      } else {
        forall i: nat | from < i ensures StartFails(s, pat, i) {
          PastEnd(s, pat, i);
        }
      }
    }
  }

  /** The groups after the location of a match of `Repeated` or `Single`. */
  function TailOf(s: string, pat: Pattern, m: Match): (t: Tail)
    requires pat != UpToColon && IsMatch(s, pat, m.start, m.productEnd, m.locationEnd)
    ensures m.locationEnd < t.dateStart < t.dateEnd <= t.qtyStart <= t.qtyEnd <= |s|
    ensures pat == Repeated ==> t.qtyStart < t.qtyEnd
  {
    TailAt(s, m.locationEnd, pat == Repeated).value
  }

  /** The date group of a match has the form `\d{1,2}\.\d{1,2}`, and the quantity group is a run of digits. */
  lemma TailShape(s: string, pat: Pattern, m: Match)
    requires pat != UpToColon && IsMatch(s, pat, m.start, m.productEnd, m.locationEnd)
    ensures IsDayMonth(s[TailOf(s, pat, m).dateStart..TailOf(s, pat, m).dateEnd])
    ensures pat == Repeated ==> AllDigits(s[TailOf(s, pat, m).qtyStart..TailOf(s, pat, m).qtyEnd])
  {
    var t := TailOf(s, pat, m);
    TailFromGroups(s, m.locationEnd, BeforeComma, pat == Repeated);
    DateEndShape(s, t.dateStart);
    if pat == Repeated {
      DigitsEndAllDigits(s, t.qtyStart);
    }
  }

  /** Where a match of `Repeated` ends: the global search resumes there (`lastIndex`). */
  function MatchEnd(s: string, m: Match): (e: nat)
    requires IsMatch(s, Repeated, m.start, m.productEnd, m.locationEnd)
    ensures m.start < e <= |s|
  {
    TailOf(s, Repeated, m).qtyEnd
  }

  /**
    `ms` is the sequence of matches the `while (regex.exec(...))` loop of the source visits
    when it starts at `from`: each is the first match from where the previous one ended,
    and after the last one nothing matches.
   */
  ghost predicate MatchChain(s: string, from: nat, ms: seq<Match>)
    decreases |ms|
  {
    if ms == [] then NoMatchFrom(s, Repeated, from)
    else
      && IsFirstMatch(s, Repeated, from, ms[0])
      && MatchChain(s, MatchEnd(s, ms[0]), ms[1..])
  }

  /** Every match of the global search from `from`, left to right. */
  function ScanAll(s: string, from: nat): (ms: seq<Match>)
    requires from <= |s|
    ensures forall k :: 0 <= k < |ms| ==> IsMatch(s, Repeated, ms[k].start, ms[k].productEnd, ms[k].locationEnd)
    decreases |s| - from
  {
    match FindMatch(s, Repeated, from)
    case None => []
    case Some(m) =>
      FindMatchMatches(s, Repeated, from);
      [m] + ScanAll(s, MatchEnd(s, m))
  }

  /** `ScanAll` visits the matches the source's `exec` loop visits. */
  lemma {:induction false} ScanAllIsChain(s: string, from: nat)
    requires from <= |s|
    ensures MatchChain(s, from, ScanAll(s, from))
    decreases |s| - from
  {
    FindMatchIsFirst(s, Repeated, from);
    var ms := ScanAll(s, from);
    if ms != [] {
      var m := FindMatch(s, Repeated, from).value;
      ScanAllIsChain(s, MatchEnd(s, m));
      assert ms[1..] == ScanAll(s, MatchEnd(s, m));
    }
  }

  /** The first match is unique: the least position triple. */
  lemma FirstMatchUnique(s: string, pat: Pattern, from: nat, m1: Match, m2: Match)
    requires IsFirstMatch(s, pat, from, m1) && IsFirstMatch(s, pat, from, m2)
    ensures m1 == m2
  {
    MatchWitness(s, pat, m1.start, m1.productEnd, m1.locationEnd);
    MatchWitness(s, pat, m2.start, m2.productEnd, m2.locationEnd);
    assert m1.start == m2.start;
    assert m1.productEnd == m2.productEnd;
  }

  /** A chain is empty exactly when nothing matches. */
  lemma ChainEmptyIff(s: string, from: nat, ms: seq<Match>)
    requires MatchChain(s, from, ms)
    ensures ms == [] <==> NoMatchFrom(s, Repeated, from)
  {
    if ms != [] {
      MatchWitness(s, Repeated, ms[0].start, ms[0].productEnd, ms[0].locationEnd);
    }
  }

  /** The global search visits exactly one sequence of matches. */
  lemma {:induction false} MatchChainUnique(s: string, from: nat, ms1: seq<Match>, ms2: seq<Match>)
    requires MatchChain(s, from, ms1) && MatchChain(s, from, ms2)
    ensures ms1 == ms2
    decreases |ms1|
  {
    ChainEmptyIff(s, from, ms1);
    ChainEmptyIff(s, from, ms2);
    if ms1 != [] && ms2 != [] {
      FirstMatchUnique(s, Repeated, from, ms1[0], ms2[0]);
      MatchChainUnique(s, MatchEnd(s, ms1[0]), ms1[1..], ms2[1..]);
    }
  }

  /** Every element of `ms` is a match of `Repeated`. */
  predicate AllMatch(s: string, ms: seq<Match>) {
    forall k :: 0 <= k < |ms| ==> IsMatch(s, Repeated, ms[k].start, ms[k].productEnd, ms[k].locationEnd)
  }

  lemma {:induction false} MatchChainAllMatch(s: string, from: nat, ms: seq<Match>)
    requires MatchChain(s, from, ms)
    ensures AllMatch(s, ms)
    decreases |ms|
  {
    if ms != [] {
      MatchChainAllMatch(s, MatchEnd(s, ms[0]), ms[1..]);
      assert forall k :: 1 <= k < |ms| ==> ms[k] == ms[1..][k - 1];
    }
  }

  /** The line item of a match of `Repeated` (lines 105-110): every field trimmed, the quantity read as a number. */
  function EntryOf(s: string, m: Match): (e: OrderEntry)
    requires IsMatch(s, Repeated, m.start, m.productEnd, m.locationEnd)
  {
    var t := TailOf(s, Repeated, m);
    TailShape(s, Repeated, m);
    OrderEntry(
      Trim(s[m.start..m.productEnd]),
      Trim(s[LocationStart(s, m.productEnd)..m.locationEnd]),
      Trim(s[t.dateStart..t.dateEnd]),
      DigitsValue(s[t.qtyStart..t.qtyEnd]) as real)
  }

  /** The line items of the matches `ms`, in order. */
  function EntriesOf(s: string, ms: seq<Match>): (r: seq<OrderEntry>)
    requires AllMatch(s, ms)
    ensures |r| == |ms|
    ensures forall k :: 0 <= k < |ms| ==> r[k] == EntryOf(s, ms[k])
  {
    seq(|ms|, k requires 0 <= k < |ms| => EntryOf(s, ms[k]))
  }

  /** A `\d{1,2}\.\d{1,2}` date has no white space at its ends, so `trim` keeps it whole. */
  lemma DayMonthIsTrimmed(d: string)
    requires IsDayMonth(d)
    ensures IsTrimmed(d) && Trim(d) == d
  {
    var k :| 1 <= k <= 2 && k + 2 <= |d| <= k + 3 && d[k] == '.' && AllDigits(d[..k]) && AllDigits(d[k + 1..]);
    assert d[..k][0] == d[0];
    assert d[k + 1..][|d| - k - 2] == d[|d| - 1];
    TrimOfTrimmed(d);
  }

  /**
    A line item read by the repeated pattern: its fields are trimmed, its date has the
    form `\d{1,2}\.\d{1,2}` and its quantity is a whole number.
   */
  lemma EntryOfShape(s: string, m: Match)
    requires IsMatch(s, Repeated, m.start, m.productEnd, m.locationEnd)
    ensures IsTrimmed(EntryOf(s, m).product) && IsTrimmed(EntryOf(s, m).location)
    ensures IsDayMonth(EntryOf(s, m).date)
    ensures EntryOf(s, m).qty >= 0.0 && EntryOf(s, m).qty.Floor as real == EntryOf(s, m).qty
  {
    var t := TailOf(s, Repeated, m);
    TailShape(s, Repeated, m);
    DayMonthIsTrimmed(s[t.dateStart..t.dateEnd]);
  }

  /** The line item of the match of `Single` (lines 126-130), with the caller's quantity. */
  function SingleEntryOf(s: string, pe: nat, le: nat, defaultQty: real): (e: OrderEntry)
    requires IsMatch(s, Single, 0, pe, le)
  {
    var t := TailOf(s, Single, Match(0, pe, le));
    OrderEntry(
      Trim(s[..pe]),
      Trim(s[LocationStart(s, pe)..le]),
      Trim(s[t.dateStart..t.dateEnd]),
      defaultQty)
  }

  /** A line item read by the anchored pattern: trimmed fields, a `\d{1,2}\.\d{1,2}` date and the caller's quantity. */
  lemma SingleEntryOfShape(s: string, pe: nat, le: nat, defaultQty: real)
    requires IsMatch(s, Single, 0, pe, le)
    ensures IsTrimmed(SingleEntryOf(s, pe, le, defaultQty).product)
    ensures IsTrimmed(SingleEntryOf(s, pe, le, defaultQty).location)
    ensures IsDayMonth(SingleEntryOf(s, pe, le, defaultQty).date)
    ensures SingleEntryOf(s, pe, le, defaultQty).qty == defaultQty
  {
    var t := TailOf(s, Single, Match(0, pe, le));
    TailShape(s, Single, Match(0, pe, le));
    DayMonthIsTrimmed(s[t.dateStart..t.dateEnd]);
  }

  /** `s.split(c)[0]`: the text before the first `c`, or all of `s`. */
  function BeforeFirst(s: string, c: char): (r: string)
    ensures |r| <= |s| && r == s[..|r|]
    ensures c !in r
    ensures |r| == |s| || s[|r|] == c
  {
    if s == [] || s[0] == c then [] else [s[0]] + BeforeFirst(s[1..], c)
  }

  /** The product-only line item of the fallbacks (lines 116-118 and 133-138). */
  function ProductOnly(product: string, defaultQty: real): (e: OrderEntry)
    ensures e.location == Other && e.date == "" && e.qty == defaultQty
  {
    OrderEntry(product, Other, "", defaultQty)
  }

  /** `parseOrderDetails(orderDetails, defaultQty)` (lines 91-143). */
  function ParseOrderDetails(orderDetails: string, defaultQty: real): (r: seq<OrderEntry>)
    ensures IsBlank(orderDetails) ==> r == []
    ensures ':' !in Trim(orderDetails) ==> |r| <= 1 && forall k :: 0 <= k < |r| ==> r[k].qty == defaultQty
  {
    var cell := Trim(orderDetails);
    TrimProperties(orderDetails);
    if cell == "" then []
    else if ':' in cell then ParseWithQuantities(cell, defaultQty)
    else ParseSingle(cell, defaultQty)
  }

  /** The branch for text with a colon (lines 99-120). */
  function ParseWithQuantities(cell: string, defaultQty: real): (r: seq<OrderEntry>)
    ensures ':' in cell ==> |r| > 0
  {
    assert ':' in cell ==> FindMatch(cell, UpToColon, 0).Some? by {
      if ':' in cell { ColonFallback(cell); }
    }
    var ms := ScanAll(cell, 0);
    if |ms| > 0 then EntriesOf(cell, ms)
    else
      match FindMatch(cell, UpToColon, 0)
      case Some(m) => [ProductOnly(Trim(cell[m.start..m.productEnd]), defaultQty)]
      case None => []
  }

  /** The branch for text without a colon (lines 121-140). */
  function ParseSingle(cell: string, defaultQty: real): (r: seq<OrderEntry>)
    ensures |r| <= 1 && forall k :: 0 <= k < |r| ==> r[k].qty == defaultQty
  {
    match FindProductEnd(cell, Single, 0, 0)
    case Some((pe, le)) =>
      FindProductEndMatches(cell, Single, 0, 0);
      [SingleEntryOf(cell, pe, le, defaultQty)]
    case None =>
      var product := Trim(BeforeFirst(cell, '-'));
      if product == "" then [] else [ProductOnly(product, defaultQty)]
  }

  /** `(.*?)\s*:` matches whenever there is a colon, and then its group, trimmed, is the text before the first colon unless a line break comes first. */
  lemma ColonFallback(s: string)
    requires ':' in s
    ensures FindMatch(s, UpToColon, 0).Some?
    ensures
      var c := |BeforeFirst(s, ':')|;
      var m := FindMatch(s, UpToColon, 0).value;
      (forall k :: 0 <= k < c ==> !IsLineTerminator(s[k])) ==>
        m.start == 0 && Trim(s[m.start..m.productEnd]) == Trim(BeforeFirst(s, ':'))
  {
    var c := |BeforeFirst(s, ':')|;
    assert s[c] == ':';
    assert IsMatch(s, UpToColon, c, c, c);
    MatchWitness(s, UpToColon, c, c, c);
    FindMatchIsFirst(s, UpToColon, 0);
    FindMatchMatches(s, UpToColon, 0);
    if forall k :: 0 <= k < c ==> !IsLineTerminator(s[k]) {
      DotEndReaches(s, 0, c);
      assert IsMatch(s, UpToColon, 0, c, c);
      MatchWitness(s, UpToColon, 0, c, c);
      var m := FindMatch(s, UpToColon, 0).value;
      assert m.start == 0;
      var pe := m.productEnd;
      assert pe <= c;
      var h := SkipSpaces(s, pe);
      SkipSpacesSkipsSpace(s, pe);
      assert BeforeFirst(s, ':') == s[..c];
      assert forall k :: 0 <= k < c ==> s[..c][k] == s[k];
      assert h == c;
      assert s[..c][..pe] == s[m.start..m.productEnd];
      forall k | pe <= k < c ensures IsSpace(s[..c][k]) {
        assert s[..c][k] == s[k];
      }
      TrimIgnoresTrailingSpace(s[..c], pe);
    }
  }

  /**
    Text with a colon: the line items are those of the matches the global search visits,
    left to right; only when there is none does the colon fallback apply.
   */
  lemma ParseWithColon(cell: string, defaultQty: real)
    requires ':' in cell
    ensures forall ms :: MatchChain(cell, 0, ms) ==>
      AllMatch(cell, ms) && (ms != [] ==> ParseWithQuantities(cell, defaultQty) == EntriesOf(cell, ms))
    ensures NoMatchFrom(cell, Repeated, 0) ==>
      && |ParseWithQuantities(cell, defaultQty)| == 1
      && ParseWithQuantities(cell, defaultQty)[0].location == Other
      && ParseWithQuantities(cell, defaultQty)[0].date == ""
      && ParseWithQuantities(cell, defaultQty)[0].qty == defaultQty
      && ((forall k :: 0 <= k < |BeforeFirst(cell, ':')| ==> !IsLineTerminator(cell[k])) ==>
            ParseWithQuantities(cell, defaultQty)[0].product == Trim(BeforeFirst(cell, ':')))
  {
    ScanAllIsChain(cell, 0);
    forall ms | MatchChain(cell, 0, ms)
      ensures AllMatch(cell, ms) && (ms != [] ==> ParseWithQuantities(cell, defaultQty) == EntriesOf(cell, ms))
    {
      MatchChainAllMatch(cell, 0, ms);
      MatchChainUnique(cell, 0, ms, ScanAll(cell, 0));
    }
    if NoMatchFrom(cell, Repeated, 0) {
      MatchChainUnique(cell, 0, [], ScanAll(cell, 0));
      ColonFallback(cell);
    }
  }

  /** Text without a colon that the anchored pattern matches: the line item of the match with the shortest groups. */
  lemma ParseSingleMatched(cell: string, defaultQty: real, pe: nat, le: nat)
    requires IsFirstMatch(cell, Single, 0, Match(0, pe, le))
    ensures ParseSingle(cell, defaultQty) == [SingleEntryOf(cell, pe, le, defaultQty)]
  {
    FindProductEndLeast(cell, Single, 0, 0);
    FindProductEndMatches(cell, Single, 0, 0);
    MatchWitness(cell, Single, 0, pe, le);
    var r := FindProductEnd(cell, Single, 0, 0);
    var m := Match(0, r.value.0, r.value.1);
    assert IsFirstMatch(cell, Single, 0, m);
    FirstMatchUnique(cell, Single, 0, m, Match(0, pe, le));
  }

  /**
    Text without a colon that the anchored pattern does not match: the product-only item
    made of the trimmed text before the first `-`, or nothing when that is empty.
   */
  lemma ParseSingleUnmatched(cell: string, defaultQty: real)
    requires StartFails(cell, Single, 0)
    ensures
      var product := Trim(BeforeFirst(cell, '-'));
      ParseSingle(cell, defaultQty) == if product == "" then [] else [ProductOnly(product, defaultQty)]
  {
    FindProductEndNone(cell, Single, 0, 0);
  }
}
