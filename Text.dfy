/**
  Character classes and string helpers with the meaning JavaScript gives them:
  the `\s`, `.` and `\d` classes of a (non-unicode, non-dotAll) regular expression,
  `String.prototype.trim`, the relational string operators `<` and `>`,
  `Number` applied to a run of decimal digits, and `Number.prototype.toFixed(2)`.
 */
module Text {

  /** The line terminators: the characters that `.` does not match. */
  predicate IsLineTerminator(c: char) {
    c == '\n' || c == '\r' || c == '\U{2028}' || c == '\U{2029}'
  }

  /** JavaScript white space and line terminators: the class `\s`, and what `trim` removes. */
  predicate IsSpace(c: char) {
    || c == '\t' || c == '\n' || c == '\U{000B}' || c == '\U{000C}' || c == '\r' || c == ' '
    || c == '\U{00A0}' || c == '\U{1680}' || ('\U{2000}' <= c <= '\U{200A}')
    || c == '\U{2028}' || c == '\U{2029}' || c == '\U{202F}' || c == '\U{205F}'
    || c == '\U{3000}' || c == '\U{FEFF}'
  }

  /** The class `\d`. */
  predicate IsDigit(c: char) {
    '0' <= c <= '9'
  }

  lemma LineTerminatorIsSpace(c: char)
    requires IsLineTerminator(c)
    ensures IsSpace(c)
  {
  }

  /** The first index at or after `j` that does not hold white space: where a greedy `\s*` starting at `j` stops. */
  function SkipSpaces(s: string, j: nat): (r: nat)
    requires j <= |s|
    ensures j <= r <= |s|
    ensures r == |s| || !IsSpace(s[r])
    decreases |s| - j
  {
    if j == |s| || !IsSpace(s[j]) then j else SkipSpaces(s, j + 1)
  }

  /** Everything `SkipSpaces` skips is white space. */
  lemma {:induction false} SkipSpacesSkipsSpace(s: string, j: nat)
    requires j <= |s|
    ensures forall k :: j <= k < SkipSpaces(s, j) ==> IsSpace(s[k])
    decreases |s| - j
  {
    if j < |s| && IsSpace(s[j]) { SkipSpacesSkipsSpace(s, j + 1); }
  }

  /** The first line terminator at or after `j` (or `|s|`): `.*` starting at `j` can reach no further. */
  function DotEnd(s: string, j: nat): (r: nat)
    requires j <= |s|
    ensures j <= r <= |s|
    ensures r == |s| || IsLineTerminator(s[r])
    decreases |s| - j
  {
    if j == |s| || IsLineTerminator(s[j]) then j else DotEnd(s, j + 1)
  }

  /** `DotEnd` passes no line terminator. */
  lemma {:induction false} DotEndNoTerminator(s: string, j: nat)
    requires j <= |s|
    ensures forall k :: j <= k < DotEnd(s, j) ==> !IsLineTerminator(s[k])
    decreases |s| - j
  {
    if j < |s| && !IsLineTerminator(s[j]) { DotEndNoTerminator(s, j + 1); }
  }

  /** The first index at or after `j` that does not hold a digit: where a greedy `\d*` starting at `j` stops. */
  function DigitsEnd(s: string, j: nat): (r: nat)
    requires j <= |s|
    ensures j <= r <= |s|
    ensures r == |s| || !IsDigit(s[r])
    decreases |s| - j
  {
    if j == |s| || !IsDigit(s[j]) then j else DigitsEnd(s, j + 1)
  }

  /** Everything `DigitsEnd` passes is a digit. */
  lemma {:induction false} DigitsEndAllDigits(s: string, j: nat)
    requires j <= |s|
    ensures forall k :: j <= k < DigitsEnd(s, j) ==> IsDigit(s[k])
    decreases |s| - j
  {
    if j < |s| && IsDigit(s[j]) { DigitsEndAllDigits(s, j + 1); }
  }

  /** One past the last character of `s` that is not white space (0 when there is none). */
  function TrimmedEnd(s: string): (r: nat)
    ensures r <= |s|
    ensures forall k :: r <= k < |s| ==> IsSpace(s[k])
    ensures r == 0 || !IsSpace(s[r - 1])
  {
    if |s| == 0 || !IsSpace(s[|s| - 1]) then |s| else TrimmedEnd(s[..|s| - 1])
  }

  /** `String.prototype.trim`. */
  function Trim(s: string): (r: string)
    ensures IsTrimmed(r)
    ensures |r| <= |s|
    ensures exists b, e :: 0 <= b <= e <= |s| && r == s[b..e] && IsBlank(s[..b]) && IsBlank(s[e..])
  {
    var b := SkipSpaces(s, 0);
    var e := TrimmedEnd(s);
    SkipSpacesSkipsSpace(s, 0);
    if e <= b then
      assert s[b..b] == "";
      ""
    else
      s[b..e]
  }

  /** No white space at either end. */
  predicate IsTrimmed(t: string) {
    t == "" || (!IsSpace(t[0]) && !IsSpace(t[|t| - 1]))
  }

  predicate IsBlank(s: string) {
    forall k :: 0 <= k < |s| ==> IsSpace(s[k])
  }

  /** Trimming yields the empty string exactly for blank text, and trimming twice changes nothing. */
  lemma TrimProperties(s: string)
    ensures Trim(s) == "" <==> IsBlank(s)
    ensures Trim(Trim(s)) == Trim(s)
  {
    var b := SkipSpaces(s, 0);
    var e := TrimmedEnd(s);
    SkipSpacesSkipsSpace(s, 0);
    if e <= b {
      assert b == |s|;
    } else {
      assert !IsSpace(s[b]);
      var t := s[b..e];
      assert t[0] == s[b] && t[|t| - 1] == s[e - 1];
      TrimOfTrimmed(t);
    }
  }

  /** Trimming leaves text without white space at its ends unchanged. */
  lemma TrimOfTrimmed(t: string)
    requires IsTrimmed(t)
    ensures Trim(t) == t
  {
    if t != "" {
      assert SkipSpaces(t, 0) == 0;
      assert TrimmedEnd(t) == |t|;
    }
  }

  /** `DotEnd` reaches every index up to which there is no line terminator. */
  lemma {:induction false} DotEndReaches(s: string, j: nat, c: nat)
    requires j <= c <= |s|
    requires forall k :: j <= k < c ==> !IsLineTerminator(s[k])
    ensures c <= DotEnd(s, j)
    decreases c - j
  {
    if j < c { DotEndReaches(s, j + 1, c); }
  }

  /** Skipping white space in a prefix stops where it stops in the whole text, or at the end of the prefix. */
  lemma {:induction false} SkipSpacesInPrefix(t: string, n: nat, j: nat)
    requires j <= n <= |t|
    ensures SkipSpaces(t[..n], j) == if SkipSpaces(t, j) < n then SkipSpaces(t, j) else n
    decreases n - j
  {
    if j < n && IsSpace(t[j]) {
      assert t[..n][j] == t[j];
      SkipSpacesInPrefix(t, n, j + 1);
    } else if j < n {
      assert t[..n][j] == t[j];
    }
  }

  /** Cutting off trailing white space does not move the end of the trimmed text. */
  lemma {:induction false} TrimmedEndOfPrefix(t: string, n: nat)
    requires n <= |t|
    requires forall k :: n <= k < |t| ==> IsSpace(t[k])
    ensures TrimmedEnd(t[..n]) == TrimmedEnd(t)
    decreases |t| - n
  {
    if n < |t| {
      var u := t[..|t| - 1];
      assert u[..n] == t[..n];
      TrimmedEndOfPrefix(u, n);
    } else {
      assert t[..n] == t;
    }
  }

  /** Trailing white space makes no difference to `trim`. */
  lemma TrimIgnoresTrailingSpace(t: string, n: nat)
    requires n <= |t|
    requires forall k :: n <= k < |t| ==> IsSpace(t[k])
    ensures Trim(t[..n]) == Trim(t)
  {
    TrimmedEndOfPrefix(t, n);
    SkipSpacesInPrefix(t, n, 0);
    var e := TrimmedEnd(t);
    var b := SkipSpaces(t, 0);
    if b < e {
      assert t[..n][b..e] == t[b..e];
    }
  }

  /** `Number(d)` for a non-empty run of decimal digits `d`. */
  function DigitsValue(d: string): (r: nat)
    requires forall k :: 0 <= k < |d| ==> IsDigit(d[k])
    decreases |d|
  {
    if |d| == 0 then 0
    else
      var c := d[|d| - 1];
      assert IsDigit(c);
      10 * DigitsValue(d[..|d| - 1]) + (c as int - '0' as int)
  }

  /** Decimal notation of a natural number, without leading zeros. */
  function NatToString(n: nat): (r: string)
    ensures |r| >= 1
    ensures forall k :: 0 <= k < |r| ==> IsDigit(r[k])
    decreases n
  {
    var d := [('0' as int + n % 10) as char];
    if n < 10 then d else NatToString(n / 10) + d
  }

  /** `NatToString` is inverted by `DigitsValue`. */
  lemma {:induction false} NatToStringRoundTrip(n: nat)
    ensures DigitsValue(NatToString(n)) == n
    decreases n
  {
    var r := NatToString(n);
    if n >= 10 {
      NatToStringRoundTrip(n / 10);
      assert r[..|r| - 1] == NatToString(n / 10);
    }
  }

  /** A positive number's decimal notation does not start with `0`. */
  lemma {:induction false} NatToStringLeading(n: nat)
    requires n > 0
    ensures NatToString(n)[0] != '0'
    decreases n
  {
    if n >= 10 {
      NatToStringLeading(n / 10);
      assert NatToString(n)[0] == NatToString(n / 10)[0];
    }
  }

  /** A run of zeros reads as 0. */
  lemma {:induction false} ZerosValue(z: string)
    requires forall k :: 0 <= k < |z| ==> z[k] == '0'
    ensures DigitsValue(z) == 0
    decreases |z|
  {
    if |z| > 0 { ZerosValue(z[..|z| - 1]); }
  }

  /** Leading zeros do not change the value of a run of digits. */
  lemma {:induction false} LeadingZerosValue(z: string, d: string)
    requires forall k :: 0 <= k < |z| ==> z[k] == '0'
    requires forall k :: 0 <= k < |d| ==> IsDigit(d[k])
    ensures DigitsValue(z + d) == DigitsValue(d)
    decreases |d|
  {
    if |d| == 0 {
      assert z + d == z;
      ZerosValue(z);
    } else {
      LeadingZerosValue(z, d[..|d| - 1]);
      assert (z + d)[..|z + d| - 1] == z + d[..|d| - 1];
    }
  }

  /**
    The integer nearest to `100 * |x|`, the larger one on a tie: the `n` that
    `toFixed(2)` writes out.
   */
  function Cents(x: real): (n: nat)
    ensures var a := if x < 0.0 then -x else x;
      a * 100.0 - 0.5 < n as real <= a * 100.0 + 0.5
  {
    var a := if x < 0.0 then -x else x;
    (a * 100.0 + 0.5).Floor
  }

  /** The digits of `toFixed(2)`: `n` written with at least three digits. */
  function CentDigits(n: nat): (d: string)
    ensures |d| >= 3
    ensures forall k :: 0 <= k < |d| ==> IsDigit(d[k])
    ensures DigitsValue(d) == n
    ensures d[0] != '0' || |d| == 3
  {
    var digits := NatToString(n);
    NatToStringRoundTrip(n);
    if |digits| < 3 then
      var z := seq(3 - |digits|, _ => '0');
      LeadingZerosValue(z, digits);
      z + digits
    else
      assert n > 0;
      NatToStringLeading(n);
      digits
  }

  /**
    `x.toFixed(2)`: `Cents(x)` written with two decimals, preceded by `-` when `x` is
    negative. The integer part has no leading zeros beyond a single `0`.
   */
  function ToFixed2(x: real): (r: string)
    ensures |r| >= 4 && r[|r| - 3] == '.'
    ensures r[0] == '-' <==> x < 0.0
    ensures var u := if x < 0.0 then 1 else 0;
      && u < |r| - 3
      && (forall k :: u <= k < |r| && k != |r| - 3 ==> IsDigit(r[k]))
      && (r[u] != '0' || u == |r| - 4)
  {
    var padded := CentDigits(Cents(x));
    var body := padded[..|padded| - 2] + "." + padded[|padded| - 2..];
    if x < 0.0 then "-" + body else body
  }

  /** The digits of `toFixed(2)`, with the sign and the dot taken out, read back as `Cents(x)`. */
  lemma ToFixed2Value(x: real)
    ensures var r := ToFixed2(x);
      var u := if x < 0.0 then 1 else 0;
      DigitsValue(r[u..|r| - 3] + r[|r| - 2..]) == Cents(x)
  {
    var padded := CentDigits(Cents(x));
    var r := ToFixed2(x);
    var u := if x < 0.0 then 1 else 0;
    assert r[u..|r| - 3] + r[|r| - 2..] == padded;
  }

  /**
    JavaScript's `a < b` on strings, taken as lexicographic order on code points.
    JavaScript compares UTF-16 code units; the two orders agree unless a character
    outside the Basic Multilingual Plane is involved.
   */
  predicate LexLess(a: string, b: string)
    decreases |a|
  {
    if |a| == 0 then |b| > 0
    else if |b| == 0 then false
    else if a[0] != b[0] then a[0] < b[0]
    else LexLess(a[1..], b[1..])
  }

  predicate LexLeq(a: string, b: string) {
    a == b || LexLess(a, b)
  }

  lemma {:induction false} LexLessIrreflexive(a: string)
    ensures !LexLess(a, a)
    decreases |a|
  {
    if |a| > 0 { LexLessIrreflexive(a[1..]); }
  }

  lemma {:induction false} LexLessAsymmetric(a: string, b: string)
    requires LexLess(a, b)
    ensures !LexLess(b, a)
    decreases |a|
  {
    if |a| > 0 && |b| > 0 && a[0] == b[0] { LexLessAsymmetric(a[1..], b[1..]); }
  }

  lemma {:induction false} LexLessTransitive(a: string, b: string, c: string)
    requires LexLess(a, b) && LexLess(b, c)
    ensures LexLess(a, c)
    decreases |a|
  {
    if |a| > 0 && a[0] == b[0] && b[0] == c[0] {
      LexLessTransitive(a[1..], b[1..], c[1..]);
    }
  }

  lemma {:induction false} LexLessTotal(a: string, b: string)
    requires a != b
    ensures LexLess(a, b) || LexLess(b, a)
    decreases |a|
  {
    if |a| > 0 && |b| > 0 && a[0] == b[0] {
      assert a == [a[0]] + a[1..] && b == [b[0]] + b[1..];
      LexLessTotal(a[1..], b[1..]);
    }
  }

  /** The empty string is below every other string. */
  lemma EmptyIsLeast(a: string)
    ensures LexLeq("", a)
  {
  }
}
