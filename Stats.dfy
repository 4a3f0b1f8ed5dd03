/**
  Sums, arithmetic means and sums of squared deviations over sequences of reals,
  each accumulated from the left as `Array.prototype.reduce` and a running `+=` do.
 */
module Stats {

  /** `xs.reduce((acc, x) => acc + x, 0)`. */
  function Sum(xs: seq<real>): real
    decreases |xs|
  {
    if |xs| == 0 then 0.0 else Sum(xs[..|xs| - 1]) + xs[|xs| - 1]
  }

  /** The arithmetic mean of a non-empty sequence. */
  function Mean(xs: seq<real>): (m: real)
    requires |xs| > 0
    ensures m * (|xs| as real) == Sum(xs)
  {
    Sum(xs) / (|xs| as real)
  }

  /** `xs.reduce((acc, x) => acc + Math.pow(x - m, 2), 0)`. */
  function SumSquares(xs: seq<real>, m: real): real
    decreases |xs|
  {
    if |xs| == 0 then 0.0 else SumSquares(xs[..|xs| - 1], m) + Square(xs[|xs| - 1] - m)
  }

  /** `Math.pow(d, 2)`. */
  function Square(d: real): real {
    Product(d, d)
  }

  /** A product of reals, kept apart so that the solver treats `d * d` like any other product. */
  function Product(x: real, y: real): real {
    x * y
  }

  predicate AllBetween(xs: seq<real>, lo: real, hi: real) {
    forall i :: 0 <= i < |xs| ==> lo <= xs[i] <= hi
  }

  /** A sum of values between `lo` and `hi` lies between `n * lo` and `n * hi`. */
  lemma {:induction false} SumBetween(xs: seq<real>, lo: real, hi: real)
    requires AllBetween(xs, lo, hi)
    ensures (|xs| as real) * lo <= Sum(xs) <= (|xs| as real) * hi
    decreases |xs|
  {
    if |xs| > 0 {
      var init := xs[..|xs| - 1];
      SumBetween(init, lo, hi);
      var x := xs[|xs| - 1];
      assert Sum(xs) == Sum(init) + x && lo <= x <= hi;
      var m := |init| as real;
      assert (|xs| as real) * lo == m * lo + lo by {
        assert (|xs| as real) == m + 1.0;
      }
      assert (|xs| as real) * hi == m * hi + hi by {
        assert (|xs| as real) == m + 1.0;
      }
    }
  }

  /** The mean of values between `lo` and `hi` lies between them too. */
  lemma MeanBetween(xs: seq<real>, lo: real, hi: real)
    requires |xs| > 0 && AllBetween(xs, lo, hi)
    ensures lo <= Mean(xs) <= hi
  {
    SumBetween(xs, lo, hi);
    var n := |xs| as real;
    assert n * lo <= n * Mean(xs) <= n * hi;
  }

  /** The mean of positive values is positive. */
  lemma MeanPositive(xs: seq<real>)
    requires |xs| > 0 && forall i :: 0 <= i < |xs| ==> xs[i] > 0.0
    ensures Mean(xs) > 0.0
  {
    var lo := xs[0];
    var hi := xs[0];
    var k := 1;
    while k < |xs|
      invariant 1 <= k <= |xs|
      invariant 0.0 < lo <= hi && AllBetween(xs[..k], lo, hi)
    {
      if xs[k] < lo { lo := xs[k]; }
      if xs[k] > hi { hi := xs[k]; }
      k := k + 1;
    }
    assert xs[..k] == xs;
    MeanBetween(xs, lo, hi);
  }

  /** A sum of squares is never negative, and is zero exactly when every value equals `m`. */
  lemma {:induction false} SumSquaresZero(xs: seq<real>, m: real)
    ensures SumSquares(xs, m) >= 0.0
    ensures SumSquares(xs, m) == 0.0 <==> forall i :: 0 <= i < |xs| ==> xs[i] == m
    decreases |xs|
  {
    if |xs| > 0 {
      var init := xs[..|xs| - 1];
      var d := xs[|xs| - 1] - m;
      SumSquaresZero(init, m);
      SquareSign(d);
      assert forall i :: 0 <= i < |init| ==> init[i] == xs[i];
      if SumSquares(xs, m) == 0.0 {
        assert d == 0.0;
        forall i | 0 <= i < |xs| ensures xs[i] == m {
          if i < |init| {
            assert init[i] == m;
          }
        }
      }
    }
  }

  /** A square is never negative, and is positive unless its root is zero. */
  lemma SquareSign(d: real)
    ensures Square(d) >= 0.0
    ensures d != 0.0 ==> Square(d) > 0.0
    ensures d == 0.0 ==> Square(d) == 0.0
  {
    if d > 0.0 {
      ProductPositive(d, d);
    } else if d < 0.0 {
      ProductPositive(-d, -d);
      ProductNegated(d, d);
    } else {
      ProductZero(d, d);
    }
  }

  lemma ProductPositive(x: real, y: real)
    requires x > 0.0 && y > 0.0
    ensures Product(x, y) > 0.0
  {
  }

  lemma ProductNegated(x: real, y: real)
    ensures Product(-x, -y) == Product(x, y)
  {
  }

  lemma ProductZero(x: real, y: real)
    requires x == 0.0
    ensures Product(x, y) == 0.0
  {
  }

  /** A sequence whose values all equal `c` sums to `n * c`. */
  lemma {:induction false} SumConstant(xs: seq<real>, c: real)
    requires forall i :: 0 <= i < |xs| ==> xs[i] == c
    ensures Sum(xs) == (|xs| as real) * c
    decreases |xs|
  {
    if |xs| > 0 {
      SumConstant(xs[..|xs| - 1], c);
    }
  }

  /** The mean of values that all equal `c` is `c`. */
  lemma MeanConstant(xs: seq<real>, c: real)
    requires |xs| > 0 && forall i :: 0 <= i < |xs| ==> xs[i] == c
    ensures Mean(xs) == c
  {
    SumConstant(xs, c);
    DivideProduct(|xs| as real, c, Sum(xs));
  }

  lemma DivideProduct(n: real, c: real, s: real)
    requires n > 0.0 && s == n * c
    ensures s / n == c
  {
  }

  /** The squared deviations from the mean vanish exactly when all values are equal. */
  lemma SumSquaresAboutMeanZero(xs: seq<real>)
    requires |xs| > 0
    ensures SumSquares(xs, Mean(xs)) == 0.0 <==> forall i :: 0 <= i < |xs| ==> xs[i] == xs[0]
  {
    var m := Mean(xs);
    SumSquaresZero(xs, m);
    if SumSquares(xs, m) == 0.0 {
      assert xs[0] == m;
    }
    if forall i :: 0 <= i < |xs| ==> xs[i] == xs[0] {
      MeanConstant(xs, xs[0]);
    }
  }
}
