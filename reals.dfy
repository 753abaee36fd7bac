/** Sums over sequences of reals: the `reduce((a, b) => a + b, 0)` folds of the statistics code. */
module Reals {

  function Sum(xs: seq<real>): real
    decreases |xs|
  {
    if xs == [] then 0.0 else Sum(xs[..|xs| - 1]) + xs[|xs| - 1]
  }

  lemma SumAppend(xs: seq<real>, x: real)
    ensures Sum(xs + [x]) == Sum(xs) + x
  {
    assert (xs + [x])[..|xs|] == xs;
  }

  lemma {:induction false} SumConcat(xs: seq<real>, ys: seq<real>)
    ensures Sum(xs + ys) == Sum(xs) + Sum(ys)
    decreases |ys|
  {
    if ys == [] {
      assert xs + ys == xs;
    } else {
      var init := ys[..|ys| - 1];
      var last := ys[|ys| - 1];
      assert xs + ys == (xs + init) + [last];
      SumAppend(xs + init, last);
      SumConcat(xs, init);
      assert ys == init + [last];
      SumAppend(init, last);
    }
  }

  /** Every term in `[lo, hi]` puts the sum in `[n·lo, n·hi]`. */
  lemma {:induction false} SumBounds(xs: seq<real>, lo: real, hi: real)
    requires forall i :: 0 <= i < |xs| ==> lo <= xs[i] <= hi
    ensures |xs| as real * lo <= Sum(xs) <= |xs| as real * hi
    decreases |xs|
  {
    if xs != [] {
      var init := xs[..|xs| - 1];
      SumBounds(init, lo, hi);
      assert |xs| as real * lo == |init| as real * lo + lo;
      assert |xs| as real * hi == |init| as real * hi + hi;
    }
  }

  /** A sum of non-negative terms is non-negative, and it is zero exactly when every term is. */
  lemma {:induction false} SumNonNegZero(xs: seq<real>)
    requires forall i :: 0 <= i < |xs| ==> 0.0 <= xs[i]
    ensures 0.0 <= Sum(xs)
    ensures Sum(xs) == 0.0 <==> forall i :: 0 <= i < |xs| ==> xs[i] == 0.0
    decreases |xs|
  {
    if xs != [] {
      var init := xs[..|xs| - 1];
      SumNonNegZero(init);
      assert forall i :: 0 <= i < |init| ==> init[i] == xs[i];
    }
  }

  /** `xs` with every element increased by `c`. */
  function AddConst(xs: seq<real>, c: real): (r: seq<real>)
    ensures |r| == |xs|
    ensures forall i :: 0 <= i < |xs| ==> r[i] == xs[i] + c
  {
    seq(|xs|, i requires 0 <= i < |xs| => xs[i] + c)
  }

  lemma {:induction false} SumAddConst(xs: seq<real>, c: real)
    ensures Sum(AddConst(xs, c)) == Sum(xs) + |xs| as real * c
    decreases |xs|
  {
    if xs != [] {
      var init := xs[..|xs| - 1];
      assert AddConst(xs, c)[..|xs| - 1] == AddConst(init, c);
      SumAddConst(init, c);
      assert |xs| as real * c == |init| as real * c + c;
    }
  }
  /** Replacing one term changes the sum by the difference. */
  lemma SumUpdate(xs: seq<real>, i: nat, y: real)
    requires i < |xs|
    ensures Sum(xs[i := y]) == Sum(xs) - xs[i] + y
  {
    var pre, post := xs[..i], xs[i + 1..];
    assert xs == pre + [xs[i]] + post;
    assert xs[i := y] == pre + [y] + post;
    SumConcat(pre + [xs[i]], post);
    SumConcat(pre + [y], post);
    SumAppend(pre, xs[i]);
    SumAppend(pre, y);
  }
  lemma SquareNonNeg(x: real, sq: real)
    requires sq == x * x
    ensures sq >= 0.0
  {}

  lemma ProductPositive(a: real, b: real, p: real)
    requires 0.0 < a && 0.0 < b && p == a * b
    ensures 0.0 < p
  {}

  lemma SquareNonZero(x: real, sq: real)
    requires sq == x * x && x != 0.0
    ensures sq != 0.0
  {
    if 0.0 < x { ProductPositive(x, x, sq); } else { ProductPositive(-x, -x, sq); }
  }

  /** `x * x`, with its sign: never negative, and zero only at zero. */
  function Sq(x: real): (r: real)
    ensures 0.0 <= r
    ensures r == 0.0 <==> x == 0.0
  {
    var sq := x * x;
    SquareNonNeg(x, sq);
    if x != 0.0 then SquareNonZero(x, sq); sq else sq
  }

  /** The sum of the squares of the terms; never negative. */
  function SumSquares(xs: seq<real>): (r: real)
    ensures 0.0 <= r
    decreases |xs|
  {
    if xs == [] then 0.0 else SumSquares(xs[..|xs| - 1]) + Sq(xs[|xs| - 1])
  }

  /** A sum of squares is zero exactly when every term is zero. */
  lemma {:induction false} SumSquaresZero(xs: seq<real>)
    ensures SumSquares(xs) == 0.0 <==> forall i :: 0 <= i < |xs| ==> xs[i] == 0.0
    decreases |xs|
  {
    if xs != [] {
      var init := xs[..|xs| - 1];
      SumSquaresZero(init);
      assert forall i :: 0 <= i < |init| ==> init[i] == xs[i];
    }
  }

  /** The arithmetic mean of a non-empty list. */
  function Average(xs: seq<real>): (r: real)
    requires xs != []
    ensures r * |xs| as real == Sum(xs)
  {
    Quotient(Sum(xs), |xs|)
  }

  /** The mean lies within any bounds that hold every term. */
  lemma AverageBounds(xs: seq<real>, lo: real, hi: real)
    requires xs != []
    requires forall i :: 0 <= i < |xs| ==> lo <= xs[i] <= hi
    ensures lo <= Average(xs) <= hi
  {
    SumBounds(xs, lo, hi);
  }

  /** The mean of a constant list is that constant. */
  lemma AverageConstant(xs: seq<real>, c: real)
    requires xs != []
    requires forall i :: 0 <= i < |xs| ==> xs[i] == c
    ensures Average(xs) == c
  {
    AverageBounds(xs, c, c);
  }

  /** Shifting every term shifts the mean by the same amount. */
  lemma AverageAddConst(xs: seq<real>, c: real)
    requires xs != []
    ensures Average(AddConst(xs, c)) == Average(xs) + c
  {
    SumAddConst(xs, c);
    var n, s := |xs| as real, Sum(xs);
    assert Average(xs) == s / n;
    assert Average(AddConst(xs, c)) == (s + n * c) / n;
    DivideShifted(s, n, c);
  }

  lemma DivideShifted(s: real, n: real, c: real)
    requires 0.0 < n
    ensures (s + n * c) / n == s / n + c
  {
    assert (s / n + c) * n == s + n * c;
  }

  /** The offsets from the mean, `xs.map(v => v - mean)`. */
  function Deviations(xs: seq<real>): (r: seq<real>)
    requires xs != []
    ensures |r| == |xs|
    ensures forall i :: 0 <= i < |xs| ==> r[i] == xs[i] - Average(xs)
  {
    AddConst(xs, -Average(xs))
  }

  /** The offsets from the mean add up to zero. */
  lemma DeviationsSumZero(xs: seq<real>)
    requires xs != []
    ensures Sum(Deviations(xs)) == 0.0
  {
    SumAddConst(xs, -Average(xs));
    assert |xs| as real * -Average(xs) == -Sum(xs);
  }

  /** The population variance: the mean squared offset from the mean. */
  function PopVariance(xs: seq<real>): (r: real)
    requires xs != []
    ensures 0.0 <= r
  {
    Quotient(SumSquares(Deviations(xs)), |xs|)
  }

  /** The variance is zero exactly when every term is equal. */
  lemma PopVarianceZero(xs: seq<real>)
    requires xs != []
    ensures PopVariance(xs) == 0.0 <==> forall i, j :: 0 <= i < |xs| && 0 <= j < |xs| ==> xs[i] == xs[j]
  {
    var d := Deviations(xs);
    SumSquaresZero(d);
    if forall i, j :: 0 <= i < |xs| && 0 <= j < |xs| ==> xs[i] == xs[j] {
      AverageConstant(xs, xs[0]);
      assert forall i :: 0 <= i < |d| ==> d[i] == 0.0;
    }
    if PopVariance(xs) == 0.0 {
      assert SumSquares(d) == 0.0;
      assert forall i :: 0 <= i < |xs| ==> xs[i] == Average(xs) by {
        forall i | 0 <= i < |xs| ensures xs[i] == Average(xs) { assert d[i] == 0.0; }
      }
    }
  }

  /** Shifting every term leaves the variance unchanged. */
  lemma PopVarianceAddConst(xs: seq<real>, c: real)
    requires xs != []
    ensures PopVariance(AddConst(xs, c)) == PopVariance(xs)
  {
    AverageAddConst(xs, c);
    assert Deviations(AddConst(xs, c)) == Deviations(xs);
  }
  /** `total / d` for a positive count `d`. */
  function Quotient(total: real, d: nat): (r: real)
    requires 0 < d
    ensures r * d as real == total
    ensures 0.0 <= total ==> 0.0 <= r
  {
    var q := total / d as real;
    if q < 0.0 then ProductPositive(-q, d as real, -q * d as real); q else q
  }

  /** A count out of `n`, as a percentage: between 0 and 100, and exactly `100·count / n`. */
  function Share(count: nat, n: nat): (r: real)
    requires 0 < n && count <= n
    ensures 0.0 <= r <= 100.0
    ensures r * n as real == 100.0 * count as real
  {
    var q := count as real / n as real;
    QuotientWithinUnit(count as real, n as real, q);
    assert (q * 100.0) * n as real == (q * n as real) * 100.0;
    q * 100.0
  }

  /** `c / n` for `0 <= c <= n` lies in `[0, 1]`. */
  lemma QuotientWithinUnit(c: real, n: real, q: real)
    requires 0.0 < n && 0.0 <= c <= n && q == c / n
    ensures 0.0 <= q <= 1.0 && q * n == c
  {
    assert q * n == c;
    if q < 0.0 { ProductPositive(-q, n, -q * n); }
    if q > 1.0 { ProductPositive(q - 1.0, n, (q - 1.0) * n); }
  }
  /** A positive factor cancels: `p·n == q·n` with `n > 0` gives `p == q`. */
  lemma CancelFactor(p: real, q: real, n: real)
    requires 0.0 < n && p * n == q * n
    ensures p == q
  {
    assert (p - q) * n == p * n - q * n;
    if p > q { ProductPositive(p - q, n, (p - q) * n); }
    if p < q { ProductPositive(q - p, n, (q - p) * n); }
  }
  /** Dividing a scaled sum by `d` scales the sum of the quotients. */
  lemma QuotientScaledSum(k: real, a: real, b: real, d: nat)
    requires 0 < d
    ensures Quotient(k * (a + b), d) == k * (Quotient(a, d) + Quotient(b, d))
  {
    var n := d as real;
    var qa, qb := Quotient(a, d), Quotient(b, d);
    var p := k * (qa + qb);
    assert p * n == k * (qa * n) + k * (qb * n);
    CancelFactor(Quotient(k * (a + b), d), p, n);
  }
}
