/** Square roots kept symbolically. The statistics code computes `Math.sqrt(q)` and only ever
    compares the result or prints it; a `Root(q)` stands for that non-negative root, and every
    comparison the source makes on a root is decided exactly on squares. The `...Sound` lemmas
    show each predicate agrees with the comparison on the real root. */
module Roots {

  type NonNeg = r: real | r >= 0.0

  /** `Math.sqrt(square)`. */
  datatype Root = Root(square: NonNeg)

  /** `r` is the real number `Math.sqrt(a.square)` denotes. */
  ghost predicate IsRootOf(r: real, a: Root)
  {
    r >= 0.0 && r * r == a.square
  }

  lemma SquareMonotone(x: real, y: real)
    requires x >= 0.0 && y >= 0.0
    ensures x < y <==> x * x < y * y
  {
    if x < y {
      assert x * (y - x) >= 0.0;
      assert x * (y - x) == x * y - x * x;
      assert y * (y - x) > 0.0;
      assert y * (y - x) == y * y - x * y;
    } else {
      assert y * (x - y) >= 0.0;
      assert y * (x - y) == x * y - y * y;
      assert x * (x - y) >= 0.0;
      assert x * (x - y) == x * x - x * y;
    }
  }

  /** `Math.sqrt(a.square) < c`. */
  predicate Below(a: Root, c: real)
  {
    c > 0.0 && a.square < c * c
  }

  lemma BelowSound(a: Root, r: real, c: real)
    requires IsRootOf(r, a)
    ensures Below(a, c) <==> r < c
  {
    if c > 0.0 {
      SquareMonotone(r, c);
    }
  }

  /** `Math.sqrt(a.square) <= Math.sqrt(b.square)`. */
  predicate AtMost(a: Root, b: Root)
  {
    a.square <= b.square
  }

  lemma AtMostSound(a: Root, b: Root, ra: real, rb: real)
    requires IsRootOf(ra, a) && IsRootOf(rb, b)
    ensures AtMost(a, b) <==> ra <= rb
  {
    SquareMonotone(rb, ra);
  }

  /** `Math.sqrt(a.square) > Math.sqrt(b.square) * k` for a factor `k >= 0`. */
  predicate ExceedsScaled(a: Root, b: Root, k: real)
  {
    a.square > k * k * b.square
  }

  lemma ExceedsScaledSound(a: Root, b: Root, k: real, ra: real, rb: real)
    requires IsRootOf(ra, a) && IsRootOf(rb, b) && k >= 0.0
    ensures ExceedsScaled(a, b, k) <==> ra > rb * k
  {
    assert rb * k >= 0.0;
    SquareMonotone(rb * k, ra);
    assert (rb * k) * (rb * k) == k * k * b.square;
  }

  /** `Math.sqrt(a.square) - Math.sqrt(b.square) < c` for a bound `c > 0`. */
  predicate GapBelow(a: Root, b: Root, c: real)
  {
    var d := a.square - b.square - c * c;
    d < 0.0 || d * d < 4.0 * c * c * b.square
  }

  lemma GapBelowSound(a: Root, b: Root, c: real, ra: real, rb: real)
    requires IsRootOf(ra, a) && IsRootOf(rb, b) && c > 0.0
    ensures GapBelow(a, b, c) <==> ra - rb < c
  {
    var d := a.square - b.square - c * c;
    // ra - rb < c  <==>  ra < c + rb  <==>  ra^2 < (c + rb)^2  <==>  d < 2 c rb
    SquareMonotone(ra, c + rb);
    assert (c + rb) * (c + rb) == c * c + 2.0 * c * rb + b.square;
    assert ra - rb < c <==> d < 2.0 * c * rb;
    assert 2.0 * c * rb >= 0.0;
    if d >= 0.0 {
      SquareMonotone(d, 2.0 * c * rb);
      assert (2.0 * c * rb) * (2.0 * c * rb) == 4.0 * c * c * b.square;
    }
  }
}
