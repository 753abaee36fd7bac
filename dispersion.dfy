/** Spatial statistics of a group of hits in normalised target coordinates (the face is the
    unit square, 500 mm across): centroid, per-axis RMS spread and radial RMS dispersion. */
module Dispersion {
  import opened Wrappers
  import opened Reals
  import opened Roots

  datatype Point = Point(x: real, y: real)

  /** `TARGET_DIAMETER_MM`: one normalised unit in millimetres. */
  const TargetDiameterMm: real := 500.0

  function Xs(hits: seq<Point>): (r: seq<real>)
    ensures |r| == |hits| && forall i :: 0 <= i < |hits| ==> r[i] == hits[i].x
  {
    seq(|hits|, i requires 0 <= i < |hits| => hits[i].x)
  }

  function Ys(hits: seq<Point>): (r: seq<real>)
    ensures |r| == |hits| && forall i :: 0 <= i < |hits| ==> r[i] == hits[i].y
  {
    seq(|hits|, i requires 0 <= i < |hits| => hits[i].y)
  }

  /** `meanPoint(hits)`: null for no hits, otherwise the centroid. */
  function MeanPoint(hits: seq<Point>): (r: Option<Point>)
    ensures r.None? <==> hits == []
    ensures r.Some? ==> r.value.x * |hits| as real == Sum(Xs(hits))
    ensures r.Some? ==> r.value.y * |hits| as real == Sum(Ys(hits))
  {
    if |hits| == 0 then None else Some(Point(Average(Xs(hits)), Average(Ys(hits))))
  }

  /** The squared distance in millimetres of each hit from the centre `c`. */
  function RadialDistances(hits: seq<Point>, c: Point): (r: seq<Root>)
    ensures |r| == |hits|
    ensures forall i :: 0 <= i < |hits| ==>
              r[i].square == Sq((hits[i].x - c.x) * TargetDiameterMm) + Sq((hits[i].y - c.y) * TargetDiameterMm)
  {
    seq(|hits|, i requires 0 <= i < |hits| =>
      Root(Sq((hits[i].x - c.x) * TargetDiameterMm) + Sq((hits[i].y - c.y) * TargetDiameterMm)))
  }

  /** `distances.reduce((sum, d) => sum + d * d, 0)`. */
  function SumOfSquaredRoots(ds: seq<Root>): (r: real)
    ensures 0.0 <= r
    decreases |ds|
  {
    if ds == [] then 0.0 else SumOfSquaredRoots(ds[..|ds| - 1]) + ds[|ds| - 1].square
  }

  /** `radialDispersion(hits)`: null below two hits, otherwise the root mean square distance
      from the centroid, in millimetres. */
  function RadialDispersion(hits: seq<Point>): (r: Option<Root>)
    ensures r.None? <==> |hits| < 2
    ensures r.Some? ==> r.value.square == Quotient(SumOfSquaredRoots(RadialDistances(hits, MeanPoint(hits).value)), |hits|)
  {
    if |hits| < 2 then None
    else
      var center := MeanPoint(hits).value;
      var distances := RadialDistances(hits, center);
      Some(Root(Quotient(SumOfSquaredRoots(distances), |distances|)))
  }

  /** The object `computeTechnicalSummary` returns. */
  datatype TechnicalSummary = TechnicalSummary(
    arrowsCount: nat,
    meanX: real,
    meanY: real,
    dispersionRadius: Root,
    spreadX: Root,
    spreadY: Root)

  /** `computeTechnicalSummary(hits)`: null below two hits. */
  function ComputeTechnicalSummary(hits: seq<Point>): (r: Option<TechnicalSummary>)
    ensures r.None? <==> |hits| < 2
    ensures r.Some? ==> r.value.arrowsCount == |hits|
    ensures r.Some? ==> Point(r.value.meanX, r.value.meanY) == MeanPoint(hits).value
    ensures r.Some? ==> Some(r.value.dispersionRadius) == RadialDispersion(hits)
    ensures r.Some? ==> r.value.spreadX.square == Quotient(SumSquares(AddConst(Xs(hits), -r.value.meanX)), |hits|)
    ensures r.Some? ==> r.value.spreadY.square == Quotient(SumSquares(AddConst(Ys(hits), -r.value.meanY)), |hits|)
  {
    if |hits| < 2 then None
    else
      var center := MeanPoint(hits).value;
      var dx := AddConst(Xs(hits), -center.x);
      var dy := AddConst(Ys(hits), -center.y);
      var spreadX := Root(Quotient(SumSquares(dx), |dx|));
      var spreadY := Root(Quotient(SumSquares(dy), |dy|));
      Some(TechnicalSummary(|hits|, center.x, center.y, RadialDispersion(hits).value, spreadX, spreadY))
  }

  /** A spread is zero exactly when every hit has the same coordinate on that axis. */
  lemma SpreadZero(hits: seq<Point>)
    requires |hits| >= 2
    ensures var t := ComputeTechnicalSummary(hits).value;
            && (t.spreadX.square == 0.0 <==> forall i, j :: 0 <= i < |hits| && 0 <= j < |hits| ==> hits[i].x == hits[j].x)
            && (t.spreadY.square == 0.0 <==> forall i, j :: 0 <= i < |hits| && 0 <= j < |hits| ==> hits[i].y == hits[j].y)
  {
    var t := ComputeTechnicalSummary(hits).value;
    assert t.spreadX.square == PopVariance(Xs(hits));
    assert t.spreadY.square == PopVariance(Ys(hits));
    PopVarianceZero(Xs(hits));
    PopVarianceZero(Ys(hits));
  }

  /** The offsets from the centroid add up to zero on each axis. */
  lemma OffsetsSumZero(hits: seq<Point>)
    requires hits != []
    ensures Sum(AddConst(Xs(hits), -MeanPoint(hits).value.x)) == 0.0
    ensures Sum(AddConst(Ys(hits), -MeanPoint(hits).value.y)) == 0.0
  {
    assert MeanPoint(hits).value == Point(Average(Xs(hits)), Average(Ys(hits)));
    DeviationsSumZero(Xs(hits));
    DeviationsSumZero(Ys(hits));
  }

  lemma ScaledSquare(a: real)
    ensures Sq(a * TargetDiameterMm) == 250000.0 * Sq(a)
  {
    var s := a * 500.0;
    assert s * s == 250000.0 * (a * a);
  }

  /** Summing the millimetre distances axis by axis. */
  lemma SumOfSquaredRootsSplit(hits: seq<Point>, c: Point)
    ensures SumOfSquaredRoots(RadialDistances(hits, c))
            == 250000.0 * (SumSquares(AddConst(Xs(hits), -c.x)) + SumSquares(AddConst(Ys(hits), -c.y)))
  {
    var ds, dx, dy := RadialDistances(hits, c), AddConst(Xs(hits), -c.x), AddConst(Ys(hits), -c.y);
    forall i | 0 <= i < |ds|
      ensures ds[i].square == 250000.0 * (Sq(dx[i]) + Sq(dy[i]))
    {
      DistanceSplit(hits, c, i);
    }
    SumOfSplitSquares(ds, dx, dy);
  }

  /** One hit's squared distance, axis by axis. */
  lemma DistanceSplit(hits: seq<Point>, c: Point, i: nat)
    requires i < |hits|
    ensures RadialDistances(hits, c)[i].square
            == 250000.0 * (Sq(AddConst(Xs(hits), -c.x)[i]) + Sq(AddConst(Ys(hits), -c.y)[i]))
  {
    var a, b := AddConst(Xs(hits), -c.x)[i], AddConst(Ys(hits), -c.y)[i];
    assert a == hits[i].x - c.x && b == hits[i].y - c.y;
    ScaledSquare(a);
    ScaledSquare(b);
  }

  /** Squares that split term by term into two axes add up axis by axis. */
  lemma {:induction false} SumOfSplitSquares(ds: seq<Root>, dx: seq<real>, dy: seq<real>)
    requires |ds| == |dx| == |dy|
    requires forall i :: 0 <= i < |ds| ==> ds[i].square == 250000.0 * (Sq(dx[i]) + Sq(dy[i]))
    ensures SumOfSquaredRoots(ds) == 250000.0 * (SumSquares(dx) + SumSquares(dy))
    decreases |ds|
  {
    if ds != [] {
      var n := |ds|;
      SumOfSplitSquares(ds[..n - 1], dx[..n - 1], dy[..n - 1]);
    }
  }

  /** The radial dispersion is the two axis spreads combined and scaled to millimetres:
      `dispersionRadius² = 500²·(spreadX² + spreadY²)`. */
  lemma DispersionFromSpreads(hits: seq<Point>)
    requires |hits| >= 2
    ensures var t := ComputeTechnicalSummary(hits).value;
            t.dispersionRadius.square == 250000.0 * (t.spreadX.square + t.spreadY.square)
  {
    var t := ComputeTechnicalSummary(hits).value;
    var c := MeanPoint(hits).value;
    assert c == Point(t.meanX, t.meanY);
    var sx, sy := SumSquares(AddConst(Xs(hits), -c.x)), SumSquares(AddConst(Ys(hits), -c.y));
    var sd := SumOfSquaredRoots(RadialDistances(hits, c));
    SumOfSquaredRootsSplit(hits, c);
    assert t.dispersionRadius.square == Quotient(sd, |hits|);
    assert t.spreadX.square == Quotient(sx, |hits|) && t.spreadY.square == Quotient(sy, |hits|);
    QuotientOfSplit(sd, sx, sy, |hits|);
  }

  lemma QuotientOfSplit(sd: real, sx: real, sy: real, n: nat)
    requires 0 < n && sd == 250000.0 * (sx + sy)
    ensures Quotient(sd, n) == 250000.0 * (Quotient(sx, n) + Quotient(sy, n))
  {
    QuotientScaledSum(250000.0, sx, sy, n);
  }

  /** Every hit moved by the same offset. */
  function Shift(hits: seq<Point>, ox: real, oy: real): (r: seq<Point>)
    ensures |r| == |hits|
    ensures forall i :: 0 <= i < |hits| ==> r[i] == Point(hits[i].x + ox, hits[i].y + oy)
  {
    seq(|hits|, i requires 0 <= i < |hits| => Point(hits[i].x + ox, hits[i].y + oy))
  }

  lemma ShiftAxes(hits: seq<Point>, ox: real, oy: real)
    ensures Xs(Shift(hits, ox, oy)) == AddConst(Xs(hits), ox)
    ensures Ys(Shift(hits, ox, oy)) == AddConst(Ys(hits), oy)
  {
  }

  /** The spread on one axis is the population variance of that coordinate. */
  lemma SpreadsAreVariances(hits: seq<Point>)
    requires |hits| >= 2
    ensures var t := ComputeTechnicalSummary(hits).value;
            t.spreadX.square == PopVariance(Xs(hits)) && t.spreadY.square == PopVariance(Ys(hits))
  {
  }

  /** Translating the group moves the centroid by the offset and changes neither spread nor
      the radial dispersion. */
  lemma TranslationInvariance(hits: seq<Point>, ox: real, oy: real)
    requires |hits| >= 2
    ensures var t, u := ComputeTechnicalSummary(hits).value, ComputeTechnicalSummary(Shift(hits, ox, oy)).value;
            && u.meanX == t.meanX + ox && u.meanY == t.meanY + oy
            && u.spreadX == t.spreadX && u.spreadY == t.spreadY
            && u.dispersionRadius == t.dispersionRadius
  {
    var moved := Shift(hits, ox, oy);
    ShiftAxes(hits, ox, oy);
    AverageAddConst(Xs(hits), ox);
    AverageAddConst(Ys(hits), oy);
    PopVarianceAddConst(Xs(hits), ox);
    PopVarianceAddConst(Ys(hits), oy);
    SpreadsAreVariances(hits);
    SpreadsAreVariances(moved);
    DispersionFromSpreads(hits);
    DispersionFromSpreads(moved);
  }
}
