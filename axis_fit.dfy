/** The arithmetic of the calibration: a per-axis affine fit raw = a * screen + b
    from four touch samples taken at four screen targets, and the integer bounds
    derived from it.

    The source computes in single-precision floats; this model computes exactly,
    over `real`, and converts to `int` by truncation toward zero as C++ does.

    Points are indexed top-left (0), top-right (1), bottom-left (2),
    bottom-right (3). X is fitted along the top row (0, 1) and the bottom row
    (2, 3); Y along the left column (0, 2) and the right column (1, 3). */
module AxisFit {

  /** A point in screen pixels or in raw controller units (a QPointF). */
  datatype Point = Point(x: real, y: real)

  /** The affine map raw = a * screen + b along one axis. */
  datatype Line = Line(a: real, b: real)

  /** The four integers minx, maxx, miny, maxy computed by the fit, before
      they are stored into the shared record. */
  datatype Bounds = Bounds(minX: int, maxX: int, minY: int, maxY: int)

  /** t is r with its fractional part discarded, rounding toward zero, as a
      C++ conversion from floating point to int does. */
  predicate TruncatesTo(r: real, t: int)
  {
    if 0.0 <= r then t as real <= r < t as real + 1.0
    else t as real - 1.0 < r <= t as real
  }

  /** The conversion itself. */
  method ToInt(r: real) returns (t: int)
    ensures TruncatesTo(r, t)
  {
    if 0.0 <= r {
      t := r.Floor;
    } else {
      t := -((-r).Floor);
    }
  }

  /** The conversion has one result: TruncatesTo is a function of r. */
  lemma TruncatesToUnique(r: real, t: int, u: int)
    requires TruncatesTo(r, t) && TruncatesTo(r, u)
    ensures t == u
  {
  }

  /** The conversion is monotone. */
  lemma TruncatesToMonotone(x: real, m: int, y: real, n: int)
    requires TruncatesTo(x, m) && TruncatesTo(y, n) && x <= y
    ensures m <= n
  {
  }

  /** The line through the two samples (s0, r0) and (s1, r1): slope first,
      then the intercept from the first sample. */
  function LineThrough(s0: real, r0: real, s1: real, r1: real): (l: Line)
    requires s0 != s1
    ensures l.a * s0 + l.b == r0
    ensures l.a * s1 + l.b == r1
  {
    var a := (r1 - r0) / (s1 - s0);
    assert a * (s1 - s0) == r1 - r0;
    Line(a, r0 - a * s0)
  }

  /** Two samples at distinct screen coordinates determine the line: any line
      through both is the one LineThrough computes. */
  lemma LineThroughUnique(s0: real, r0: real, s1: real, r1: real, l: Line)
    requires s0 != s1
    requires l.a * s0 + l.b == r0 && l.a * s1 + l.b == r1
    ensures LineThrough(s0, r0, s1, r1) == l
  {
    var m := LineThrough(s0, r0, s1, r1);
    assert (m.a - l.a) * (s1 - s0) == 0.0;
    assert m.a == l.a;
  }

  /** The sign of the slope through two samples follows the direction of the
      raw values when the screen coordinates increase. */
  lemma LineThroughSlopeSign(s0: real, r0: real, s1: real, r1: real)
    requires s0 < s1
    ensures r0 < r1 <==> LineThrough(s0, r0, s1, r1).a > 0.0
    ensures r1 < r0 <==> LineThrough(s0, r0, s1, r1).a < 0.0
  {
    var a := LineThrough(s0, r0, s1, r1).a;
    assert a * (s1 - s0) == r1 - r0;
    if a > 0.0 { assert a * (s1 - s0) > 0.0; }
    if a < 0.0 { assert a * (s1 - s0) < 0.0; }
    if a == 0.0 { assert a * (s1 - s0) == 0.0; }
  }

  /** No slope in the fit divides by zero: both rows span distinct screen X
      and both columns span distinct screen Y. */
  predicate Spans(s: seq<Point>)
  {
    && |s| == 4
    && s[0].x != s[1].x && s[2].x != s[3].x
    && s[0].y != s[2].y && s[1].y != s[3].y
  }

  /** The X estimate from row i: the top row for i = 0, the bottom row for i = 1. */
  function RowX(t: seq<Point>, s: seq<Point>, i: int): Line
    requires |t| == 4 && Spans(s) && 0 <= i < 2
  {
    LineThrough(s[2 * i].x, t[2 * i].x, s[1 + 2 * i].x, t[1 + 2 * i].x)
  }

  /** The Y estimate from column i: the left column for i = 0, the right one for i = 1. */
  function ColY(t: seq<Point>, s: seq<Point>, i: int): Line
    requires |t| == 4 && Spans(s) && 0 <= i < 2
  {
    LineThrough(s[i].y, t[i].y, s[2 + i].y, t[2 + i].y)
  }

  /** The sums of slopes and of intercepts of the first n row estimates. */
  function RowSumX(t: seq<Point>, s: seq<Point>, n: int): Line
    requires |t| == 4 && Spans(s) && 0 <= n <= 2
  {
    if n == 0 then Line(0.0, 0.0)
    else
      var acc := RowSumX(t, s, n - 1);
      var row := RowX(t, s, n - 1);
      Line(acc.a + row.a, acc.b + row.b)
  }

  /** The sums of slopes and of intercepts of the first n column estimates. */
  function ColSumY(t: seq<Point>, s: seq<Point>, n: int): Line
    requires |t| == 4 && Spans(s) && 0 <= n <= 2
  {
    if n == 0 then Line(0.0, 0.0)
    else
      var acc := ColSumY(t, s, n - 1);
      var col := ColY(t, s, n - 1);
      Line(acc.a + col.a, acc.b + col.b)
  }

  /** The fitted X map: the mean of the top-row and bottom-row estimates. */
  function FitX(t: seq<Point>, s: seq<Point>): (l: Line)
    requires |t| == 4 && Spans(s)
    ensures l.a == (RowX(t, s, 0).a + RowX(t, s, 1).a) / 2.0
    ensures l.b == (RowX(t, s, 0).b + RowX(t, s, 1).b) / 2.0
  {
    var sum := RowSumX(t, s, 2);
    assert RowSumX(t, s, 1) == RowX(t, s, 0);
    assert sum == Line(RowX(t, s, 0).a + RowX(t, s, 1).a, RowX(t, s, 0).b + RowX(t, s, 1).b);
    Line(sum.a / 2.0, sum.b / 2.0)
  }

  /** The fitted Y map: the mean of the left-column and right-column estimates. */
  function FitY(t: seq<Point>, s: seq<Point>): (l: Line)
    requires |t| == 4 && Spans(s)
    ensures l.a == (ColY(t, s, 0).a + ColY(t, s, 1).a) / 2.0
    ensures l.b == (ColY(t, s, 0).b + ColY(t, s, 1).b) / 2.0
  {
    var sum := ColSumY(t, s, 2);
    assert ColSumY(t, s, 1) == ColY(t, s, 0);
    assert sum == Line(ColY(t, s, 0).a + ColY(t, s, 1).a, ColY(t, s, 0).b + ColY(t, s, 1).b);
    Line(sum.a / 2.0, sum.b / 2.0)
  }

  /** lo and hi are the raw values at screen coordinate 0 and at the full
      extent of an axis mapped by l, each truncated toward zero. */
  predicate AxisBounds(l: Line, extent: int, lo: int, hi: int)
  {
    TruncatesTo(l.b, lo) && TruncatesTo(extent as real * l.a + l.b, hi)
  }

  /** b holds the integer bounds minx, maxx, miny, maxy of the fit of samples
      t taken at targets s on a width x height screen. */
  predicate IsFit(t: seq<Point>, s: seq<Point>, width: int, height: int, b: Bounds)
    requires |t| == 4 && Spans(s)
  {
    AxisBounds(FitX(t, s), width, b.minX, b.maxX) && AxisBounds(FitY(t, s), height, b.minY, b.maxY)
  }

  /** The fit determines the bounds: the relation IsFit holds of one
      Bounds value only. */
  lemma {:induction false} IsFitUnique(t: seq<Point>, s: seq<Point>, width: int, height: int, b: Bounds, c: Bounds)
    requires |t| == 4 && Spans(s)
    requires IsFit(t, s, width, height, b) && IsFit(t, s, width, height, c)
    ensures b == c
  {
    var x, y := FitX(t, s), FitY(t, s);
    TruncatesToUnique(x.b, b.minX, c.minX);
    TruncatesToUnique(width as real * x.a + x.b, b.maxX, c.maxX);
    TruncatesToUnique(y.b, b.minY, c.minY);
    TruncatesToUnique(height as real * y.a + y.b, b.maxY, c.maxY);
  }

  /** Exact recovery along X: when every raw X is the affine image of its
      target's X, the fit returns that affine map. */
  lemma {:induction false} FitXRecoversAffine(t: seq<Point>, s: seq<Point>, x: Line)
    requires |t| == 4 && Spans(s)
    requires forall k :: 0 <= k < 4 ==> t[k].x == x.a * s[k].x + x.b
    ensures FitX(t, s) == x
  {
    LineThroughUnique(s[0].x, t[0].x, s[1].x, t[1].x, x);
    LineThroughUnique(s[2].x, t[2].x, s[3].x, t[3].x, x);
  }

  /** Exact recovery along Y, as for X. */
  lemma {:induction false} FitYRecoversAffine(t: seq<Point>, s: seq<Point>, y: Line)
    requires |t| == 4 && Spans(s)
    requires forall k :: 0 <= k < 4 ==> t[k].y == y.a * s[k].y + y.b
    ensures FitY(t, s) == y
  {
    LineThroughUnique(s[0].y, t[0].y, s[2].y, t[2].y, y);
    LineThroughUnique(s[1].y, t[1].y, s[3].y, t[3].y, y);
  }

  /** Samples that are the exact affine image of their targets yield the
      bounds of that affine map: the raw value at 0 and at the full extent. */
  lemma {:induction false} FitOfAffineSamples(t: seq<Point>, s: seq<Point>, width: int, height: int,
                                              x: Line, y: Line, b: Bounds)
    requires |t| == 4 && Spans(s)
    requires forall k :: 0 <= k < 4 ==> t[k].x == x.a * s[k].x + x.b
    requires forall k :: 0 <= k < 4 ==> t[k].y == y.a * s[k].y + y.b
    ensures IsFit(t, s, width, height, b) <==> AxisBounds(x, width, b.minX, b.maxX) && AxisBounds(y, height, b.minY, b.maxY)
  {
    assert FitX(t, s) == x by { FitXRecoversAffine(t, s, x); }
    assert FitY(t, s) == y by { FitYRecoversAffine(t, s, y); }
  }

  /** With targets increasing left to right in both rows, the fitted X slope
      is positive when raw X increases along both rows, and negative when it
      decreases along both. */
  lemma {:induction false} FitXSlopeSign(t: seq<Point>, s: seq<Point>)
    requires |t| == 4 && Spans(s)
    requires s[0].x < s[1].x && s[2].x < s[3].x
    ensures t[0].x < t[1].x && t[2].x < t[3].x ==> FitX(t, s).a > 0.0
    ensures t[1].x < t[0].x && t[3].x < t[2].x ==> FitX(t, s).a < 0.0
  {
    LineThroughSlopeSign(s[0].x, t[0].x, s[1].x, t[1].x);
    LineThroughSlopeSign(s[2].x, t[2].x, s[3].x, t[3].x);
  }

  /** With targets increasing top to bottom in both columns, the fitted Y
      slope is positive when raw Y increases down both columns, and negative
      when it decreases down both. */
  lemma {:induction false} FitYSlopeSign(t: seq<Point>, s: seq<Point>)
    requires |t| == 4 && Spans(s)
    requires s[0].y < s[2].y && s[1].y < s[3].y
    ensures t[0].y < t[2].y && t[1].y < t[3].y ==> FitY(t, s).a > 0.0
    ensures t[2].y < t[0].y && t[3].y < t[1].y ==> FitY(t, s).a < 0.0
  {
    LineThroughSlopeSign(s[0].y, t[0].y, s[2].y, t[2].y);
    LineThroughSlopeSign(s[1].y, t[1].y, s[3].y, t[3].y);
  }

  /** On an axis of non-negative extent, the lower bound does not exceed the
      upper one when the slope is non-negative, and the order flips when the
      slope is non-positive (the raw axis runs against the screen axis). */
  lemma {:induction false} AxisBoundsOrder(l: Line, extent: int, lo: int, hi: int)
    requires 0 <= extent && AxisBounds(l, extent, lo, hi)
    ensures 0.0 <= l.a ==> lo <= hi
    ensures l.a <= 0.0 ==> hi <= lo
  {
    var e := extent as real;
    if 0.0 <= l.a {
      assert 0.0 <= e * l.a;
      TruncatesToMonotone(l.b, lo, e * l.a + l.b, hi);
    }
    if l.a <= 0.0 {
      assert e * l.a <= 0.0;
      TruncatesToMonotone(e * l.a + l.b, hi, l.b, lo);
    }
  }
}
