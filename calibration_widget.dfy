/** The calibration widget: it places four crosshair targets, collects one raw
    touch sample per target from the shared record, fits the axes and writes
    the bounds back into the record. */
module Calibration {
  import opened AxisFit
  import CornerProtocol
  import EloShm

  /** The four targets, 50 pixels inside each corner of a width x height
      screen, in the order top-left, top-right, bottom-left, bottom-right. */
  function Targets(width: int, height: int): (s: seq<Point>)
    ensures |s| == 4 && s[0] == Point(50.0, 50.0)
    ensures s[0].y == s[1].y && s[2].y == s[3].y
    ensures s[0].x == s[2].x && s[1].x == s[3].x
    ensures s[1].x - s[0].x == s[3].x - s[2].x == (width - 100) as real
    ensures s[2].y - s[0].y == s[3].y - s[1].y == (height - 100) as real
    ensures Spans(s) <==> width != 100 && height != 100
  {
    var w, h := width as real, height as real;
    [Point(50.0, 50.0), Point(w - 50.0, 50.0), Point(50.0, h - 50.0), Point(w - 50.0, h - 50.0)]
  }

  /** The sample read from the record's raw coordinates. */
  function RawPoint(x: int, y: int): Point
  {
    Point(x as real, y as real)
  }

  class EloCalibrationWidget {
    /** The descriptor returned by opening the shared segment; negative on failure. */
    const fd: int
    /** The mapped shared record; null when the segment could not be opened. */
    const priv: EloShm.EloShmRec?
    /** 0..3: waiting for that corner; CornerProtocol.Done (-1): finished. */
    var state: int
    /** The raw sample taken at each corner. */
    const touchPoints: array<Point>
    /** The screen target of each corner. */
    const screenPoints: array<Point>
    /** The widget's current size, as Qt's rect() reports it. */
    var width: int
    var height: int

    ghost predicate Valid()
      reads this
    {
      && touchPoints.Length == 4 && screenPoints.Length == 4
      && touchPoints != screenPoints
      && CornerProtocol.Done <= state <= 3
      && (0 <= fd ==> priv != null)
    }

    /** Starts waiting for the top-left corner; all points are at the origin,
        as default-constructed QPointF values are. `mapped` is the record
        mapped from the segment whose descriptor is fd. */
    constructor (fd: int, mapped: EloShm.EloShmRec?)
      requires 0 <= fd ==> mapped != null
      ensures Valid() && fresh(touchPoints) && fresh(screenPoints)
      ensures this.fd == fd && priv == (if fd < 0 then null else mapped)
      ensures state == 0 && width == 0 && height == 0
      ensures touchPoints[..] == screenPoints[..] == seq(4, _ => Point(0.0, 0.0))
    {
      this.fd := fd;
      priv := if fd < 0 then null else mapped;
      state := 0;
      touchPoints := new Point[4](_ => Point(0.0, 0.0));
      screenPoints := new Point[4](_ => Point(0.0, 0.0));
      width, height := 0, 0;
    }

    /** The widget now has the given size and the targets sit 50 pixels
        inside its corners; the samples and the progress are kept. */
    method ResizeEvent(newWidth: int, newHeight: int)
      requires Valid()
      modifies this, screenPoints
      ensures Valid()
      ensures width == newWidth && height == newHeight
      ensures screenPoints[..] == Targets(newWidth, newHeight)
      ensures state == old(state) && touchPoints[..] == old(touchPoints[..])
    {
      width, height := newWidth, newHeight;
      var w, h := newWidth as real, newHeight as real;
      screenPoints[0] := Point(50.0, 50.0);
      screenPoints[1] := Point(w - 50.0, 50.0);
      screenPoints[2] := Point(50.0, h - 50.0);
      screenPoints[3] := Point(w - 50.0, h - 50.0);
    }

    /** The first half of calculateMinMaxXY: slope and intercept from the
        top and bottom rows for X and from the left and right columns for Y,
        each pair accumulated over a two-step loop and then averaged. */
    method FitAxes() returns (x: Line, y: Line)
      requires touchPoints.Length == 4 && Spans(screenPoints[..])
      ensures x == FitX(touchPoints[..], screenPoints[..])
      ensures y == FitY(touchPoints[..], screenPoints[..])
    {
      ghost var t, s := touchPoints[..], screenPoints[..];
      var aX, bX, aY, bY := 0.0, 0.0, 0.0, 0.0;
      for i := 0 to 2
        invariant Line(aX, bX) == RowSumX(t, s, i)
        invariant Line(aY, bY) == ColSumY(t, s, i)
      {
        // The X axis, from row i.
        var tmpA := (touchPoints[1 + i * 2].x - touchPoints[i * 2].x)
                    / (screenPoints[1 + i * 2].x - screenPoints[i * 2].x);
        var tmpB := touchPoints[i * 2].x - tmpA * screenPoints[i * 2].x;
        assert Line(tmpA, tmpB) == RowX(t, s, i);
        aX, bX := aX + tmpA, bX + tmpB;
        // The Y axis, from column i.
        tmpA := (touchPoints[2 + i].y - touchPoints[i].y) / (screenPoints[2 + i].y - screenPoints[i].y);
        tmpB := touchPoints[i].y - tmpA * screenPoints[i].y;
        assert Line(tmpA, tmpB) == ColY(t, s, i);
        aY, bY := aY + tmpA, bY + tmpB;
      }
      x, y := Line(aX / 2.0, bX / 2.0), Line(aY / 2.0, bY / 2.0);
    }

    /** Fits both axes to the four samples and writes minx and maxx into the
        record's X bounds and, cross-wired, maxy into min_y and miny into
        max_y; no other field of the record changes. */
    method CalculateMinMaxXY()
      requires touchPoints.Length == 4 && priv != null && Spans(screenPoints[..])
      modifies priv
      ensures priv.OnlyBoundsChanged()
      ensures IsFit(touchPoints[..], screenPoints[..], width, height,
                    Bounds(priv.minX, priv.maxX, priv.maxY, priv.minY))
    {
      var x, y := FitAxes();

      // Truncated toward zero: the raw value at 0 and at the full width or height.
      var minx := ToInt(x.b);
      var maxx := ToInt(width as real * x.a + x.b);
      var miny := ToInt(y.b);
      var maxy := ToInt(height as real * y.a + y.b);

      priv.minX := minx;
      priv.maxX := maxx;
      priv.minY := maxy;
      priv.maxY := miny;
    }

    /** A touch release. While waiting for a corner, the record's raw position
        becomes that corner's sample (only when the segment descriptor is
        positive) and the state advances; the release that completes the
        fourth corner runs the fit and ends in Done. A release in Done
        changes nothing. */
    method MouseReleaseEvent()
      requires Valid()
      requires state == 3 ==> priv != null && Spans(screenPoints[..])
      modifies this, touchPoints, priv
      ensures Valid()
      ensures state == CornerProtocol.Next(old(state))
      ensures width == old(width) && height == old(height)
      ensures screenPoints[..] == old(screenPoints[..])
      ensures touchPoints[..]
           == if 0 <= old(state) <= 3 && 0 < fd
              then old(touchPoints[..])[old(state) := RawPoint(old(priv.curX), old(priv.curY))]
              else old(touchPoints[..])
      ensures CornerProtocol.Fires(old(state)) ==>
        && priv.OnlyBoundsChanged()
        && IsFit(touchPoints[..], screenPoints[..], width, height,
                 Bounds(priv.minX, priv.maxX, priv.maxY, priv.minY))
      ensures !CornerProtocol.Fires(old(state)) && priv != null ==> unchanged(priv)
    {
      if 0 <= state <= 3 {
        if fd > 0 {
          touchPoints[state] := RawPoint(priv.curX, priv.curY);
        }
        state := state + 1;
      }
      if state == 4 {
        CalculateMinMaxXY();
        state := CornerProtocol.Done;
      }
    }
  }

  /** The start of a session on a fresh record: the widget is sized, and for
      each of the first three corners in turn the driver reports a raw
      position and the user releases. The widget then waits for the last
      corner, its first three samples are the reported positions, and the
      record's bounds are untouched. */
  method FirstThreeCorners(width: int, height: int, raw: seq<(int, int)>,
                           version: int, swapAxes: int, untouchDelay: int, reportDelay: int)
    returns (widget: EloCalibrationWidget, rec: EloShm.EloShmRec)
    requires |raw| == 4
    ensures fresh(widget) && fresh(rec) && fresh(widget.touchPoints) && fresh(widget.screenPoints)
    ensures widget.Valid() && widget.priv == rec && widget.fd == 3
    ensures widget.state == 3
    ensures widget.width == width && widget.height == height
    ensures widget.screenPoints[..] == Targets(width, height)
    ensures forall k :: 0 <= k < 3 ==> widget.touchPoints[k] == RawPoint(raw[k].0, raw[k].1)
    ensures rec.version == version && rec.swapAxes == swapAxes
    ensures rec.untouchDelay == untouchDelay && rec.reportDelay == reportDelay
    ensures rec.minX == rec.maxX == rec.minY == rec.maxY == 0
  {
    rec := new EloShm.EloShmRec(version, 0, 0, 0, 0, 0, 0, swapAxes, untouchDelay, reportDelay);
    widget := new EloCalibrationWidget(3, rec);
    widget.ResizeEvent(width, height);
    rec.curX, rec.curY := raw[0].0, raw[0].1;
    widget.MouseReleaseEvent();
    rec.curX, rec.curY := raw[1].0, raw[1].1;
    widget.MouseReleaseEvent();
    rec.curX, rec.curY := raw[2].0, raw[2].1;
    widget.MouseReleaseEvent();
  }

  /** The four corners of a session on a fresh record: the three of
      FirstThreeCorners, then the driver reports the last raw position and the
      user releases. The widget is then Done, its samples are the four
      reported positions and the record holds their fit against the four
      targets, with Y cross-wired; the fields the driver set are kept. */
  method RunCorners(width: int, height: int, raw: seq<(int, int)>,
                    version: int, swapAxes: int, untouchDelay: int, reportDelay: int)
    returns (widget: EloCalibrationWidget, rec: EloShm.EloShmRec)
    requires |raw| == 4 && width != 100 && height != 100
    ensures fresh(widget) && fresh(rec) && fresh(widget.touchPoints) && fresh(widget.screenPoints)
    ensures widget.Valid() && widget.priv == rec && widget.fd == 3
    ensures widget.state == CornerProtocol.Done
    ensures widget.width == width && widget.height == height
    ensures widget.screenPoints[..] == Targets(width, height)
    ensures widget.touchPoints[..] == seq(4, k requires 0 <= k < 4 => RawPoint(raw[k].0, raw[k].1))
    ensures IsFit(widget.touchPoints[..], widget.screenPoints[..], width, height,
                  Bounds(rec.minX, rec.maxX, rec.maxY, rec.minY))
    ensures rec.version == version && rec.swapAxes == swapAxes
    ensures rec.untouchDelay == untouchDelay && rec.reportDelay == reportDelay
  {
    widget, rec := FirstThreeCorners(width, height, raw, version, swapAxes, untouchDelay, reportDelay);
    rec.curX, rec.curY := raw[3].0, raw[3].1;
    widget.MouseReleaseEvent();
    assert widget.touchPoints[..] == seq(4, k requires 0 <= k < 4 => RawPoint(raw[k].0, raw[k].1));
  }

  /** One whole calibration session: the four corners of RunCorners, then a
      fifth release after the driver has reported yet another position. That
      release changes neither the samples nor the record, so the bounds are
      written once per session; the fields the driver owns keep the values it
      set. All results are read after the fifth release. */
  method CalibrationSession(width: int, height: int, raw: seq<(int, int)>, late: (int, int),
                            version: int, swapAxes: int, untouchDelay: int, reportDelay: int)
    returns (minX: int, maxX: int, minY: int, maxY: int,
             driverFields: seq<int>, finalState: int, samples: seq<Point>)
    requires |raw| == 4 && width != 100 && height != 100
    ensures samples == seq(4, k requires 0 <= k < 4 => RawPoint(raw[k].0, raw[k].1))
    ensures IsFit(samples, Targets(width, height), width, height, Bounds(minX, maxX, maxY, minY))
    ensures driverFields == [version, swapAxes, untouchDelay, reportDelay]
    ensures finalState == CornerProtocol.Done
  {
    var widget, rec := RunCorners(width, height, raw, version, swapAxes, untouchDelay, reportDelay);
    rec.curX, rec.curY := late.0, late.1;
    widget.MouseReleaseEvent();
    samples := widget.touchPoints[..];
    minX, maxX, minY, maxY := rec.minX, rec.maxX, rec.minY, rec.maxY;
    driverFields := [rec.version, rec.swapAxes, rec.untouchDelay, rec.reportDelay];
    finalState := widget.state;
  }

  /** The recorded bounds follow the panel's orientation, axis by axis, on a
      screen larger than the target margins. Raw X increasing left to right
      along both rows gives minx <= maxx, and raw X decreasing gives
      maxx <= minx. Likewise raw Y increasing top to bottom down both columns
      gives miny <= maxy, which the cross-wired write stores as
      min_y >= max_y, and raw Y decreasing reverses that. The order is not
      strict: truncation toward zero can merge the two bounds. On a
      300 x 300 screen, raw X of 0 and 1 along the top row and -1 and 0 along
      the bottom row fit a_x = 1/200, b_x = -0.75, so minx = maxx = 0. */
  lemma {:induction false} PanelOrientation(t: seq<Point>, width: int, height: int, b: Bounds)
    requires |t| == 4 && width > 100 && height > 100
    requires IsFit(t, Targets(width, height), width, height, b)
    ensures t[0].x < t[1].x && t[2].x < t[3].x ==> b.minX <= b.maxX
    ensures t[1].x < t[0].x && t[3].x < t[2].x ==> b.maxX <= b.minX
    ensures t[0].y < t[2].y && t[1].y < t[3].y ==> b.minY <= b.maxY
    ensures t[2].y < t[0].y && t[3].y < t[1].y ==> b.maxY <= b.minY
  {
    var s := Targets(width, height);
    FitXSlopeSign(t, s);
    FitYSlopeSign(t, s);
    AxisBoundsOrder(FitX(t, s), width, b.minX, b.maxX);
    AxisBoundsOrder(FitY(t, s), height, b.minY, b.maxY);
  }

  /** A 640 x 480 screen whose panel reports raw 100 at the left and top
      targets and raw 900 (X) and 800 (Y) at the right and bottom ones:
      a_x = 40/27, b_x = 700/27, a_y = 35/19, b_y = 150/19, so the fit gives
      minx 25, maxx 974, miny 7, maxy 892, and no other bounds. */
  lemma WorkedExample(b: Bounds)
    ensures IsFit([Point(100.0, 100.0), Point(900.0, 100.0), Point(100.0, 800.0), Point(900.0, 800.0)],
                  Targets(640, 480), 640, 480, b)
        <==> b == Bounds(25, 974, 7, 892)
  {
    var t := [Point(100.0, 100.0), Point(900.0, 100.0), Point(100.0, 800.0), Point(900.0, 800.0)];
    var x, y := Line(40.0 / 27.0, 700.0 / 27.0), Line(35.0 / 19.0, 150.0 / 19.0);
    FitOfAffineSamples(t, Targets(640, 480), 640, 480, x, y, b);
    assert 640.0 * x.a + x.b == 26300.0 / 27.0;
    assert 480.0 * y.a + y.b == 16950.0 / 19.0;
  }
}
