# Elographics touch-panel calibration, modelled in Dafny

This project models the calibration core of `calibrate_xf86elo`. The tool shows
four crosshair targets, each 50 pixels inside one corner of the screen. On each
touch release it records the raw controller position that the elographics driver
has left in a shared record. From the four samples it fits an affine map
`raw = a * screen + b` per axis. It then writes the resulting integer bounds back
into the shared record, and the driver reads them from there.

Modules:

- `EloShm` (`elo_shm.dfy`): the shared record `EloShmRec`, ten `int` fields in
  the driver's order. It is a class because the tool updates it in place.
  `OnlyBoundsChanged` says that the six fields the driver owns kept their values
  across a call.
- `AxisFit` (`axis_fit.dfy`): the arithmetic. Single-precision `float` is
  modelled as exact `real`. The C++ conversion from float to `int` is the relation
  `TruncatesTo`, which rounds toward zero, and the method `ToInt` computes it.
  This module holds:
  - the line through two samples (`LineThrough`);
  - the per-row and per-column estimates;
  - their mean (`FitX`, `FitY`);
  - the bounds relation `IsFit`;
  - the lemmas about these: exact recovery of affine coefficients, the sign of
    the slopes, and the order of the bounds.
- `CornerProtocol` (`corner_protocol.dfy`): the four-corner state counter as a
  function (`Next`, `Fires`), with `After` (the state after n releases) and
  `FitCount` (how many of them run the fit). Its lemmas about runs of releases say: the fit
  runs exactly once, on the fourth release, and state −1 (`Done`) is terminal.
- `Calibration` (`calibration_widget.dfy`): the widget class
  `EloCalibrationWidget`. It holds the fields `fd`, `priv`, `state`,
  `touchPoints[4]`, `screenPoints[4]`, `width` and `height`, and its methods are
  `ResizeEvent`, `MouseReleaseEvent`, `FitAxes` and `CalculateMinMaxXY`. Qt's
  `rect()` is modelled by `width` and `height`: the size last passed to
  `ResizeEvent`, and 0 × 0 before the first resize. The module also has the
  target layout `Targets` and three clients. `FirstThreeCorners` drives the
  first three releases of a session on a fresh record, and `RunCorners` adds
  the fourth. `CalibrationSession` calls `RunCorners` and then makes a fifth
  release. The module ends with lemmas about the bounds stored in
  the record.

Record fields use Dafny names: `curX` for `cur_x`, `minX` for `min_x`, and so
on. The write is cross-wired exactly as in the code: `min_y` receives `maxy`
and `max_y` receives `miny`. In the model, a `Bounds(minx, maxx, miny, maxy)`
value is therefore stored as `Bounds(priv.minX, priv.maxX, priv.maxY, priv.minY)`.

Behaviour of the code kept in the model:
- The code has no degenerate-geometry error. Dividing by zero when the width or
  height is 100 gives an infinity or NaN, and converting that to `int` is
  undefined. So non-degenerate targets are a precondition of the fourth release
  (`Spans`).
- The code never validates the record's `version`.
- Samples are captured only when the segment descriptor is strictly positive
  (`_fd > 0`). The segment was still mapped when the descriptor is 0.

## Model

| member | source | states |
|---|---|---|
| `EloShm.EloShmRec.constructor` | src/calibrate_xf86elo.cpp:15-26 | the record holds the ten given field values, in the driver's field order |
| `AxisFit.ToInt` | src/calibrate_xf86elo.cpp:86-90 | the result is the real input with its fraction discarded toward zero, as the C++ float-to-int conversion does |
| `AxisFit.TruncatesToUnique` | src/calibrate_xf86elo.cpp:86-90 | the truncation relation has at most one result per input |
| `AxisFit.TruncatesToMonotone` | src/calibrate_xf86elo.cpp:86-90 | truncation toward zero preserves order |
| `AxisFit.LineThrough` | src/calibrate_xf86elo.cpp:69-70 | the slope/intercept computed from two samples gives a line through both samples |
| `AxisFit.LineThroughUnique` | src/calibrate_xf86elo.cpp:69-70 | any line through two samples with distinct screen coordinates is the computed one |
| `AxisFit.LineThroughSlopeSign` | src/calibrate_xf86elo.cpp:69 | with increasing screen coordinates, the slope is positive iff raw increases and negative iff it decreases |
| `AxisFit.Spans` | src/calibrate_xf86elo.cpp:69-75 | defines non-degenerate targets (the denominators of lines 69 and 75): both rows span distinct screen X and both columns distinct screen Y, so no slope divides by zero |
| `AxisFit.RowSumX` | src/calibrate_xf86elo.cpp:71-72 | defines the running sums `a_x`, `b_x` of the first n row estimates; `FitAxes`'s loop invariant is stated against it |
| `AxisFit.ColSumY` | src/calibrate_xf86elo.cpp:77-78 | defines the running sums `a_y`, `b_y` of the first n column estimates; `FitAxes`'s loop invariant is stated against it |
| `AxisFit.FitX` | src/calibrate_xf86elo.cpp:64-82 | `a_x`, `b_x` are the means of the top-row and bottom-row slope and intercept estimates |
| `AxisFit.FitY` | src/calibrate_xf86elo.cpp:64-84 | `a_y`, `b_y` are the means of the left-column and right-column slope and intercept estimates |
| `AxisFit.TruncatesTo` | src/calibrate_xf86elo.cpp:86-90 | defines the C++ float-to-int conversion: the integer reached by discarding the fraction toward zero |
| `AxisFit.RowX` | src/calibrate_xf86elo.cpp:69-70 | defines the X estimate of row i: the line through the samples at targets 2i and 2i+1 |
| `AxisFit.ColY` | src/calibrate_xf86elo.cpp:75-76 | defines the Y estimate of column i: the line through the samples at targets i and i+2 |
| `AxisFit.AxisBounds` | src/calibrate_xf86elo.cpp:86-90 | defines one axis's bounds: the truncated raw value at screen 0 and at the full extent |
| `AxisFit.IsFit` | src/calibrate_xf86elo.cpp:86-90 | defines the four bounds of a fit: `AxisBounds` of `FitX` over the width and of `FitY` over the height |
| `AxisFit.IsFitUnique` | src/calibrate_xf86elo.cpp:86-90 | the fit relation determines the bounds: two bounds that are both the fit of the same samples and targets are equal |
| `AxisFit.FitXRecoversAffine` | src/calibrate_xf86elo.cpp:69-72 | if every raw X is `a * screen X + b`, the fitted X map is exactly `(a, b)` |
| `AxisFit.FitYRecoversAffine` | src/calibrate_xf86elo.cpp:75-78 | if every raw Y is `a * screen Y + b`, the fitted Y map is exactly `(a, b)` |
| `AxisFit.FitOfAffineSamples` | src/calibrate_xf86elo.cpp:86-90 | for affine samples, the bounds are exactly the truncations of `b` and `extent * a + b` on each axis |
| `AxisFit.FitXSlopeSign` | src/calibrate_xf86elo.cpp:69-81 | raw X rising along both rows gives a positive fitted X slope; falling along both gives a negative one |
| `AxisFit.FitYSlopeSign` | src/calibrate_xf86elo.cpp:75-83 | raw Y rising down both columns gives a positive fitted Y slope; falling gives a negative one |
| `AxisFit.AxisBoundsOrder` | src/calibrate_xf86elo.cpp:86-90 | on a non-negative extent, the min bound is at most the max bound for a non-negative slope, and at least it for a non-positive slope |
| `CornerProtocol.Advance` | src/calibrate_xf86elo.cpp:110-122 | defines the switch: states 0..3 advance by one, every other value matches no case and stays |
| `CornerProtocol.Fires` | src/calibrate_xf86elo.cpp:124 | defines when a release runs the fit: the advanced counter is 4 |
| `CornerProtocol.Next` | src/calibrate_xf86elo.cpp:110-128 | defines one release's transition: Done (−1) when the fit runs, the advanced counter otherwise |
| `CornerProtocol.After` | src/calibrate_xf86elo.cpp:110-128 | defines the state after n releases from a given state, by n applications of `Next` |
| `CornerProtocol.FitCount` | src/calibrate_xf86elo.cpp:124-127 | defines how many of n releases from a given state run the fit |
| `CornerProtocol.NextOnReachable` | src/calibrate_xf86elo.cpp:110-128 | from states −1..3, only state 3 runs the fit; states 0..2 advance by one, and 3 and −1 go to −1 |
| `CornerProtocol.DoneIsTerminal` | src/calibrate_xf86elo.cpp:110-128 | after state −1, any number of releases leaves the state at −1 and never runs the fit |
| `CornerProtocol.ReleasesFrom` | src/calibrate_xf86elo.cpp:110-128 | from corner k, n releases reach corner k+n below 4 and −1 from then on; the fit has run once exactly when k+n ≥ 4 |
| `CornerProtocol.SessionFromStart` | src/calibrate_xf86elo.cpp:109-128 | from the initial state 0, release n < 4 waits for corner n; from the fourth release on the state is −1 and the fit has run exactly once |
| `Calibration.Targets` | src/calibrate_xf86elo.cpp:103-106 | targets 0/1 and 2/3 share y, and 0/2 and 1/3 share x; the row spans are `width−100` and the column spans `height−100`; the fit divides by no zero iff width ≠ 100 and height ≠ 100 |
| `Calibration.RawPoint` | src/calibrate_xf86elo.cpp:116 | defines a sample: the record's raw `cur_x`, `cur_y` as a point |
| `Calibration.EloCalibrationWidget.constructor` | src/calibrate_xf86elo.cpp:37-46 | the widget starts in state 0 with all points at the origin, holding the mapped record only when the segment opened |
| `Calibration.EloCalibrationWidget.ResizeEvent` | src/calibrate_xf86elo.cpp:102-107 | the screen targets become `Targets(width, height)`; samples and state are kept |
| `Calibration.EloCalibrationWidget.FitAxes` | src/calibrate_xf86elo.cpp:58-84 | the two-iteration accumulation followed by halving yields exactly `FitX` and `FitY` of the samples and targets |
| `Calibration.EloCalibrationWidget.CalculateMinMaxXY` | src/calibrate_xf86elo.cpp:86-99 | the record stores the truncated bounds with Y cross-wired (`min_y` ← maxy, `max_y` ← miny); the other six fields are unchanged |
| `Calibration.EloCalibrationWidget.MouseReleaseEvent` | src/calibrate_xf86elo.cpp:109-129 | the state becomes `Next(old state)`; in states 0..3 the raw position is stored at index `old state`, only when `fd > 0`, and other samples are unchanged; the fourth release writes the fit into the record; every other release leaves the record unchanged |
| `Calibration.FirstThreeCorners` | src/calibrate_xf86elo.cpp:109-122 | three releases on a fresh record, each after the driver reports a raw position, leave the widget waiting for the last corner with those positions as its first three samples, the record's bounds untouched and the driver's fields as it set them |
| `Calibration.RunCorners` | src/calibrate_xf86elo.cpp:109-128 | four releases on a fresh record, each after the driver reports a raw position, leave the widget Done with those positions as samples in TL, TR, BL, BR order, their fit in the record with Y cross-wired, and the driver's fields as it set them |
| `Calibration.CalibrationSession` | src/calibrate_xf86elo.cpp:109-128 | after the four corners and a fifth release with a new raw position, the samples are still the four reported positions, the record still holds their cross-wired fit, the driver's `version`, `swap_axes`, `untouch_delay` and `report_delay` are as it set them, and the state is −1: the bounds are written once per session |
| `Calibration.PanelOrientation` | src/calibrate_xf86elo.cpp:86-99 | per axis, on a screen larger than the margins: raw X rising along both rows gives `minx ≤ maxx` and falling gives `maxx ≤ minx`; raw Y rising down both columns gives `miny ≤ maxy` (stored as `min_y ≥ max_y`) and falling reverses it; each axis independently of the other |
| `Calibration.WorkedExample` | src/calibrate_xf86elo.cpp:64-90 | on 640×480, with raw 100/900 in X and 100/800 in Y at the targets, the bounds are exactly minx 25, maxx 974, miny 7, maxy 892 |

## Left out

- Opening, mapping, unmapping and unlinking the shared segment (`shm_open`, `mmap`, `munmap`, `shm_unlink`) are operating-system I/O. The constructor receives the descriptor and the mapped record as parameters, and mapping failure is not modelled.
- The driver process writes `cur_x`/`cur_y` concurrently. The model treats that as assignments to the record's fields between events (as in `RunCorners` and `CalibrationSession`). Torn or stale reads are not modelled.
- Crosshair painting, full-screen display, repaint, application exit and `main` are user interface. The `printf` diagnostics are output only.
- IEEE single-precision rounding is not modelled: the fit is exact over `real`. Values outside the 32-bit `int` range, whose conversion C++ leaves undefined, are not modelled either.
- `Calibration.EloCalibrationWidget.MouseReleaseEvent`: the fourth release requires a mapped record and non-degenerate targets. When the segment failed to open, the code writes through an uninitialised pointer. When the width or height is 100, it converts an infinity or NaN to `int`. Both are undefined behaviour, so the model excludes them.
- `Calibration.EloCalibrationWidget.FitAxes`: this and `CalculateMinMaxXY` are one C++ function split in two. The loop and the averaging are in `FitAxes`; the truncation and the record write are in `CalculateMinMaxXY`.
- The configuration-file rewriting and the command-line options are not part of this model.
