/**
 * The dashboard chart: twelve sample points mapped from data space to a
 * 300 x 150 SVG by two linear scales, joined into a line path of move/line
 * commands, closed down to the baseline for the shaded area, and drawn as
 * circles of which the hovered one is enlarged. Number-to-text formatting of
 * the path string is abstracted into command records.
 */
module Chart {
  import opened Wrappers
  import Arith

  const ChartWidth: real := 300.0
  const ChartHeight: real := 150.0
  const Padding: real := 20.0
  const PointRadius: real := 4.0
  const SampleCount: nat := 12

  /** The x axis of the plot area runs along this y coordinate. */
  const Baseline: real := ChartHeight - Padding

  datatype DataPoint = DataPoint(x: real, y: real)

  /** One command of an SVG path: `M x y`, `L x y` or `Z`. */
  datatype PathCommand = MoveTo(x: real, y: real) | LineTo(x: real, y: real) | ClosePath

  /** A point's `y`: `Math.floor(draw * 50) + 30`. */
  function SampleY(draw: real): (y: real)
    requires 0.0 <= draw < 1.0
    ensures 30.0 <= y <= 79.0 && y == y.Floor as real
  {
    var k := (draw * 50.0).Floor;
    assert 0 <= k <= 49;
    (k + 30) as real
  }

  /** The sample data, from one `Math.random()` draw per point. */
  function SampleData(draws: seq<real>): (data: seq<DataPoint>)
    requires |draws| == SampleCount
    requires forall k :: 0 <= k < |draws| ==> 0.0 <= draws[k] < 1.0
    ensures |data| == SampleCount
    ensures forall i :: 0 <= i < |data| ==> data[i].x == i as real
    ensures forall i :: 0 <= i < |data| ==> 30.0 <= data[i].y <= 79.0 && data[i].y == data[i].y.Floor as real
  {
    seq(SampleCount, i requires 0 <= i < SampleCount => DataPoint(i as real, SampleY(draws[i])))
  }

  /** `xScale` for a data set of `count` points: x = 0 on the left axis, x = count - 1 on the right end. */
  function XScale(x: real, count: nat): (px: real)
    requires count >= 2
    ensures x == 0.0 ==> px == Padding
    ensures x == (count - 1) as real ==> px == ChartWidth - Padding
    ensures 0.0 <= x <= (count - 1) as real <==> Padding <= px <= ChartWidth - Padding
  {
    Arith.Fraction(x, x, (count - 1) as real);
    (x / (count - 1) as real) * (ChartWidth - Padding * 2.0) + Padding
  }

  /** The data x a pixel column stands for. */
  function XUnscale(px: real, count: nat): (x: real)
    requires count >= 2
    ensures XScale(x, count) == px
  {
    var d := (count - 1) as real;
    var x := (px - Padding) / (ChartWidth - Padding * 2.0) * d;
    assert x / d == (px - Padding) / (ChartWidth - Padding * 2.0);
    x
  }

  /** `xScale` is strictly increasing, so points keep their left-to-right order. */
  lemma XScaleIncreasing(a: real, b: real, count: nat)
    requires count >= 2 && a < b
    ensures XScale(a, count) < XScale(b, count)
  {
    Arith.Fraction(a, b, (count - 1) as real);
  }

  /** Scaling then unscaling a data x gives it back. */
  lemma XRoundTrip(x: real, count: nat)
    requires count >= 2
    ensures XUnscale(XScale(x, count), count) == x
  {
  }

  /** `yScale`: 0 sits on the baseline, 100 at the top of the plot area. */
  function YScale(y: real): (py: real)
    ensures y == 0.0 ==> py == Baseline
    ensures y == 100.0 ==> py == Padding
    ensures 0.0 <= y <= 100.0 <==> Padding <= py <= Baseline
  {
    ChartHeight - ((y / 100.0) * (ChartHeight - Padding * 2.0) + Padding)
  }

  /** The data y a pixel row stands for. */
  function YUnscale(py: real): (y: real)
    ensures YScale(y) == py
  {
    (Baseline - py) / (ChartHeight - Padding * 2.0) * 100.0
  }

  /** `yScale` is strictly decreasing: larger values are drawn higher up. */
  lemma YScaleDecreasing(a: real, b: real)
    requires a < b
    ensures YScale(a) > YScale(b)
  {
  }

  /** Unscaling recovers the data y. */
  lemma YRoundTrip(y: real)
    ensures YUnscale(YScale(y)) == y
  {
  }

  /** The command drawing point `i`: a move for the first point, a line for every later one. */
  function Plot(data: seq<DataPoint>, i: nat): (c: PathCommand)
    requires |data| >= 2 && i < |data|
    ensures !c.ClosePath?
    ensures c.MoveTo? <==> i == 0
    ensures c.x == XScale(data[i].x, |data|) && c.y == YScale(data[i].y)
  {
    var px, py := XScale(data[i].x, |data|), YScale(data[i].y);
    if i == 0 then MoveTo(px, py) else LineTo(px, py)
  }

  /** `linePath`: one command per point, in order. */
  function LinePath(data: seq<DataPoint>): (path: seq<PathCommand>)
    requires |data| >= 2
    ensures |path| == |data|
    ensures forall i :: 0 <= i < |path| ==> path[i] == Plot(data, i)
  {
    seq(|data|, i requires 0 <= i < |data| => Plot(data, i))
  }

  /** The data point a drawing command stands for. */
  function Unplot(c: PathCommand, count: nat): DataPoint
    requires count >= 2 && !c.ClosePath?
  {
    DataPoint(XUnscale(c.x, count), YUnscale(c.y))
  }

  /** The line path determines the data: unscaling each command recovers its point. */
  lemma PathRoundTrip(data: seq<DataPoint>)
    requires |data| >= 2
    ensures forall i :: 0 <= i < |data| ==> Unplot(LinePath(data)[i], |data|) == data[i]
  {
  }

  /** A drawing command whose point lies inside the axes. */
  predicate InsideAxes(c: PathCommand) {
    c.ClosePath? || (Padding <= c.x <= ChartWidth - Padding && Padding <= c.y <= Baseline)
  }

  /** Data with x in [0, count - 1] and y in [0, 100]: what the scales are built for. */
  predicate InRange(data: seq<DataPoint>) {
    forall i :: 0 <= i < |data| ==> 0.0 <= data[i].x <= (|data| - 1) as real && 0.0 <= data[i].y <= 100.0
  }

  /** The sample data is in range. */
  lemma SampleInRange(draws: seq<real>)
    requires |draws| == SampleCount
    requires forall k :: 0 <= k < |draws| ==> 0.0 <= draws[k] < 1.0
    ensures InRange(SampleData(draws))
  {
  }

  /** Every point of the line path lies inside the axes. */
  lemma LineInsideAxes(data: seq<DataPoint>)
    requires |data| >= 2 && InRange(data)
    ensures forall i :: 0 <= i < |data| ==> InsideAxes(LinePath(data)[i])
  {
  }

  /** The area path: the line path, down to the baseline below the last point, back along it, closed. */
  function AreaPath(data: seq<DataPoint>): (area: seq<PathCommand>)
    requires |data| >= 2
    ensures |area| == |data| + 3 && area[..|data|] == LinePath(data)
    ensures area[|data|] == LineTo(XScale(data[|data| - 1].x, |data|), Baseline)
    ensures area[|data| + 1] == LineTo(XScale(0.0, |data|), Baseline)
    ensures area[|data| + 2] == ClosePath
  {
    var n := |data|;
    LinePath(data) + [LineTo(XScale(data[n - 1].x, n), Baseline), LineTo(XScale(0.0, n), Baseline), ClosePath]
  }

  /**
   * When the first point has x = 0, as in the sample data, the area drops
   * straight down from the last point and returns to straight below the
   * first, so its outline is the line plus the baseline segment under it; for
   * data in range every vertex stays inside the axes.
   */
  lemma AreaOutline(data: seq<DataPoint>)
    requires |data| >= 2 && data[0].x == 0.0
    ensures AreaPath(data)[|data|].x == LinePath(data)[|data| - 1].x
    ensures AreaPath(data)[|data| + 1].x == LinePath(data)[0].x
    ensures InRange(data) ==> forall i :: 0 <= i < |data| + 3 ==> InsideAxes(AreaPath(data)[i])
  {
  }

  /** Circle radius of point `i`: enlarged by half only while it is the hovered one. */
  function Radius(hovered: Option<nat>, i: nat): (r: real)
    ensures r == PointRadius * 1.5 <==> hovered == Some(i)
    ensures r == PointRadius <==> hovered != Some(i)
  {
    if hovered == Some(i) then PointRadius * 1.5 else PointRadius
  }

  /** Fill of point `i`: solid blue while hovered, white otherwise. */
  function Fill(hovered: Option<nat>, i: nat): (f: string)
    ensures f == "#3b82f6" <==> hovered == Some(i)
    ensures f == "#fff" <==> hovered != Some(i)
  {
    if hovered == Some(i) then "#3b82f6" else "#fff"
  }

  /** At most one point is enlarged at a time. */
  lemma OneEnlarged(hovered: Option<nat>, i: nat, j: nat)
    requires Radius(hovered, i) > PointRadius && Radius(hovered, j) > PointRadius
    ensures i == j
  {
  }

  /** The `hoveredPoint` state. */
  class ChartHover {
    var hoveredPoint: Option<nat>

    constructor ()
      ensures hoveredPoint == None
    {
      hoveredPoint := None;
    }

    /** `onMouseEnter` of point `i`. */
    method Enter(i: nat)
      modifies this
      ensures hoveredPoint == Some(i)
      ensures Radius(hoveredPoint, i) == PointRadius * 1.5
      ensures forall j: nat :: j != i ==> Radius(hoveredPoint, j) == PointRadius
    {
      hoveredPoint := Some(i);
    }

    /** `onMouseLeave` of any point. */
    method Leave()
      modifies this
      ensures hoveredPoint == None
      ensures forall j: nat :: Radius(hoveredPoint, j) == PointRadius
    {
      hoveredPoint := None;
    }
  }
}
