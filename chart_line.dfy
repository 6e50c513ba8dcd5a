/**
 * The line variant of the dashboard chart (`renderLineChart`), as data: the path,
 * the filled area under it, the point markers, the gridlines and both axes' labels.
 * Horizontal positions are percentages of the width, vertical ones pixels from the top.
 */
module ChartLine {
  import opened Js
  import opened ChartScale

  /** One command of an SVG path `d` attribute. */
  datatype PathCommand = MoveTo(x: JsNumber, y: real) | LineTo(x: JsNumber, y: real) | ClosePath

  /** A data-point circle at (`cx`%, `cy`). */
  datatype Marker = Marker(cx: JsNumber, cy: real)

  datatype LineChart = LineChart(
    gridlines: seq<real>,
    path: seq<PathCommand>,
    area: seq<PathCommand>,
    markers: seq<Marker>,
    xLabels: seq<XLabel>,
    yLabels: seq<YLabel>)

  /**
   * `(index / (n - 1)) * 100`.  With a single point this is `0 / 0`, which is NaN:
   * the model keeps that as `NotANumber` rather than inventing a position.
   */
  function LineX(index: nat, n: nat): (x: JsNumber)
    requires index < n
    ensures n == 1 <==> x.NotANumber?
    ensures x.Finite? ==> 0.0 <= x.r <= 100.0
    ensures n >= 2 && index == 0 ==> x == Finite(0.0)
    ensures n >= 2 && index == n - 1 ==> x == Finite(100.0)
  {
    if n == 1 then NotANumber
    else
      var q := index as real / (n - 1) as real;
      assert q <= 1.0 by { DivideMonotone(index as real, (n - 1) as real, (n - 1) as real); }
      assert index == n - 1 ==> q == 1.0;
      Finite(q * 100.0)
  }

  /** Pixel height of point `index`: `getChartPosition(point.y || point.value, …)`. */
  function PointY(data: seq<Point>, s: Scale, index: nat, height: real,
                  text: string -> Option<real>): real
    requires index < |data|
  {
    ChartPosition(RawValue(data[index]), s.maxValue, s.minValue, height, text)
  }

  /** The `d` of the line: `M` to the first point, then `L` to each following one. */
  function LinePath(data: seq<Point>, s: Scale, height: real,
                    text: string -> Option<real>): (d: seq<PathCommand>)
    ensures |d| == |data|
    ensures forall i :: 0 <= i < |d| ==> (d[i].MoveTo? <==> i == 0) && !d[i].ClosePath?
    ensures forall i :: 0 <= i < |d| ==>
              d[i].x == LineX(i, |data|) && d[i].y == PointY(data, s, i, height, text)
  {
    seq(|data|, i requires 0 <= i < |data| =>
      if i == 0 then MoveTo(LineX(i, |data|), PointY(data, s, i, height, text))
      else LineTo(LineX(i, |data|), PointY(data, s, i, height, text)))
  }

  /** The `d` of the area fill: the line, then down the right edge, along the bottom, closed. */
  function AreaPath(data: seq<Point>, s: Scale, height: real,
                    text: string -> Option<real>): (a: seq<PathCommand>)
    ensures |a| == |data| + 3
    ensures a[..|data|] == LinePath(data, s, height, text)
    ensures a[|a| - 1].ClosePath? && forall i :: 0 <= i < |a| - 1 ==> !a[i].ClosePath?
    ensures a[|data|].LineTo? && a[|data|].y == height && a[|data| + 1].LineTo? && a[|data| + 1].y == height
  {
    LinePath(data, s, height, text)
      + [LineTo(Finite(100.0), height), LineTo(Finite(0.0), height), ClosePath]
  }

  function Markers(data: seq<Point>, s: Scale, height: real,
                   text: string -> Option<real>): (ms: seq<Marker>)
    ensures |ms| == |data|
    ensures forall i :: 0 <= i < |ms| ==>
              ms[i] == Marker(LineX(i, |data|), PointY(data, s, i, height, text))
  {
    seq(|data|, i requires 0 <= i < |data| =>
      Marker(LineX(i, |data|), PointY(data, s, i, height, text)))
  }

  /**
   * X-axis labels: the last is pinned at 98% and the first at 2% (the last-index
   * test is made first), the others sit under their points.
   */
  function LineXLabels(data: seq<Point>, height: real): (ls: seq<XLabel>)
    ensures |ls| == |data|
    ensures forall i :: 0 <= i < |ls| ==> ls[i].y == XLabelY(height)
    ensures forall i :: 0 <= i < |ls| ==> ls[i].text == LabelText(data[i], Day(i + 1))
    ensures |ls| > 0 ==> ls[|ls| - 1].x == Finite(98.0)
    ensures |ls| > 1 ==> ls[0].x == Finite(2.0)
    ensures forall i :: 0 < i < |ls| - 1 ==> ls[i].x == LineX(i, |data|)
  {
    seq(|data|, i requires 0 <= i < |data| =>
      XLabel(
        if i == |data| - 1 then Finite(98.0)
        else if i == 0 then Finite(2.0)
        else LineX(i, |data|),
        XLabelY(height),
        LabelText(data[i], Day(i + 1))))
  }

  /**
   * Y-axis label `i`: `Math.round(maxValue - (i / 4) * range)` at `(i / 4) * height + 4`.
   * (`getSafeValue` of a number is that number, so it is not written out.)
   */
  function LineTick(s: Scale, height: real, i: nat): YLabel
  {
    YLabel(Quarter(i) * height + 4.0, Round(s.maxValue - Quarter(i) * s.range))
  }

  function LineYLabels(s: Scale, height: real): (ls: seq<YLabel>)
    ensures |ls| == 5
    ensures forall i :: 0 <= i < 5 ==> ls[i] == LineTick(s, height, i)
  {
    seq(5, i requires 0 <= i < 5 => LineTick(s, height, i))
  }

  /** `renderLineChart`: None is the "No data available" placeholder. */
  function RenderLine(data: seq<Point>, height: real, text: string -> Option<real>): (c: Option<LineChart>)
    ensures c.None? <==> |data| == 0
    ensures c.Some? ==> |c.value.area| == |c.value.path| + 3
  {
    match Calculations(data, text)
    case None => None
    case Some(s) =>
      Some(LineChart(
        Gridlines(height),
        LinePath(data, s, height, text),
        AreaPath(data, s, height, text),
        Markers(data, s, height, text),
        LineXLabels(data, height),
        LineYLabels(s, height)))
  }

  /** A non-empty dataset is drawn from its scale; the parts, spelled out. */
  lemma RenderLineParts(data: seq<Point>, height: real, text: string -> Option<real>)
    requires |data| > 0
    ensures Calculations(data, text).Some? && RenderLine(data, height, text).Some?
    ensures var s := Calculations(data, text).value;
      RenderLine(data, height, text).value == LineChart(
        Gridlines(height), LinePath(data, s, height, text), AreaPath(data, s, height, text),
        Markers(data, s, height, text), LineXLabels(data, height), LineYLabels(s, height))
  {
  }

  /** `index / (n - 1)` grows with the index. */
  lemma LineXIncreasing(i: nat, j: nat, n: nat)
    requires i < j < n
    ensures LineX(i, n).Finite? && LineX(j, n).Finite? && LineX(i, n).r < LineX(j, n).r
  {
    var d := (n - 1) as real;
    var qi, qj := i as real / d, j as real / d;
    assert qi * d == i as real && qj * d == j as real;
    assert qi < qj;
  }

  /**
   * The line has one vertex per data point, in input order: a move to the first,
   * a line to each of the others.  Markers sit exactly on the vertices.  With two
   * or more points the x positions climb strictly from 0% to 100%; a lone point
   * has no x position (NaN).
   */
  lemma LinePathShape(data: seq<Point>, height: real, text: string -> Option<real>)
    requires |data| > 0
    ensures RenderLine(data, height, text).Some?
    ensures var c := RenderLine(data, height, text).value;
      && |c.path| == |c.markers| == |c.xLabels| == |data|
      && c.path[0].MoveTo?
      && (forall i :: 0 < i < |data| ==> c.path[i].LineTo?)
      && (forall i :: 0 <= i < |data| ==>
            c.markers[i].cx == c.path[i].x && c.markers[i].cy == c.path[i].y)
      && (|data| == 1 ==> c.path[0].x == NotANumber)
      && (|data| >= 2 ==>
            c.path[0].x == Finite(0.0) && c.path[|data| - 1].x == Finite(100.0))
      && (forall i, j :: 0 <= i < j < |data| && |data| >= 2 ==>
            c.path[i].x.Finite? && c.path[j].x.Finite? && c.path[i].x.r < c.path[j].x.r)
  {
    RenderLineParts(data, height, text);
    PathClimbs(data, Calculations(data, text).value, height, text);
  }

  /** The path and markers of any scale: one vertex per point, markers on the vertices, x climbing strictly. */
  lemma PathClimbs(data: seq<Point>, s: Scale, height: real, text: string -> Option<real>)
    requires |data| > 0
    ensures var path, markers := LinePath(data, s, height, text), Markers(data, s, height, text);
      && |path| == |markers| == |data|
      && path[0].MoveTo?
      && (forall i :: 0 < i < |data| ==> path[i].LineTo?)
      && (forall i :: 0 <= i < |data| ==> markers[i].cx == path[i].x && markers[i].cy == path[i].y)
      && (|data| == 1 ==> path[0].x == NotANumber)
      && (|data| >= 2 ==> path[0].x == Finite(0.0) && path[|data| - 1].x == Finite(100.0))
      && (forall i, j :: 0 <= i < j < |data| && |data| >= 2 ==>
            path[i].x.Finite? && path[j].x.Finite? && path[i].x.r < path[j].x.r)
  {
    var path := LinePath(data, s, height, text);
    var n := |data|;
    forall i, j | 0 <= i < j < n && n >= 2
      ensures path[i].x.Finite? && path[j].x.Finite? && path[i].x.r < path[j].x.r
    {
      LineXIncreasing(i, j, n);
    }
  }

  /** Vertex `i` of the line is drawn at the mapped value of data point `i`. */
  lemma LineVertexHeights(data: seq<Point>, height: real, text: string -> Option<real>)
    requires |data| > 0
    ensures RenderLine(data, height, text).Some?
    ensures var c := RenderLine(data, height, text).value;
      var s := Calculations(data, text).value;
      forall i :: 0 <= i < |data| ==>
        c.path[i].y == ChartPosition(RawValue(data[i]), s.maxValue, s.minValue, height, text)
  {
  }

  /** The area path is the line path closed along the bottom edge of the chart. */
  lemma AreaClosesLine(data: seq<Point>, height: real, text: string -> Option<real>)
    requires |data| > 0
    ensures RenderLine(data, height, text).Some?
    ensures var c := RenderLine(data, height, text).value;
      c.area == c.path + [LineTo(Finite(100.0), height), LineTo(Finite(0.0), height), ClosePath]
  {
  }

  /** Every vertex of the line lies between the top and the bottom edge of the chart. */
  lemma LineWithinChart(data: seq<Point>, height: real, text: string -> Option<real>)
    requires |data| > 0 && 0.0 <= height
    ensures RenderLine(data, height, text).Some?
    ensures var c := RenderLine(data, height, text).value;
      forall i :: 0 <= i < |data| ==> 0.0 <= c.path[i].y <= height
  {
    var s := Calculations(data, text).value;
    forall i | 0 <= i < |data|
      ensures 0.0 <= PointY(data, s, i, height, text) <= height
    {
      assert s.minValue <= s.values[i] <= s.maxValue;
      ChartPositionWithin(RawValue(data[i]), s.maxValue, s.minValue, height, text);
    }
  }

  /** A flat dataset (every value equal) is drawn as a line through the middle of the chart. */
  lemma FlatLineCentred(data: seq<Point>, height: real, text: string -> Option<real>)
    requires |data| > 0
    requires forall i :: 0 <= i < |data| ==> Values(data, text)[i] == Values(data, text)[0]
    ensures RenderLine(data, height, text).Some?
    ensures var c := RenderLine(data, height, text).value;
      forall i :: 0 <= i < |data| ==> c.path[i].y == height / 2.0 && c.markers[i].cy == height / 2.0
  {
    var s := Calculations(data, text).value;
    var vs := Values(data, text);
    assert s.maxValue == s.minValue by {
      var a :| 0 <= a < |data| && vs[a] == s.maxValue;
      var b :| 0 <= b < |data| && vs[b] == s.minValue;
    }
  }

  /**
   * The y-axis labels of a scale sit on the gridlines (4 pixels lower): the top one
   * shows the rounded maximum, the bottom one the rounded minimum, and the labels
   * never increase from top to bottom.
   */
  lemma LineTicksSpanScale(s: Scale, height: real)
    requires s.range == s.maxValue - s.minValue >= 0.0
    ensures var ticks := LineYLabels(s, height);
      && (forall i :: 0 <= i < 5 ==> ticks[i].y == Gridlines(height)[i] + 4.0)
      && ticks[0].text == Round(s.maxValue)
      && ticks[4].text == Round(s.minValue)
      && (forall i :: 0 <= i < 4 ==> ticks[i + 1].text <= ticks[i].text)
  {
    var ticks := LineYLabels(s, height);
    assert ticks[0] == LineTick(s, height, 0);
    assert ticks[4] == LineTick(s, height, 4);
    forall i: nat | i < 4
      ensures ticks[i + 1].text <= ticks[i].text
    {
      LineTickStep(s, height, i);
    }
  }

  /** One step down the y axis: the label does not grow. */
  lemma LineTickStep(s: Scale, height: real, i: nat)
    requires s.range >= 0.0
    ensures LineTick(s, height, i + 1).text <= LineTick(s, height, i).text
  {
    var a, b := Quarter(i), Quarter(i + 1);
    assert a <= b;
    ScaleMonotone(a, b, s.range);
    RoundMonotone(s.maxValue - b * s.range, s.maxValue - a * s.range);
  }

  /**
   * The line chart's five gridlines split the height in quarters; its y-axis labels
   * run from the rounded maximum at the top to the rounded minimum at the bottom.
   */
  lemma LineYAxis(data: seq<Point>, height: real, text: string -> Option<real>)
    requires |data| > 0
    ensures RenderLine(data, height, text).Some?
    ensures var c := RenderLine(data, height, text).value;
      var s := Calculations(data, text).value;
      && |c.gridlines| == 5 && |c.yLabels| == 5
      && (forall i :: 0 <= i < 5 ==> c.gridlines[i] == (i as real / 4.0) * height)
      && (forall i :: 0 <= i < 5 ==> c.yLabels[i].y == c.gridlines[i] + 4.0)
      && c.yLabels[0].text == Round(s.maxValue)
      && c.yLabels[4].text == Round(s.minValue)
      && (forall i :: 0 <= i < 4 ==> c.yLabels[i + 1].text <= c.yLabels[i].text)
  {
    RenderLineParts(data, height, text);
    LineTicksSpanScale(Calculations(data, text).value, height);
  }

  /**
   * X-axis labels: all 20 pixels under the chart; the last at 98% (also when it is
   * the only one), otherwise the first at 2%, the rest under their points.  Each
   * shows the point's label, else its x, else `Day i+1`.
   */
  lemma LineXAxis(data: seq<Point>, height: real, text: string -> Option<real>)
    requires |data| > 0
    ensures RenderLine(data, height, text).Some?
    ensures var c := RenderLine(data, height, text).value;
      var n := |data|;
      && c.xLabels[n - 1].x == Finite(98.0)
      && (n >= 2 ==> c.xLabels[0].x == Finite(2.0))
      && (forall i :: 0 < i < n - 1 ==> c.xLabels[i].x == c.path[i].x)
      && (forall i :: 0 <= i < n ==> c.xLabels[i].y == height + 20.0)
      && (forall i :: 0 <= i < n ==> c.xLabels[i].text == LabelText(data[i], Day(i + 1)))
  {
  }

  /** Values 10, 20, 30 on a 300-pixel chart are drawn at 300, 150 and 0. */
  lemma RisingThreePoints(text: string -> Option<real>)
    ensures var data := [Point(Undefined, Num(10.0), Undefined, Undefined),
                         Point(Undefined, Num(20.0), Undefined, Undefined),
                         Point(Undefined, Num(30.0), Undefined, Undefined)];
      var c := RenderLine(data, 300.0, text);
      c.Some? && |c.value.path| == 3
      && c.value.path[0] == MoveTo(Finite(0.0), 300.0)
      && c.value.path[1] == LineTo(Finite(50.0), 150.0)
      && c.value.path[2] == LineTo(Finite(100.0), 0.0)
  {
    var data := [Point(Undefined, Num(10.0), Undefined, Undefined),
                 Point(Undefined, Num(20.0), Undefined, Undefined),
                 Point(Undefined, Num(30.0), Undefined, Undefined)];
    RenderLineParts(data, 300.0, text);
    var s := Calculations(data, text).value;
    assert s.values == [10.0, 20.0, 30.0];
    var hi :| 0 <= hi < 3 && s.values[hi] == s.maxValue;
    var lo :| 0 <= lo < 3 && s.values[lo] == s.minValue;
    assert s.values[2] <= s.maxValue && s.minValue <= s.values[0];
    assert s.maxValue == 30.0 && s.minValue == 10.0;
  }
}
