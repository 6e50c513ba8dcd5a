/**
 * The bar variant of the dashboard chart (`renderBarChart`), as data: one slot per
 * data point, a rectangle anchored at the bottom edge with its value printed above
 * it, the gridlines and both axes' labels.  Unlike the line variant, bars scale
 * from zero to `maxValue`, not from `minValue`.
 */
module ChartBar {
  import opened Js
  import opened ChartScale

  /**
   * One bar: the rectangle (`x`% and `width`% across, `y` and `height` pixels down)
   * and the value label centred above it.
   */
  datatype BarShape = BarShape(
    x: real, y: real, width: real, height: real,
    labelX: real, labelY: real, valueText: int)

  datatype BarChart = BarChart(
    gridlines: seq<real>,
    bars: seq<BarShape>,
    xLabels: seq<XLabel>,
    yLabels: seq<YLabel>)

  /** `100 / chartData.length`: the width of one slot, in percent. */
  function BarWidth(n: nat): real
    requires n > 0
  {
    100.0 / n as real
  }

  /** `maxValue === 0 ? 0 : (value / maxValue) * height` */
  function BarHeight(value: real, maxValue: real, height: real): (h: real)
    ensures maxValue == 0.0 ==> h == 0.0
    ensures maxValue != 0.0 && value == maxValue ==> h == height
    ensures maxValue != 0.0 && value == 0.0 ==> h == 0.0
  {
    if maxValue == 0.0 then 0.0 else (value / maxValue) * height
  }

  /** Bar `index`: the rectangle inset 2 points into its slot, and its rounded value. */
  function Bar(data: seq<Point>, s: Scale, index: nat, height: real,
               text: string -> Option<real>): (b: BarShape)
    requires index < |data|
    ensures b.y + b.height == height
    ensures b.labelY == b.y - 10.0
    ensures b.x - 2.0 <= b.labelX <= b.x - 2.0 + BarWidth(|data|)
    ensures b.labelX == b.x - 2.0 + BarWidth(|data|) / 2.0
    ensures b.width == BarWidth(|data|) - 4.0
  {
    var value := SafeValue(RawValue(data[index]), text);
    var barWidth := BarWidth(|data|);
    var barHeight := BarHeight(value, s.maxValue, height);
    var x := index as real * barWidth;
    var y := height - barHeight;
    BarShape(x + 2.0, y, barWidth - 4.0, barHeight, x + barWidth / 2.0, y - 10.0, Round(value))
  }

  function Bars(data: seq<Point>, s: Scale, height: real,
                text: string -> Option<real>): (bs: seq<BarShape>)
    ensures |bs| == |data|
    ensures forall i :: 0 <= i < |bs| ==> bs[i] == Bar(data, s, i, height, text)
  {
    seq(|data|, i requires 0 <= i < |data| => Bar(data, s, i, height, text))
  }

  /** Category label `index`, centred under its slot. */
  function BarXLabel(data: seq<Point>, height: real, index: nat): XLabel
    requires index < |data|
  {
    var barWidth := BarWidth(|data|);
    XLabel(Finite(index as real * barWidth + barWidth / 2.0), XLabelY(height),
           LabelText(data[index], Category(index + 1)))
  }

  /** Category labels, one per slot. */
  function BarXLabels(data: seq<Point>, height: real): (ls: seq<XLabel>)
    ensures |ls| == |data|
    ensures forall i :: 0 <= i < |ls| ==> ls[i] == BarXLabel(data, height, i)
  {
    seq(|data|, i requires 0 <= i < |data| => BarXLabel(data, height, i))
  }

  /** Y-axis label `i`: `Math.round((i / 4) * maxValue)` at `height - (i / 4) * height + 4`. */
  function BarTick(s: Scale, height: real, i: nat): YLabel
  {
    YLabel(height - Quarter(i) * height + 4.0, Round(Quarter(i) * s.maxValue))
  }

  function BarYLabels(s: Scale, height: real): (ls: seq<YLabel>)
    ensures |ls| == 5
    ensures forall i :: 0 <= i < 5 ==> ls[i] == BarTick(s, height, i)
  {
    seq(5, i requires 0 <= i < 5 => BarTick(s, height, i))
  }

  /** `renderBarChart`: None is the "No data available" placeholder. */
  function RenderBar(data: seq<Point>, height: real, text: string -> Option<real>): (c: Option<BarChart>)
    ensures c.None? <==> |data| == 0
    ensures c.Some? ==> |c.value.bars| == |c.value.xLabels| == |data|
    ensures c.Some? ==> |c.value.gridlines| == |c.value.yLabels| == 5
  {
    match Calculations(data, text)
    case None => None
    case Some(s) =>
      Some(BarChart(Gridlines(height), Bars(data, s, height, text),
                    BarXLabels(data, height), BarYLabels(s, height)))
  }

  /** A non-empty dataset is drawn from its scale; the parts, spelled out. */
  lemma RenderBarParts(data: seq<Point>, height: real, text: string -> Option<real>)
    requires |data| > 0
    ensures Calculations(data, text).Some? && RenderBar(data, height, text).Some?
    ensures var s := Calculations(data, text).value;
      RenderBar(data, height, text).value == BarChart(Gridlines(height), Bars(data, s, height, text),
                                                       BarXLabels(data, height), BarYLabels(s, height))
  {
  }

  /** The slots tile the width exactly: `n` slots of `100 / n` percent, slot `i` ending by 100%. */
  lemma SlotsTileWidth(n: nat, i: nat)
    requires i < n
    ensures n as real * BarWidth(n) == 100.0
    ensures (i + 1) as real * BarWidth(n) <= 100.0
  {
    var w := BarWidth(n);
    assert n as real * w == 100.0;
    ScaleMonotone((i + 1) as real, n as real, w);
  }

  /** The layout of one bar, attribute by attribute. */
  lemma BarAt(data: seq<Point>, s: Scale, i: nat, height: real, text: string -> Option<real>)
    requires i < |data|
    ensures var b := Bar(data, s, i, height, text);
      var w := 100.0 / |data| as real;
      && b.x == i as real * w + 2.0
      && b.width == w - 4.0
      && b.labelX == i as real * w + w / 2.0
      && b.y + b.height == height
      && b.labelY == b.y - 10.0
      && b.height == BarHeight(SafeValue(RawValue(data[i]), text), s.maxValue, height)
      && b.valueText == Round(SafeValue(RawValue(data[i]), text))
  {
  }

  /**
   * One bar per data point, in input order: bar `i` occupies slot `i` (from
   * `i * 100 / n` to `(i + 1) * 100 / n`), starts 2 points into it, is 4 points
   * narrower than it, and carries the rounded value of point `i`; its value label
   * and its category label are both centred on the slot.
   */
  lemma BarLayout(data: seq<Point>, height: real, text: string -> Option<real>)
    requires |data| > 0
    ensures RenderBar(data, height, text).Some?
    ensures var c := RenderBar(data, height, text).value;
      var n := |data|;
      var w := 100.0 / n as real;
      && |c.bars| == |c.xLabels| == n
      && (forall i :: 0 <= i < n ==>
            && c.bars[i].x == i as real * w + 2.0
            && c.bars[i].width == w - 4.0
            && c.bars[i].labelX == i as real * w + w / 2.0
            && c.xLabels[i].x == Finite(c.bars[i].labelX)
            && c.xLabels[i].y == height + 20.0
            && c.bars[i].valueText == Round(SafeValue(RawValue(data[i]), text))
            && c.xLabels[i].text == LabelText(data[i], Category(i + 1)))
  {
    RenderBarParts(data, height, text);
    var s := Calculations(data, text).value;
    forall i | 0 <= i < |data|
      ensures var b := Bars(data, s, height, text)[i];
        var w := 100.0 / |data| as real;
        && b.x == i as real * w + 2.0
        && b.width == w - 4.0
        && b.labelX == i as real * w + w / 2.0
        && b.valueText == Round(SafeValue(RawValue(data[i]), text))
    {
      BarAt(data, s, i, height, text);
    }
  }

  /** A bar rectangle has positive width exactly when there are fewer than 25 bars. */
  lemma BarRectWidthPositive(n: nat)
    requires n > 0
    ensures BarWidth(n) - 4.0 > 0.0 <==> n < 25
  {
    var w := BarWidth(n);
    assert w * n as real == 100.0;
    if n < 25 {
      assert w * n as real < w * 25.0 ==> w > 4.0;
    } else {
      ScaleMonotone(25.0, n as real, w);
    }
  }

  /** A value between zero and the maximum gives a bar inside the chart. */
  lemma BarHeightWithin(value: real, maxValue: real, height: real)
    requires 0.0 <= value <= maxValue && 0.0 <= height
    ensures 0.0 <= BarHeight(value, maxValue, height) <= height
  {
    if maxValue != 0.0 {
      FractionOfHeight(value, maxValue, height);
    }
  }

  /**
   * Bars stand on the bottom edge (`y + height` is the chart height).  With a zero
   * maximum every bar is flat; otherwise the bar of the largest value has full height.
   */
  lemma BarsAnchored(data: seq<Point>, height: real, text: string -> Option<real>)
    requires |data| > 0
    ensures RenderBar(data, height, text).Some?
    ensures var c := RenderBar(data, height, text).value;
      var s := Calculations(data, text).value;
      && (forall i :: 0 <= i < |data| ==> c.bars[i].y + c.bars[i].height == height)
      && (s.maxValue == 0.0 ==> forall i :: 0 <= i < |data| ==> c.bars[i].height == 0.0)
      && (forall i :: 0 <= i < |data| && s.values[i] == s.maxValue != 0.0 ==>
            c.bars[i].height == height && c.bars[i].y == 0.0)
  {
    RenderBarParts(data, height, text);
    var s := Calculations(data, text).value;
    var bars := Bars(data, s, height, text);
    forall i | 0 <= i < |data|
      ensures bars[i].y + bars[i].height == height
      ensures bars[i].height == BarHeight(s.values[i], s.maxValue, height)
    {
      BarAt(data, s, i, height, text);
    }
  }

  /**
   * Bars scale from zero: on a chart of non-negative height, every non-negative value
   * gives a bar no taller than the chart.
   */
  lemma BarsWithinChart(data: seq<Point>, height: real, text: string -> Option<real>)
    requires |data| > 0 && 0.0 <= height
    ensures RenderBar(data, height, text).Some?
    ensures var c := RenderBar(data, height, text).value;
      var s := Calculations(data, text).value;
      forall i :: 0 <= i < |data| && 0.0 <= s.values[i] ==> 0.0 <= c.bars[i].height <= height
  {
    RenderBarParts(data, height, text);
    var s := Calculations(data, text).value;
    var bars := Bars(data, s, height, text);
    forall i | 0 <= i < |data| && 0.0 <= s.values[i]
      ensures 0.0 <= bars[i].height <= height
    {
      BarAt(data, s, i, height, text);
      BarHeightWithin(s.values[i], s.maxValue, height);
    }
  }

  /**
   * The bar chart's gridlines are the line chart's; its y-axis labels run from 0 at
   * the bottom edge to the rounded maximum at the top, never decreasing upwards
   * when the maximum is not negative.
   */
  lemma BarYAxis(data: seq<Point>, height: real, text: string -> Option<real>)
    requires |data| > 0
    ensures RenderBar(data, height, text).Some?
    ensures var c := RenderBar(data, height, text).value;
      var s := Calculations(data, text).value;
      && c.gridlines == Gridlines(height) && |c.yLabels| == 5
      && c.yLabels[0] == YLabel(height + 4.0, 0)
      && c.yLabels[4] == YLabel(4.0, Round(s.maxValue))
      && (s.maxValue >= 0.0 ==> forall i :: 0 <= i < 4 ==> c.yLabels[i].text <= c.yLabels[i + 1].text)
  {
    RenderBarParts(data, height, text);
    var s := Calculations(data, text).value;
    var ticks := BarYLabels(s, height);
    assert ticks[0] == BarTick(s, height, 0);
    assert ticks[4] == BarTick(s, height, 4);
    forall i: nat | i < 4 && s.maxValue >= 0.0
      ensures ticks[i].text <= ticks[i + 1].text
    {
      BarTickStep(s, height, i);
    }
  }

  /** One step up the y axis: the label does not shrink. */
  lemma BarTickStep(s: Scale, height: real, i: nat)
    requires s.maxValue >= 0.0
    ensures BarTick(s, height, i).text <= BarTick(s, height, i + 1).text
  {
    var a, b := Quarter(i), Quarter(i + 1);
    ScaleMonotone(a, b, s.maxValue);
    RoundMonotone(a * s.maxValue, b * s.maxValue);
  }

  /** Values 0, 50, 100 on a 100-pixel chart give bars 0, 50 and 100 pixels tall. */
  lemma ZeroToHundredBars(text: string -> Option<real>)
    ensures var data := [Point(Undefined, Undefined, Undefined, Num(0.0)),
                         Point(Undefined, Undefined, Undefined, Num(50.0)),
                         Point(Undefined, Undefined, Undefined, Num(100.0))];
      var c := RenderBar(data, 100.0, text);
      c.Some? && |c.value.bars| == 3
      && c.value.bars[0].height == 0.0
      && c.value.bars[1].height == 50.0
      && c.value.bars[2].height == 100.0
  {
    var data := [Point(Undefined, Undefined, Undefined, Num(0.0)),
                 Point(Undefined, Undefined, Undefined, Num(50.0)),
                 Point(Undefined, Undefined, Undefined, Num(100.0))];
    RenderBarParts(data, 100.0, text);
    var s := Calculations(data, text).value;
    assert s.values == [0.0, 50.0, 100.0];
    var k :| 0 <= k < 3 && s.values[k] == s.maxValue;
    assert s.values[2] <= s.maxValue;
  }
}
