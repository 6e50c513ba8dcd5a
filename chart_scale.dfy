/**
 * The shared scale model of the dashboard chart: the data points it is given, the
 * value sanitiser, the min/max/range calculation and the value-to-pixel mapping.
 */
module ChartScale {
  import opened Js

  /** One chart datum `{x, y, label, value}` (`label` is the field `caption`); absent fields are `Undefined`. */
  datatype Point = Point(x: Value, y: Value, caption: Value, value: Value)

  /** `chartCalculations`: the sanitised values and their extent. */
  datatype Scale = Scale(values: seq<real>, maxValue: real, minValue: real, range: real)

  /** Text of an axis label: a field of the point, or a generated `Day i` / `Category i`. */
  datatype AxisText = Shown(v: Value) | Day(day: nat) | Category(category: nat)

  /** An x-axis label: its `x` attribute (percent of the width), `y` attribute (pixels) and text. */
  datatype XLabel = XLabel(x: JsNumber, y: real, text: AxisText)

  /** A y-axis tick label: its `y` attribute (pixels) and the rounded value it shows. */
  datatype YLabel = YLabel(y: real, text: int)

  /**
   * `getSafeValue`: the parsed number, or 0 where parsing yields NaN.  Nothing but
   * NaN is replaced: a parsed 0, negative or huge number comes through unchanged.
   */
  function SafeValue(v: Value, text: string -> Option<real>): (r: real)
    ensures ParseFloat(v, text).Some? ==> r == ParseFloat(v, text).value
    ensures ParseFloat(v, text).None? ==> r == 0.0
  {
    match ParseFloat(v, text)
    case Some(n) => n
    case None => 0.0
  }

  /** Sanitising a sanitised value changes nothing, whatever the string parser. */
  lemma SafeValueIdempotent(v: Value, text: string -> Option<real>, text': string -> Option<real>)
    ensures SafeValue(Num(SafeValue(v, text)), text') == SafeValue(v, text)
  {
  }

  /** `point.y || point.value`: the raw value a point is drawn at. */
  function RawValue(p: Point): Value
  {
    Or(p.y, p.value)
  }

  /** The sanitised values of a dataset, in input order. */
  function Values(data: seq<Point>, text: string -> Option<real>): (vs: seq<real>)
    ensures |vs| == |data|
    ensures forall i :: 0 <= i < |data| ==> vs[i] == SafeValue(RawValue(data[i]), text)
  {
    seq(|data|, i requires 0 <= i < |data| => SafeValue(RawValue(data[i]), text))
  }

  /** `Math.max(...s)` on a non-empty sequence. */
  function MaxOf(s: seq<real>): (m: real)
    requires |s| > 0
    ensures forall i :: 0 <= i < |s| ==> s[i] <= m
    ensures exists i :: 0 <= i < |s| && s[i] == m
  {
    if |s| == 1 then s[0]
    else
      var rest := MaxOf(s[1..]);
      if s[0] >= rest then s[0] else rest
  }

  /** `Math.min(...s)` on a non-empty sequence. */
  function MinOf(s: seq<real>): (m: real)
    requires |s| > 0
    ensures forall i :: 0 <= i < |s| ==> m <= s[i]
    ensures exists i :: 0 <= i < |s| && s[i] == m
  {
    if |s| == 1 then s[0]
    else
      var rest := MinOf(s[1..]);
      if s[0] <= rest then s[0] else rest
  }

  /**
   * `chartCalculations`: null for an empty dataset; otherwise every sanitised value
   * lies between `minValue` and `maxValue`, both of which are attained, and
   * `range = maxValue - minValue` is never negative.
   */
  function Calculations(data: seq<Point>, text: string -> Option<real>): (r: Option<Scale>)
    ensures r.None? <==> |data| == 0
    ensures r.Some? ==> r.value.values == Values(data, text)
    ensures r.Some? ==> r.value.range == r.value.maxValue - r.value.minValue >= 0.0
    ensures r.Some? ==> forall i :: 0 <= i < |data| ==>
              r.value.minValue <= r.value.values[i] <= r.value.maxValue
    ensures r.Some? ==> exists i :: 0 <= i < |data| && r.value.values[i] == r.value.maxValue
    ensures r.Some? ==> exists i :: 0 <= i < |data| && r.value.values[i] == r.value.minValue
  {
    if |data| == 0 then None
    else
      var values := Values(data, text);
      var maxValue := MaxOf(values);
      var minValue := MinOf(values);
      assert minValue <= values[0] <= maxValue;
      Some(Scale(values, maxValue, minValue, maxValue - minValue))
  }

  /**
   * `getChartPosition`: the pixel offset from the top of a chart `chartHeight` tall.
   * A flat scale (`maxValue == minValue`) centres the value; otherwise `maxValue`
   * maps to the top edge (0) and `minValue` to the bottom edge (`chartHeight`).
   */
  function ChartPosition(value: Value, maxValue: real, minValue: real, chartHeight: real,
                         text: string -> Option<real>): (y: real)
    ensures maxValue == minValue ==> y == chartHeight / 2.0
    ensures maxValue != minValue && SafeValue(value, text) == maxValue ==> y == 0.0
    ensures maxValue != minValue && SafeValue(value, text) == minValue ==> y == chartHeight
  {
    if maxValue == minValue then chartHeight / 2.0
    else Offset(SafeValue(value, text), maxValue, minValue, chartHeight)
  }

  /** `((maxValue - v) / (maxValue - minValue)) * chartHeight`, the non-flat case of the mapping. */
  function Offset(v: real, maxValue: real, minValue: real, chartHeight: real): (y: real)
    requires maxValue != minValue
    ensures v == maxValue ==> y == 0.0
    ensures v == minValue ==> y == chartHeight
  {
    ((maxValue - v) / (maxValue - minValue)) * chartHeight
  }

  /** Dividing by a positive number keeps the order. */
  lemma DivideMonotone(a: real, b: real, d: real)
    requires a <= b && 0.0 < d
    ensures a / d <= b / d
  {
    assert a / d * d == a && b / d * d == b;
  }

  /** Scaling by a non-negative factor keeps the order. */
  lemma ScaleMonotone(a: real, b: real, h: real)
    requires a <= b && 0.0 <= h
    ensures a * h <= b * h
  {
    assert (b - a) * h >= 0.0;
  }

  /** A fraction of the scale, applied to a height, stays within that height. */
  lemma FractionOfHeight(num: real, d: real, h: real)
    requires 0.0 <= num <= d && 0.0 < d && 0.0 <= h
    ensures 0.0 <= num / d * h <= h
  {
    DivideMonotone(0.0, num, d);
    DivideMonotone(num, d, d);
    ScaleMonotone(0.0, num / d, h);
    ScaleMonotone(num / d, 1.0, h);
  }

  /** A value inside the scale lands inside the chart. */
  lemma ChartPositionWithin(value: Value, maxValue: real, minValue: real, chartHeight: real,
                            text: string -> Option<real>)
    requires minValue <= SafeValue(value, text) <= maxValue
    requires 0.0 <= chartHeight
    ensures 0.0 <= ChartPosition(value, maxValue, minValue, chartHeight, text) <= chartHeight
  {
    if maxValue != minValue {
      FractionOfHeight(maxValue - SafeValue(value, text), maxValue - minValue, chartHeight);
    }
  }

  /** The non-flat branch of the mapping is non-increasing in the value. */
  lemma OffsetNonIncreasing(va: real, vb: real, maxValue: real, minValue: real, chartHeight: real)
    requires va <= vb && minValue < maxValue && 0.0 <= chartHeight
    ensures Offset(vb, maxValue, minValue, chartHeight) <= Offset(va, maxValue, minValue, chartHeight)
  {
    var d := maxValue - minValue;
    var qa, qb := (maxValue - va) / d, (maxValue - vb) / d;
    DivideMonotone(maxValue - vb, maxValue - va, d);
    ScaleMonotone(qb, qa, chartHeight);
    assert Offset(va, maxValue, minValue, chartHeight) == qa * chartHeight;
    assert Offset(vb, maxValue, minValue, chartHeight) == qb * chartHeight;
  }

  /** Larger values are drawn higher up (smaller offsets), or at the same height. */
  lemma ChartPositionNonIncreasing(a: Value, b: Value, maxValue: real, minValue: real,
                                   chartHeight: real, text: string -> Option<real>)
    requires SafeValue(a, text) <= SafeValue(b, text)
    requires minValue <= maxValue && 0.0 <= chartHeight
    ensures ChartPosition(b, maxValue, minValue, chartHeight, text)
            <= ChartPosition(a, maxValue, minValue, chartHeight, text)
  {
    if maxValue != minValue {
      OffsetNonIncreasing(SafeValue(a, text), SafeValue(b, text), maxValue, minValue, chartHeight);
    }
  }

  /** The vertical fraction `i / 4` of the five gridlines and y-axis ticks. */
  function Quarter(i: nat): real
  {
    i as real / 4.0
  }

  /**
   * The five horizontal gridlines shared by both chart variants, at `(i / 4) * height`:
   * from the top edge to the bottom edge in equal steps.
   */
  function Gridlines(height: real): (ys: seq<real>)
    ensures |ys| == 5
    ensures ys[0] == 0.0 && ys[4] == height
    ensures forall i :: 0 <= i < 4 ==> ys[i + 1] - ys[i] == height / 4.0
  {
    seq(5, i requires 0 <= i < 5 => Quarter(i) * height)
  }

  /**
   * `point.label || point.x || generated`: a label taken from the point is never
   * blank, and the generated text appears exactly when both fields are blank.
   */
  function LabelText(p: Point, generated: AxisText): (t: AxisText)
    requires !generated.Shown?
    ensures t.Shown? ==> Truthy(t.v) && (t.v == p.caption || t.v == p.x)
    ensures t.Shown? && t.v != p.caption ==> !Truthy(p.caption)
    ensures !t.Shown? <==> !Truthy(p.caption) && !Truthy(p.x)
    ensures !t.Shown? ==> t == generated
  {
    if Truthy(Or(p.caption, p.x)) then Shown(Or(p.caption, p.x)) else generated
  }

  /** The y attribute of an x-axis label: 20 pixels below the chart. */
  function XLabelY(height: real): real
  {
    height + 20.0
  }
}
