/**
 * The `DashboardChart` component: the `chartData` state its effect keeps, and
 * `renderChart`, which picks the line or the bar layout for the held data.
 */
module DashboardChart {
  import opened Js
  import opened ChartScale
  import opened ChartLine
  import opened ChartBar

  /** What the component draws: the "No data available" placeholder, or one chart. */
  datatype Chart = NoData | Line(line: LineChart) | Bar(bar: BarChart)

  /**
   * `renderChart`: an empty dataset shows the placeholder whatever the type;
   * otherwise `"bar"` selects the bar layout and every other type the line layout.
   */
  function RenderChart(chartType: string, data: seq<Point>, height: real,
                       text: string -> Option<real>): (c: Chart)
    ensures c.NoData? <==> |data| == 0
    ensures |data| > 0 && chartType == "bar" ==> c.Bar? && Some(c.bar) == RenderBar(data, height, text)
    ensures |data| > 0 && chartType != "bar" ==> c.Line? && Some(c.line) == RenderLine(data, height, text)
  {
    if chartType == "bar" then
      match RenderBar(data, height, text)
      case None => NoData
      case Some(b) => Bar(b)
    else
      match RenderLine(data, height, text)
      case None => NoData
      case Some(l) => Line(l)
  }

  /** Both variants draw one shape per data point: a vertex and marker, or a bar. */
  lemma OneShapePerPoint(chartType: string, data: seq<Point>, height: real,
                         text: string -> Option<real>)
    requires |data| > 0
    ensures var c := RenderChart(chartType, data, height, text);
      && (c.Line? ==> |c.line.path| == |c.line.markers| == |data|)
      && (c.Bar? ==> |c.bar.bars| == |data|)
  {
    if chartType == "bar" {
      BarLayout(data, height, text);
    } else {
      LinePathShape(data, height, text);
    }
  }

  /** The component's state: the last non-empty dataset it was given. */
  class ChartView {
    var chartData: seq<Point>

    /** `useState([])`: the first render shows the placeholder. */
    constructor ()
      ensures chartData == []
    {
      chartData := [];
    }

    /**
     * The effect on `[data]`: a present, non-empty `data` replaces `chartData`;
     * a missing or empty one leaves it as it was, so data once shown stays shown.
     */
    method DataChanged(data: Option<seq<Point>>)
      modifies this
      ensures data.Some? && |data.value| > 0 ==> chartData == data.value
      ensures data.None? || |data.value| == 0 ==> chartData == old(chartData)
      ensures old(chartData) != [] ==> chartData != []
    {
      if data.Some? && |data.value| > 0 {
        chartData := data.value;
      }
    }

    /** What the component renders for the current props and state. */
    function View(chartType: string, height: real, text: string -> Option<real>): (c: Chart)
      reads this
      ensures c.NoData? <==> chartData == []
    {
      RenderChart(chartType, chartData, height, text)
    }
  }

  /** Until a non-empty dataset arrives the view is the placeholder; afterwards it never is. */
  method ViewAfterData(chartType: string, first: seq<Point>, later: Option<seq<Point>>,
                       height: real, text: string -> Option<real>) returns (before: Chart, after: Chart)
    requires |first| > 0
    ensures before == NoData
    ensures after != NoData
  {
    var view := new ChartView();
    before := view.View(chartType, height, text);
    view.DataChanged(Some(first));
    view.DataChanged(later);
    after := view.View(chartType, height, text);
  }
}
