/** The client's shaping of a suggestion and the parsed rows into the data
    and options objects the charting library draws. */
module ChartData {
  import opened Lists
  import opened Values
  import opened ChartTypes

  /** The client's palette. */
  const ChartColors: seq<string> := [
    "#FF6384", "#36A2EB", "#FFCE56", "#4BC0C0", "#9966FF",
    "#FF9F40", "#FF6384", "#C9CBCF", "#4BC0C0", "#FF6384"]

  /** A colour setting: one colour per slice, or one colour for the series. */
  datatype Paint = PerSlice(colors: seq<string>) | Single(color: string)

  datatype Point = Point(x: real, y: real)

  /** The data of a dataset: one value per label, or free (x, y) points. */
  datatype Series = PerLabel(values: seq<real>) | Points(points: seq<Point>)

  /** A dataset (`seriesLabel` is its `label` field); `seriesLabel`,
      `tension` and `fill` are None where the object leaves them undefined. */
  datatype Dataset = Dataset(
    seriesLabel: Option<string>,
    data: Series,
    backgroundColor: Paint,
    borderColor: Paint,
    borderWidth: nat,
    tension: Option<real>,
    fill: Option<bool>)

  /** The chart data object; a scatter chart has no `labels` field. */
  datatype Chart = Chart(labels: Option<seq<string>>, datasets: seq<Dataset>)

  /** `row[axis]`: an undefined axis is looked up under the key "undefined". */
  function Cell(row: Row, axis: Option<string>): Value
  {
    Get(row, ToJsString(axis))
  }

  /** `Number(v) || 0`: NaN and zero both become 0. */
  function NumberOrZero(n: JsNumber): (r: real)
    ensures r == 0.0 <==> n.NaN? || n.r == 0.0
    ensures r != 0.0 ==> n == Finite(r)
  {
    if n.Finite? && n.r != 0.0 then n.r else 0.0
  }

  /** One label per row, in row order: `String(row[x] || '')`, where
      `render` stands for `String` on a truthy cell. */
  function Labels(rows: seq<Row>, xAxis: Option<string>, render: Value -> string): (r: seq<string>)
    ensures |r| == |rows|
    ensures forall i :: 0 <= i < |rows| && Truthy(Cell(rows[i], xAxis)) ==> r[i] == render(Cell(rows[i], xAxis))
    ensures forall i :: 0 <= i < |rows| && !Truthy(Cell(rows[i], xAxis)) ==> r[i] == ""
  {
    seq(|rows|, i requires 0 <= i < |rows| =>
      var v := Cell(rows[i], xAxis);
      if Truthy(v) then render(v) else "")
  }

  /** With `render` behaving as `String` does on strings, a row whose cell
      under the x-axis is a string is labelled by that string itself (an
      empty cell is falsy and gets "", which is the same string). */
  lemma StringCellLabel(rows: seq<Row>, xAxis: Option<string>, render: Value -> string)
    requires forall s :: render(Str(s)) == s
    ensures forall i :: 0 <= i < |rows| && Cell(rows[i], xAxis).Str? ==>
              Labels(rows, xAxis, render)[i] == Cell(rows[i], xAxis).s
  {
  }

  /** One value per row, in row order: `Number(row[y]) || 0`, where
      `toNumber` stands for `Number`. */
  function NumericValues(rows: seq<Row>, axis: Option<string>, toNumber: Value -> JsNumber): (r: seq<real>)
    ensures |r| == |rows|
    ensures forall i :: 0 <= i < |rows| ==> r[i] == NumberOrZero(toNumber(Cell(rows[i], axis)))
  {
    seq(|rows|, i requires 0 <= i < |rows| => NumberOrZero(toNumber(Cell(rows[i], axis))))
  }

  /** Each colour with the "CC" alpha suffix. */
  function Translucent(colors: seq<string>): (r: seq<string>)
    ensures |r| == |colors|
    ensures forall i :: 0 <= i < |colors| ==> r[i] == colors[i] + "CC"
  {
    seq(|colors|, i requires 0 <= i < |colors| => colors[i] + "CC")
  }

  predicate IsRound(t: ChartType)
  {
    t == Pie || t == Doughnut
  }

  /** createChartData. */
  function CreateChartData(suggestion: Suggestion, rows: seq<Row>,
                           render: Value -> string, toNumber: Value -> JsNumber): (r: Chart)
    ensures |r.datasets| == 1
    ensures var d := r.datasets[0];
            && d.borderWidth == 2
            && (r.labels.None? <==> suggestion.chartType == Scatter)
            && (r.labels.Some? ==> r.labels.value == Labels(rows, suggestion.xAxis, render)
                                   && d.seriesLabel == suggestion.yAxis
                                   && d.data == PerLabel(NumericValues(rows, suggestion.yAxis, toNumber)))
    // pie and doughnut: one palette colour per slice, up to ten, and the
    // same colours with an alpha suffix as borders
    ensures IsRound(suggestion.chartType) ==>
              var d := r.datasets[0];
              var n := if |rows| < |ChartColors| then |rows| else |ChartColors|;
              && d.backgroundColor.PerSlice? && d.borderColor.PerSlice?
              && |d.backgroundColor.colors| == n
              && (forall i :: 0 <= i < n ==> d.backgroundColor.colors[i] == ChartColors[i])
              && d.borderColor.colors == Translucent(d.backgroundColor.colors)
              && d.tension.None? && d.fill.None?
    // scatter: one point per row, labelled "y vs x"
    ensures suggestion.chartType == Scatter ==>
              var d := r.datasets[0];
              && d.seriesLabel == Some(ToJsString(suggestion.yAxis) + " vs " + ToJsString(suggestion.xAxis))
              && d.data.Points? && |d.data.points| == |rows|
              && (forall i :: 0 <= i < |rows| ==>
                    d.data.points[i] == Point(NumberOrZero(toNumber(Cell(rows[i], suggestion.xAxis))),
                                              NumberOrZero(toNumber(Cell(rows[i], suggestion.yAxis)))))
              && d.backgroundColor == Single(ChartColors[0] + "80") && d.borderColor == Single(ChartColors[0])
    // bar and line: the first palette colour, more opaque for bars; a
    // curve and no fill only for lines
    ensures !IsRound(suggestion.chartType) && suggestion.chartType != Scatter ==>
              var d := r.datasets[0];
              && d.backgroundColor == Single(ChartColors[0] + (if suggestion.chartType == Bar then "80" else "20"))
              && d.borderColor == Single(ChartColors[0])
              && (d.tension.Some? <==> suggestion.chartType == Line)
              && (d.fill.Some? <==> suggestion.chartType == Line)
              && (suggestion.chartType == Line ==> d.tension == Some(0.4) && d.fill == Some(false))
  {
    var labels := Labels(rows, suggestion.xAxis, render);
    var values := NumericValues(rows, suggestion.yAxis, toNumber);
    var t := suggestion.chartType;
    if t == Pie || t == Doughnut then
      var colors := Take(ChartColors, |labels|);
      Chart(Some(labels), [Dataset(suggestion.yAxis, PerLabel(values), PerSlice(colors), PerSlice(Translucent(colors)), 2, None, None)])
    else if t == Scatter then
      var points := seq(|rows|, i requires 0 <= i < |rows| =>
        Point(NumberOrZero(toNumber(Cell(rows[i], suggestion.xAxis))), NumberOrZero(toNumber(Cell(rows[i], suggestion.yAxis)))));
      Chart(None, [Dataset(Some(ToJsString(suggestion.yAxis) + " vs " + ToJsString(suggestion.xAxis)), Points(points),
                           Single(ChartColors[0] + "80"), Single(ChartColors[0]), 2, None, None)])
    else
      Chart(Some(labels), [Dataset(suggestion.yAxis, PerLabel(values),
                                   Single(ChartColors[0] + (if t == Bar then "80" else "20")), Single(ChartColors[0]), 2,
                                   if t == Line then Some(0.4) else None,
                                   if t == Line then Some(false) else None)])
  }

  datatype TitleOptions = TitleOptions(display: bool, text: string, fontSize: nat, fontWeight: string)
  datatype LegendOptions = LegendOptions(display: bool, position: string)
  datatype AxisOptions = AxisOptions(titleDisplay: bool, titleText: Option<string>)
  datatype Scales = Scales(x: AxisOptions, y: AxisOptions)

  datatype ChartOptions = ChartOptions(
    responsive: bool,
    maintainAspectRatio: bool,
    title: TitleOptions,
    legend: LegendOptions,
    scales: Option<Scales>)

  /** createChartOptions. */
  function CreateChartOptions(suggestion: Suggestion): (r: ChartOptions)
    ensures r.legend.display <==> IsRound(suggestion.chartType)
    ensures r.scales.None? <==> IsRound(suggestion.chartType)
    ensures r.title == TitleOptions(true, suggestion.title, 16, "bold")
    ensures r.scales.Some? ==>
              r.scales.value == Scales(AxisOptions(true, suggestion.xAxis), AxisOptions(true, suggestion.yAxis))
    ensures r.responsive && !r.maintainAspectRatio && r.legend.position == "top"
  {
    var showScales := suggestion.chartType != Pie && suggestion.chartType != Doughnut;
    var showLegend := suggestion.chartType == Pie || suggestion.chartType == Doughnut;
    ChartOptions(
      true,
      false,
      TitleOptions(true, suggestion.title, 16, "bold"),
      LegendOptions(showLegend, "top"),
      if showScales then Some(Scales(AxisOptions(true, suggestion.xAxis), AxisOptions(true, suggestion.yAxis))) else None)
  }

  /** The legend shows exactly when the axes are left out, and exactly when
      the data colours each slice on its own. */
  lemma LegendMatchesSlices(suggestion: Suggestion, rows: seq<Row>, render: Value -> string, toNumber: Value -> JsNumber)
    ensures var options := CreateChartOptions(suggestion);
            var data := CreateChartData(suggestion, rows, render, toNumber);
            && (options.legend.display <==> options.scales.None?)
            && (options.legend.display <==> data.datasets[0].backgroundColor.PerSlice?)
  {
  }

  /** Only the suggestion's type, axes and title, and the rows, shape the
      chart: its reasoning, insights and style payload do not. */
  lemma ShapeIgnoresProse(s1: Suggestion, s2: Suggestion, rows: seq<Row>, render: Value -> string, toNumber: Value -> JsNumber)
    requires s1.chartType == s2.chartType && s1.xAxis == s2.xAxis && s1.yAxis == s2.yAxis && s1.title == s2.title
    ensures CreateChartData(s1, rows, render, toNumber) == CreateChartData(s2, rows, render, toNumber)
    ensures CreateChartOptions(s1) == CreateChartOptions(s2)
  {
  }
}
