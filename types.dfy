/** The records the backend exchanges (the chart-type enumeration, a chart
    suggestion with its rendering-style payload, a stored suggestion record
    and the column analysis). */
module ChartTypes {
  import opened Values

  datatype ChartType = Bar | Line | Pie | Doughnut | Scatter

  /** The `chartjsConfig` payload that rendering consumes as it is. */
  datatype ChartStyle = ChartStyle(backgroundColor: seq<string>, borderColor: string, responsive: bool)

  /** A chart recommendation. The axes are `undefined` (None) only when the
      dataset has no columns at all. */
  datatype Suggestion = Suggestion(
    chartType: ChartType,
    xAxis: Option<string>,
    yAxis: Option<string>,
    reasoning: string,
    title: string,
    insights: seq<string>,
    style: ChartStyle)

  /** One entry of the suggestion ledger; `createdAt` is the creation time in
      milliseconds. */
  datatype StoredConfig = StoredConfig(
    id: string,
    userId: string,
    fileName: string,
    suggestion: Suggestion,
    createdAt: int,
    feedbackCount: int)

  datatype DataAnalysis = DataAnalysis(numericColumns: seq<string>, textColumns: seq<string>, hasEmptyValues: bool)
}
