/** Column classification, chart-type selection and insight generation over
    a parsed dataset: an ordered list of column names (headers) and a list of
    rows. */
module DataAnalysis {
  import opened Lists
  import opened Text
  import opened Values
  import opened ChartTypes

  /** Some row holds a number under `header`. */
  ghost predicate NumberSomewhere(data: seq<Row>, header: string)
  {
    exists i :: 0 <= i < |data| && Get(data[i], header).Num?
  }

  /** Some row holds a string under `header`. */
  ghost predicate StringSomewhere(data: seq<Row>, header: string)
  {
    exists i :: 0 <= i < |data| && Get(data[i], header).Str?
  }

  /** A cell that is null, undefined or the empty string. */
  predicate IsEmptyCell(v: Value)
  {
    v == Null || v == Undefined || v == Str("")
  }

  /** `Object.values(row).some(...)`: some key of the row, whether or not it
      is a header, holds an empty cell. */
  predicate RowHasEmptyCell(row: Row)
  {
    exists k :: k in row && IsEmptyCell(row[k])
  }

  /** The headers under which some row holds a number, in header order. */
  function NumericColumns(headers: seq<string>, data: seq<Row>): (r: seq<string>)
    ensures forall h :: h in r <==> h in headers && NumberSomewhere(data, h)
    ensures IsSubsequence(r, headers)
    ensures forall h :: multiset(r)[h] == if NumberSomewhere(data, h) then multiset(headers)[h] else 0
  {
    var holdsNumber := (h: string) => Any(data, (row: Row) => Get(row, h).Num?);
    FilterKeepsOrder(headers, holdsNumber);
    Filter(headers, holdsNumber)
  }

  /** The headers under which some row holds a string, in header order. */
  function TextColumns(headers: seq<string>, data: seq<Row>): (r: seq<string>)
    ensures forall h :: h in r <==> h in headers && StringSomewhere(data, h)
    ensures IsSubsequence(r, headers)
    ensures forall h :: multiset(r)[h] == if StringSomewhere(data, h) then multiset(headers)[h] else 0
  {
    var holdsString := (h: string) => Any(data, (row: Row) => Get(row, h).Str?);
    FilterKeepsOrder(headers, holdsString);
    Filter(headers, holdsString)
  }

  /** analyzeDataColumns: numeric and text columns (a header may be both, or
      neither) and whether any row holds an empty cell under any of its keys. */
  function AnalyzeDataColumns(headers: seq<string>, data: seq<Row>): (r: DataAnalysis)
    ensures forall h :: h in r.numericColumns <==> h in headers && NumberSomewhere(data, h)
    ensures forall h :: h in r.textColumns <==> h in headers && StringSomewhere(data, h)
    ensures IsSubsequence(r.numericColumns, headers) && IsSubsequence(r.textColumns, headers)
    ensures r.hasEmptyValues <==> exists i, k :: 0 <= i < |data| && k in data[i] && IsEmptyCell(data[i][k])
  {
    DataAnalysis(NumericColumns(headers, data), TextColumns(headers, data), Any(data, RowHasEmptyCell))
  }

  /** A column name that, case-insensitively, mentions a date or a time. */
  predicate IsTimeName(header: string)
  {
    var name := ToLower(header);
    Contains(name, "date") || Contains(name, "time") || Contains(name, "month") || Contains(name, "year")
  }

  /** findTimeColumns: the headers whose names suggest a date or time, in
      header order; it reads names only, never values. */
  function FindTimeColumns(headers: seq<string>): (r: seq<string>)
    ensures forall h :: h in r <==> h in headers && IsTimeName(h)
    ensures IsSubsequence(r, headers)
    ensures forall h :: multiset(r)[h] == if IsTimeName(h) then multiset(headers)[h] else 0
  {
    FilterKeepsOrder(headers, IsTimeName);
    Filter(headers, IsTimeName)
  }

  /** The name test ignores the case of ASCII letters. */
  lemma TimeNameIgnoresCase(header: string)
    ensures IsTimeName(ToLower(header)) == IsTimeName(header)
  {
    ToLowerIdempotent(header);
  }

  datatype ChartChoice = ChartChoice(chartType: ChartType, reasoning: string)

  const MultiMetricReason := "Bar chart recommended for comparing multiple numeric values across categories."
  const DefaultReason := "Bar chart recommended as default visualization for this data structure."

  /** selectChartType: a first-match decision list that only ever yields a
      line chart (when there is a time column) or a bar chart. */
  function SelectChartType(numeric: seq<string>, text: seq<string>, time: seq<string>): (r: ChartChoice)
    ensures r.chartType == Line || r.chartType == Bar
    ensures r.chartType == Line <==> |time| > 0
    ensures |time| > 0 ==> Contains(r.reasoning, time[0])
    ensures |time| == 0 && |numeric| == 1 && |text| >= 1 ==>
              Contains(r.reasoning, numeric[0]) && Contains(r.reasoning, text[0])
    ensures |time| == 0 && !(|numeric| == 1 && |text| >= 1) ==>
              r.reasoning == if |numeric| >= 2 then MultiMetricReason else DefaultReason
  {
    if |time| > 0 then
      var before := "Line chart recommended because \"";
      var after := "\" appears to be time-series data, perfect for showing trends over time.";
      ContainsInfix(before, time[0], after);
      ChartChoice(Line, before + time[0] + after)
    else if |numeric| == 1 && |text| >= 1 then
      var a := "Bar chart recommended for comparing ";
      var b := " across different ";
      var c := " categories.";
      var reasoning := a + numeric[0] + b + text[0] + c;
      ContainsInfix(a, numeric[0], b + text[0] + c);
      ContainsInfix(a + numeric[0] + b, text[0], c);
      assert a + numeric[0] + (b + text[0] + c) == reasoning;
      ChartChoice(Bar, reasoning)
    else if |numeric| >= 2 then
      ChartChoice(Bar, MultiMetricReason)
    else
      ChartChoice(Bar, DefaultReason)
  }

  const TimeSeriesHint := "Time series data detected - consider trend analysis"
  const MultiSeriesHint := "Multiple metrics available - consider multi-series charts"

  /** generateInsights: three entries in fixed order (record and column
      counts, the numeric columns, the categorical columns), then a
      time-series hint when there is a time column, then a multi-metric hint
      when there are more than two numeric columns. */
  function GenerateInsights(data: seq<Row>, headers: seq<string>, numeric: seq<string>, text: seq<string>, time: seq<string>): (r: seq<string>)
    ensures |r| == 3 + (if |time| > 0 then 1 else 0) + (if |numeric| > 2 then 1 else 0)
    ensures 3 <= |r| <= 5
    ensures r[0] == "Dataset contains " + NatToString(|data|) + " records across " + NatToString(|headers|) + " columns"
    ensures StartsWith(r[1], NatToString(|numeric|) + " numeric columns detected: ")
    ensures forall i :: 0 <= i < |numeric| ==> Contains(r[1], numeric[i])
    ensures StartsWith(r[2], NatToString(|text|) + " categorical columns found: ")
    ensures forall i :: 0 <= i < |text| ==> Contains(r[2], text[i])
    ensures |time| > 0 ==> r[3] == TimeSeriesHint
    ensures |numeric| > 2 ==> r[|r| - 1] == MultiSeriesHint
    ensures forall i :: 3 <= i < |r| ==> r[i] == TimeSeriesHint || r[i] == MultiSeriesHint
  {
    var numericPrefix := NatToString(|numeric|) + " numeric columns detected: ";
    var textPrefix := NatToString(|text|) + " categorical columns found: ";
    var numericLine := numericPrefix + Join(numeric, ", ");
    var textLine := textPrefix + Join(text, ", ");
    JoinContainsAll(numeric, ", ");
    JoinContainsAll(text, ", ");
    assert forall i :: 0 <= i < |numeric| ==> Contains(numericLine, numeric[i]) by {
      forall i | 0 <= i < |numeric| ensures Contains(numericLine, numeric[i]) {
        ContainsWithin(numericPrefix, Join(numeric, ", "), "", numeric[i]);
        assert numericPrefix + Join(numeric, ", ") + "" == numericLine;
      }
    }
    assert forall i :: 0 <= i < |text| ==> Contains(textLine, text[i]) by {
      forall i | 0 <= i < |text| ensures Contains(textLine, text[i]) {
        ContainsWithin(textPrefix, Join(text, ", "), "", text[i]);
        assert textPrefix + Join(text, ", ") + "" == textLine;
      }
    }
    var base := [
      "Dataset contains " + NatToString(|data|) + " records across " + NatToString(|headers|) + " columns",
      numericLine,
      textLine
    ];
    var withTime := if |time| > 0 then base + [TimeSeriesHint] else base;
    if |numeric| > 2 then withTime + [MultiSeriesHint] else withTime
  }
}
