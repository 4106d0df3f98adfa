/** The recommendation adapter: the deterministic suggestion builder, the
    request text sent to the text-generation backend, the stripping of code
    fences from its reply, and the composition of these around the backend. */
module OpenAIServices {
  import opened Lists
  import opened Text
  import opened Values
  import opened ChartTypes
  import opened DataAnalysis

  /** The rendering-style payload every deterministic suggestion carries. */
  const DefaultStyle := ChartStyle(["#FF6384", "#36A2EB", "#FFCE56", "#4BC0C0", "#9966FF"], "#FFFFFF", true)

  /** The x-axis: the first text column, else the first time column, else
      the first header; a chain of `||`, so an empty name is passed over. */
  function PickXAxis(text: seq<string>, time: seq<string>, headers: seq<string>): (r: Option<string>)
    ensures r == if |text| > 0 && text[0] != "" then Some(text[0])
                 else if |time| > 0 && time[0] != "" then Some(time[0])
                 else At(headers, 0)
  {
    Or(Or(At(text, 0), At(time, 0)), At(headers, 0))
  }

  /** The y-axis: the first numeric column, else the second header, else the
      first header. */
  function PickYAxis(numeric: seq<string>, headers: seq<string>): (r: Option<string>)
    ensures r == if |numeric| > 0 && numeric[0] != "" then Some(numeric[0])
                 else if |headers| > 1 && headers[1] != "" then Some(headers[1])
                 else At(headers, 0)
  {
    Or(Or(At(numeric, 0), At(headers, 1)), At(headers, 0))
  }

  /** generateFakeOpenAIResponse: classifies the columns, lets the selector
      pick the chart type, and picks the axes and the title. It has no
      feedback parameter, so feedback never changes what it builds. */
  function GenerateFakeResponse(fileName: string, headers: seq<string>, data: seq<Row>): (r: Suggestion)
    ensures var analysis := AnalyzeDataColumns(headers, data);
            var choice := SelectChartType(analysis.numericColumns, analysis.textColumns, FindTimeColumns(headers));
            r.chartType == choice.chartType && r.reasoning == choice.reasoning
    ensures r.xAxis == PickXAxis(TextColumns(headers, data), FindTimeColumns(headers), headers)
    ensures r.yAxis == PickYAxis(NumericColumns(headers, data), headers)
    ensures r.title == ToJsString(r.yAxis) + " by " + ToJsString(r.xAxis)
    ensures r.insights == GenerateInsights(data, headers, NumericColumns(headers, data), TextColumns(headers, data), FindTimeColumns(headers))
    ensures r.style == DefaultStyle
  {
    var numeric := NumericColumns(headers, data);
    var text := TextColumns(headers, data);
    var time := FindTimeColumns(headers);
    var choice := SelectChartType(numeric, text, time);
    var xAxis := PickXAxis(text, time, headers);
    var yAxis := PickYAxis(numeric, headers);
    Suggestion(
      choice.chartType,
      xAxis,
      yAxis,
      choice.reasoning,
      ToJsString(yAxis) + " by " + ToJsString(xAxis),
      GenerateInsights(data, headers, numeric, text, time),
      DefaultStyle)
  }

  /** An x-axis picked from columns drawn from the headers is a header, and
      is undefined only when there are no headers. */
  lemma XAxisIsHeader(text: seq<string>, time: seq<string>, headers: seq<string>)
    requires forall h :: h in text ==> h in headers
    requires forall h :: h in time ==> h in headers
    ensures var x := PickXAxis(text, time, headers);
            (x.Some? <==> |headers| > 0) && (x.Some? ==> x.value in headers)
  {
    assert |text| > 0 ==> text[0] in text;
    assert |time| > 0 ==> time[0] in time;
    assert |headers| > 0 ==> |text| > 0 || |time| > 0 || At(headers, 0).Some?;
  }

  /** The same for the y-axis. */
  lemma YAxisIsHeader(numeric: seq<string>, headers: seq<string>)
    requires forall h :: h in numeric ==> h in headers
    ensures var y := PickYAxis(numeric, headers);
            (y.Some? <==> |headers| > 0) && (y.Some? ==> y.value in headers)
  {
    assert |numeric| > 0 ==> numeric[0] in numeric;
  }

  /** Both axes picked from the classified columns are column names of the
      dataset, and they are undefined only when there are no columns. */
  lemma AxesAreHeaders(headers: seq<string>, data: seq<Row>)
    ensures var x := PickXAxis(TextColumns(headers, data), FindTimeColumns(headers), headers);
            var y := PickYAxis(NumericColumns(headers, data), headers);
            && (x.Some? <==> |headers| > 0) && (y.Some? <==> |headers| > 0)
            && (x.Some? ==> x.value in headers)
            && (y.Some? ==> y.value in headers)
  {
    XAxisIsHeader(TextColumns(headers, data), FindTimeColumns(headers), headers);
    YAxisIsHeader(NumericColumns(headers, data), headers);
  }

  /** The opening of the request: file name, headers, the serialised sample
      rows and the full row count. */
  function PromptPreamble(fileName: string, headers: seq<string>, data: seq<Row>, sampleSize: nat, rowsJson: seq<Row> -> string): string
  {
    "\nAnalyze this CSV data and recommend a Chart.js configuration:\n\nFile: " + fileName +
    "\nHeaders: " + Join(headers, ", ") +
    "\nSample Data: " + rowsJson(Take(data, sampleSize)) +
    "\nTotal rows: " + NatToString(|data|)
  }

  /** The block asking the backend to revise the current suggestion; it
      carries the suggestion's serialisation and the quoted feedback. */
  function RevisionRequest(current: Suggestion, feedback: string, suggestionJson: Suggestion -> string): (r: string)
    ensures Contains(r, suggestionJson(current))
    ensures Contains(r, "USER FEEDBACK: \"" + feedback + "\"")
  {
    var quoted := "USER FEEDBACK: \"" + feedback + "\"";
    var json := suggestionJson(current);
    ContainsParts(RevisionLead, json, "\n\n", quoted, RevisionTail);
    RevisionLead + json + "\n\n" + quoted + RevisionTail
  }

  const RevisionLead := "\n\nCURRENT SUGGESTION:\n"
  const RevisionTail := "\n\nPlease modify the chart configuration based on the user's feedback. Consider their preferences and adjust the chart type, axes, styling, or other aspects accordingly."

  /** The response-format instructions that close every request, line by
      line; they open with two line breaks. */
  const ResponseFormatLines: seq<string> := [
    "",
    "",
    "Respond with JSON containing:",
    "{",
    "  \"recommendedChartType\": \"bar\" | \"line\" | \"pie\" | \"doughnut\" | \"scatter\",",
    "  \"xAxis\": \"column_name_for_x_axis\",",
    "  \"yAxis\": \"column_name_for_y_axis\",",
    "  \"reasoning\": \"why this chart type fits the data\",",
    "  \"title\": \"descriptive chart title\",",
    "  \"insights\": [\"key insight 1\", \"insight 2\", \"insight 3\"],",
    "  \"chartjsConfig\": {",
    "    \"backgroundColor\": [\"#FF6384\", \"#36A2EB\", \"#FFCE56\"],",
    "    \"borderColor\": \"#FFFFFF\",",
    "    \"responsive\": true",
    "  }",
    "}",
    "",
    "Chart selection rules:",
    "- Bar: categorical vs numerical data",
    "- Line: time series, continuous trends  ",
    "- Pie/Doughnut: parts of a whole (max 8 categories)",
    "- Scatter: correlation between two numerical variables",
    "",
    "Only valid JSON response."]

  const ResponseFormat := Join(ResponseFormatLines, "\n")

  /** buildOpenAIPrompt. `rowsJson` and `suggestionJson` stand for
      `JSON.stringify(…, null, 2)`. The revision block is present exactly
      when the feedback is a non-empty string and a current suggestion exists;
      the response format always comes last. */
  function BuildPrompt(fileName: string, headers: seq<string>, data: seq<Row>, feedback: Option<string>,
                       current: Option<Suggestion>, sampleSize: nat,
                       rowsJson: seq<Row> -> string, suggestionJson: Suggestion -> string): (r: string)
    ensures StartsWith(r, PromptPreamble(fileName, headers, data, sampleSize, rowsJson))
    ensures EndsWith(r, ResponseFormat)
    ensures Present(feedback) && current.Some? ==>
              Contains(r, RevisionRequest(current.value, feedback.value, suggestionJson))
    ensures Present(feedback) && current.Some? ==>
              r == PromptPreamble(fileName, headers, data, sampleSize, rowsJson)
                   + RevisionRequest(current.value, feedback.value, suggestionJson) + ResponseFormat
    ensures !(Present(feedback) && current.Some?) ==>
              r == PromptPreamble(fileName, headers, data, sampleSize, rowsJson) + ResponseFormat
  {
    var preamble := PromptPreamble(fileName, headers, data, sampleSize, rowsJson);
    if Present(feedback) && current.Some? then
      var revision := RevisionRequest(current.value, feedback.value, suggestionJson);
      Affixes(preamble, revision, ResponseFormat);
      ContainsInfix(preamble, revision, ResponseFormat);
      preamble + revision + ResponseFormat
    else
      Affixes(preamble, "", ResponseFormat);
      assert preamble + "" == preamble;
      preamble + "" + ResponseFormat
  }

  /** Only the first `sampleSize` rows and the row count reach the request:
      two datasets that agree on those give the same request. */
  lemma PromptSeesOnlySample(fileName: string, headers: seq<string>, data1: seq<Row>, data2: seq<Row>,
                             feedback: Option<string>, current: Option<Suggestion>, sampleSize: nat,
                             rowsJson: seq<Row> -> string, suggestionJson: Suggestion -> string)
    requires |data1| == |data2| && Take(data1, sampleSize) == Take(data2, sampleSize)
    ensures BuildPrompt(fileName, headers, data1, feedback, current, sampleSize, rowsJson, suggestionJson)
         == BuildPrompt(fileName, headers, data2, feedback, current, sampleSize, rowsJson, suggestionJson)
  {
  }

  const Fence := "```"
  const JsonFence := Fence + "json"

  /** Drops a closing fence and the white space before it, when the text ends with one. */
  function StripClosingFence(s: string): (r: string)
    ensures Contains(s, r)
    ensures EndsWith(s, Fence) ==> r == TrimEnd(s[..|s| - |Fence|])
    ensures !EndsWith(s, Fence) ==> r == s
  {
    if EndsWith(s, Fence) then
      var r := TrimEnd(s[..|s| - |Fence|]);
      assert r == s[0..|r|];
      SliceContained(s, 0, |r|);
      r
    else
      assert s == s[0..|s|];
      SliceContained(s, 0, |s|);
      s
  }

  /** Drops an opening fence of `n` characters and the white space after it. */
  function StripOpeningFence(s: string, n: nat): (r: string)
    requires n <= |s|
    ensures Contains(s, r)
    ensures r == TrimStart(s[n..])
  {
    var rest := s[n..];
    var r := TrimStart(rest);
    SuffixContained(rest, r);
    SuffixContained(s, rest);
    ContainsTransitive(s, rest, r);
    r
  }

  /** cleanOpenAIResponse: trims the reply; if it then opens with a
      "```json" fence (tested first) or a bare "```" fence, removes that
      fence with the white space after it and a closing fence with the white
      space before it. The result is always a piece of the reply. */
  function CleanResponse(response: string): (r: string)
    ensures Contains(response, r)
    ensures !StartsWith(Trim(response), Fence) ==> r == Trim(response)
  {
    var cleaned := Trim(response);
    if StartsWith(cleaned, JsonFence) then
      StartsWithPart(cleaned, Fence, "json");
      var unfenced := StripOpeningFence(cleaned, |JsonFence|);
      var r := StripClosingFence(unfenced);
      ContainsTransitive(cleaned, unfenced, r);
      ContainsTransitive(response, cleaned, r);
      r
    else if StartsWith(cleaned, Fence) then
      var unfenced := StripOpeningFence(cleaned, |Fence|);
      var r := StripClosingFence(unfenced);
      ContainsTransitive(cleaned, unfenced, r);
      ContainsTransitive(response, cleaned, r);
      r
    else
      cleaned
  }

  /** Cleaning trims first, so white space around a reply, fenced or not,
      never changes the result. */
  lemma CleanTrimsFirst(response: string)
    ensures CleanResponse(response) == CleanResponse(Trim(response))
  {
    TrimTrimmed(Trim(response));
  }

  /** A reply without a fence comes back as it is, once trimmed. */
  lemma CleanUnfenced(reply: string)
    requires IsTrimmed(reply) && !StartsWith(reply, Fence)
    ensures CleanResponse(reply) == reply
  {
    TrimTrimmed(reply);
  }

  /** A trimmed reply that opens with a "```json" fence loses that fence,
      the white space after it, and whatever the closing-fence step removes. */
  lemma CleanJsonCase(reply: string)
    requires IsTrimmed(reply) && StartsWith(reply, JsonFence)
    ensures CleanResponse(reply) == StripClosingFence(TrimStart(reply[|JsonFence|..]))
  {
    TrimTrimmed(reply);
  }

  /** The same for a bare "```" fence. */
  lemma CleanBareCase(reply: string)
    requires IsTrimmed(reply) && StartsWith(reply, Fence) && !StartsWith(reply, JsonFence)
    ensures CleanResponse(reply) == StripClosingFence(TrimStart(reply[|Fence|..]))
  {
    TrimTrimmed(reply);
  }

  /** A bare fence not followed by "json" is not a "```json" fence. */
  lemma BareIsNotJson(rest: string)
    requires !StartsWith(rest, "json")
    ensures !StartsWith(Fence + rest, JsonFence)
  {
    if StartsWith(Fence + rest, JsonFence) {
      StartsWithRest(Fence, rest, "json");
    }
  }

  /** A trimmed reply made of an opening fence and the rest loses the fence,
      the white space after it, and whatever the closing-fence step removes.
      The "```json" fence is tested first, so a bare fence is one whose rest
      does not start with "json" (such as "```JSON" or "```js"). */
  lemma CleanOpening(fence: string, rest: string)
    requires fence == JsonFence || (fence == Fence && !StartsWith(rest, "json"))
    requires IsTrimmed(fence + rest)
    ensures CleanResponse(fence + rest) == StripClosingFence(TrimStart(rest))
  {
    var reply := fence + rest;
    assert reply[..|fence|] == fence;
    assert reply[|fence|..] == rest;
    if fence == JsonFence {
      CleanJsonCase(reply);
    } else {
      BareIsNotJson(rest);
      CleanBareCase(reply);
    }
  }

  /** A closing fence is dropped together with the white space before it. */
  lemma StripAfter(x: string)
    ensures StripClosingFence(x + Fence) == TrimEnd(x)
  {
    var s := x + Fence;
    assert s[|s| - |Fence|..] == Fence;
    assert s[..|s| - |Fence|] == x;
  }

  /** White space and a closing fence, with no body between. */
  lemma StripFencedEmpty(lead: string, body: string, trail: string)
    requires forall i :: 0 <= i < |lead| ==> IsSpace(lead[i])
    requires forall i :: 0 <= i < |trail| ==> IsSpace(trail[i])
    requires body == []
    ensures StripClosingFence(TrimStart(lead + body + trail + Fence)) == []
  {
    var ws := lead + body + trail;
    forall i | 0 <= i < |ws| ensures IsSpace(ws[i]) {
      if i >= |lead| { assert ws[i] == trail[i - |lead|]; }
    }
    assert !IsSpace(Fence[0]);
    TrimStartDrops(ws, Fence);
    StripAfter([]);
    assert [] + Fence == Fence;
  }

  /** White space, a trimmed body, white space and a closing fence: dropping
      the leading white space and then the closing fence leaves the body. */
  lemma StripFencedBody(lead: string, body: string, trail: string)
    requires forall i :: 0 <= i < |lead| ==> IsSpace(lead[i])
    requires forall i :: 0 <= i < |trail| ==> IsSpace(trail[i])
    requires IsTrimmed(body)
    ensures StripClosingFence(TrimStart(lead + body + trail + Fence)) == body
  {
    if body == [] {
      StripFencedEmpty(lead, body, trail);
    } else {
      StripFencedNonEmpty(lead, body, trail);
    }
  }

  /** The case of StripFencedBody with a body. */
  lemma StripFencedNonEmpty(lead: string, body: string, trail: string)
    requires forall i :: 0 <= i < |lead| ==> IsSpace(lead[i])
    requires forall i :: 0 <= i < |trail| ==> IsSpace(trail[i])
    requires body != [] && IsTrimmed(body)
    ensures StripClosingFence(TrimStart(lead + body + trail + Fence)) == body
  {
    var closing := body + trail;
    assert lead + body + trail + Fence == lead + (closing + Fence);
    assert (closing + Fence)[0] == body[0];
    TrimStartDrops(lead, closing + Fence);
    StripAfter(closing);
    TrimEndDrops(body, trail);
  }

  /** A string made of a fence, anything, and a closing fence is trimmed. */
  lemma FencedIsTrimmed(fence: string, rest: string)
    requires StartsWith(fence, Fence)
    ensures IsTrimmed(fence + rest + Fence)
  {
    var s := fence + rest + Fence;
    assert s[0] == fence[0] == Fence[0];
    assert s[|s| - 1] == Fence[|Fence| - 1];
  }

  /** A fenced body comes back exactly: "```json" or "```", white space, the
      body, white space and a closing "```" yield the body. A bare fence needs
      white space after it, or a body opening with "json" would be read as a
      "```json" fence. */
  lemma CleanFenced(fence: string, lead: string, body: string, trail: string)
    requires fence == JsonFence || (fence == Fence && lead != [])
    requires forall i :: 0 <= i < |lead| ==> IsSpace(lead[i])
    requires forall i :: 0 <= i < |trail| ==> IsSpace(trail[i])
    requires IsTrimmed(body)
    ensures CleanResponse(fence + lead + body + trail + Fence) == body
  {
    var middle := lead + body + trail;
    var rest := middle + Fence;
    assert fence + lead + body + trail + Fence == fence + middle + Fence == fence + rest;
    if fence == JsonFence {
      StartsWithPart(JsonFence, Fence, "json");
    } else {
      assert StartsWith(Fence, Fence);
      assert rest[0] == lead[0] && IsSpace(rest[0]);
      assert !StartsWith(rest, "json") by { assert rest[0] != 'j'; }
    }
    FencedIsTrimmed(fence, middle);
    CleanOpening(fence, rest);
    StripFencedBody(lead, body, trail);
  }

  /** What generateChartConfigWithOpenAI receives. */
  datatype AdapterRequest = AdapterRequest(
    fileName: string,
    headers: seq<string>,
    data: seq<Row>,
    feedback: Option<string>,
    current: Option<Suggestion>)

  /** generateChartConfigWithOpenAI around an abstract backend: `complete`
      is the chat-completion call (None for a transport, quota or key
      failure) and `parse` is JSON.parse of the cleaned reply (None when it
      fails). Every failure becomes None; nothing escapes. */
  function ChartConfigFromBackend(req: AdapterRequest, sampleSize: nat,
                                  rowsJson: seq<Row> -> string, suggestionJson: Suggestion -> string,
                                  complete: string -> Option<string>, parse: string -> Option<Suggestion>): (r: Option<Suggestion>)
    ensures var reply := complete(BuildPrompt(req.fileName, req.headers, req.data, req.feedback, req.current, sampleSize, rowsJson, suggestionJson));
            && (r.Some? <==> reply.Some? && reply.value != "" && parse(CleanResponse(reply.value)).Some?)
            && (r.Some? ==> r == parse(CleanResponse(reply.value)))
  {
    var prompt := BuildPrompt(req.fileName, req.headers, req.data, req.feedback, req.current, sampleSize, rowsJson, suggestionJson);
    match complete(prompt)
    case None => None
    case Some(reply) => if reply == "" then None else parse(CleanResponse(reply))
  }
}
