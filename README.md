# Chart recommendation engine, modelled in Dafny

This project models the core of a chart-recommendation app. A user uploads a
CSV file, already parsed into a list of headers and a list of rows. The
backend does four things with it:

- it classifies the columns as numeric, text or time-like;
- it picks a chart type and axes, either with a deterministic builder or
  with a text-generation backend, whose reply has its code fences stripped;
- it keeps an append-only, in-memory ledger of suggestions per user and
  file;
- it enforces a budget of feedback rounds per (user, file) pair.

On the client side, two pure helpers turn a suggestion and the rows into the
data and options objects of the charting library, and check a picked file
before it is parsed.

Modules:

- `Lists`, `Text`, `Values`: the JavaScript array, string and value
  semantics that the code relies on. This covers `filter`, `some`, `slice`,
  `trim`, `toLowerCase`, `includes`, `join`, truthiness, `||` on values and
  template rendering of `undefined`.
- `ChartTypes`: the records of `backend/types.ts`.
- `DataAnalysis`: `backend/utils/dataAnalysis.ts`.
- `OpenAIServices`: the deterministic builder, the prompt, reply cleaning and
  the adapter, from `backend/services/openAIServices.ts`.
- `Ledger`: `findUserConfig` and `createChartConfig` from
  `backend/utils/chartUtils.ts`.
- `CsvRoutes`: the upload and listing handlers of
  `backend/routes/csvRoutes.ts`.
  - The handler is first a pure function, `HandleUpload`, from the ledger
    before a call to the reply and the ledger after it.
  - `ConfigStore` holds the ledger as a `seq` field. Its imperative
    `Upload` method is proved to follow `HandleUpload`.
  - Session lemmas over `RunUploads`, a run of several calls, prove the
    feedback counter sequence 0, 1, …, max and the rejection after it.
    They assume two things: the calls come with increasing times, later than
    every stored record, and the suggestion source always answers. A
    failing source appends nothing, and a stored record with a later
    timestamp would remain the latest.
- `ChartData`: `src/utils/chartUtils.ts`.
- `FileValidation`: `src/utils/fileUtils.ts`.

Several things the code reads are parameters of the model:

- the clock, as `now`, in milliseconds;
- the test-mode switch, the feedback budget and the sample size;
- `JSON.stringify`, `JSON.parse`, `String(…)` and `Number(…)`;
- the chat-completion call.

## Model

| member | source | states |
|---|---|---|
| `DataAnalysis.NumericColumns` | backend/utils/dataAnalysis.ts:5-7 | exactly the headers under which some row holds a number, in header order and with their multiplicity |
| `DataAnalysis.TextColumns` | backend/utils/dataAnalysis.ts:8-10 | exactly the headers under which some row holds a string, in header order and with their multiplicity |
| `DataAnalysis.AnalyzeDataColumns` | backend/utils/dataAnalysis.ts:3-15 | numeric and text columns as above, each a subsequence of the headers, so a header can be in both; `hasEmptyValues` holds iff some row has null, undefined or "" under any of its keys, headers or not |
| `DataAnalysis.FindTimeColumns` | backend/utils/dataAnalysis.ts:17-24 | exactly the headers whose lowercased name contains "date", "time", "month" or "year", in header order; the result depends on the names only |
| `DataAnalysis.TimeNameIgnoresCase` | backend/utils/dataAnalysis.ts:19-22 | the time-name test gives the same answer for a name and its lowercase form |
| `DataAnalysis.SelectChartType` | backend/utils/dataAnalysis.ts:26-55 | the result is only ever line or bar; line iff there is a time column, and the reasoning then names the first one; with one numeric column and some text column the reasoning names both first columns; otherwise it is the fixed multi-metric text (two or more numeric columns) or the default text |
| `DataAnalysis.GenerateInsights` | backend/utils/dataAnalysis.ts:57-72 | 3 to 5 entries: record and column counts; the numeric count with every numeric column; the text count with every text column; then the time-series hint iff there is a time column, and the multi-metric hint last iff there are more than two numeric columns |
| `OpenAIServices.PickXAxis` | backend/services/openAIServices.ts:18 | the first text column if its name is non-empty, else the first time column if non-empty, else the first header (undefined with no headers) |
| `OpenAIServices.PickYAxis` | backend/services/openAIServices.ts:19 | the first numeric column if non-empty, else the second header if non-empty, else the first header |
| `OpenAIServices.XAxisIsHeader` | backend/services/openAIServices.ts:18 | an x-axis picked from columns drawn from the headers is one of the headers, and is defined iff there is a header |
| `OpenAIServices.YAxisIsHeader` | backend/services/openAIServices.ts:19 | the same for the y-axis |
| `OpenAIServices.AxesAreHeaders` | backend/services/openAIServices.ts:9-19 | the axes the builder picks from the classified columns are headers of the dataset, and are undefined only when there are no headers |
| `OpenAIServices.GenerateFakeResponse` | backend/services/openAIServices.ts:6-39 | type and reasoning are the selector's answer on the classified columns and the time columns; the axes are the picks above; the title is "y by x"; the insights come from the same column lists; the style is the fixed five-colour payload; no feedback input exists |
| `OpenAIServices.RevisionRequest` | backend/services/openAIServices.ts:52-61 | the revision block carries the serialised current suggestion and the quoted feedback |
| `OpenAIServices.BuildPrompt` | backend/services/openAIServices.ts:41-89 | the prompt opens with the preamble and ends with the response-format trailer; when the feedback is a non-empty string and a current suggestion exists it is exactly preamble, revision block and trailer, and otherwise exactly preamble plus trailer |
| `OpenAIServices.PromptSeesOnlySample` | backend/services/openAIServices.ts:42-50 | two datasets with the same length and the same first `sampleSize` rows give the same prompt: only the sample is embedded, and the total row count is reported |
| `OpenAIServices.StripClosingFence` | backend/services/openAIServices.ts:94 | a trailing fence is removed along with the white space before it; text without one is kept as it is |
| `OpenAIServices.StripOpeningFence` | backend/services/openAIServices.ts:94 | the opening fence is dropped, together with the white space after it |
| `OpenAIServices.CleanResponse` | backend/services/openAIServices.ts:91-99 | the result is a substring of the reply; a reply whose trimmed form does not start with a fence comes back trimmed |
| `OpenAIServices.CleanTrimsFirst` | backend/services/openAIServices.ts:92 | white space around a reply never changes what cleaning returns: a reply cleans exactly as its trimmed form does |
| `OpenAIServices.CleanUnfenced` | backend/services/openAIServices.ts:92-98 | a trimmed reply without a fence comes back unchanged |
| `OpenAIServices.CleanOpening` | backend/services/openAIServices.ts:93-96 | the json fence is recognised first; any other opening of three backticks whose rest does not start with "json" (white space, "JSON", "js", …) is stripped as a bare fence; in both cases the result is the rest without its leading white space and its closing fence |
| `OpenAIServices.CleanFenced` | backend/services/openAIServices.ts:91-99 | for a reply of the form fence, white space, trimmed body, white space, closing fence, cleaning returns the body exactly |
| `OpenAIServices.ChartConfigFromBackend` | backend/services/openAIServices.ts:115-160 | yields a suggestion iff the backend replies with non-empty text whose cleaned form parses, and the suggestion is then that parse; every failure becomes "no suggestion" |
| `Ledger.EntriesFor` | backend/utils/chartUtils.ts:4-5 | a record is among the pair's entries iff it is in the ledger and its user and file both equal the key |
| `Ledger.EntriesKeepOrder` | backend/utils/chartUtils.ts:4-5 | the pair's entries are a subsequence of the ledger, and each matching record occurs exactly as often as in the ledger |
| `Ledger.SortByRecency` | backend/utils/chartUtils.ts:6 | a permutation of its input, newest first |
| `Ledger.SortedEntriesHead` | backend/utils/chartUtils.ts:4-10 | the head of the sorted entries is the first-inserted record among the matching records with the latest timestamp |
| `Ledger.FirstLatestUnique` | backend/utils/chartUtils.ts:6 | that record is unique |
| `Ledger.FindUserConfig` | backend/utils/chartUtils.ts:3-16 | no suggestion, with count 0, iff no record matches; otherwise the suggestion and count of the first-inserted latest matching record |
| `Ledger.LookupIgnoresOthers` | backend/utils/chartUtils.ts:4-5 | appending a record for another user or file leaves the lookup unchanged |
| `Ledger.LatestAfterAppend` | backend/utils/chartUtils.ts:6-12 | after appending a record newer than every stored one, the lookup for its key returns exactly that record |
| `Ledger.SameTimeKeepsEarlier` | backend/utils/chartUtils.ts:6-12 | after appending a record with the same timestamp as the current latest, the lookup still returns the earlier record (the sort is stable) |
| `Ledger.CreateChartConfig` | backend/utils/chartUtils.ts:18-27 | user, file, suggestion and count are copied verbatim; the id and the timestamp come from the clock reading |
| `Ledger.ConfigIdInjective` | backend/utils/chartUtils.ts:20 | the id "chart_<ms>_<user>" determines both the clock reading and the user |
| `CsvRoutes.FakeSourceIgnoresFeedback` | backend/routes/csvRoutes.ts:49-51 | in test mode the suggestion depends on file name, headers and rows only, and always exists |
| `CsvRoutes.HandleUpload` | backend/routes/csvRoutes.ts:53-59 | a call appends at most one record and keeps every existing record in place |
| `CsvRoutes.UploadRejection` | backend/routes/csvRoutes.ts:29-46 | rejection iff there is feedback and the latest count is at least the budget; it carries the message, the error code, the budget and the current count, and leaves the ledger unchanged |
| `CsvRoutes.UploadReply` | backend/routes/csvRoutes.ts:25-77 | the success reply carries the caller, the file info with `columnCount` equal to the header count, `analyzeDataColumns` of the upload, and the source's answer to a request that carries the latest suggestion only when there is feedback; the flag, the id and the append all happen iff the parsed answer is a suggestion (the source can split the flag from the append on a falsy non-null parse; see "## Left out") |
| `CsvRoutes.UploadRecord` | backend/routes/csvRoutes.ts:55-58 | the appended record is for the caller's key, stamped now, with the reply's id; its count is the latest count plus one with feedback (1 with no prior record) and 0 without |
| `CsvRoutes.FreshCallIgnoresLedger` | backend/routes/csvRoutes.ts:29 | without feedback, the reply and what is appended do not depend on the ledger |
| `CsvRoutes.UserConfigs` | backend/routes/csvRoutes.ts:97 | exactly the caller's records, in insertion order and with their multiplicity |
| `CsvRoutes.ConfigStore.constructor` | backend/routes/csvRoutes.ts:9 | the ledger starts empty |
| `CsvRoutes.ConfigStore.Upload` | backend/routes/csvRoutes.ts:11-80 | the reply and the new ledger are those of `HandleUpload` on the old ledger, with the source chosen by the test-mode switch |
| `CsvRoutes.ConfigStore.Record` | backend/routes/csvRoutes.ts:53-77 | once the source has answered: the reply and the new ledger are those of the handler's post-check step, appending the record only when there is a suggestion |
| `CsvRoutes.ConfigStore.ChartConfigurations` | backend/routes/csvRoutes.ts:93-105 | the caller's records and their number |
| `CsvRoutes.RunUploads` | backend/routes/csvRoutes.ts:9 | a run of calls gives one reply per call and only ever extends the ledger |
| `CsvRoutes.FeedbackRounds` | backend/routes/csvRoutes.ts:29-58 | with increasing timestamps and an answering source, n feedback calls under the budget are all answered, append counts c+1, …, c+n, and leave the latest count at c+n |
| `CsvRoutes.FeedbackBudget` | backend/routes/csvRoutes.ts:37-58 | when every call is timed after all stored records, with increasing times, and the source always answers: a fresh call followed by max feedback calls appends counts 0, 1, …, max, and the next feedback call is rejected with count max, leaving the ledger unchanged |
| `ChartData.NumberOrZero` | src/utils/chartUtils.ts:6 | NaN and zero both become 0; any other number is kept |
| `ChartData.Labels` | src/utils/chartUtils.ts:5 | one label per row, in row order: the rendered cell when it is truthy, "" otherwise |
| `ChartData.StringCellLabel` | src/utils/chartUtils.ts:5 | when `render` maps each string to itself, as `String` does, a string cell under the x-axis is its own label |
| `ChartData.NumericValues` | src/utils/chartUtils.ts:6 | one value per row, in row order: the cell's number, or 0 when it is NaN or zero |
| `ChartData.Translucent` | src/utils/chartUtils.ts:15 | each colour with "CC" appended, position by position |
| `ChartData.CreateChartData` | src/utils/chartUtils.ts:4-50 | one dataset. Pie and doughnut: per-slice colours, the first min(10, rows) palette entries, with borders the same colours plus "CC". Scatter: no labels, one point per row, label "y vs x". Otherwise: the first palette colour with "80" for bar and "20" for line, and tension 0.4 and fill false only for line |
| `ChartData.CreateChartOptions` | src/utils/chartUtils.ts:52-88 | the legend is shown iff the type is pie or doughnut iff the scales are left out; the title text is the suggestion's title; the scale titles are the axes |
| `ChartData.LegendMatchesSlices` | src/utils/chartUtils.ts:8-15 | the options show a legend exactly when the data colours each slice separately |
| `ChartData.ShapeIgnoresProse` | src/utils/chartUtils.ts:4-88 | reasoning, insights and style do not affect the data or the options |
| `FileValidation.ValidateFile` | src/utils/fileUtils.ts:3-10 | the type message iff neither the lowercased name ends in ".csv" nor the type is "text/csv"; the size message iff the type check passes and the size exceeds 10·1024·1024; no message iff both checks pass |
| `FileValidation.AnyCaseExtension` | src/utils/fileUtils.ts:4 | a name ending in ".csv" in any letter case passes the type check, whatever the MIME type |
| `FileValidation.MimeTypeSuffices` | src/utils/fileUtils.ts:4 | the "text/csv" type passes the type check, whatever the name |
| `FileValidation.SizeBoundary` | src/utils/fileUtils.ts:7-8 | exactly 10 MB is accepted and one byte more gets the size message |
| `FileValidation.TypeCheckFirst` | src/utils/fileUtils.ts:4-8 | a file that fails both checks gets the type message |

## Left out

- **Logging and error replies.** The `console` logging is not modelled. Neither is the HTTP 500 path taken when the request body is malformed; the request is a typed record here.
- **HTTP envelope.** Status codes, `success`, the fixed success message and `receivedAt` are not modelled.
- **Concurrency.** Calls are sequential. The race between the lookup and the append on the shared array is not modelled.
- **Clock.** Both clock reads of `createChartConfig`, the id and `createdAt`, take one `now` in milliseconds. `createdAt` is that integer, not an ISO string; the lookup only compares timestamps, so the order is the same.
- **Lowercasing.** Lowercasing covers the ASCII letters only; `toLowerCase` also folds other scripts.
- **Opaque conversions.** `JSON.stringify`, `JSON.parse`, `String(…)` and `Number(…)` are function parameters, so no JSON round trip is stated.
- `CsvRoutes.UploadReply`: the `parse` parameter also stands for the unchecked cast of whatever `JSON.parse` returns to a chart suggestion, so the model's answer is either a suggestion or nothing. In the source a reply that parses to a falsy non-null value (`0`, `false`, `""`) gives `hasAiSuggestion: true` (backend/routes/csvRoutes.ts:75) but appends no record and returns a null `chartConfigId` (lines 55 and 76). A parse to an object without the suggestion fields is appended as it is. The model does not capture this split between the flag and the append.
- **Numbers.** A number is a real or NaN; infinities are not modelled.
- **Stored counts.** A stored `feedbackCount` is always a number the handler computed, so `feedbackCount || 0` is the identity in the model.
- **Backend constants.** The feedback budget, the sample size and the test-mode switch are defined in backend/constants, which is not part of this model. They are parameters.
- **Text-generation backend.** The network call is the `complete` parameter of `OpenAIServices.ChartConfigFromBackend`. Its model name, token limit, temperature and system message are not modelled. `handleOpenAIError` only logs, so it is not modelled.
- **Suggestion source.** The orchestrator calls the adapter as an abstract `Source`, a function from the request to an optional suggestion.
- **Client UI.** The React components, hooks and app state are not modelled. This includes the advisory chat-request counter in the app component. The API client and the server wiring are not modelled either.
- **Row count.** `rowCount` is passed through into the reply as an uninterpreted value.
- **Ties in the lookup.** On a timestamp tie the code returns the earliest-inserted record, because the sort is stable. The model follows the code, not the reading in which the later record wins.
- **Reply cleaning.** An unfenced reply comes back trimmed, not unchanged, because the code trims it before testing for a fence. The model follows the code.
- `OpenAIServices.CleanResponse`: fenced replies are characterised by lemmas rather than in the function's own contract. `CleanTrimsFirst` reduces any reply to its trimmed form. `CleanOpening` then covers every trimmed reply that opens with a fence, whether "```json" or three backticks followed by anything else. `CleanFenced` states the result for a reply of the form fence, white space, body, white space, closing fence.
