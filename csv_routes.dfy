/** The upload route: the in-memory suggestion ledger, the upload handler
    that enforces the feedback-round budget and appends one record per
    produced suggestion, and the per-user listing of the ledger. */
module CsvRoutes {
  import opened Lists
  import opened Text
  import opened Values
  import opened ChartTypes
  import opened DataAnalysis
  import opened OpenAIServices
  import opened Ledger

  /** The fields of an upload request body, with the caller's identity
      from the authentication layer. `rowCount` is passed back as it came. */
  datatype UploadRequest = UploadRequest(
    userId: string,
    appId: string,
    fileName: string,
    headers: seq<string>,
    data: seq<Row>,
    rowCount: Value,
    feedback: Option<string>)

  datatype FileInfo = FileInfo(name: string, headers: seq<string>, rowCount: Value, columnCount: nat)

  /** The two replies of the upload handler: the 400 rejection when the
      feedback budget is spent, and the 200 reply otherwise. */
  datatype Reply =
    | LimitExceeded(message: string, error: string, maxFeedbackRequests: nat, currentFeedbackCount: int)
    | Processed(
        userId: string,
        appId: string,
        fileInfo: FileInfo,
        analysis: ChartTypes.DataAnalysis,
        aiSuggestion: Option<Suggestion>,
        hasAiSuggestion: bool,
        chartConfigId: Option<string>)

  const LimitError := "FEEDBACK_LIMIT_EXCEEDED"

  function LimitMessage(maxFeedback: nat): string
  {
    "Maximum feedback requests reached (" + NatToString(maxFeedback) + " per CSV file)"
  }

  /** A suggestion source: given the file, the feedback and the current
      suggestion, it yields a suggestion or nothing. */
  type Source = AdapterRequest -> Option<Suggestion>

  /** The deterministic builder as a source: it looks only at the file name,
      the headers and the rows, and always yields a suggestion. */
  const FakeSource: Source := (a: AdapterRequest) => Some(GenerateFakeResponse(a.fileName, a.headers, a.data))

  /** The source the handler asks: the deterministic builder in test mode,
      the text-generation adapter otherwise. */
  function SourceFor(useFake: bool, adapter: Source): Source
  {
    if useFake then FakeSource else adapter
  }

  /** In test mode neither the feedback nor the current suggestion changes
      what the handler gets, and it always gets a suggestion. */
  lemma FakeSourceIgnoresFeedback(a1: AdapterRequest, a2: AdapterRequest)
    requires a1.fileName == a2.fileName && a1.headers == a2.headers && a1.data == a2.data
    ensures FakeSource(a1) == FakeSource(a2) && FakeSource(a1).Some?
  {
  }

  /** A reply and the ledger after the call. */
  datatype Outcome = Outcome(reply: Reply, store: seq<StoredConfig>)

  /** handleCSVUpload as a function of the ledger before the call: what it
      replies and what the ledger holds afterwards. `now` is the clock
      reading, in milliseconds, stamped on a new record. */
  function HandleUpload(store: seq<StoredConfig>, maxFeedback: nat, source: Source, req: UploadRequest, now: nat): (o: Outcome)
    ensures |store| <= |o.store| <= |store| + 1
    ensures forall i :: 0 <= i < |store| ==> o.store[i] == store[i]
  {
    var latest := if Present(req.feedback) then FindUserConfig(req.userId, req.fileName, store) else LatestConfig(None, 0);
    if Present(req.feedback) && latest.feedbackCount >= maxFeedback then
      Outcome(LimitExceeded(LimitMessage(maxFeedback), LimitError, maxFeedback, latest.feedbackCount), store)
    else
      Respond(store, req, latest.feedbackCount,
              source(AdapterRequest(req.fileName, req.headers, req.data, req.feedback, latest.suggestion)), now)
  }

  /** The part of the handler after the budget check: `count` is the latest
      count looked up and `answer` what the source yielded. */
  function Respond(store: seq<StoredConfig>, req: UploadRequest, count: int, answer: Option<Suggestion>, now: nat): (o: Outcome)
    ensures o.reply.Processed? && o.reply.aiSuggestion == answer
    ensures |o.store| == if answer.Some? then |store| + 1 else |store|
    ensures forall i :: 0 <= i < |store| ==> o.store[i] == store[i]
  {
    var analysis := AnalyzeDataColumns(req.headers, req.data);
    var fileInfo := FileInfo(req.fileName, req.headers, req.rowCount, |req.headers|);
    match answer
    case None =>
      Outcome(Processed(req.userId, req.appId, fileInfo, analysis, None, false, None), store)
    case Some(s) =>
      var c := CreateChartConfig(req.userId, req.fileName, s, if Present(req.feedback) then count + 1 else 0, now);
      Outcome(Processed(req.userId, req.appId, fileInfo, analysis, Some(s), true, Some(c.id)), store + [c])
  }

  /** A call that passes the budget check, with the latest suggestion and
      count it looked up (none and zero without feedback). */
  lemma PassedOutcome(store: seq<StoredConfig>, maxFeedback: nat, source: Source, req: UploadRequest, now: nat,
                      current: Option<Suggestion>, count: int)
    requires !Present(req.feedback) ==> current == None && count == 0
    requires Present(req.feedback) ==>
               var latest := FindUserConfig(req.userId, req.fileName, store);
               current == latest.suggestion && count == latest.feedbackCount && count < maxFeedback
    ensures HandleUpload(store, maxFeedback, source, req, now)
         == Respond(store, req, count, source(AdapterRequest(req.fileName, req.headers, req.data, req.feedback, current)), now)
  {
  }

  /** The budget check: a call is rejected exactly when it carries
      feedback and the latest count for its pair has reached the budget;
      the rejection carries the budget and that count and leaves the ledger
      as it was. */
  lemma UploadRejection(store: seq<StoredConfig>, maxFeedback: nat, source: Source, req: UploadRequest, now: nat)
    ensures var o := HandleUpload(store, maxFeedback, source, req, now);
            var latest := FindUserConfig(req.userId, req.fileName, store);
            && (o.reply.LimitExceeded? <==> Present(req.feedback) && latest.feedbackCount >= maxFeedback)
            && (o.reply.LimitExceeded? ==>
                  o == Outcome(LimitExceeded(LimitMessage(maxFeedback), LimitError, maxFeedback, latest.feedbackCount), store))
  {
  }

  /** A processed call reports the caller, the file, `analyzeDataColumns`
      of the upload and the source's answer, which was asked with the
      current suggestion only when the call carries feedback; a record is
      appended exactly when there is an answer. */
  lemma UploadReply(store: seq<StoredConfig>, maxFeedback: nat, source: Source, req: UploadRequest, now: nat)
    ensures var o := HandleUpload(store, maxFeedback, source, req, now);
            o.reply.Processed? ==>
              && o.reply.userId == req.userId && o.reply.appId == req.appId
              && o.reply.fileInfo == FileInfo(req.fileName, req.headers, req.rowCount, |req.headers|)
              && o.reply.analysis == AnalyzeDataColumns(req.headers, req.data)
              && o.reply.aiSuggestion == source(AdapterRequest(req.fileName, req.headers, req.data, req.feedback,
                                           if Present(req.feedback) then FindUserConfig(req.userId, req.fileName, store).suggestion
                                           else None))
              && (o.reply.hasAiSuggestion <==> o.reply.aiSuggestion.Some?)
              && (o.reply.chartConfigId.Some? <==> o.reply.aiSuggestion.Some?)
              && (|o.store| == |store| + 1 <==> o.reply.aiSuggestion.Some?)
  {
  }

  /** The appended record: the caller's pair, the answer, the clock, its
      identifier in the reply, and a count of 0 for a call without feedback
      or one more than the latest count for the pair for a feedback call. */
  lemma UploadRecord(store: seq<StoredConfig>, maxFeedback: nat, source: Source, req: UploadRequest, now: nat)
    ensures var o := HandleUpload(store, maxFeedback, source, req, now);
            |o.store| == |store| + 1 ==>
              var c := o.store[|store|];
              && o.reply.Processed? && o.reply.aiSuggestion == Some(c.suggestion)
              && Matches(c, req.userId, req.fileName)
              && c.createdAt == now
              && o.reply.chartConfigId == Some(c.id) && c.id == ConfigId(now, req.userId)
              && c.feedbackCount == if Present(req.feedback)
                                    then FindUserConfig(req.userId, req.fileName, store).feedbackCount + 1
                                    else 0
  {
  }

  /** The ledger's records for one user, in insertion order. */
  function UserConfigs(store: seq<StoredConfig>, userId: string): (r: seq<StoredConfig>)
    ensures forall c :: c in r <==> c in store && c.userId == userId
    ensures IsSubsequence(r, store)
    ensures forall c :: multiset(r)[c] == if c.userId == userId then multiset(store)[c] else 0
  {
    FilterKeepsOrder(store, (c: StoredConfig) => c.userId == userId);
    Filter(store, (c: StoredConfig) => c.userId == userId)
  }

  /** The module-level ledger and the two route handlers over it. The
      feedback budget and the test-mode switch are fixed when the server
      starts. */
  class ConfigStore {
    var configs: seq<StoredConfig>
    const maxFeedbackRequests: nat
    const useFake: bool

    constructor(maxFeedbackRequests: nat, useFake: bool)
      ensures configs == []
      ensures this.maxFeedbackRequests == maxFeedbackRequests && this.useFake == useFake
    {
      configs := [];
      this.maxFeedbackRequests := maxFeedbackRequests;
      this.useFake := useFake;
    }

    /** handleCSVUpload. */
    method Upload(req: UploadRequest, adapter: Source, now: nat) returns (reply: Reply)
      modifies this
      ensures Outcome(reply, configs) == HandleUpload(old(configs), maxFeedbackRequests, SourceFor(useFake, adapter), req, now)
    {
      var currentSuggestion: Option<Suggestion> := None;
      var currentFeedbackCount := 0;

      if Present(req.feedback) {
        var userConfig := FindUserConfig(req.userId, req.fileName, configs);
        currentSuggestion := userConfig.suggestion;
        currentFeedbackCount := userConfig.feedbackCount;
        if currentFeedbackCount >= maxFeedbackRequests {
          UploadRejection(configs, maxFeedbackRequests, SourceFor(useFake, adapter), req, now);
          return LimitExceeded(LimitMessage(maxFeedbackRequests), LimitError, maxFeedbackRequests, currentFeedbackCount);
        }
      }

      var source := SourceFor(useFake, adapter);
      var aiSuggestion := source(AdapterRequest(req.fileName, req.headers, req.data, req.feedback, currentSuggestion));
      PassedOutcome(configs, maxFeedbackRequests, source, req, now, currentSuggestion, currentFeedbackCount);
      reply := Record(req, currentFeedbackCount, aiSuggestion, now);
    }

    /** The rest of handleCSVUpload once the source has answered: append a
        record when there is a suggestion, and build the reply. */
    method Record(req: UploadRequest, currentFeedbackCount: int, aiSuggestion: Option<Suggestion>, now: nat)
      returns (reply: Reply)
      modifies this
      ensures Outcome(reply, configs) == Respond(old(configs), req, currentFeedbackCount, aiSuggestion, now)
    {
      var analysis := AnalyzeDataColumns(req.headers, req.data);
      var chartConfigId: Option<string> := None;
      if aiSuggestion.Some? {
        var feedbackCount := if Present(req.feedback) then currentFeedbackCount + 1 else 0;
        var chartConfig := CreateChartConfig(req.userId, req.fileName, aiSuggestion.value, feedbackCount, now);
        configs := configs + [chartConfig];
        chartConfigId := Some(chartConfig.id);
      }

      var fileInfo := FileInfo(req.fileName, req.headers, req.rowCount, |req.headers|);
      reply := Processed(req.userId, req.appId, fileInfo, analysis, aiSuggestion, aiSuggestion.Some?, chartConfigId);
    }

    /** handleGetChartConfigurations: the caller's records and their number. */
    method ChartConfigurations(userId: string) returns (list: seq<StoredConfig>, count: nat)
      ensures list == UserConfigs(configs, userId)
      ensures forall c :: c in list <==> c in configs && c.userId == userId
      ensures count == |list|
    {
      list := UserConfigs(configs, userId);
      count := |list|;
    }
  }

  /** A call without feedback does not look at the ledger: whatever the
      ledger holds, it replies the same and appends the same record. */
  lemma FreshCallIgnoresLedger(store1: seq<StoredConfig>, store2: seq<StoredConfig>, maxFeedback: nat, source: Source, req: UploadRequest, now: nat)
    requires !Present(req.feedback)
    ensures var o1 := HandleUpload(store1, maxFeedback, source, req, now);
            var o2 := HandleUpload(store2, maxFeedback, source, req, now);
            o1.reply == o2.reply && o1.store[|store1|..] == o2.store[|store2|..]
  {
  }

  /** The replies to a sequence of uploads, each made at its own time, and
      the ledger after the last of them. */
  function RunUploads(store: seq<StoredConfig>, maxFeedback: nat, source: Source,
                      reqs: seq<UploadRequest>, times: seq<nat>): (r: Outcomes)
    requires |reqs| == |times|
    ensures |r.replies| == |reqs|
    ensures |store| <= |r.store| && forall i :: 0 <= i < |store| ==> r.store[i] == store[i]
    decreases |reqs|
  {
    if reqs == [] then Outcomes([], store)
    else
      var o := HandleUpload(store, maxFeedback, source, reqs[0], times[0]);
      var rest := RunUploads(o.store, maxFeedback, source, reqs[1..], times[1..]);
      Outcomes([o.reply] + rest.replies, rest.store)
  }

  datatype Outcomes = Outcomes(replies: seq<Reply>, store: seq<StoredConfig>)

  /** Requests for one (user, file) pair, each carrying feedback. */
  predicate FeedbackFor(reqs: seq<UploadRequest>, userId: string, fileName: string)
  {
    forall i :: 0 <= i < |reqs| ==>
      reqs[i].userId == userId && reqs[i].fileName == fileName && Present(reqs[i].feedback)
  }

  /** Times after every record of the ledger, each after the one before. */
  ghost predicate LaterTimes(store: seq<StoredConfig>, times: seq<nat>)
  {
    && (forall i, j :: 0 <= i < |store| && 0 <= j < |times| ==> store[i].createdAt < times[j])
    && (forall i, j :: 0 <= i < j < |times| ==> times[i] < times[j])
  }

  /** The suggestion source never fails. */
  ghost predicate AlwaysAnswers(source: Source)
  {
    forall a :: source(a).Some?
  }

  /** A call that passes the budget check and gets an answer, made after
      every record of the ledger, appends one record, which the next lookup
      for its pair returns. */
  lemma AnsweredCall(store: seq<StoredConfig>, maxFeedback: nat, source: Source, req: UploadRequest, now: nat)
    returns (c: StoredConfig)
    requires !Present(req.feedback) || FindUserConfig(req.userId, req.fileName, store).feedbackCount < maxFeedback
    requires source(AdapterRequest(req.fileName, req.headers, req.data, req.feedback,
                                   if Present(req.feedback) then FindUserConfig(req.userId, req.fileName, store).suggestion
                                   else None)).Some?
    requires forall i :: 0 <= i < |store| ==> store[i].createdAt < now
    ensures var o := HandleUpload(store, maxFeedback, source, req, now);
            o.store == store + [c] && o.reply.Processed? && o.reply.hasAiSuggestion
    ensures c.createdAt == now
    ensures c.feedbackCount == if Present(req.feedback) then FindUserConfig(req.userId, req.fileName, store).feedbackCount + 1 else 0
    ensures FindUserConfig(req.userId, req.fileName, store + [c]) == LatestConfig(Some(c.suggestion), c.feedbackCount)
  {
    var o := HandleUpload(store, maxFeedback, source, req, now);
    c := o.store[|store|];
    assert o.store == store + [c];
    LatestAfterAppend(store, c);
  }

  /** Times after every record stay after the ledger once a record stamped
      with the first of them is appended. */
  lemma LaterTimesAfter(store: seq<StoredConfig>, c: StoredConfig, times: seq<nat>)
    requires times != [] && LaterTimes(store, times) && c.createdAt == times[0]
    ensures LaterTimes(store + [c], times[1..])
  {
    var s := store + [c];
    forall i, j | 0 <= i < |s| && 0 <= j < |times[1..]|
      ensures s[i].createdAt < times[1..][j]
    {
      assert times[1..][j] == times[j + 1];
      if i < |store| { assert s[i] == store[i]; }
    }
  }

  /** Counts that run on from `base + 1` after one appended record run on
      from `base` before it. */
  lemma ShiftCounts(store: seq<StoredConfig>, mid: seq<StoredConfig>, fin: seq<StoredConfig>, base: int)
    requires |mid| == |store| + 1 && mid[|store|].feedbackCount == base + 1
    requires |mid| <= |fin| && forall i :: 0 <= i < |mid| ==> fin[i] == mid[i]
    requires forall i :: |mid| <= i < |fin| ==> fin[i].feedbackCount == base + 1 + (i - |mid|) + 1
    ensures forall i :: |store| <= i < |fin| ==> fin[i].feedbackCount == base + (i - |store|) + 1
  {
  }

  /** Every reply is a processed one carrying a suggestion. */
  predicate AllAnswered(replies: seq<Reply>)
  {
    forall i :: 0 <= i < |replies| ==> replies[i].Processed? && replies[i].hasAiSuggestion
  }

  lemma AnsweredPrepend(reply: Reply, replies: seq<Reply>)
    requires reply.Processed? && reply.hasAiSuggestion && AllAnswered(replies)
    ensures AllAnswered([reply] + replies)
  {
    forall i | 0 < i < |replies| + 1 ensures ([reply] + replies)[i] == replies[i - 1] { }
  }

  /** Feedback calls under the budget, at increasing times, each append a
      record whose count is one more than the one before, and every reply
      carries a suggestion. */
  lemma {:induction false} FeedbackRounds(store: seq<StoredConfig>, maxFeedback: nat, source: Source,
                                          reqs: seq<UploadRequest>, times: seq<nat>, userId: string, fileName: string)
    requires |reqs| == |times| && FeedbackFor(reqs, userId, fileName) && LaterTimes(store, times)
    requires AlwaysAnswers(source)
    requires FindUserConfig(userId, fileName, store).feedbackCount + |reqs| <= maxFeedback
    decreases |reqs|
    ensures var r := RunUploads(store, maxFeedback, source, reqs, times);
            && |r.store| == |store| + |reqs|
            && (forall i :: |store| <= i < |r.store| ==>
                  r.store[i].feedbackCount == FindUserConfig(userId, fileName, store).feedbackCount + (i - |store|) + 1)
            && AllAnswered(r.replies)
            && FindUserConfig(userId, fileName, r.store).feedbackCount
               == FindUserConfig(userId, fileName, store).feedbackCount + |reqs|
  {
    if reqs != [] {
      var c0 := FindUserConfig(userId, fileName, store).feedbackCount;
      var q := reqs[0];
      assert source(AdapterRequest(q.fileName, q.headers, q.data, q.feedback, FindUserConfig(userId, fileName, store).suggestion)).Some?;
      var c := AnsweredCall(store, maxFeedback, source, q, times[0]);
      var o := HandleUpload(store, maxFeedback, source, q, times[0]);
      LaterTimesAfter(store, c, times);
      assert FeedbackFor(reqs[1..], userId, fileName) by {
        forall i | 0 <= i < |reqs[1..]| ensures reqs[1..][i] == reqs[i + 1] { }
      }
      FeedbackRounds(o.store, maxFeedback, source, reqs[1..], times[1..], userId, fileName);
      var r := RunUploads(store, maxFeedback, source, reqs, times);
      var rest := RunUploads(o.store, maxFeedback, source, reqs[1..], times[1..]);
      assert r.store == rest.store && r.replies == [o.reply] + rest.replies;
      ShiftCounts(store, o.store, rest.store, c0);
      AnsweredPrepend(o.reply, rest.replies);
    }
  }

  /** A fresh call followed by feedback calls at increasing times: the
      records get counts 0, 1, 2, ... in order, up to the budget, and one
      more feedback call is then rejected, with the budget as the current
      count, leaving the ledger as it was. */
  lemma FeedbackBudget(store: seq<StoredConfig>, maxFeedback: nat, source: Source,
                       first: UploadRequest, rounds: seq<UploadRequest>, times: seq<nat>, next: UploadRequest, now: nat)
    requires !Present(first.feedback)
    requires FeedbackFor(rounds, first.userId, first.fileName) && |rounds| == maxFeedback
    requires next.userId == first.userId && next.fileName == first.fileName && Present(next.feedback)
    requires |times| == |rounds| + 1 && LaterTimes(store, times)
    requires AlwaysAnswers(source)
    ensures var r := RunUploads(store, maxFeedback, source, [first] + rounds, times);
            && |r.store| == |store| + maxFeedback + 1
            && (forall i :: |store| <= i < |r.store| ==> r.store[i].feedbackCount == i - |store|)
            && HandleUpload(r.store, maxFeedback, source, next, now)
               == Outcome(LimitExceeded(LimitMessage(maxFeedback), LimitError, maxFeedback, maxFeedback), r.store)
  {
    var userId, fileName := first.userId, first.fileName;
    var reqs := [first] + rounds;
    assert source(AdapterRequest(first.fileName, first.headers, first.data, first.feedback, None)).Some?;
    var c := AnsweredCall(store, maxFeedback, source, first, times[0]);
    var o := HandleUpload(store, maxFeedback, source, first, times[0]);
    LaterTimesAfter(store, c, times);
    assert reqs[1..] == rounds;
    FeedbackRounds(o.store, maxFeedback, source, rounds, times[1..], userId, fileName);
    var r := RunUploads(store, maxFeedback, source, reqs, times);
    var rest := RunUploads(o.store, maxFeedback, source, rounds, times[1..]);
    assert r.store == rest.store;
    forall i | |store| <= i < |r.store|
      ensures r.store[i].feedbackCount == i - |store|
    {
      if i == |store| {
        assert r.store[i] == o.store[|store|];
      }
    }
    UploadRejection(r.store, maxFeedback, source, next, now);
  }
}
