/** The JSON endpoints of api/__init__.py: submitting an analysis (ticker
    validation, the cache-freshness rule and dispatch by analysis type),
    polling a task's status, and fetching the stored charts. Celery's queue is
    a class whose log records each enqueued job; a task id is the job's
    position in that log. The clock and the CACHE_TIME setting are parameters. */
module Api {
  import opened Outcomes
  import opened Tickers
  import opened Store
  import opened StockData
  import Tasks
  import Backtesting
  import Pipeline

  const SimpleType := "simple"
  const HybridType := "hybrid"
  const InvalidTypeMessage := "Invalid analysis type."
  const PendingMessage := "Pending..."

  /** The posted form: the ticker field, and the analysis type when given. */
  datatype Form = Form(ticker: string, analysisType: Option<string>)

  datatype JobKind = SimpleJob | HybridJob

  /** What `analyze` does with a request. */
  datatype Decision = Reject(error: HttpError) | CachedAlready | Enqueue(kind: JobKind)

  /** The body `analyze` and `hybrid_analyze` answer with. */
  datatype SubmitResponse = ErrorResponse(error: HttpError) | TaskIdResponse(taskId: Option<nat>)

  /** `last_updated > utcnow() - timedelta(hours=CACHE_TIME)`: strictly newer
      than the cut-off. */
  predicate IsFresh(lastUpdated: Timestamp, now: Timestamp, cacheHours: int) {
    lastUpdated > now - cacheHours * MicrosPerHour
  }

  /** The cached-result query: the ticker's record, when it is fresh. */
  function FreshRecord(records: map<string, Record>, ticker: string, now: Timestamp, cacheHours: int): (r: Option<Record>)
    requires KeyedByTicker(records)
    ensures r.Some? <==> ticker in records && IsFresh(records[ticker].lastUpdated, now, cacheHours)
    ensures r.Some? ==> r.value == records[ticker]
  {
    match Lookup(records, ticker)
    case None => None
    case Some(rec) => if IsFresh(rec.lastUpdated, now, cacheHours) then Some(rec) else None
  }

  /** A fresh record already holds the chart of the requested kind. Both kinds
      share one `last_updated`. */
  predicate CacheHit(records: map<string, Record>, ticker: string, kind: string, now: Timestamp, cacheHours: int)
    requires KeyedByTicker(records)
  {
    var cached := FreshRecord(records, ticker, now, cacheHours);
    cached.Some? &&
    ((Present(cached.value.arimaPlot) && kind == SimpleType) ||
     (Present(cached.value.hybridPlot) && kind == HybridType))
  }

  /** `analyze` up to its one side effect. */
  function Decide(form: Form, records: map<string, Record>, now: Timestamp, cacheHours: int): (d: Decision)
    requires KeyedByTicker(records)
    ensures !MatchesTickerPattern(form.ticker) ==> d == Reject(BadRequest(InvalidTickerMessage))
    ensures MatchesTickerPattern(form.ticker) ==>
      var kind := form.analysisType.GetOr(SimpleType);
      (d.CachedAlready? <==> CacheHit(records, Upper(form.ticker), kind, now, cacheHours)) &&
      (d == Enqueue(SimpleJob) <==> !CacheHit(records, Upper(form.ticker), kind, now, cacheHours) && kind == SimpleType) &&
      (d == Enqueue(HybridJob) <==> !CacheHit(records, Upper(form.ticker), kind, now, cacheHours) && kind == HybridType) &&
      (d.Reject? <==> kind != SimpleType && kind != HybridType) &&
      (d.Reject? ==> d.error == BadRequest(InvalidTypeMessage))
  {
    ValidIffPattern(form.ticker);
    var ticker := Upper(form.ticker);
    var kind := form.analysisType.GetOr(SimpleType);
    if !IsValidTicker(form.ticker) then Reject(BadRequest(InvalidTickerMessage))
    else
      var cached := FreshRecord(records, ticker, now, cacheHours);
      if cached.Some? && Present(cached.value.arimaPlot) && kind == SimpleType then CachedAlready
      else if cached.Some? && Present(cached.value.hybridPlot) && kind == HybridType then CachedAlready
      else if kind == SimpleType then Enqueue(SimpleJob)
      else if kind == HybridType then Enqueue(HybridJob)
      else Reject(BadRequest(InvalidTypeMessage))
  }

  /** A form without an analysis type is a simple analysis. */
  lemma MissingTypeIsSimple(raw: string, records: map<string, Record>, now: Timestamp, cacheHours: int)
    requires KeyedByTicker(records)
    ensures Decide(Form(raw, None), records, now, cacheHours) == Decide(Form(raw, Some(SimpleType)), records, now, cacheHours)
  {
  }

  /** The decision depends on the ticker only through its upper-case form. */
  lemma DecisionIsCaseInsensitive(raw: string, kind: Option<string>, records: map<string, Record>, now: Timestamp, cacheHours: int)
    requires KeyedByTicker(records)
    ensures Decide(Form(raw, kind), records, now, cacheHours) == Decide(Form(Upper(raw), kind), records, now, cacheHours)
  {
    ValidationIsCaseInsensitive(raw);
    ValidIffPattern(raw);
    ValidIffPattern(Upper(raw));
  }

  /** A record written exactly CACHE_TIME hours ago is stale: the job is
      enqueued again even though the chart is there. */
  lemma CutOffIsExclusive(raw: string, records: map<string, Record>, now: Timestamp, cacheHours: int)
    requires KeyedByTicker(records) && MatchesTickerPattern(raw) && Upper(raw) in records
    requires records[Upper(raw)].lastUpdated == now - cacheHours * MicrosPerHour
    ensures Decide(Form(raw, Some(SimpleType)), records, now, cacheHours) == Enqueue(SimpleJob)
    ensures Decide(Form(raw, Some(HybridType)), records, now, cacheHours) == Enqueue(HybridJob)
  {
  }

  /** A fresh record answers only for the kind whose chart it holds. */
  lemma HitNeedsChartOfKind(raw: string, records: map<string, Record>, now: Timestamp, cacheHours: int)
    requires KeyedByTicker(records) && MatchesTickerPattern(raw) && Upper(raw) in records
    requires IsFresh(records[Upper(raw)].lastUpdated, now, cacheHours)
    requires Present(records[Upper(raw)].arimaPlot) && !Present(records[Upper(raw)].hybridPlot)
    ensures Decide(Form(raw, Some(SimpleType)), records, now, cacheHours) == CachedAlready
    ensures Decide(Form(raw, Some(HybridType)), records, now, cacheHours) == Enqueue(HybridJob)
  {
  }

  /** The Celery broker: every `delay` appends one job. */
  class TaskQueue {
    var enqueued: seq<(JobKind, string)>

    constructor ()
      ensures enqueued == []
    {
      enqueued := [];
    }

    /** `run_full_analysis.delay(ticker)` or `run_hybrid_analysis_task.delay(ticker)`. */
    method Delay(kind: JobKind, ticker: string) returns (id: nat)
      modifies this
      ensures enqueued == old(enqueued) + [(kind, ticker)]
      ensures id == |old(enqueued)| && enqueued[id] == (kind, ticker)
    {
      id := |enqueued|;
      enqueued := enqueued + [(kind, ticker)];
    }
  }

  /** `analyze`: a rejected or cached request enqueues nothing; otherwise
      exactly one job of the requested kind is enqueued for the upper-case
      ticker and its id returned. */
  method Analyze(queue: TaskQueue, db: Database, form: Form, now: Timestamp, cacheHours: int) returns (r: SubmitResponse)
    requires db.Valid()
    modifies queue
    ensures var d := Decide(form, db.records, now, cacheHours);
      (d.Reject? ==> r == ErrorResponse(d.error) && queue.enqueued == old(queue.enqueued)) &&
      (d.CachedAlready? ==> r == TaskIdResponse(None) && queue.enqueued == old(queue.enqueued)) &&
      (d.Enqueue? ==> queue.enqueued == old(queue.enqueued) + [(d.kind, Upper(form.ticker))] &&
                      r == TaskIdResponse(Some(|old(queue.enqueued)|)))
  {
    var d := Decide(form, db.records, now, cacheHours);
    match d
    case Reject(error) =>
      r := ErrorResponse(error);
    case CachedAlready =>
      r := TaskIdResponse(None);
    case Enqueue(kind) =>
      var id := queue.Delay(kind, Upper(form.ticker));
      r := TaskIdResponse(Some(id));
  }

  /** `hybrid_analyze`: the same ticker check, then always one hybrid job, with
      no cache lookup. */
  method HybridAnalyze(queue: TaskQueue, raw: string) returns (r: SubmitResponse)
    modifies queue
    ensures !MatchesTickerPattern(raw) ==>
      r == ErrorResponse(BadRequest(InvalidTickerMessage)) && queue.enqueued == old(queue.enqueued)
    ensures MatchesTickerPattern(raw) ==>
      queue.enqueued == old(queue.enqueued) + [(HybridJob, Upper(raw))] && r == TaskIdResponse(Some(|old(queue.enqueued)|))
  {
    ValidIffPattern(raw);
    if !IsValidTicker(raw) {
      r := ErrorResponse(BadRequest(InvalidTickerMessage));
      return;
    }
    var id := queue.Delay(HybridJob, Upper(raw));
    r := TaskIdResponse(Some(id));
  }

  // ---- task_status ----

  /** `task.info` of a task that is not failed: a dictionary that may lack
      `status` and may carry `result`. */
  datatype TaskInfo = TaskInfo(status: Option<string>, result: Option<Backtesting.BacktestResult>)

  datatype StatusResponse = StatusResponse(state: string, status: string, result: Option<Backtesting.BacktestResult>)

  function StateName(s: Tasks.TaskState): string {
    match s
    case PendingState => "PENDING"
    case ProgressState => "PROGRESS"
    case SuccessState => "SUCCESS"
    case FailureState => "FAILURE"
  }

  /** `task_status`: a pending task says "Pending...", a failed one shows
      `str(task.info)` (the parameter `show`), any other shows its `status`
      or "" and its `result` when there is one. */
  function TaskStatus(state: Tasks.TaskState, info: TaskInfo, show: TaskInfo -> string): (r: StatusResponse)
    ensures r.state == StateName(state)
    ensures state.PendingState? ==> r.status == PendingMessage && r.result.None?
    ensures state.FailureState? ==> r.status == show(info) && r.result.None?
    ensures !state.PendingState? && !state.FailureState? ==> r.status == info.status.GetOr("") && r.result == info.result
  {
    if state.PendingState? then StatusResponse(StateName(state), PendingMessage, None)
    else if !state.FailureState? then StatusResponse(StateName(state), info.status.GetOr(""), info.result)
    else StatusResponse(StateName(state), show(info), None)
  }

  /** The metadata of an `update_state` call, as the status route reads it. */
  function InfoOf(m: Tasks.Meta): TaskInfo {
    TaskInfo(Some(m.status), m.result)
  }

  /** What polling answers once a job has made the given `update_state`
      calls: PENDING before the first, then the latest update. */
  function Poll(updates: seq<Tasks.Update>, show: TaskInfo -> string): StatusResponse {
    if updates == [] then TaskStatus(Tasks.PendingState, TaskInfo(None, None), show)
    else
      var u := updates[|updates| - 1];
      TaskStatus(u.state, InfoOf(u.meta), show)
  }

  /** Polling a staged job at any point of its log: "Pending..." before it
      starts, then each stage's message in order while that stage runs, and
      after a failure the FAILURE state rendered from the status the job
      reported. */
  lemma PollingFollowsStagedRun(messages: seq<string>, failure: Option<(nat, Exc)>, handled: Exc -> bool,
                                generic: string, ticker: string, j: nat, show: TaskInfo -> string)
    requires failure.Some? ==> failure.value.0 < |messages|
    requires j <= |Tasks.StagedRun(messages, failure, handled, generic, ticker).0|
    ensures var (log, reply) := Tasks.StagedRun(messages, failure, handled, generic, ticker);
      (j == 0 ==> Poll(log[..j], show) == StatusResponse("PENDING", PendingMessage, None)) &&
      (0 < j && (failure.None? || j <= failure.value.0 + 1) ==>
        j - 1 < |messages| && Poll(log[..j], show) == StatusResponse("PROGRESS", messages[j - 1], None)) &&
      (failure.Some? && j == failure.value.0 + 2 ==>
        reply.FailureReply? && Poll(log[..j], show) == StatusResponse("FAILURE", show(TaskInfo(Some(reply.error), None)), None))
  {
    Tasks.StagedRunShape(messages, failure, handled, generic, ticker);
    var (log, reply) := Tasks.StagedRun(messages, failure, handled, generic, ticker);
    if j > 0 {
      assert log[..j][j - 1] == log[j - 1];
    }
  }

  // ---- get_data and hybrid_data ----

  datatype DataResponse = DataResponse(arimaPlot: Option<string>, sentiment: Option<real>, posts: Option<string>)

  /** `get_data`: the stored chart, score and posts when the record has a
      non-empty chart; all three None otherwise. The ticker is used as given. */
  function GetData(records: map<string, Record>, ticker: string): (r: DataResponse)
    requires KeyedByTicker(records)
    ensures r.arimaPlot.Some? <==> ticker in records && Present(records[ticker].arimaPlot)
    ensures r.arimaPlot.Some? ==> Present(r.arimaPlot)
    ensures r.arimaPlot.Some? ==>
      r == DataResponse(records[ticker].arimaPlot, records[ticker].sentiment, records[ticker].sentimentPosts)
    ensures r.arimaPlot.None? ==> r == DataResponse(None, None, None)
  {
    match Lookup(records, ticker)
    case Some(result) =>
      if Present(result.arimaPlot) then DataResponse(result.arimaPlot, result.sentiment, result.sentimentPosts)
      else DataResponse(None, None, None)
    case None => DataResponse(None, None, None)
  }

  /** `hybrid_data`: the stored hybrid chart when it is non-empty, else None. */
  function HybridData(records: map<string, Record>, ticker: string): (r: Option<string>)
    requires KeyedByTicker(records)
    ensures r.Some? <==> ticker in records && Present(records[ticker].hybridPlot)
    ensures r.Some? ==> r == records[ticker].hybridPlot && r.value != ""
  {
    match Lookup(records, ticker)
    case Some(result) => if Present(result.hybridPlot) then result.hybridPlot else None
    case None => None
  }

  // ---- The endpoints over the simple job's writes ----

  /** When sentiment collection fails after the first commit, `get_data`
      serves the unadjusted chart, with the score and posts the record held
      before the job (none for a new record). */
  lemma SentimentFailureServesPartialChart(records: map<string, Record>, ticker: string, e: Pipeline.Engine,
                                          partialAt: Timestamp, finalAt: Timestamp)
    requires KeyedByTicker(records)
    requires Pipeline.ReachesPartialCommit(ticker, e)
    requires e.getRedditSentiment(ticker).Ok? && Pipeline.Reported(e.getRedditSentiment(ticker).value.2)
    requires var hist := WithIndicators(e.getStockData(ticker).value.1);
      var fc := e.forecastStockPrice(hist).value;
      e.createPlot(hist, fc.0, fc.1, ticker) != ""
    ensures var out := Pipeline.SimpleAnalysis(records, ticker, e, partialAt, finalAt).0;
      var hist := WithIndicators(e.getStockData(ticker).value.1);
      var fc := e.forecastStockPrice(hist).value;
      var before := if ticker in records then records[ticker] else NewRecord(ticker, partialAt);
      KeyedByTicker(out) &&
      GetData(out, ticker) == DataResponse(Some(e.createPlot(hist, fc.0, fc.1, ticker)), before.sentiment, before.sentimentPosts)
  {
    Pipeline.SentimentErrorKeepsPartialChart(records, ticker, e, partialAt, finalAt);
  }

  /** After a successful simple job whose final commit is still fresh, a
      repeated simple request for the same ticker is answered from the cache,
      and `get_data` serves the adjusted chart, the score and the posts. */
  lemma CompletedAnalysisIsCached(raw: string, records: map<string, Record>, e: Pipeline.Engine,
                                  partialAt: Timestamp, finalAt: Timestamp, now: Timestamp, cacheHours: int)
    requires KeyedByTicker(records) && MatchesTickerPattern(raw)
    requires Pipeline.ReachesPartialCommit(Upper(raw), e)
    requires e.getRedditSentiment(Upper(raw)).Ok? && !Pipeline.Reported(e.getRedditSentiment(Upper(raw)).value.2)
    requires var ticker := Upper(raw);
      var hist := WithIndicators(e.getStockData(ticker).value.1);
      var fc := e.forecastStockPrice(hist).value;
      e.createPlot(hist, Pipeline.SentimentAdjusted(fc.0, e.getRedditSentiment(ticker).value.0), fc.1, ticker) != ""
    requires IsFresh(finalAt, now, cacheHours)
    ensures var ticker := Upper(raw);
      var out := Pipeline.SimpleAnalysis(records, ticker, e, partialAt, finalAt).0;
      var hist := WithIndicators(e.getStockData(ticker).value.1);
      var fc := e.forecastStockPrice(hist).value;
      var rs := e.getRedditSentiment(ticker).value;
      KeyedByTicker(out) &&
      Decide(Form(raw, None), out, now, cacheHours) == CachedAlready &&
      GetData(out, ticker) == DataResponse(Some(e.createPlot(hist, Pipeline.SentimentAdjusted(fc.0, rs.0), fc.1, ticker)),
                                           Some(rs.0), Some(e.renderPosts(rs.1)))
  {
    Pipeline.SuccessWritesFinalRecord(records, Upper(raw), e, partialAt, finalAt);
  }
}
