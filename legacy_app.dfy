/** The older top-level app.py: the same status and chart routes as
    api/__init__.py, written again, and a `hybrid_analyze` whose rejection is
    a one-field JSON body rather than the `bad_request` shape. Each route is
    modelled from its own text and then compared with its counterpart. The
    per-request database session is opened and closed around the lookup and
    is not modelled. */
module LegacyApp {
  import opened Outcomes
  import opened Tickers
  import opened Store
  import Tasks
  import Api

  /** `task_status` of app.py. */
  function TaskStatus(state: Tasks.TaskState, info: Api.TaskInfo, show: Api.TaskInfo -> string): (r: Api.StatusResponse)
    ensures r.state == Api.StateName(state)
    ensures state.PendingState? ==> r.status == Api.PendingMessage && r.result.None?
    ensures state.FailureState? ==> r.status == show(info) && r.result.None?
    ensures !state.PendingState? && !state.FailureState? ==> r.status == info.status.GetOr("") && r.result == info.result
  {
    match state
    case PendingState => Api.StatusResponse("PENDING", "Pending...", None)
    case FailureState => Api.StatusResponse("FAILURE", show(info), None)
    case _ =>
      var status := if info.status.Some? then info.status.value else "";
      Api.StatusResponse(Api.StateName(state), status, if info.result.Some? then info.result else None)
  }

  /** The two status routes answer every poll identically. */
  lemma TaskStatusAgrees(state: Tasks.TaskState, info: Api.TaskInfo, show: Api.TaskInfo -> string)
    ensures TaskStatus(state, info, show) == Api.TaskStatus(state, info, show)
  {
  }

  /** `get_data` of app.py. */
  function GetData(records: map<string, Record>, ticker: string): (r: Api.DataResponse)
    requires KeyedByTicker(records)
    ensures ticker !in records ==> r == Api.DataResponse(None, None, None)
    ensures ticker in records && !Present(records[ticker].arimaPlot) ==> r == Api.DataResponse(None, None, None)
    ensures ticker in records && Present(records[ticker].arimaPlot) ==>
      r.arimaPlot == records[ticker].arimaPlot && r.sentiment == records[ticker].sentiment &&
      r.posts == records[ticker].sentimentPosts
  {
    if ticker in records && records[ticker].arimaPlot.Some? && records[ticker].arimaPlot.value != "" then
      var result := records[ticker];
      Api.DataResponse(result.arimaPlot, result.sentiment, result.sentimentPosts)
    else
      Api.DataResponse(None, None, None)
  }

  lemma GetDataAgrees(records: map<string, Record>, ticker: string)
    requires KeyedByTicker(records)
    ensures GetData(records, ticker) == Api.GetData(records, ticker)
  {
  }

  /** `hybrid_data` of app.py. */
  function HybridData(records: map<string, Record>, ticker: string): (r: Option<string>)
    requires KeyedByTicker(records)
    ensures r.Some? <==> ticker in records && Present(records[ticker].hybridPlot)
    ensures r.Some? ==> r == records[ticker].hybridPlot
  {
    if ticker in records && records[ticker].hybridPlot.Some? && records[ticker].hybridPlot.value != "" then
      records[ticker].hybridPlot
    else
      None
  }

  lemma HybridDataAgrees(records: map<string, Record>, ticker: string)
    requires KeyedByTicker(records)
    ensures HybridData(records, ticker) == Api.HybridData(records, ticker)
  {
  }

  /** What app.py's `hybrid_analyze` answers: `({'error': ...}, 400)` or the
      task id. */
  datatype HybridResponse = ErrorBody(error: string, code: int) | TaskId(id: nat)

  /** `hybrid_analyze` of app.py: the same check as everywhere else, then one
      hybrid job with no cache lookup. */
  method HybridAnalyze(queue: Api.TaskQueue, raw: string) returns (r: HybridResponse)
    modifies queue
    ensures !MatchesTickerPattern(raw) ==>
      r == ErrorBody(InvalidTickerMessage, 400) && queue.enqueued == old(queue.enqueued)
    ensures MatchesTickerPattern(raw) ==>
      queue.enqueued == old(queue.enqueued) + [(Api.HybridJob, Upper(raw))] && r == TaskId(|old(queue.enqueued)|)
  {
    ValidIffPattern(raw);
    var ticker := Upper(raw);
    if ticker == [] || !(forall i :: 0 <= i < |ticker| ==> IsAlnum(ticker[i])) || !(2 <= |ticker| <= 5) {
      r := ErrorBody(InvalidTickerMessage, 400);
      return;
    }
    var id := queue.Delay(Api.HybridJob, ticker);
    r := TaskId(id);
  }

  /** The legacy rejection carries the same status code, but its `error`
      field is the message itself, where api/__init__.py puts "bad request"
      in `error` and the message in a separate `message` field. */
  lemma RejectionBodiesDiffer()
    ensures ErrorBody(InvalidTickerMessage, 400).code == BadRequest(InvalidTickerMessage).code
    ensures ErrorBody(InvalidTickerMessage, 400).error != BadRequest(InvalidTickerMessage).error
    ensures ErrorBody(InvalidTickerMessage, 400).error == BadRequest(InvalidTickerMessage).message
  {
    assert InvalidTickerMessage[0] == 'I' && "bad request"[0] == 'b';
  }
}
