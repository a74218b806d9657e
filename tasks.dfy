/** The three background jobs of api/tasks.py. Each reports its stage with
    `update_state` before running it, turns an exception into a FAILURE
    update and a failure reply, and removes its scoped session on every way
    out. The stages are the modelled functions of the other modules; the
    outside world they read (Yahoo Finance, Reddit, the statistical and
    neural models, FinBERT, the square root) is a parameter. */
module Tasks {
  import opened Outcomes
  import opened StockData
  import RedditData
  import Arima
  import Lstm
  import Finbert
  import Backtesting

  datatype TaskState = PendingState | ProgressState | SuccessState | FailureState

  /** The `meta` dictionary of one update. */
  datatype Meta = Meta(status: string, result: Option<Backtesting.BacktestResult>)

  datatype Update = Update(state: TaskState, meta: Meta)

  /** The dictionary a job returns. */
  datatype TaskReply =
    | Complete(ticker: string, result: Option<Backtesting.BacktestResult>)
    | FailureReply(error: string)

  /** Everything outside the application that the three jobs read. */
  datatype World = World(
    yahoo: string -> YahooAnswer,
    yearOfHistory: string -> Backtesting.PeriodHistory,
    arima: Arima.ArimaFitter,
    trainer: Lstm.Trainer,
    reddit: string -> RedditData.SearchAnswer,
    vader: string -> real,
    finbert: seq<string> -> seq<string>,
    sqrt: real -> real)

  /** The Celery task object a bound job receives as `self`. */
  class BoundTask {
    var state: TaskState
    var info: Option<Meta>
    var updates: seq<Update>

    constructor ()
      ensures state == PendingState && info == None && updates == []
    {
      state := PendingState;
      info := None;
      updates := [];
    }

    /** `self.update_state(state=..., meta=...)`: overwrites the state and
        its metadata. */
    method UpdateState(s: TaskState, m: Meta)
      modifies this
      ensures state == s && info == Some(m)
      ensures updates == old(updates) + [Update(s, m)]
    {
      state := s;
      info := Some(m);
      updates := updates + [Update(s, m)];
    }
  }

  /** `db_session`, the thread-local scoped session. */
  class ScopedSession {
    var active: bool

    constructor ()
      ensures !active
    {
      active := false;
    }

    /** `db_session()`. */
    method Begin()
      modifies this
      ensures active
    {
      active := true;
    }

    /** `db_session.remove()`. */
    method Remove()
      modifies this
      ensures !active
    {
      active := false;
    }
  }

  const FetchingMessage := "Fetching stock data..."
  const IndicatorsMessage := "Calculating technical indicators..."
  const ArimaMessage := "Generating ARIMA forecast..."
  const RedditMessage := "Analyzing Reddit sentiment..."
  const LstmMessage := "Generating LSTM forecast..."
  const FinbertMessage := "Analyzing FinBERT sentiment..."
  const StartBacktestMessage := "Starting backtesting..."
  const BacktestDoneMessage := "Backtesting complete."
  const UnexpectedMessage := "An unexpected error occurred."
  const UnexpectedHybridMessage := "An unexpected error occurred during hybrid analysis."
  const UnexpectedBacktestMessage := "An unexpected error occurred during backtesting."

  const ForecastDays: nat := 30

  const FullStages: seq<string> := [FetchingMessage, IndicatorsMessage, ArimaMessage, RedditMessage]
  const HybridStages: seq<string> := [FetchingMessage, ArimaMessage, LstmMessage, FinbertMessage]

  /** The exceptions the two analysis jobs report by their own text. */
  predicate HandledByAnalysis(e: Exc) {
    e.StockDataError? || e.RedditAPIError? || e.AnalysisError?
  }

  /** The exceptions the backtesting job reports by their own text. */
  predicate HandledByBacktesting(e: Exc) {
    e.StockDataError? || e.AnalysisError?
  }

  /** The FAILURE status of an exception: `str(e)` when the job handles its
      class, the job's generic message otherwise. */
  function FailureStatus(e: Exc, handled: bool, generic: string): (status: string)
    ensures handled && !e.Unexpected? ==> status == e.message
    ensures !handled ==> status == generic
  {
    if handled && !e.Unexpected? then e.message else generic
  }

  function Progresses(messages: seq<string>): (us: seq<Update>)
    ensures |us| == |messages|
    ensures forall i :: 0 <= i < |messages| ==> us[i] == Update(ProgressState, Meta(messages[i], None))
  {
    seq(|messages|, i requires 0 <= i < |messages| => Update(ProgressState, Meta(messages[i], None)))
  }

  function FailureUpdate(status: string): Update {
    Update(FailureState, Meta(status, None))
  }

  /** The trace of a job whose stages are announced in order: all of them
      when none raises; otherwise those up to the one that raised, then one
      FAILURE update. */
  function StagedRun(messages: seq<string>, failure: Option<(nat, Exc)>, handled: Exc -> bool, generic: string, ticker: string)
    : (seq<Update>, TaskReply)
    requires failure.Some? ==> failure.value.0 < |messages|
  {
    match failure
    case None => (Progresses(messages), Complete(ticker, None))
    case Some((k, e)) =>
      var status := FailureStatus(e, handled(e), generic);
      (Progresses(messages[..k + 1]) + [FailureUpdate(status)], FailureReply(status))
  }

  /** Every stage is announced before it runs, in the fixed order; a job
      fails exactly when a stage raises, and then ends with one FAILURE
      update whose status is also the reply's error. */
  lemma StagedRunShape(messages: seq<string>, failure: Option<(nat, Exc)>, handled: Exc -> bool, generic: string, ticker: string)
    requires failure.Some? ==> failure.value.0 < |messages|
    ensures var (updates, reply) := StagedRun(messages, failure, handled, generic, ticker);
      (reply.Complete? <==> failure.None?) &&
      (reply.Complete? ==> updates == Progresses(messages) && reply.ticker == ticker) &&
      (reply.FailureReply? ==>
        var (k, e) := failure.value;
        |updates| == k + 2 &&
        (forall i :: 0 <= i <= k ==> updates[i] == Update(ProgressState, Meta(messages[i], None))) &&
        updates[k + 1] == FailureUpdate(reply.error) &&
        (handled(e) && !e.Unexpected? ==> reply.error == e.message) &&
        (!handled(e) ==> reply.error == generic))
  {
  }

  lemma ProgressesStep(messages: seq<string>, k: nat)
    requires k < |messages|
    ensures Progresses(messages[..k + 1]) == Progresses(messages[..k]) + [Update(ProgressState, Meta(messages[k], None))]
  {
  }

  /** `self.update_state(state="PROGRESS", meta={"status": messages[k]})`,
      announcing stage k after stages 0 to k - 1. */
  method Announce(task: BoundTask, ghost base: seq<Update>, messages: seq<string>, k: nat)
    requires k < |messages| && task.updates == base + Progresses(messages[..k])
    modifies task
    ensures task.updates == base + Progresses(messages[..k + 1])
  {
    task.UpdateState(ProgressState, Meta(messages[k], None));
    ProgressesStep(messages, k);
  }

  /** Stage k raised e, after stages 0 to k were announced. */
  method FailAt(task: BoundTask, ghost base: seq<Update>, messages: seq<string>, k: nat, e: Exc,
                handled: Exc -> bool, generic: string, ghost ticker: string) returns (ret: TaskReply)
    requires k < |messages| && task.updates == base + Progresses(messages[..k + 1])
    modifies task
    ensures var trace := StagedRun(messages, Some((k, e)), handled, generic, ticker);
      task.updates == base + trace.0 && ret == trace.1
  {
    ret := Fail(task, e, handled(e), generic);
  }

  // ---- run_full_analysis ----

  /** The stage of the simple job that raises first, if any (indices into
      `FullStages`; computing the indicators never raises). */
  function FullAnalysisFailure(ticker: string, w: World): (f: Option<(nat, Exc)>)
    ensures f.Some? ==> f.value.0 < |FullStages| && f.value.0 != 1
  {
    match GetStockData(ticker, w.yahoo(ticker))
    case Raise(e) => Some((0, e))
    case Ok(pair) =>
      var hist := WithIndicators(pair.hist);
      match Arima.ForecastStockPrice(hist.bars, ForecastDays, w.arima)
      case Raise(e) => Some((2, e))
      case Ok(_) =>
        match RedditData.RedditSentiment(ticker, w.reddit(ticker), w.vader)
        case Raise(e) => Some((3, e))
        case Ok(_) => None
  }

  function FullAnalysisTrace(ticker: string, w: World): (seq<Update>, TaskReply) {
    StagedRun(FullStages, FullAnalysisFailure(ticker, w), HandledByAnalysis, UnexpectedMessage, ticker)
  }

  /** A failed fetch is reported with the single generic stock-data message,
      right after the first progress update. */
  lemma FetchFailureIsReported(ticker: string, w: World)
    requires GetStockData(ticker, w.yahoo(ticker)).Raise?
    ensures FullAnalysisTrace(ticker, w) ==
      ([Update(ProgressState, Meta(FetchingMessage, None)), FailureUpdate(FetchErrorMessage(ticker))],
       FailureReply(FetchErrorMessage(ticker)))
  {
    var e := StockDataError(FetchErrorMessage(ticker));
    assert FullAnalysisFailure(ticker, w) == Some((0, e));
    assert FailureStatus(e, HandledByAnalysis(e), UnexpectedMessage) == FetchErrorMessage(ticker);
    var first := Update(ProgressState, Meta(FetchingMessage, None));
    var last := FailureUpdate(FetchErrorMessage(ticker));
    assert FullStages[..1] == [FetchingMessage];
    assert Progresses(FullStages[..1]) == [first];
    assert FullAnalysisTrace(ticker, w).0 == [first, last];
  }

  /** A Reddit failure in the simple job is reported with its own text after
      all four progress updates. */
  lemma RedditFailureIsReported(ticker: string, w: World)
    requires FullAnalysisFailure(ticker, w).Some? && FullAnalysisFailure(ticker, w).value.0 == 3
    requires FullAnalysisFailure(ticker, w).value.1.RedditAPIError?
    ensures var e := FullAnalysisFailure(ticker, w).value.1;
      FullAnalysisTrace(ticker, w) == (Progresses(FullStages) + [FailureUpdate(e.message)], FailureReply(e.message))
  {
    assert FullStages[..4] == FullStages;
  }

  /** A failure reply and a FAILURE update carry the same status. */
  method Fail(task: BoundTask, e: Exc, handled: bool, generic: string) returns (ret: TaskReply)
    modifies task
    ensures task.updates == old(task.updates) + [FailureUpdate(FailureStatus(e, handled, generic))]
    ensures ret == FailureReply(FailureStatus(e, handled, generic))
  {
    var status := FailureStatus(e, handled, generic);
    task.UpdateState(FailureState, Meta(status, None));
    ret := FailureReply(status);
  }

  lemma FullFailureAt(ticker: string, w: World)
    ensures GetStockData(ticker, w.yahoo(ticker)).Raise? ==>
      FullAnalysisFailure(ticker, w) == Some((0, GetStockData(ticker, w.yahoo(ticker)).exc))
    ensures GetStockData(ticker, w.yahoo(ticker)).Ok? ==>
      var bars := WithIndicators(GetStockData(ticker, w.yahoo(ticker)).value.hist).bars;
      var forecast := Arima.ForecastStockPrice(bars, ForecastDays, w.arima);
      var sentiment := RedditData.RedditSentiment(ticker, w.reddit(ticker), w.vader);
      (forecast.Raise? ==> FullAnalysisFailure(ticker, w) == Some((2, forecast.exc))) &&
      (forecast.Ok? && sentiment.Raise? ==> FullAnalysisFailure(ticker, w) == Some((3, sentiment.exc))) &&
      (forecast.Ok? && sentiment.Ok? ==> FullAnalysisFailure(ticker, w) == None)
  {
  }

  /** `run_full_analysis` of api/tasks.py. */
  method RunFullAnalysisTask(task: BoundTask, session: ScopedSession, ticker: string, w: World) returns (ret: TaskReply)
    modifies task, session
    ensures task.updates == old(task.updates) + FullAnalysisTrace(ticker, w).0
    ensures ret == FullAnalysisTrace(ticker, w).1
    ensures !session.active
  {
    session.Begin();
    FullFailureAt(ticker, w);
    ghost var base := task.updates;
    assert FullStages[..0] == [];
    Announce(task, base, FullStages, 0);
    var fetched := GetStockData(ticker, w.yahoo(ticker));
    if fetched.Raise? {
      ret := FailAt(task, base, FullStages, 0, fetched.exc, HandledByAnalysis, UnexpectedMessage, ticker);
      session.Remove();
      return;
    }
    Announce(task, base, FullStages, 1);
    var df := new DataFrame(fetched.value.hist);
    df := df.CalculateTechnicalIndicators();
    var hist := df.Value();
    Announce(task, base, FullStages, 2);
    var forecast := Arima.ForecastStockPrice(hist.bars, ForecastDays, w.arima);
    if forecast.Raise? {
      ret := FailAt(task, base, FullStages, 2, forecast.exc, HandledByAnalysis, UnexpectedMessage, ticker);
      session.Remove();
      return;
    }
    Announce(task, base, FullStages, 3);
    var sentiment := RedditData.GetRedditSentiment(ticker, w.reddit(ticker), w.vader);
    if sentiment.Raise? {
      ret := FailAt(task, base, FullStages, 3, sentiment.exc, HandledByAnalysis, UnexpectedMessage, ticker);
      session.Remove();
      return;
    }
    assert FullStages[..4] == FullStages;
    ret := Complete(ticker, None);
    session.Remove();
  }

  // ---- run_hybrid_analysis_task ----

  /** The stage of the hybrid job that raises first, if any (indices into
      `HybridStages`; FinBERT scoring itself never raises), for a given LSTM
      stage. */
  function HybridFailureWith(ticker: string, w: World, lstm: seq<Bar> -> Outcome<seq<real>>): (f: Option<(nat, Exc)>)
    ensures f.Some? ==> f.value.0 < |HybridStages|
  {
    match GetStockData(ticker, w.yahoo(ticker))
    case Raise(e) => Some((0, e))
    case Ok(pair) =>
      match Arima.ForecastStockPrice(pair.hist.bars, ForecastDays, w.arima)
      case Raise(e) => Some((1, e))
      case Ok(_) =>
        match lstm(pair.hist.bars)
        case Raise(e) => Some((2, e))
        case Ok(_) =>
          match RedditData.RedditSentiment(ticker, w.reddit(ticker), w.vader)
          case Raise(e) => Some((3, e))
          case Ok(_) => None
  }

  /** The hybrid job with the intended LSTM window update. */
  function HybridAnalysisFailure(ticker: string, w: World): (f: Option<(nat, Exc)>)
    ensures f.Some? ==> f.value.0 < |HybridStages|
  {
    HybridFailureWith(ticker, w, bars => Lstm.LstmForecast(bars, ForecastDays, w.trainer))
  }

  function HybridAnalysisTrace(ticker: string, w: World): (seq<Update>, TaskReply) {
    StagedRun(HybridStages, HybridAnalysisFailure(ticker, w), HandledByAnalysis, UnexpectedHybridMessage, ticker)
  }

  /** The hybrid job as written, whose LSTM stage always raises. */
  function HybridAnalysisTraceAsWritten(ticker: string, w: World): (seq<Update>, TaskReply) {
    var failure := HybridFailureWith(ticker, w, bars => Lstm.LstmForecastAsWritten(bars, ForecastDays, w.trainer));
    StagedRun(HybridStages, failure, HandledByAnalysis, UnexpectedHybridMessage, ticker)
  }

  /** As written, the hybrid job never completes: a history that is fetched
      and forecast with ARIMA always fails at the LSTM stage, with the generic
      hybrid message. */
  lemma AsWrittenHybridJobNeverCompletes(ticker: string, w: World)
    ensures HybridAnalysisTraceAsWritten(ticker, w).1.FailureReply?
    ensures (GetStockData(ticker, w.yahoo(ticker)).Ok? &&
             Arima.ForecastStockPrice(GetStockData(ticker, w.yahoo(ticker)).value.hist.bars, ForecastDays, w.arima).Ok?) ==>
      HybridAnalysisTraceAsWritten(ticker, w) ==
        (Progresses(HybridStages[..3]) + [FailureUpdate(UnexpectedHybridMessage)], FailureReply(UnexpectedHybridMessage))
  {
    var failure := HybridFailureWith(ticker, w, bars => Lstm.LstmForecastAsWritten(bars, ForecastDays, w.trainer));
    StagedRunShape(HybridStages, failure, HandledByAnalysis, UnexpectedHybridMessage, ticker);
    if GetStockData(ticker, w.yahoo(ticker)).Ok? {
      Lstm.LstmAsWrittenNeverSucceeds(GetStockData(ticker, w.yahoo(ticker)).value.hist.bars, ForecastDays, w.trainer);
    }
  }

  /** A history of 60 days or fewer that forecasts with ARIMA fails the
      hybrid job at the LSTM stage with the generic hybrid message. */
  lemma ShortHistoryFailsHybrid(ticker: string, w: World)
    requires GetStockData(ticker, w.yahoo(ticker)).Ok?
    requires |GetStockData(ticker, w.yahoo(ticker)).value.hist.bars| <= Lstm.PredictionDays
    requires Arima.ForecastStockPrice(GetStockData(ticker, w.yahoo(ticker)).value.hist.bars, ForecastDays, w.arima).Ok?
    ensures HybridAnalysisTrace(ticker, w) ==
      (Progresses(HybridStages[..3]) + [FailureUpdate(UnexpectedHybridMessage)], FailureReply(UnexpectedHybridMessage))
  {
  }

  lemma HybridFailureAt(ticker: string, w: World)
    ensures GetStockData(ticker, w.yahoo(ticker)).Raise? ==>
      HybridAnalysisFailure(ticker, w) == Some((0, GetStockData(ticker, w.yahoo(ticker)).exc))
    ensures GetStockData(ticker, w.yahoo(ticker)).Ok? ==>
      var bars := GetStockData(ticker, w.yahoo(ticker)).value.hist.bars;
      var arima := Arima.ForecastStockPrice(bars, ForecastDays, w.arima);
      var lstm := Lstm.LstmForecast(bars, ForecastDays, w.trainer);
      var sentiment := RedditData.RedditSentiment(ticker, w.reddit(ticker), w.vader);
      (arima.Raise? ==> HybridAnalysisFailure(ticker, w) == Some((1, arima.exc))) &&
      (arima.Ok? && lstm.Raise? ==> HybridAnalysisFailure(ticker, w) == Some((2, lstm.exc))) &&
      (arima.Ok? && lstm.Ok? && sentiment.Raise? ==> HybridAnalysisFailure(ticker, w) == Some((3, sentiment.exc))) &&
      (arima.Ok? && lstm.Ok? && sentiment.Ok? ==> HybridAnalysisFailure(ticker, w) == None)
  {
  }

  /** `run_hybrid_analysis_task`. */
  method RunHybridAnalysisTask(task: BoundTask, session: ScopedSession, ticker: string, w: World) returns (ret: TaskReply)
    modifies task, session
    ensures task.updates == old(task.updates) + HybridAnalysisTrace(ticker, w).0
    ensures ret == HybridAnalysisTrace(ticker, w).1
    ensures !session.active
  {
    session.Begin();
    HybridFailureAt(ticker, w);
    ghost var base := task.updates;
    assert HybridStages[..0] == [];
    Announce(task, base, HybridStages, 0);
    var fetched := GetStockData(ticker, w.yahoo(ticker));
    if fetched.Raise? {
      ret := FailAt(task, base, HybridStages, 0, fetched.exc, HandledByAnalysis, UnexpectedHybridMessage, ticker);
      session.Remove();
      return;
    }
    var hist := fetched.value.hist;
    Announce(task, base, HybridStages, 1);
    var arimaForecast := Arima.ForecastStockPrice(hist.bars, ForecastDays, w.arima);
    if arimaForecast.Raise? {
      ret := FailAt(task, base, HybridStages, 1, arimaForecast.exc, HandledByAnalysis, UnexpectedHybridMessage, ticker);
      session.Remove();
      return;
    }
    Announce(task, base, HybridStages, 2);
    var lstmForecast := Lstm.ForecastWithLstm(hist.bars, ForecastDays, w.trainer);
    if lstmForecast.Raise? {
      ret := FailAt(task, base, HybridStages, 2, lstmForecast.exc, HandledByAnalysis, UnexpectedHybridMessage, ticker);
      session.Remove();
      return;
    }
    Announce(task, base, HybridStages, 3);
    var sentiment := RedditData.GetRedditSentiment(ticker, w.reddit(ticker), w.vader);
    if sentiment.Raise? {
      ret := FailAt(task, base, HybridStages, 3, sentiment.exc, HandledByAnalysis, UnexpectedHybridMessage, ticker);
      session.Remove();
      return;
    }
    var _ := Finbert.FinbertScore(Finbert.PostList(sentiment.value.posts), w.finbert);
    assert HybridStages[..4] == HybridStages;
    ret := Complete(ticker, None);
    session.Remove();
  }

  // ---- run_backtesting_task ----

  /** The trace of the backtesting job for what `run_backtesting` returns or
      raises. */
  function BacktestTrace(ticker: string, outcome: Outcome<Backtesting.BacktestResult>): (t: (seq<Update>, TaskReply))
    ensures outcome.Ok? ==> t == (
      [Update(ProgressState, Meta(StartBacktestMessage, None)), Update(SuccessState, Meta(BacktestDoneMessage, Some(outcome.value)))],
      Complete(ticker, Some(outcome.value)))
    ensures outcome.Raise? ==> (t.1.FailureReply? &&
      t.1.error == FailureStatus(outcome.exc, HandledByBacktesting(outcome.exc), UnexpectedBacktestMessage) &&
      t.0 == [Update(ProgressState, Meta(StartBacktestMessage, None)), FailureUpdate(t.1.error)])
  {
    var start := Update(ProgressState, Meta(StartBacktestMessage, None));
    match outcome
    case Ok(results) =>
      ([start, Update(SuccessState, Meta(BacktestDoneMessage, Some(results)))], Complete(ticker, Some(results)))
    case Raise(e) =>
      var status := FailureStatus(e, HandledByBacktesting(e), UnexpectedBacktestMessage);
      ([start, FailureUpdate(status)], FailureReply(status))
  }

  /** The backtesting job does not handle `RedditAPIError`: it would be
      reported with the generic message, unlike in the two analysis jobs. */
  lemma BacktestingIgnoresRedditErrors(m: string)
    ensures FailureStatus(RedditAPIError(m), HandledByBacktesting(RedditAPIError(m)), UnexpectedBacktestMessage) == UnexpectedBacktestMessage
    ensures FailureStatus(RedditAPIError(m), HandledByAnalysis(RedditAPIError(m)), UnexpectedMessage) == m
  {
  }

  /** With `run_backtesting` as written, a ticker with any history is always
      reported as an unexpected backtesting error. */
  lemma AsWrittenBacktestJobAlwaysFails(ticker: string, w: World)
    requires w.yearOfHistory(ticker).PeriodHistory? && w.yearOfHistory(ticker).bars != []
    ensures var outcome := Backtesting.RunBacktestingAsWritten(ticker, w.yearOfHistory(ticker), w.trainer, w.sqrt);
      BacktestTrace(ticker, outcome).1 == FailureReply(UnexpectedBacktestMessage)
  {
    Backtesting.AsWrittenNeverSucceeds(ticker, w.yearOfHistory(ticker), w.trainer, w.sqrt);
  }

  /** `run_backtesting_task`, with the corrected backtest. */
  method RunBacktestingTask(task: BoundTask, session: ScopedSession, ticker: string, w: World) returns (ret: TaskReply)
    modifies task, session
    ensures var outcome := Backtesting.RunBacktestingSpec(ticker, w.yearOfHistory(ticker), w.arima, w.trainer, w.sqrt);
      task.updates == old(task.updates) + BacktestTrace(ticker, outcome).0 &&
      ret == BacktestTrace(ticker, outcome).1
    ensures !session.active
  {
    session.Begin();
    task.UpdateState(ProgressState, Meta(StartBacktestMessage, None));
    var results := Backtesting.RunBacktesting(ticker, w.yearOfHistory(ticker), w.arima, w.trainer, w.sqrt);
    if results.Raise? {
      ret := Fail(task, results.exc, HandledByBacktesting(results.exc), UnexpectedBacktestMessage);
      session.Remove();
      return;
    }
    task.UpdateState(SuccessState, Meta(BacktestDoneMessage, Some(results.value)));
    ret := Complete(ticker, Some(results.value));
    session.Remove();
  }
}
