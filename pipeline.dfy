/** The simple analysis job of tasks.py (`run_full_analysis`): fetch, add
    indicators, forecast, store the unadjusted chart at once, then collect
    Reddit sentiment, adjust the forecast and store the final chart with the
    score and the posts. The job runs against the record store; the five
    functions of the engine module it imports are parameters, and so are the
    two clock readings. */
module Pipeline {
  import opened Outcomes
  import opened Tickers
  import opened Store
  import opened StockData
  import opened RedditData

  /** The engine module tasks.py calls. Each call returns or raises. */
  datatype Engine = Engine(
    getStockData: string -> Outcome<(Option<Info>, Frame)>,
    forecastStockPrice: Frame -> Outcome<(seq<real>, seq<Date>)>,
    createPlot: (Frame, seq<real>, seq<Date>, string) -> string,
    getRedditSentiment: string -> Outcome<(real, seq<PostSummary>, Option<string>)>,
    renderPosts: seq<PostSummary> -> string)

  /** The dictionary the job returns. */
  datatype TaskReturn = ErrorReply(error: string) | CompleteReply(ticker: string)

  function NoDataMessage(ticker: string): string {
    "Could not fetch data for " + Upper(ticker) + "."
  }

  function NoForecastMessage(ticker: string): string {
    "Could not generate a forecast for " + Upper(ticker) + "."
  }

  const AdjustmentThreshold: real := 0.1
  const AdjustmentWeight: real := 0.5

  /** The job's adjustment: the forecast is scaled by 1 + 0.5 s exactly when
      the score lies outside [-0.1, 0.1], and kept otherwise. */
  function SentimentAdjusted(forecast: seq<real>, s: real): (r: seq<real>)
    ensures |r| == |forecast|
    ensures s > AdjustmentThreshold || s < -AdjustmentThreshold ==>
      forall i :: 0 <= i < |r| ==> r[i] == forecast[i] * (1.0 + s * AdjustmentWeight)
    ensures -AdjustmentThreshold <= s <= AdjustmentThreshold ==> r == forecast
  {
    if s > AdjustmentThreshold then
      seq(|forecast|, i requires 0 <= i < |forecast| => forecast[i] * (1.0 + s * AdjustmentWeight))
    else if s < -AdjustmentThreshold then
      seq(|forecast|, i requires 0 <= i < |forecast| => forecast[i] * (1.0 + s * AdjustmentWeight))
    else forecast
  }

  /** For a score in [-1, 1] each value moves by at most half of itself, and
      in the direction of the score. */
  lemma AdjustmentIsBounded(forecast: seq<real>, s: real, i: nat)
    requires -1.0 <= s <= 1.0 && i < |forecast| && forecast[i] >= 0.0
    ensures 0.5 * forecast[i] <= SentimentAdjusted(forecast, s)[i] <= 1.5 * forecast[i]
    ensures s >= 0.0 ==> SentimentAdjusted(forecast, s)[i] >= forecast[i]
    ensures s <= 0.0 ==> SentimentAdjusted(forecast, s)[i] <= forecast[i]
  {
    var f := forecast[i];
    var k := 1.0 + s * AdjustmentWeight;
    if s > AdjustmentThreshold || s < -AdjustmentThreshold {
      assert SentimentAdjusted(forecast, s)[i] == f * k;
      ProductNonNegative(f, k - 0.5);
      ProductNonNegative(f, 1.5 - k);
      if s >= 0.0 {
        ProductNonNegative(f, k - 1.0);
      } else {
        ProductNonNegative(f, 1.0 - k);
      }
    }
  }

  lemma ProductNonNegative(a: real, b: real)
    requires a >= 0.0 && b >= 0.0
    ensures a * b >= 0.0
  {
  }

  /** The record as the first commit leaves it: the stored record, or a new
      one, with the chart and the time set and every other column kept. */
  function PartialRecord(records: map<string, Record>, ticker: string, plot: string, at: Timestamp): (r: Record)
    requires KeyedByTicker(records)
    ensures r.ticker == ticker && r.arimaPlot == Some(plot) && r.lastUpdated == at
    ensures ticker in records ==> (r.sentiment == records[ticker].sentiment &&
      r.sentimentPosts == records[ticker].sentimentPosts && r.hybridPlot == records[ticker].hybridPlot)
    ensures ticker !in records ==> r.sentiment.None? && r.sentimentPosts.None? && r.hybridPlot.None?
  {
    var found := Lookup(records, ticker).GetOr(NewRecord(ticker, at));
    found.(arimaPlot := Some(plot), lastUpdated := at)
  }

  /** The record as the second commit leaves it. */
  function FinalRecord(partial: Record, plot: string, s: real, posts: string, at: Timestamp): (r: Record)
    ensures r.ticker == partial.ticker && r.hybridPlot == partial.hybridPlot
    ensures r.arimaPlot == Some(plot) && r.sentiment == Some(s) && r.sentimentPosts == Some(posts)
    ensures r.lastUpdated == at
  {
    partial.(arimaPlot := Some(plot), sentiment := Some(s), sentimentPosts := Some(posts), lastUpdated := at)
  }

  /** `if reddit_error:` */
  predicate Reported(error: Option<string>) {
    error.Some? && error.value != ""
  }

  /** What the job leaves in the store and what it returns or raises. */
  function SimpleAnalysis(records: map<string, Record>, ticker: string, e: Engine, partialAt: Timestamp, finalAt: Timestamp)
    : (out: (map<string, Record>, Outcome<TaskReturn>))
    requires KeyedByTicker(records)
    ensures KeyedByTicker(out.0)
  {
    match e.getStockData(ticker)
    case Raise(x) => (records, Raise(x))
    case Ok(fetched) =>
      if fetched.0.None? then (records, Ok(ErrorReply(NoDataMessage(ticker))))
      else
        var hist := WithIndicators(fetched.1);
        match e.forecastStockPrice(hist)
        case Raise(x) => (records, Raise(x))
        case Ok(fc) =>
          var (forecast, dates) := fc;
          if forecast == [] then (records, Ok(ErrorReply(NoForecastMessage(ticker))))
          else
            var partial := PartialRecord(records, ticker, e.createPlot(hist, forecast, dates, ticker), partialAt);
            var stored := records[ticker := partial];
            match e.getRedditSentiment(ticker)
            case Raise(x) => (stored, Raise(x))
            case Ok(rs) =>
              var (s, posts, redditError) := rs;
              if Reported(redditError) then (stored, Ok(ErrorReply(redditError.value)))
              else
                var finalPlot := e.createPlot(hist, SentimentAdjusted(forecast, s), dates, ticker);
                var final := FinalRecord(partial, finalPlot, s, e.renderPosts(posts), finalAt);
                (stored[ticker := final], Ok(CompleteReply(ticker)))
  }

  /** Whether the job gets past the forecast to its first commit. */
  predicate ReachesPartialCommit(ticker: string, e: Engine) {
    e.getStockData(ticker).Ok? && e.getStockData(ticker).value.0.Some? &&
    var hist := WithIndicators(e.getStockData(ticker).value.1);
    e.forecastStockPrice(hist).Ok? && e.forecastStockPrice(hist).value.0 != []
  }

  /** Without company info the job answers with the fetch error and writes
      nothing. */
  lemma MissingInfoWritesNothing(records: map<string, Record>, ticker: string, e: Engine, partialAt: Timestamp, finalAt: Timestamp)
    requires KeyedByTicker(records)
    requires e.getStockData(ticker).Ok? && e.getStockData(ticker).value.0.None?
    ensures SimpleAnalysis(records, ticker, e, partialAt, finalAt) == (records, Ok(ErrorReply(NoDataMessage(ticker))))
  {
  }

  /** An empty forecast answers with the forecast error and writes nothing. */
  lemma EmptyForecastWritesNothing(records: map<string, Record>, ticker: string, e: Engine, partialAt: Timestamp, finalAt: Timestamp)
    requires KeyedByTicker(records)
    requires e.getStockData(ticker).Ok? && e.getStockData(ticker).value.0.Some?
    requires var hist := WithIndicators(e.getStockData(ticker).value.1);
      e.forecastStockPrice(hist).Ok? && e.forecastStockPrice(hist).value.0 == []
    ensures SimpleAnalysis(records, ticker, e, partialAt, finalAt) == (records, Ok(ErrorReply(NoForecastMessage(ticker))))
  {
  }

  /** Nothing is written unless the job reaches its first commit, and only the
      job's own ticker is ever written. */
  lemma OnlyOwnRecordChanges(records: map<string, Record>, ticker: string, e: Engine, partialAt: Timestamp, finalAt: Timestamp)
    requires KeyedByTicker(records)
    ensures var out := SimpleAnalysis(records, ticker, e, partialAt, finalAt).0;
      (!ReachesPartialCommit(ticker, e) ==> out == records) &&
      (ReachesPartialCommit(ticker, e) ==> out.Keys == records.Keys + {ticker}) &&
      forall t :: t in records && t != ticker ==> out[t] == records[t]
  {
  }

  /** When sentiment collection reports an error, the job answers with it and
      the store keeps the unadjusted chart of the first commit; the score, the
      posts and the hybrid chart are as they were. */
  lemma SentimentErrorKeepsPartialChart(records: map<string, Record>, ticker: string, e: Engine, partialAt: Timestamp, finalAt: Timestamp)
    requires KeyedByTicker(records)
    requires ReachesPartialCommit(ticker, e)
    requires e.getRedditSentiment(ticker).Ok? && Reported(e.getRedditSentiment(ticker).value.2)
    ensures var hist := WithIndicators(e.getStockData(ticker).value.1);
      var fc := e.forecastStockPrice(hist).value;
      var plot := e.createPlot(hist, fc.0, fc.1, ticker);
      SimpleAnalysis(records, ticker, e, partialAt, finalAt) ==
        (records[ticker := PartialRecord(records, ticker, plot, partialAt)],
         Ok(ErrorReply(e.getRedditSentiment(ticker).value.2.value)))
  {
  }

  /** On success the job answers complete; the final record carries the
      adjusted chart, the score and the posts, and its hybrid chart is the one
      stored before the job. */
  lemma SuccessWritesFinalRecord(records: map<string, Record>, ticker: string, e: Engine, partialAt: Timestamp, finalAt: Timestamp)
    requires KeyedByTicker(records)
    requires ReachesPartialCommit(ticker, e)
    requires e.getRedditSentiment(ticker).Ok? && !Reported(e.getRedditSentiment(ticker).value.2)
    ensures var out := SimpleAnalysis(records, ticker, e, partialAt, finalAt);
      var hist := WithIndicators(e.getStockData(ticker).value.1);
      var fc := e.forecastStockPrice(hist).value;
      var s := e.getRedditSentiment(ticker).value.0;
      out.1 == Ok(CompleteReply(ticker)) && ticker in out.0 &&
      out.0[ticker].arimaPlot == Some(e.createPlot(hist, SentimentAdjusted(fc.0, s), fc.1, ticker)) &&
      out.0[ticker].sentiment == Some(s) &&
      out.0[ticker].sentimentPosts == Some(e.renderPosts(e.getRedditSentiment(ticker).value.1)) &&
      out.0[ticker].lastUpdated == finalAt &&
      out.0[ticker].hybridPlot == (if ticker in records then records[ticker].hybridPlot else None)
  {
  }

  /** `run_full_analysis` over the database: a session is opened first and
      closed on every way out, early answers and exceptions included. */
  method RunFullAnalysis(db: Database, ticker: string, e: Engine, partialAt: Timestamp, finalAt: Timestamp)
    returns (ret: Outcome<TaskReturn>)
    requires db.Valid()
    modifies db
    ensures db.Valid()
    ensures (db.records, ret) == SimpleAnalysis(old(db.records), ticker, e, partialAt, finalAt)
    ensures db.openSessions == old(db.openSessions)
  {
    db.OpenSession();
    var fetched := e.getStockData(ticker);
    if fetched.Raise? {
      db.CloseSession();
      return Raise(fetched.exc);
    }
    var (info, hist0) := fetched.value;
    if info.None? {
      db.CloseSession();
      return Ok(ErrorReply(NoDataMessage(ticker)));
    }
    var df := new DataFrame(hist0);
    df := df.CalculateTechnicalIndicators();
    var hist := df.Value();
    var forecasted := e.forecastStockPrice(hist);
    if forecasted.Raise? {
      db.CloseSession();
      return Raise(forecasted.exc);
    }
    var (forecast, forecastDates) := forecasted.value;
    if forecast == [] {
      db.CloseSession();
      return Ok(ErrorReply(NoForecastMessage(ticker)));
    }
    var initialPlot := e.createPlot(hist, forecast, forecastDates, ticker);

    var found := Lookup(db.records, ticker);
    var result := if found.Some? then found.value else NewRecord(ticker, partialAt);
    result := result.(arimaPlot := Some(initialPlot));
    result := result.(lastUpdated := partialAt);
    db.Commit(result);

    var reddit := e.getRedditSentiment(ticker);
    if reddit.Raise? {
      db.CloseSession();
      return Raise(reddit.exc);
    }
    var (sentiment, posts, redditError) := reddit.value;
    if Reported(redditError) {
      db.CloseSession();
      return Ok(ErrorReply(redditError.value));
    }
    forecast := SentimentAdjusted(forecast, sentiment);
    var finalPlot := e.createPlot(hist, forecast, forecastDates, ticker);
    result := result.(arimaPlot := Some(finalPlot), sentiment := Some(sentiment));
    result := result.(sentimentPosts := Some(e.renderPosts(posts)), lastUpdated := finalAt);
    db.Commit(result);
    db.CloseSession();
    ret := Ok(CompleteReply(ticker));
  }
}
