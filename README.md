# Pre-Stocked analysis pipeline in Dafny

Pre-Stocked is a web application. A user submits a stock ticker, and a background job then does four things:
- It fetches five years of prices from Yahoo Finance.
- It forecasts the next 30 days with an ARIMA model, and in the hybrid variant also with an LSTM network.
- It measures Reddit sentiment about the ticker.
- It stores the resulting charts in a ticker-keyed table that the front end polls.

This project models the core of that pipeline and proves properties of the model. The core covers:
- the three Celery jobs, with their progress messages and how they classify failures;
- the simple job's two-commit write to the results table;
- the submission, cache-freshness, status and chart endpoints;
- the Reddit weighted-sentiment aggregation and the VADER and FinBERT scoring rules;
- the ensemble combination;
- the ARIMA order search and its forecast dates;
- the LSTM scaling, training windows and autoregressive rollout;
- the walk-forward backtest;
- the stock-data validation and moving averages.

One Dafny module per source file:

| file | module | models |
|---|---|---|
| outcomes.dfy | Outcomes | exception classes (api/exceptions.py), the JSON error bodies (api/errors.py) |
| tickers.dfy | Tickers | ticker validation and the `validate_ticker` decorator (api/utils.py) |
| store.dfy | Store | the `analysis_results` table (api/database.py) as a map from ticker to record |
| stock_data.dfy | StockData | `get_stock_data`, `calculate_technical_indicators` (api/data/stock_data.py) |
| sentiment.dfy | Sentiment | VADER scoring and `classify_sentiment` (api/analysis/sentiment.py) |
| reddit.dfy | RedditData | `get_reddit_sentiment` (api/data/reddit_data.py) |
| finbert.dfy | Finbert | `get_finbert_sentiment` (api/analysis/sentiment.py and api/hybrid_analysis.py, identical) |
| ensemble.dfy | Ensemble | `run_ensemble_prediction` (api/hybrid_analysis.py) |
| arima.dfy | Arima | `find_best_arima_order`, `forecast_stock_price` (api/analysis/arima_model.py) |
| lstm.dfy | Lstm | `forecast_with_lstm` (api/analysis/lstm_model.py and api/hybrid_analysis.py, identical apart from the step-count parameter's name: `steps` in the first, `days_to_predict` in the second; every caller matches the module it calls: api/analysis/backtesting.py:48 and tests/test_lstm_model.py:23 pass `steps=`, api/tasks.py:61 uses the default) |
| backtesting.dfy | Backtesting | `run_backtesting` (api/analysis/backtesting.py), as written and corrected |
| pipeline.dfy | Pipeline | `run_full_analysis` of tasks.py over the results table |
| tasks.dfy | Tasks | the three bound Celery jobs of api/tasks.py |
| api.dfy | Api | the JSON endpoints of api/__init__.py |
| legacy_app.dfy | LegacyApp | the older duplicate endpoints of app.py |

The model follows the source's own form:
- Code that changes state is a class with `modifies` clauses:
  - the results table (`Store.Database`);
  - a pandas frame gaining its moving-average columns (`StockData.DataFrame`);
  - a bound Celery task's state (`Tasks.BoundTask`) and its scoped session (`Tasks.ScopedSession`);
  - the broker queue (`Api.TaskQueue`).
- Loops are methods with invariants, each proved equal to a pure specification function:
  - the ARIMA search;
  - the LSTM training windows and rollout;
  - the Reddit sample loops;
  - the walk-forward loops.
- Everything outside the application is a function-typed parameter: Yahoo Finance, PRAW, VADER, FinBERT, statsmodels, Keras, Plotly, `str(posts)`, `np.sqrt` and the clock.

## Model

| member | source | states |
|---|---|---|
| Outcomes.BadRequest | api/errors.py:4-7 | a bad request is a 400 whose `error` is "bad request" and whose `message` is the given one |
| Outcomes.InternalError | api/errors.py:9-12 | an internal error is a 500 whose `error` is "internal server error" and whose `message` is the given one |
| Tickers.Upper | api/utils.py:11 | upper-casing keeps the length and maps each character through ASCII `upper` |
| Tickers.UpperCharKeepsAlnum | api/utils.py:11-12 | upper-casing a character neither makes nor breaks alphanumericity, and an alphanumeric character becomes A-Z or 0-9 |
| Tickers.ValidIffPattern | api/utils.py:11-12 | the check on the upper-cased input accepts exactly the inputs of 2 to 5 alphanumeric characters (both directions) |
| Tickers.ValidationIsCaseInsensitive | api/utils.py:11-12 | upper-casing is idempotent; an input is accepted iff its upper-case form is; an accepted symbol is upper-case letters and digits |
| Tickers.ValidateTicker | api/utils.py:8-15 | rejects exactly the inputs outside the pattern, with a 400 "Invalid ticker symbol." and without calling the view; otherwise returns the view's result on the unchanged arguments |
| Store.NewRecord | tasks.py:48-50 | a new record has its ticker, the current time and no charts or score |
| Store.Lookup | tasks.py:47 | the query finds a record exactly when the ticker is stored, and it is the record stored under that ticker, whose ticker field is that ticker |
| Store.Database.Commit | tasks.py:52-54 | a commit writes the one record under its ticker and keeps the table keyed by ticker |
| Store.Database.OpenSession | tasks.py:28 | opening a session adds one open session |
| Store.Database.CloseSession | tasks.py:88-90 | closing a session removes one open session |
| StockData.GetStockData | api/data/stock_data.py:9-24 | succeeds iff Yahoo answered with a non-empty history and info holding `longName` and `symbol`; success returns both unchanged; every failure is the one generic `StockDataError` |
| StockData.SpecificErrorsAreHidden | api/data/stock_data.py:17-24 | the empty-history and incomplete-info errors raised inside the `try` never reach the caller |
| StockData.RollingMean | api/data/stock_data.py:30-31 | the rolling column has one entry per row, defined exactly from row w-1 on |
| StockData.SumBounds | api/data/stock_data.py:30-31 | a window's sum lies between its length times the lowest and the highest close |
| StockData.RollingMeanWithinRange | api/data/stock_data.py:30-31 | every defined moving average lies within the range of the closes |
| StockData.WithIndicators | api/data/stock_data.py:26-32 | the rows are unchanged, SMA50 and SMA200 are added, every other column is kept |
| StockData.ShortHistoryHasNoAverage | api/data/stock_data.py:30-31 | with fewer than 50 rows neither average is defined anywhere |
| StockData.DataFrame.CalculateTechnicalIndicators | api/data/stock_data.py:26-32 | the same frame is mutated and returned, now holding the indicator columns |
| Sentiment.CompoundScore | api/analysis/sentiment.py:7-11 | empty text scores 0, other text gets VADER's compound score |
| Sentiment.CompoundScoreBounded | api/analysis/sentiment.py:7-11 | the score lies in [-1, 1] whenever VADER's does |
| Sentiment.Classify | api/analysis/sentiment.py:13-20 | Positive iff x >= 0.05, Negative iff x <= -0.05, Neutral iff strictly between |
| Sentiment.ClassifyMonotone | api/analysis/sentiment.py:15-20 | a higher score never gets a lower label |
| RedditData.AnalyzeComments | api/data/reddit_data.py:53-62 | the comment loop yields one sample weighted score+1 and one summary per comment, in order |
| RedditData.AnalyzePost | api/data/reddit_data.py:40-70 | one post yields its title sample and its body sample if any, both weighted score+1 and never averaged together, then its comment samples and its summary |
| RedditData.SamplesStep | api/data/reddit_data.py:39-70 | each post appends its title sample, its body sample if any and its comment samples, and one summary |
| RedditData.GetRedditSentiment | api/data/reddit_data.py:27-84 | the nested loops compute the specification: client and search failures raise `RedditAPIError`, no samples gives (0, [], "No results found for 'T'."), otherwise the guarded weighted mean with error None |
| RedditData.SamplesEmptyIffNoPosts | api/data/reddit_data.py:39-46 | there are no samples exactly when there are no posts |
| RedditData.NoResultsIffNoPosts | api/data/reddit_data.py:72-73 | the "No results" answer is given exactly when the search found nothing |
| RedditData.SummariesFollowPosts | api/data/reddit_data.py:64-70 | the k-th summary carries the k-th post's title, the label of its title score and at most ten comments; at most 25 posts |
| RedditData.SamplesCounted | api/data/reddit_data.py:43-56 | each post contributes one title sample, one body sample when its body is non-empty and at most ten comment samples |
| RedditData.WeightedSumBounded | api/data/reddit_data.py:75-76 | with positive weights and scores in [-1, 1] the weighted sum lies within plus or minus the total weight |
| RedditData.WeightedMeanBounded | api/data/reddit_data.py:75-78 | with positive weights and scores in [-1, 1] the mean lies in [-1, 1] |
| RedditData.SamplesWellFormed | api/data/reddit_data.py:43-56 | non-negative votes give positive weights, and VADER in [-1, 1] gives bounded scores |
| RedditData.RedditScoreBounded | api/data/reddit_data.py:75-80 | with non-negative votes the ticker score lies in [-1, 1] |
| RedditData.ZeroWeightIsGuarded | api/data/reddit_data.py:78 | a single post voted to -1 has total weight 0 and scores 0 instead of dividing |
| RedditData.SingleSampleMean | api/data/reddit_data.py:75-78 | one sample of weight 1 keeps its own score |
| RedditData.TwoSampleMean | api/data/reddit_data.py:75-78 | scores -1 and 1 with weights 1 and 10 average to 9/11 |
| Finbert.LabelTotalBounded | api/analysis/sentiment.py:30-31 | the label total lies within plus or minus the number of labels |
| Finbert.Titles | api/hybrid_analysis.py:68 | the titles are the posts' titles, in order |
| Finbert.FinbertScore | api/hybrid_analysis.py:61-75 | a non-list or empty input scores 0; every score lies in [-1, 1] |
| Finbert.FinbertIsLabelMean | api/analysis/sentiment.py:28-33 | the score is the mean of the label values (positive 1, negative -1, anything else 0) |
| Finbert.MixedLabelsCancel | api/analysis/sentiment.py:30-33 | one positive, one negative and one neutral label score 0 |
| Ensemble.EnsemblePrediction | api/hybrid_analysis.py:78-96 | element i is 0.4(1+0.2s)a[i] + 0.4(1+0.2s)b[i], with the inputs' length |
| Ensemble.NeutralEnsembleExample | api/hybrid_analysis.py:82-94 | with sentiment 0, [10] and [20] give [12] |
| Ensemble.AgreeingModelsAreScaled | api/hybrid_analysis.py:89-94 | two equal forecasts combine to 0.8(1+0.2s) times the forecast: the weights do not sum to 1 |
| Ensemble.PoliciesDiffer | api/hybrid_analysis.py:89-91 | at sentiment 0.05 the simple job leaves a forecast unchanged while the ensemble still scales it: the two policies are distinct |
| Arima.Candidates | api/analysis/arima_model.py:16-17 | there are 27 candidate orders |
| Arima.CandidatesAreTheGrid | api/analysis/arima_model.py:16-17 | the candidates are all of {0,1,2}^3, each once, in strictly increasing lexicographic order |
| Arima.Scan | api/analysis/arima_model.py:19-30 | the index held after n candidates, if any, is below n and of a candidate that fitted |
| Arima.ScanFindsBest | api/analysis/arima_model.py:19-32 | nothing is held iff no candidate so far fitted; otherwise the held one has the least AIC, strictly less than every earlier one |
| Arima.BestOrderIsArgmin | api/analysis/arima_model.py:11-32 | the search gives None iff every fit raises, otherwise the earliest fitted candidate of least AIC |
| Arima.FindBestArimaOrder | api/analysis/arima_model.py:11-32 | the loop computes that best order |
| Arima.ForecastDates | api/analysis/arima_model.py:49 | exactly `days` dates, the k-th being the last history date plus k+1 days |
| Arima.ForecastDatesAreConsecutive | api/analysis/arima_model.py:49 | the dates start the day after the history and are one day apart |
| Arima.ForecastStockPrice | api/analysis/arima_model.py:34-54 | succeeds iff the history is non-empty and the chosen order forecasts; the values are that forecast and the dates as above; every failure is `AnalysisError("Failed to generate stock price forecast.")` |
| Arima.FallbackWhenNothingFits | api/analysis/arima_model.py:39-42 | when no candidate fits, the forecast uses order (5, 1, 0) |
| Arima.GridOrderWhenSomethingFits | api/analysis/arima_model.py:39-42 | when some candidate fits, the forecast uses a grid order and never the fallback |
| Lstm.MinMaxScale | api/analysis/lstm_model.py:20-21 | scaling keeps the length |
| Lstm.MinMaxInverse | api/analysis/lstm_model.py:44 | the inverse keeps the length |
| Lstm.ScaledWithinUnit | api/analysis/lstm_model.py:20-21 | every scaled close lies in [0, 1] |
| Lstm.InverseUndoesScale | api/analysis/lstm_model.py:44 | the inverse transform restores the data the scaler was fitted on |
| Lstm.TrainingInputs | api/analysis/lstm_model.py:23-27 | there are max(0, n-60) windows and as many targets |
| Lstm.TrainingWindows | api/analysis/lstm_model.py:23-27 | the loop builds max(0, n-60) pairs, pair j being scaled[j..j+60) with target scaled[j+60] |
| Lstm.WindowAt | api/analysis/lstm_model.py:42 | with the intended update, the network's input keeps its length at every step |
| Lstm.Rollout | api/analysis/lstm_model.py:39-42 | with the intended update, exactly `steps` predictions, each made from the current window |
| Lstm.Autoregress | api/analysis/lstm_model.py:35-42 | the prediction loop with the intended update computes that rollout |
| Lstm.WindowIsRecentHistory | api/analysis/lstm_model.py:39-42 | with the intended update, before step k the window is the last 60 values of the initial window followed by the k predictions so far |
| Lstm.AsWrittenUpdateRaises | api/analysis/lstm_model.py:40-42 | as written, the window update joins a (1, 59, 1) window with the (1, 1, 1, 1) value `[[predicted_price]]`, and numpy raises ValueError |
| Lstm.IntendedUpdateKeepsShape | api/analysis/lstm_model.py:42 | with the prediction reshaped to (1, 1, 1), the update gives back a (1, 60, 1) window |
| Lstm.LstmAsWrittenNeverSucceeds | api/analysis/lstm_model.py:18-45 | as written, `forecast_with_lstm` never returns a forecast; more than 60 rows always raise ValueError |
| Lstm.LstmForecast | api/analysis/lstm_model.py:18-45 | with the intended window update: succeeds iff there are more than 60 rows and at least one step; no rows raise ValueError; 1 to 60 rows raise IndexError; zero steps raise ValueError, since the scaler's inverse refuses an empty array; success gives `steps` values |
| Lstm.LstmStartsFromLastWindow | api/analysis/lstm_model.py:35 | with the intended update, the network is trained on all windows and rolled out from the last 60 scaled closes, then unscaled |
| Lstm.ForecastWithLstm | api/analysis/lstm_model.py:18-45 | the two loops, with the intended update, compute that forecast |
| Backtesting.SplitCoversHistory | api/analysis/backtesting.py:24-25 | train and test concatenate to the history, and there is a test row whenever there is any history |
| Backtesting.Walk | api/analysis/backtesting.py:30-36 | a successful walk has one prediction per test row, the k-th made from train plus the first k test rows |
| Backtesting.WalkSucceedsIff | api/analysis/backtesting.py:30-36 | the walk succeeds iff every step's forecast succeeds |
| Backtesting.WalkStopsAtFirstRaise | api/analysis/backtesting.py:30-36 | once a step raises, the loop's result is that exception |
| Backtesting.NoFutureRows | api/analysis/backtesting.py:31-36 | the k-th prediction depends only on the test rows before k |
| Backtesting.WalkForward | api/analysis/backtesting.py:30-36 | the ARIMA and LSTM loops compute that walk |
| Backtesting.ErrorsMeasureMisses | api/analysis/backtesting.py:38-39 | MAE and MSE are non-negative, and MAE is 0 iff every prediction is exact |
| Backtesting.Backtest | api/analysis/backtesting.py:12-70 | a failed download re-raises as is; an empty history raises the period-specific `StockDataError`; a success has status "success" |
| Backtesting.ArimaStepAsWritten | api/analysis/backtesting.py:34 | the ARIMA call as written always raises TypeError |
| Backtesting.AsWrittenNeverSucceeds | api/analysis/backtesting.py:30-36 | as written, the backtest never succeeds, and raises TypeError whenever there is history |
| Backtesting.ArimaFixAloneFails | api/analysis/backtesting.py:43-50 | with only the ARIMA call corrected, the backtest still never succeeds, because the LSTM walk raises at its first step |
| Backtesting.CorrectedBacktestSucceeds | api/analysis/backtesting.py:24-63 | with both corrections, a history whose training part has more than 60 rows and on which every ARIMA step forecasts gives a result |
| Backtesting.WalkOverSplit | api/analysis/backtesting.py:30-36 | walking the rows after a cut succeeds when every step on a prefix of at least cut rows succeeds |
| Backtesting.LstmStepSucceeds | api/analysis/backtesting.py:48-49 | with the intended window update, a one-day LSTM step succeeds on any history of more than 60 rows |
| Backtesting.LstmWalkSucceeds | api/analysis/backtesting.py:44-50 | with the intended window update, the LSTM walk succeeds whenever its training part has more than 60 rows |
| Backtesting.CorrectedLstmBacktest | api/analysis/backtesting.py:24-63 | with the intended LSTM step, any ARIMA step that forecasts on every prefix gives a result once the training part has more than 60 rows |
| Backtesting.RunBacktesting | api/analysis/backtesting.py:12-70 | the corrected procedure computes its specification |
| Pipeline.SentimentAdjusted | tasks.py:67-72 | the forecast is multiplied element-wise by 1 + 0.5s exactly when s > 0.1 or s < -0.1, and is unchanged for -0.1 <= s <= 0.1 |
| Pipeline.AdjustmentIsBounded | tasks.py:67-72 | for s in [-1, 1] the adjustment stays within half and one and a half times the forecast, in the direction of s |
| Pipeline.PartialRecord | tasks.py:47-53 | the first commit's record sets the chart and the time; for an existing record score, posts and hybrid chart are kept; a new record has none of them |
| Pipeline.FinalRecord | tasks.py:79-82 | the final record sets chart, score, posts and time, and keeps the hybrid chart |
| Pipeline.SimpleAnalysis | tasks.py:28-90 | the table stays keyed by ticker |
| Pipeline.MissingInfoWritesNothing | tasks.py:32-34 | missing company info answers "Could not fetch data for T." and writes nothing |
| Pipeline.EmptyForecastWritesNothing | tasks.py:37-39 | an empty forecast answers "Could not generate a forecast for T." and writes nothing |
| Pipeline.OnlyOwnRecordChanges | tasks.py:47-54 | nothing is written before the first commit; the record is found or created, never duplicated; no other ticker changes |
| Pipeline.SentimentErrorKeepsPartialChart | tasks.py:58-62 | a Reddit error is answered as is, and the table keeps the unadjusted first-commit chart |
| Pipeline.SuccessWritesFinalRecord | tasks.py:79-86 | success answers complete with the adjusted chart, the score, the posts and the time written, and the hybrid chart untouched |
| Pipeline.RunFullAnalysis | tasks.py:13-90 | the method leaves the table and answer of the specification and closes its session on every path |
| Tasks.BoundTask.UpdateState | api/tasks.py:20 | an update overwrites the state and metadata and is appended to the job's log |
| Tasks.ScopedSession.Remove | api/tasks.py:44-45 | removing the session deactivates it |
| Tasks.FailureStatus | api/tasks.py:37-43 | a handled exception reports its own text, any other the job's generic message |
| Tasks.Progresses | api/tasks.py:20-31 | one PROGRESS update per stage message, in order |
| Tasks.StagedRunShape | api/tasks.py:14-45 | every stage is announced before it runs; the job fails iff a stage raises, and then ends with one FAILURE update whose status is the reply's error |
| Tasks.FullAnalysisFailure | api/tasks.py:20-32 | the failing stage, if any, is fetching, forecasting or Reddit, never the indicators |
| Tasks.FetchFailureIsReported | api/tasks.py:20-39 | a failed fetch gives one progress update and a FAILURE with the generic Yahoo message |
| Tasks.RedditFailureIsReported | api/tasks.py:31-39 | a Reddit error is reported with its own text after all four progress updates |
| Tasks.RunFullAnalysisTask | api/tasks.py:14-45 | the job's update log and reply are its trace, and the session is removed on every path |
| Tasks.HybridAnalysisFailure | api/tasks.py:54-65 | with the intended LSTM update, the failing stage, if any, is one of fetching, ARIMA, LSTM and sentiment |
| Tasks.ShortHistoryFailsHybrid | api/tasks.py:60-76 | 60 rows or fewer fail at the LSTM stage with the generic hybrid message |
| Tasks.AsWrittenHybridJobNeverCompletes | api/tasks.py:48-78 | as written, the hybrid job never completes; a history that passes fetching and ARIMA fails at the LSTM stage with the generic hybrid message |
| Tasks.RunHybridAnalysisTask | api/tasks.py:48-78 | with the intended LSTM update, the hybrid job's log follows fetch, ARIMA, LSTM and FinBERT, and the session is removed on every path |
| Tasks.BacktestTrace | api/tasks.py:84-96 | success gives SUCCESS "Backtesting complete." with the results in both the metadata and the reply; an exception gives one FAILURE with its status |
| Tasks.BacktestingIgnoresRedditErrors | api/tasks.py:90-96 | a `RedditAPIError` gets the generic message here but its own text in the analysis jobs |
| Tasks.AsWrittenBacktestJobAlwaysFails | api/tasks.py:86-96 | with `run_backtesting` as written, any history gives the unexpected-error reply |
| Tasks.RunBacktestingTask | api/tasks.py:81-98 | the log and reply are the trace of the corrected backtest, and the session is removed on every path |
| Api.FreshRecord | api/__init__.py:40-43 | the cached record is found iff the ticker is stored and its `last_updated` is strictly newer than now minus CACHE_TIME hours |
| Api.Decide | api/__init__.py:32-58 | an invalid ticker is a 400 "Invalid ticker symbol."; a cache hit of the requested kind answers from the cache; a miss enqueues a simple or hybrid job; any other type is a 400 "Invalid analysis type." |
| Api.MissingTypeIsSimple | api/__init__.py:36 | a missing analysis type is a simple analysis |
| Api.DecisionIsCaseInsensitive | api/__init__.py:35-37 | the decision depends only on the upper-cased ticker |
| Api.CutOffIsExclusive | api/__init__.py:40-43 | a record written exactly CACHE_TIME hours ago is stale |
| Api.HitNeedsChartOfKind | api/__init__.py:45-49 | a fresh record answers only for the kind whose chart it holds |
| Api.TaskQueue.Delay | api/__init__.py:52-54 | enqueuing appends exactly one job and returns its id |
| Api.Analyze | api/__init__.py:32-58 | a rejected or cached request enqueues nothing; otherwise exactly one job of the requested kind is enqueued for the upper-case ticker and its id returned |
| Api.HybridAnalyze | api/__init__.py:91-99 | an invalid ticker gives a 400 and enqueues nothing; otherwise one hybrid job is always enqueued, with no cache check |
| Api.TaskStatus | api/__init__.py:61-76 | PENDING gives "Pending..."; FAILURE gives `str(info)`; any other state gives `info.status` or "" with the result if present |
| Api.PollingFollowsStagedRun | api/__init__.py:61-76 | polling a staged job shows "Pending..." before its first update, each stage's message in order while that stage is the latest, and the FAILURE state from the reported status after a failure |
| Api.GetData | api/__init__.py:79-88 | chart, score and posts are returned iff the record has a non-empty chart; otherwise all three are None |
| Api.HybridData | api/__init__.py:102-109 | the hybrid chart is returned iff it is stored and non-empty, otherwise None |
| Api.SentimentFailureServesPartialChart | api/__init__.py:82-86 | after a Reddit error the unadjusted chart is served with the score and posts stored before the job |
| Api.CompletedAnalysisIsCached | api/__init__.py:40-46 | after a successful job whose final commit is fresh, a repeated simple request is answered from the cache, and the final chart, score and posts are served |
| LegacyApp.TaskStatus | app.py:24-44 | the same status mapping as api/__init__.py |
| LegacyApp.TaskStatusAgrees | app.py:31-44 | the two status routes answer every poll identically |
| LegacyApp.GetData | app.py:46-68 | all-None fields when the record is missing or its chart is empty, otherwise the stored fields |
| LegacyApp.GetDataAgrees | app.py:55-66 | the two `get_data` routes agree |
| LegacyApp.HybridData | app.py:85-98 | the hybrid chart, or None when it is missing or empty |
| LegacyApp.HybridDataAgrees | app.py:90-96 | the two `hybrid_data` routes agree |
| LegacyApp.HybridAnalyze | app.py:70-78 | an invalid ticker gives `{'error': 'Invalid ticker symbol.'}` with 400 and enqueues nothing; otherwise exactly one hybrid job is enqueued |
| LegacyApp.RejectionBodiesDiffer | app.py:74-75 | this rejection has the same code as api/__init__.py's, but puts the message where that one puts "bad request" |

## Left out

- Tasks.RunFullAnalysisTask: api/tasks.py elides its store writes and sentiment adjustment behind `# ...`. The job models only the stages it shows. The store writes are modelled in Pipeline, from tasks.py.
- Tasks.RunHybridAnalysisTask: the ensemble prediction and the hybrid chart are elided in api/tasks.py. The job does not write `hybrid_plot`.
- Tasks.RunHybridAnalysisTask: runs the LSTM stage with the intended window update. As written the job never completes (`Tasks.AsWrittenHybridJobNeverCompletes`; see Findings).
- Tasks.HybridAnalysisFailure: uses the intended LSTM window update, so a long history can get past the LSTM stage. As written it never does.
- api/tasks.py calls `analysis_engine.get_stock_data`, `forecast_stock_price`, `get_reddit_sentiment` and `calculate_technical_indicators`, which api/analysis_engine.py does not define. Each stage is wired to the function of that name in api/data and api/analysis.
- The top-level `analysis_engine` module that tasks.py imports is not part of this model. Four of its functions are the parameters of `Pipeline.Engine`: `get_stock_data`, `forecast_stock_price`, `create_plot` and `get_reddit_sentiment`. `str(posts)` is a fifth parameter.
- Pipeline.SimpleAnalysis: its indicator step is not a parameter. The model takes `analysis_engine.calculate_technical_indicators` to be the one in api/data/stock_data.py:26-32 (`StockData.WithIndicators`), the function the tests import under that name (tests/test_analysis_engine.py:4). A different top-level definition is not captured.
- Celery plumbing is not modelled: the broker, `AsyncResult`, and the SUCCESS state Celery records with the return value after a bound task returns normally. A job's log ends with its own `update_state` calls.
- Api.TaskStatus: models only the four states the jobs use. Celery's other states would take the non-FAILURE branch. `str(task.info)` is a parameter. A non-pending task without metadata is not modelled.
- Api.TaskQueue.Delay: a task id is the job's position in the queue log, not a Celery UUID.
- Api.Analyze: the ticker field is taken to be present. When it is absent, `request.form.get("ticker").upper()` fails before validation.
- Api.HybridAnalyze: the ticker field is taken to be present, as above.
- Tickers.Upper: ASCII only. Python's `str.upper` and `str.isalnum` also act on non-ASCII letters; the intended set is A-Z, a-z and 0-9.
- SQLAlchemy is not modelled: engines, sessions, query objects and the commit machinery. The table is a map from ticker to record. A session is a counter (`Store.Database`) or a flag (`Tasks.ScopedSession`).
- Timestamps are integer microseconds. The clock reading at each commit, and the request time `now`, are parameters. CACHE_TIME is a parameter; its configured default is 1 hour.
- Flask routing, static-file serving, the 400 and 500 error handlers and the teardown hook are not modelled.
- app.py's `hybrid_result` route is not modelled: it calls `render_template`, which app.py does not import. app.py also imports `run_hybrid_analysis_task` from tasks.py, which does not define it. Its routes are modelled as written.
- External services and numeric libraries are parameters, each an uninterpreted function:
  - Yahoo Finance (`yfinance`), PRAW search and VADER;
  - the FinBERT pipeline;
  - statsmodels ARIMA, as its AIC and its forecast;
  - Keras training and prediction;
  - Plotly charts, `str(posts)` and `np.sqrt`.
- All arithmetic is exact real arithmetic; IEEE floating point is not modelled.
- Backtesting.TrainSize: `int(len(hist) * 0.8)` is taken as the exact floor of 4n/5.
- Arima.FindBestArimaOrder: an AIC is a real number. A NaN or infinite AIC, which never passes `< best_aic`, is not modelled.
- Lstm.MinMaxScale: models sklearn's `MinMaxScaler` with feature range (0, 1). A constant series divides by 1, as sklearn does for a zero range.
- Lstm.WindowAt: the window of the intended update. As written, the update at api/analysis/lstm_model.py:42 raises before a second window exists (see Findings).
- Lstm.Rollout: the predictions of the intended update. As written, the loop raises on its first update.
- Lstm.Autoregress: the loop with the intended update. As written, it raises in its first iteration.
- Lstm.WindowIsRecentHistory: states the window of the intended update. As written, no window after the first is ever built.
- Lstm.LstmStartsFromLastWindow: describes the forecast of the intended update. As written, there is no result to describe (`Lstm.LstmAsWrittenNeverSucceeds`).
- Lstm.ForecastWithLstm: the procedure with the intended update. The as-written forecast is `Lstm.LstmForecastAsWritten`.
- Lstm.LstmForecast: the network's architecture and training settings (`create_lstm_model`, epochs, batch size) are inside the `Trainer` parameter. Training is taken not to raise.
- Sentiment.CompoundScore: the text is a string. A `None` text, which `if not text` also scores 0, is not representable. Every caller in api/data/reddit_data.py (lines 40, 41 and 54) passes a PRAW title, self-text or comment body.
- RedditData.GetRedditSentiment: a failed PRAW search is modelled as a single search-failure answer. An exception during the search that is not a `PrawcoreException` would propagate unchanged; that case is not modelled.
- RedditData.RedditSentiment: a weight is `score + 1` (api/data/reddit_data.py:43, 55). Reddit scores can be negative, so a non-empty list can total zero or less. The model keeps the code's guard `total_weight > 0` (line 78); see `RedditData.ZeroWeightIsGuarded`.
- The React front end, logging and configuration loading are not modelled.
- Concurrent jobs on the same ticker are not modelled; the model is sequential.

## Findings

| source | as written | input that shows it | evidently intended | confidence | as-written member | corrected member |
|---|---|---|---|---|---|---|
| api/analysis/backtesting.py:34 | The walk-forward ARIMA loop calls `forecast_stock_price(history_arima, steps=1)`, but that function's parameter is `days_to_predict`. The call raises TypeError before forecasting, so `run_backtesting` never succeeds on a non-empty history, and the job reports "An unexpected error occurred during backtesting." | any ticker with at least one row of history in the last year | `forecast_stock_price(history_arima, days_to_predict=1)`: a one-day forecast whose first value is the prediction. The LSTM walk at line 48 also needs the window-update correction of the next row: with the ARIMA call alone corrected, the backtest still never succeeds (`Backtesting.ArimaFixAloneFails`) | not executed | Backtesting.AsWrittenNeverSucceeds | Backtesting.CorrectedBacktestSucceeds |
| api/analysis/lstm_model.py:42 | The prediction loop updates its window with `np.append(current_input[:, 1:, :], [[predicted_price]], axis=1)`. `model.predict` returns a (1, 1) array, so `[[predicted_price]]` has four dimensions while the window has three, and numpy raises ValueError on the first step. api/hybrid_analysis.py:54 has the same line. So `forecast_with_lstm` never returns a forecast, and the hybrid job never gets past its LSTM stage | any history of more than 60 rows with at least one step, e.g. 100 rows and `steps=10` | append the prediction as one time step, `predicted_price.reshape(1, 1, 1)`, so that the window keeps its (1, 60, 1) shape | not executed | Lstm.LstmAsWrittenNeverSucceeds | Lstm.LstmForecast |

The as-written ARIMA step is `Backtesting.ArimaStepAsWritten`, and `Tasks.AsWrittenBacktestJobAlwaysFails` carries the failure up to the job. The corrected backtest is `Backtesting.RunBacktesting`, with both corrections, and `Tasks.RunBacktestingTask` uses it.

The window update is modelled on array shapes (`Lstm.AppendShape`). The as-written forecast is `Lstm.LstmForecastAsWritten`, and `Tasks.AsWrittenHybridJobNeverCompletes` carries its failure up to the hybrid job. The corrected forecast is `Lstm.LstmForecast`, with `Lstm.IntendedUpdateKeepsShape`, and the rest of the model uses it.
