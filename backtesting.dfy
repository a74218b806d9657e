/** Walk-forward backtesting of the two forecasters
    (api/analysis/backtesting.py). The one-year history from Yahoo Finance is
    an input; statsmodels, Keras and the square root of the RMSE are
    parameters. */
module Backtesting {
  import opened Outcomes
  import opened StockData
  import Arima
  import Lstm

  /** What `ticker.history(period="1y")` answers. */
  datatype PeriodHistory = PeriodHistory(bars: seq<Bar>) | PeriodFailed(className: string)

  function NoPeriodDataMessage(ticker: string): string {
    "No historical data found for ticker '" + ticker + "' for the given period."
  }

  /** `int(len(hist) * 0.8)`. */
  function TrainSize(n: nat): nat {
    n * 4 / 5
  }

  /** The split keeps every row exactly once, in order, and leaves at least
      one test row whenever there is any data. */
  lemma SplitCoversHistory(hist: seq<Bar>)
    ensures TrainSize(|hist|) <= |hist|
    ensures hist[..TrainSize(|hist|)] + hist[TrainSize(|hist|)..] == hist
    ensures hist != [] ==> |hist[TrainSize(|hist|)..]| >= 1
  {
  }

  // ---- Walk-forward loop ----

  /** One walk-forward step: a one-day forecast from the history so far. */
  type Step = seq<Bar> -> Outcome<real>

  /** The predictions of the first t steps, or the first exception raised. */
  function Walk(train: seq<Bar>, test: seq<Bar>, next: Step, t: nat): (r: Outcome<seq<real>>)
    requires t <= |test|
    ensures r.Ok? ==> |r.value| == t
    ensures r.Ok? ==> forall k :: 0 <= k < t ==> next(train + test[..k]) == Ok(r.value[k])
  {
    if t == 0 then Ok([])
    else
      match Walk(train, test, next, t - 1)
      case Raise(e) => Raise(e)
      case Ok(ps) =>
        match next(train + test[..t - 1])
        case Raise(e) => Raise(e)
        case Ok(p) => Ok(ps + [p])
  }

  /** The walk succeeds exactly when every step does. */
  lemma {:induction false} WalkSucceedsIff(train: seq<Bar>, test: seq<Bar>, next: Step, t: nat)
    requires t <= |test|
    ensures Walk(train, test, next, t).Ok? <==> forall k :: 0 <= k < t ==> next(train + test[..k]).Ok?
  {
    if t > 0 {
      WalkSucceedsIff(train, test, next, t - 1);
    }
  }

  /** Once a step raises, the walk stops with that exception. */
  lemma {:induction false} WalkStopsAtFirstRaise(train: seq<Bar>, test: seq<Bar>, next: Step, t: nat, u: nat)
    requires t <= u <= |test|
    requires Walk(train, test, next, t).Raise?
    ensures Walk(train, test, next, u) == Walk(train, test, next, t)
  {
    if u > t {
      WalkStopsAtFirstRaise(train, test, next, t, u - 1);
    }
  }

  /** The k-th prediction depends only on the training rows and the test rows
      before k: no future row is used. */
  lemma NoFutureRows(train: seq<Bar>, test1: seq<Bar>, test2: seq<Bar>, next: Step, k: nat)
    requires |test1| == |test2| && k < |test1| && test1[..k] == test2[..k]
    requires Walk(train, test1, next, |test1|).Ok? && Walk(train, test2, next, |test2|).Ok?
    ensures Walk(train, test1, next, |test1|).value[k] == Walk(train, test2, next, |test2|).value[k]
  {
    assert next(train + test1[..k]) == Ok(Walk(train, test1, next, |test1|).value[k]);
  }

  /** One walk-forward loop: one prediction per test row, the history growing
      by that row after each step. */
  method WalkForward(train: seq<Bar>, test: seq<Bar>, next: Step) returns (r: Outcome<seq<real>>)
    ensures r == Walk(train, test, next, |test|)
  {
    var predictions := [];
    var history := train;
    for t := 0 to |test|
      invariant history == train + test[..t]
      invariant Walk(train, test, next, t) == Ok(predictions)
    {
      var forecast := next(history);
      if forecast.Raise? {
        WalkStopsAtFirstRaise(train, test, next, t + 1, |test|);
        return Raise(forecast.exc);
      }
      predictions := predictions + [forecast.value];
      assert test[..t + 1] == test[..t] + test[t..t + 1];
      history := history + test[t..t + 1];
    }
    r := Ok(predictions);
  }

  // ---- Error metrics ----

  function Abs(x: real): real {
    if x < 0.0 then -x else x
  }

  function AbsErrors(actual: seq<real>, predicted: seq<real>): (es: seq<real>)
    requires |actual| == |predicted|
    ensures |es| == |actual| && forall i :: 0 <= i < |es| ==> es[i] >= 0.0
  {
    seq(|actual|, i requires 0 <= i < |actual| => Abs(actual[i] - predicted[i]))
  }

  function SquaredErrors(actual: seq<real>, predicted: seq<real>): (es: seq<real>)
    requires |actual| == |predicted|
    ensures |es| == |actual| && forall i :: 0 <= i < |es| ==> es[i] >= 0.0
  {
    seq(|actual|, i requires 0 <= i < |actual| => (actual[i] - predicted[i]) * (actual[i] - predicted[i]))
  }

  /** `mean_absolute_error`. */
  function MeanAbsoluteError(actual: seq<real>, predicted: seq<real>): real
    requires |actual| == |predicted| && actual != []
  {
    Mean(AbsErrors(actual, predicted))
  }

  /** `mean_squared_error`. */
  function MeanSquaredError(actual: seq<real>, predicted: seq<real>): real
    requires |actual| == |predicted| && actual != []
  {
    Mean(SquaredErrors(actual, predicted))
  }

  lemma {:induction false} SumOfNonNegatives(xs: seq<real>)
    requires forall i :: 0 <= i < |xs| ==> xs[i] >= 0.0
    ensures Sum(xs) >= 0.0
    ensures Sum(xs) == 0.0 <==> forall i :: 0 <= i < |xs| ==> xs[i] == 0.0
  {
    if xs != [] {
      SumOfNonNegatives(xs[..|xs| - 1]);
    }
  }

  lemma MeanOfNonNegatives(xs: seq<real>)
    requires xs != [] && forall i :: 0 <= i < |xs| ==> xs[i] >= 0.0
    ensures Mean(xs) >= 0.0
    ensures Mean(xs) == 0.0 <==> forall i :: 0 <= i < |xs| ==> xs[i] == 0.0
  {
    SumOfNonNegatives(xs);
    var n := |xs| as real;
    assert Mean(xs) * n == Sum(xs);
  }

  /** Both errors are non-negative, and the mean absolute error is zero
      exactly when every prediction is right. */
  lemma ErrorsMeasureMisses(actual: seq<real>, predicted: seq<real>)
    requires |actual| == |predicted| && actual != []
    ensures MeanAbsoluteError(actual, predicted) >= 0.0
    ensures MeanSquaredError(actual, predicted) >= 0.0
    ensures MeanAbsoluteError(actual, predicted) == 0.0 <==> actual == predicted
  {
    var abs := AbsErrors(actual, predicted);
    MeanOfNonNegatives(abs);
    MeanOfNonNegatives(SquaredErrors(actual, predicted));
    assert forall i :: 0 <= i < |abs| ==> (abs[i] == 0.0 <==> actual[i] == predicted[i]);
    if MeanAbsoluteError(actual, predicted) == 0.0 {
      assert forall i :: 0 <= i < |actual| ==> actual[i] == predicted[i];
    }
  }

  // ---- The backtest ----

  const SuccessStatus := "success"

  /** The result dictionary: its status and the four metrics. */
  datatype BacktestResult = BacktestResult(status: string, arimaMae: real, arimaRmse: real, lstmMae: real, lstmRmse: real)

  /** `run_backtesting` for given walk-forward steps: fetch, split, run the
      ARIMA walk and then the LSTM walk, and score both against the test
      closes. Every exception is re-raised unchanged. */
  function Backtest(ticker: string, answer: PeriodHistory, arimaStep: Step, lstmStep: Step, sqrt: real -> real): (r: Outcome<BacktestResult>)
    ensures answer.PeriodFailed? ==> r == Raise(Unexpected(answer.className))
    ensures answer.PeriodHistory? && answer.bars == [] ==> r == Raise(StockDataError(NoPeriodDataMessage(ticker)))
    ensures r.Ok? ==> r.value.status == SuccessStatus
  {
    match answer
    case PeriodFailed(name) => Raise(Unexpected(name))
    case PeriodHistory(hist) =>
      if hist == [] then Raise(StockDataError(NoPeriodDataMessage(ticker)))
      else
        var trainSize := TrainSize(|hist|);
        var train, test := hist[..trainSize], hist[trainSize..];
        match Walk(train, test, arimaStep, |test|)
        case Raise(e) => Raise(e)
        case Ok(arimaPredictions) =>
          match Walk(train, test, lstmStep, |test|)
          case Raise(e) => Raise(e)
          case Ok(lstmPredictions) =>
            var actual := Closes(test);
            Ok(BacktestResult(SuccessStatus,
              MeanAbsoluteError(actual, arimaPredictions), sqrt(MeanSquaredError(actual, arimaPredictions)),
              MeanAbsoluteError(actual, lstmPredictions), sqrt(MeanSquaredError(actual, lstmPredictions))))
  }

  /** `arima_model.forecast_stock_price(history, steps=1)` as written:
      `forecast_stock_price` has no parameter named `steps`, so the call
      raises TypeError before any forecasting is done. */
  function ArimaStepAsWritten(history: seq<Bar>): (r: Outcome<real>)
    ensures r == Raise(Unexpected("TypeError"))
  {
    Raise(Unexpected("TypeError"))
  }

  /** The intended ARIMA step: a one-day forecast and its first value. */
  function ArimaStep(m: Arima.ArimaFitter): Step {
    history =>
      match Arima.ForecastStockPrice(history, 1, m)
      case Raise(e) => Raise(e)
      case Ok(f) => if f.values == [] then Raise(Unexpected("IndexError")) else Ok(f.values[0])
  }

  /** `lstm_model.forecast_with_lstm(history, steps=1)[0]` as written, whose
      window update raises. */
  function LstmStepAsWritten(trainer: Lstm.Trainer): Step {
    history =>
      match Lstm.LstmForecastAsWritten(history, 1, trainer)
      case Raise(e) => Raise(e)
      case Ok(f) => if f == [] then Raise(Unexpected("IndexError")) else Ok(f[0])
  }

  /** `lstm_model.forecast_with_lstm(history, steps=1)[0]` with the intended
      window update. */
  function LstmStep(trainer: Lstm.Trainer): Step {
    history =>
      match Lstm.LstmForecast(history, 1, trainer)
      case Raise(e) => Raise(e)
      case Ok(f) => Ok(f[0])
  }

  /** `run_backtesting` as written, with the ARIMA call and the LSTM window
      update that raise. */
  function RunBacktestingAsWritten(ticker: string, answer: PeriodHistory, trainer: Lstm.Trainer, sqrt: real -> real): Outcome<BacktestResult> {
    Backtest(ticker, answer, ArimaStepAsWritten, LstmStepAsWritten(trainer), sqrt)
  }

  /** As written, the backtest never succeeds: whenever there is any history
      the first ARIMA step raises TypeError. */
  lemma AsWrittenNeverSucceeds(ticker: string, answer: PeriodHistory, trainer: Lstm.Trainer, sqrt: real -> real)
    ensures RunBacktestingAsWritten(ticker, answer, trainer, sqrt).Raise?
    ensures answer.PeriodHistory? && answer.bars != [] ==>
      RunBacktestingAsWritten(ticker, answer, trainer, sqrt) == Raise(Unexpected("TypeError"))
  {
    if answer.PeriodHistory? && answer.bars != [] {
      var hist := answer.bars;
      var trainSize := TrainSize(|hist|);
      var train, test := hist[..trainSize], hist[trainSize..];
      assert |test| >= 1;
      assert Walk(train, test, ArimaStepAsWritten, 1) == Raise(Unexpected("TypeError"));
      WalkStopsAtFirstRaise(train, test, ArimaStepAsWritten, 1, |test|);
    }
  }

  /** The corrected backtest. */
  function RunBacktestingSpec(ticker: string, answer: PeriodHistory, m: Arima.ArimaFitter, trainer: Lstm.Trainer, sqrt: real -> real): Outcome<BacktestResult> {
    Backtest(ticker, answer, ArimaStep(m), LstmStep(trainer), sqrt)
  }

  /** Correcting the ARIMA call alone is not enough: the LSTM walk then
      raises at its first step, so the backtest still never succeeds. */
  lemma ArimaFixAloneFails(ticker: string, answer: PeriodHistory, m: Arima.ArimaFitter, trainer: Lstm.Trainer, sqrt: real -> real)
    ensures Backtest(ticker, answer, ArimaStep(m), LstmStepAsWritten(trainer), sqrt).Raise?
  {
    if answer.PeriodHistory? && answer.bars != [] {
      var hist := answer.bars;
      var trainSize := TrainSize(|hist|);
      var train, test := hist[..trainSize], hist[trainSize..];
      assert |test| >= 1;
      if Walk(train, test, ArimaStep(m), |test|).Ok? {
        Lstm.LstmAsWrittenNeverSucceeds(train + test[..0], 1, trainer);
        assert Walk(train, test, LstmStepAsWritten(trainer), 1).Raise?;
        WalkStopsAtFirstRaise(train, test, LstmStepAsWritten(trainer), 1, |test|);
      }
    }
  }

  /** With both corrections, a history whose training part has more than 60
      rows and on which every ARIMA step forecasts gives a successful
      result. */
  lemma CorrectedBacktestSucceeds(ticker: string, hist: seq<Bar>, m: Arima.ArimaFitter, trainer: Lstm.Trainer, sqrt: real -> real)
    requires TrainSize(|hist|) > Lstm.PredictionDays
    requires forall k :: TrainSize(|hist|) <= k < |hist| ==> ArimaStep(m)(hist[..k]).Ok?
    ensures RunBacktestingSpec(ticker, PeriodHistory(hist), m, trainer, sqrt).Ok?
  {
    CorrectedLstmBacktest(ticker, hist, ArimaStep(m), trainer, sqrt);
  }

  /** The backtest with the intended LSTM step and any ARIMA step that
      forecasts on every prefix it is given. */
  lemma CorrectedLstmBacktest(ticker: string, hist: seq<Bar>, arimaStep: Step, trainer: Lstm.Trainer, sqrt: real -> real)
    requires TrainSize(|hist|) > Lstm.PredictionDays
    requires forall k :: TrainSize(|hist|) <= k < |hist| ==> arimaStep(hist[..k]).Ok?
    ensures Backtest(ticker, PeriodHistory(hist), arimaStep, LstmStep(trainer), sqrt).Ok?
  {
    SplitCoversHistory(hist);
    var cut := TrainSize(|hist|);
    WalkOverSplit(hist, cut, arimaStep);
    LstmWalkSucceeds(hist, cut, trainer);
    BacktestOfWalks(ticker, hist, arimaStep, LstmStep(trainer), sqrt);
  }

  /** A non-empty history on which both walks succeed gives a result. */
  lemma BacktestOfWalks(ticker: string, hist: seq<Bar>, arimaStep: Step, lstmStep: Step, sqrt: real -> real)
    requires hist != [] && TrainSize(|hist|) <= |hist|
    requires Walk(hist[..TrainSize(|hist|)], hist[TrainSize(|hist|)..], arimaStep, |hist| - TrainSize(|hist|)).Ok?
    requires Walk(hist[..TrainSize(|hist|)], hist[TrainSize(|hist|)..], lstmStep, |hist| - TrainSize(|hist|)).Ok?
    ensures Backtest(ticker, PeriodHistory(hist), arimaStep, lstmStep, sqrt).Ok?
  {
    var trainSize := TrainSize(|hist|);
    var train, test := hist[..trainSize], hist[trainSize..];
    assert |test| == |hist| - trainSize;
    var arima := Walk(train, test, arimaStep, |test|);
    var lstm := Walk(train, test, lstmStep, |test|);
    assert arima.Ok? && lstm.Ok?;
  }

  /** With the intended window update, the LSTM walk succeeds whenever its
      training part has more than 60 rows. */
  lemma LstmWalkSucceeds(hist: seq<Bar>, cut: nat, trainer: Lstm.Trainer)
    requires Lstm.PredictionDays < cut <= |hist|
    ensures Walk(hist[..cut], hist[cut..], LstmStep(trainer), |hist| - cut).Ok?
  {
    forall k | cut <= k < |hist|
      ensures LstmStep(trainer)(hist[..k]).Ok?
    {
      LstmStepSucceeds(trainer, hist[..k]);
    }
    WalkOverSplit(hist, cut, LstmStep(trainer));
  }

  /** With the intended window update, a one-day LSTM step succeeds on any
      history of more than 60 rows. */
  lemma LstmStepSucceeds(trainer: Lstm.Trainer, history: seq<Bar>)
    requires |history| > Lstm.PredictionDays
    ensures LstmStep(trainer)(history).Ok?
  {
    assert Lstm.LstmForecast(history, 1, trainer).Ok?;
  }

  /** The history a step sees: the training rows and the first k test rows
      are the first cut + k rows. */
  lemma PrefixOfSplit(hist: seq<Bar>, cut: nat, k: nat)
    requires cut + k <= |hist|
    ensures hist[..cut] + hist[cut..][..k] == hist[..cut + k]
  {
    assert hist[cut..][..k] == hist[cut..cut + k];
  }

  /** Walking the rows after `cut` succeeds when every step on a prefix of at
      least `cut` rows does. */
  lemma WalkOverSplit(hist: seq<Bar>, cut: nat, next: Step)
    requires cut <= |hist|
    requires forall k :: cut <= k < |hist| ==> next(hist[..k]).Ok?
    ensures Walk(hist[..cut], hist[cut..], next, |hist| - cut).Ok?
  {
    var train, test := hist[..cut], hist[cut..];
    forall k | 0 <= k < |test|
      ensures next(train + test[..k]).Ok?
    {
      PrefixOfSplit(hist, cut, k);
      assert next(hist[..cut + k]).Ok?;
    }
    WalkSucceedsIff(train, test, next, |test|);
  }

  /** `run_backtesting` with the intended ARIMA call, loop by loop. */
  method RunBacktesting(ticker: string, answer: PeriodHistory, m: Arima.ArimaFitter, trainer: Lstm.Trainer, sqrt: real -> real)
    returns (r: Outcome<BacktestResult>)
    ensures r == RunBacktestingSpec(ticker, answer, m, trainer, sqrt)
  {
    if answer.PeriodFailed? {
      return Raise(Unexpected(answer.className));
    }
    var hist := answer.bars;
    if hist == [] {
      return Raise(StockDataError(NoPeriodDataMessage(ticker)));
    }
    var trainSize := TrainSize(|hist|);
    var train, test := hist[..trainSize], hist[trainSize..];
    var arimaPredictions := WalkForward(train, test, ArimaStep(m));
    if arimaPredictions.Raise? {
      return Raise(arimaPredictions.exc);
    }
    var lstmPredictions := WalkForward(train, test, LstmStep(trainer));
    if lstmPredictions.Raise? {
      return Raise(lstmPredictions.exc);
    }
    var actual := Closes(test);
    r := Ok(BacktestResult(SuccessStatus,
      MeanAbsoluteError(actual, arimaPredictions.value), sqrt(MeanSquaredError(actual, arimaPredictions.value)),
      MeanAbsoluteError(actual, lstmPredictions.value), sqrt(MeanSquaredError(actual, lstmPredictions.value))));
  }
}
