/** LSTM forecasting (`forecast_with_lstm`, written identically in
    api/analysis/lstm_model.py and api/hybrid_analysis.py apart from the name
    of the step-count parameter, `steps` in the first and `days_to_predict` in
    the second; modelled once, with the step count as a plain argument).
    The closes are min-max scaled, cut into 60-day training windows, a network
    is trained on them, and the forecast is rolled out one day at a time from
    the last 60 scaled closes. Keras is a parameter: `train` receives the
    training windows and targets and returns the trained network's
    one-step prediction function. */
module Lstm {
  import opened Outcomes
  import opened StockData

  const PredictionDays: nat := 60

  /** A trained network: the next scaled value for an input window. */
  type Predictor = seq<real> -> real

  type Trainer = (seq<seq<real>>, seq<real>) -> Predictor

  // ---- MinMaxScaler(feature_range=(0, 1)) ----

  function MinOf(xs: seq<real>): (m: real)
    requires xs != []
    ensures m in xs && forall i :: 0 <= i < |xs| ==> m <= xs[i]
  {
    if |xs| == 1 then xs[0]
    else
      var rest := MinOf(xs[1..]);
      assert forall i :: 1 <= i < |xs| ==> xs[i] == xs[1..][i - 1];
      if xs[0] <= rest then xs[0] else rest
  }

  function MaxOf(xs: seq<real>): (m: real)
    requires xs != []
    ensures m in xs && forall i :: 0 <= i < |xs| ==> xs[i] <= m
  {
    if |xs| == 1 then xs[0]
    else
      var rest := MaxOf(xs[1..]);
      assert forall i :: 1 <= i < |xs| ==> xs[i] == xs[1..][i - 1];
      if xs[0] >= rest then xs[0] else rest
  }

  /** The scaler's divisor: the data range, or 1 when every value is equal. */
  function DataRange(xs: seq<real>): (r: real)
    requires xs != []
    ensures r > 0.0
  {
    if MaxOf(xs) - MinOf(xs) == 0.0 then 1.0 else MaxOf(xs) - MinOf(xs)
  }

  /** `scaler.fit_transform`. */
  function MinMaxScale(xs: seq<real>): (ys: seq<real>)
    requires xs != []
    ensures |ys| == |xs|
  {
    seq(|xs|, i requires 0 <= i < |xs| => (xs[i] - MinOf(xs)) / DataRange(xs))
  }

  /** `scaler.inverse_transform` for a scaler fitted on xs. */
  function MinMaxInverse(xs: seq<real>, ys: seq<real>): (zs: seq<real>)
    requires xs != []
    ensures |zs| == |ys|
  {
    seq(|ys|, i requires 0 <= i < |ys| => ys[i] * DataRange(xs) + MinOf(xs))
  }

  /** Every scaled value lies in [0, 1]. */
  lemma ScaledWithinUnit(xs: seq<real>, i: nat)
    requires xs != [] && i < |xs|
    ensures 0.0 <= MinMaxScale(xs)[i] <= 1.0
  {
    var lo, hi, r := MinOf(xs), MaxOf(xs), DataRange(xs);
    var d := xs[i] - lo;
    assert 0.0 <= d <= r by {
      assert lo <= xs[i] <= hi;
    }
    assert MinMaxScale(xs)[i] == d / r;
    QuotientAtMostOne(d, r);
  }

  lemma QuotientAtMostOne(d: real, r: real)
    requires 0.0 <= d <= r && r > 0.0
    ensures 0.0 <= d / r <= 1.0
  {
    var q := d / r;
    assert q * r == d;
  }

  /** The inverse undoes the scaling of the data it was fitted on. */
  lemma InverseUndoesScale(xs: seq<real>)
    requires xs != []
    ensures MinMaxInverse(xs, MinMaxScale(xs)) == xs
  {
    var ys := MinMaxInverse(xs, MinMaxScale(xs));
    forall i | 0 <= i < |xs|
      ensures ys[i] == xs[i]
    {
      var r := DataRange(xs);
      var d := xs[i] - MinOf(xs);
      assert (d / r) * r == d;
    }
  }

  // ---- Training windows ----

  /** The training set: pair j is the window scaled[j..j+60) and its target
      scaled[j+60]; there are max(0, n - 60) pairs. */
  function TrainingInputs(scaled: seq<real>): (xy: (seq<seq<real>>, seq<real>))
    ensures |xy.0| == |xy.1| == if |scaled| > PredictionDays then |scaled| - PredictionDays else 0
  {
    var n := if |scaled| > PredictionDays then |scaled| - PredictionDays else 0;
    (seq(n, j requires 0 <= j < n => scaled[j..j + PredictionDays]),
     seq(n, j requires 0 <= j < n => scaled[j + PredictionDays]))
  }

  /** The first loop of `forecast_with_lstm`, appending one window and one
      target for each i in range(60, len(scaled)). */
  method TrainingWindows(scaled: seq<real>) returns (xTrain: seq<seq<real>>, yTrain: seq<real>)
    ensures |xTrain| == |yTrain| == if |scaled| > PredictionDays then |scaled| - PredictionDays else 0
    ensures forall j :: 0 <= j < |xTrain| ==>
      xTrain[j] == scaled[j..j + PredictionDays] && yTrain[j] == scaled[j + PredictionDays]
  {
    xTrain, yTrain := [], [];
    var i := PredictionDays;
    while i < |scaled|
      invariant PredictionDays <= i && (i == PredictionDays || i <= |scaled|)
      invariant |xTrain| == |yTrain| == i - PredictionDays
      invariant forall j :: 0 <= j < |xTrain| ==>
        xTrain[j] == scaled[j..j + PredictionDays] && yTrain[j] == scaled[j + PredictionDays]
    {
      xTrain := xTrain + [scaled[i - PredictionDays..i]];
      yTrain := yTrain + [scaled[i]];
      i := i + 1;
    }
  }

  // ---- Autoregressive rollout ----

  /** The network's input before step k: the previous input without its
      oldest value, followed by the previous prediction. */
  function WindowAt(w: seq<real>, k: nat, predict: Predictor): (cur: seq<real>)
    requires w != []
    ensures |cur| == |w|
  {
    if k == 0 then w
    else
      var prev := WindowAt(w, k - 1, predict);
      prev[1..] + [predict(prev)]
  }

  /** The first `steps` predictions. */
  function Rollout(w: seq<real>, steps: nat, predict: Predictor): (out: seq<real>)
    requires w != []
    ensures |out| == steps
    ensures forall k :: 0 <= k < steps ==> out[k] == predict(WindowAt(w, k, predict))
  {
    seq(steps, k requires 0 <= k < steps => predict(WindowAt(w, k, predict)))
  }

  lemma RolloutStep(w: seq<real>, k: nat, predict: Predictor)
    requires w != []
    ensures Rollout(w, k + 1, predict) == Rollout(w, k, predict) + [predict(WindowAt(w, k, predict))]
  {
  }

  /** The second loop: `steps` predictions, each fed back into a window that
      keeps its length. */
  method Autoregress(w: seq<real>, steps: nat, predict: Predictor) returns (forecast: seq<real>)
    requires w != []
    ensures forecast == Rollout(w, steps, predict)
  {
    forecast := [];
    var current := w;
    for i := 0 to steps
      invariant current == WindowAt(w, i, predict)
      invariant forecast == Rollout(w, i, predict)
    {
      RolloutStep(w, i, predict);
      var predicted := predict(current);
      forecast := forecast + [predicted];
      current := current[1..] + [predicted];
    }
  }

  /** Before step k the input window is the last |w| values of the initial
      window followed by the k predictions made so far. */
  lemma {:induction false} WindowIsRecentHistory(w: seq<real>, k: nat, predict: Predictor)
    requires w != []
    ensures WindowAt(w, k, predict) == (w + Rollout(w, k, predict))[k..]
  {
    if k > 0 {
      WindowIsRecentHistory(w, k - 1, predict);
      var prev := WindowAt(w, k - 1, predict);
      var before := w + Rollout(w, k - 1, predict);
      var after := w + Rollout(w, k, predict);
      assert Rollout(w, k, predict) == Rollout(w, k - 1, predict) + [predict(prev)];
      assert after == before + [predict(prev)];
      assert after[k..] == before[k - 1..][1..] + [predict(prev)];
    }
  }

  // ---- The window update: array shapes ----

  /** The shape numpy gives `np.append(a, v, axis=axis)` for arrays of shapes
      `a` and `v`: it joins them only when they have as many dimensions and
      agree on every other axis, and raises otherwise. */
  function AppendShape(a: seq<nat>, v: seq<nat>, axis: nat): Outcome<seq<nat>> {
    if |a| == |v| && axis < |a| && forall i :: 0 <= i < |a| && i != axis ==> a[i] == v[i] then
      Ok(a[axis := a[axis] + v[axis]])
    else
      Raise(Unexpected("ValueError"))
  }

  /** `test_inputs`: one batch of 60 time steps with one feature. */
  const InputShape: seq<nat> := [1, PredictionDays, 1]
  /** `current_input[:, 1:, :]`: the window without its oldest step. */
  const ShortenedShape: seq<nat> := [1, PredictionDays - 1, 1]
  /** `model.predict(current_input)`: one sample, one output unit. */
  const PredictionShape: seq<nat> := [1, 1]
  /** `[[predicted_price]]`: the (1, 1) prediction inside two more lists. */
  const AsWrittenUpdateShape: seq<nat> := [1, 1] + PredictionShape
  /** `predicted_price.reshape(1, 1, 1)`: one step of the window's shape. */
  const IntendedUpdateShape: seq<nat> := [1, 1, 1]

  /** As written, the window update joins a three-dimensional window with a
      four-dimensional value, which numpy refuses. */
  lemma AsWrittenUpdateRaises()
    ensures AppendShape(ShortenedShape, AsWrittenUpdateShape, 1) == Raise(Unexpected("ValueError"))
  {
    assert |AsWrittenUpdateShape| == 4;
  }

  /** With the prediction reshaped to one time step, the update gives back a
      window of the input's shape, so every step of the loop can run. */
  lemma IntendedUpdateKeepsShape()
    ensures AppendShape(ShortenedShape, IntendedUpdateShape, 1) == Ok(InputShape)
  {
    assert forall i :: 0 <= i < 3 && i != 1 ==> ShortenedShape[i] == IntendedUpdateShape[i];
    var joined := ShortenedShape[1 := ShortenedShape[1] + IntendedUpdateShape[1]];
    assert joined[0] == 1 && joined[1] == PredictionDays && joined[2] == 1;
    assert joined == InputShape;
  }

  // ---- The whole forecast ----

  /** `forecast_with_lstm` whose window update appends a value of shape
      `update`: no data makes the scaler raise; 60 rows or fewer leave the
      training set empty and reading its second dimension raises; zero steps
      leave the forecast empty, and the scaler's inverse refuses an array
      without rows; otherwise the first step predicts and the update joins the
      shortened window with the prediction, and raises when numpy cannot.
      The window keeps its shape from step to step, so the first update
      decides for all. */
  function ForecastWithUpdate(bars: seq<Bar>, steps: nat, train: Trainer, update: seq<nat>): Outcome<seq<real>> {
    var closes := Closes(bars);
    if closes == [] then Raise(Unexpected("ValueError"))
    else
      var scaled := MinMaxScale(closes);
      if |scaled| <= PredictionDays then Raise(Unexpected("IndexError"))
      else
        var xy := TrainingInputs(scaled);
        var predict := train(xy.0, xy.1);
        if steps == 0 then Raise(Unexpected("ValueError"))
        else
          match AppendShape(ShortenedShape, update, 1)
          case Raise(e) => Raise(e)
          case Ok(_) => Ok(MinMaxInverse(closes, Rollout(scaled[|scaled| - PredictionDays..], steps, predict)))
  }

  /** `forecast_with_lstm` as written at api/analysis/lstm_model.py:18-45 and
      api/hybrid_analysis.py:25-58. */
  function LstmForecastAsWritten(bars: seq<Bar>, steps: nat, train: Trainer): Outcome<seq<real>> {
    ForecastWithUpdate(bars, steps, train, AsWrittenUpdateShape)
  }

  /** As written, the forecast never succeeds: more than 60 rows always end
      in the ValueError of the window update or of the empty inverse. */
  lemma LstmAsWrittenNeverSucceeds(bars: seq<Bar>, steps: nat, train: Trainer)
    ensures LstmForecastAsWritten(bars, steps, train).Raise? && LstmForecastAsWritten(bars, steps, train).exc.Unexpected?
    ensures |bars| > PredictionDays ==> LstmForecastAsWritten(bars, steps, train) == Raise(Unexpected("ValueError"))
  {
    AsWrittenUpdateRaises();
  }

  /** `forecast_with_lstm` with the intended window update: it succeeds
      exactly when there are more than 60 rows and at least one step. */
  function LstmForecast(bars: seq<Bar>, steps: nat, train: Trainer): (r: Outcome<seq<real>>)
    ensures r.Ok? <==> |bars| > PredictionDays && steps > 0
    ensures bars == [] ==> r == Raise(Unexpected("ValueError"))
    ensures 0 < |bars| <= PredictionDays ==> r == Raise(Unexpected("IndexError"))
    ensures |bars| > PredictionDays && steps == 0 ==> r == Raise(Unexpected("ValueError"))
    ensures r.Ok? ==> |r.value| == steps
  {
    IntendedUpdateKeepsShape();
    ForecastWithUpdate(bars, steps, train, IntendedUpdateShape)
  }

  /** The network is trained on the windows of the whole history and starts
      from the last 60 scaled closes. */
  lemma LstmStartsFromLastWindow(bars: seq<Bar>, steps: nat, train: Trainer)
    requires |bars| > PredictionDays && steps > 0
    ensures var scaled := MinMaxScale(Closes(bars));
      var xy := TrainingInputs(scaled);
      LstmForecast(bars, steps, train) ==
        Ok(MinMaxInverse(Closes(bars), Rollout(scaled[|bars| - PredictionDays..], steps, train(xy.0, xy.1))))
  {
  }

  /** The imperative `forecast_with_lstm` with the intended window update,
      loop by loop. */
  method ForecastWithLstm(bars: seq<Bar>, steps: nat, train: Trainer) returns (r: Outcome<seq<real>>)
    ensures r == LstmForecast(bars, steps, train)
  {
    var closes := Closes(bars);
    if closes == [] {
      return Raise(Unexpected("ValueError"));
    }
    var scaled := MinMaxScale(closes);
    var xTrain, yTrain := TrainingWindows(scaled);
    if |xTrain| == 0 {
      return Raise(Unexpected("IndexError"));
    }
    var xy := TrainingInputs(scaled);
    assert xTrain == xy.0 && yTrain == xy.1;
    var predict := train(xTrain, yTrain);
    var testInputs := scaled[|scaled| - PredictionDays..];
    if steps == 0 {
      return Raise(Unexpected("ValueError"));
    }
    IntendedUpdateKeepsShape();
    var forecast := Autoregress(testInputs, steps, predict);
    r := Ok(MinMaxInverse(closes, forecast));
  }
}
