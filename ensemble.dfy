/** The hybrid pipeline's combination of two forecasts
    (`run_ensemble_prediction` in api/hybrid_analysis.py): both forecasts are
    scaled by the same sentiment factor, whatever the sentiment, and blended
    with fixed weights that sum to 0.8, not 1. */
module Ensemble {
  import Pipeline

  const ArimaWeight: real := 0.4
  const LstmWeight: real := 0.4
  const SentimentWeight: real := 0.2

  /** Element-wise `xs * k`. */
  function Scale(xs: seq<real>, k: real): (r: seq<real>)
    ensures |r| == |xs| && forall i :: 0 <= i < |xs| ==> r[i] == xs[i] * k
  {
    seq(|xs|, i requires 0 <= i < |xs| => xs[i] * k)
  }

  /** Element-wise `xs + ys` of equal-length arrays. */
  function Add(xs: seq<real>, ys: seq<real>): (r: seq<real>)
    requires |xs| == |ys|
    ensures |r| == |xs| && forall i :: 0 <= i < |xs| ==> r[i] == xs[i] + ys[i]
  {
    seq(|xs|, i requires 0 <= i < |xs| => xs[i] + ys[i])
  }

  function SentimentFactor(sentiment: real): real {
    1.0 + sentiment * SentimentWeight
  }

  /** `run_ensemble_prediction`: element i of the result is
      0.4 (1 + 0.2 s) a[i] + 0.4 (1 + 0.2 s) b[i]. */
  function EnsemblePrediction(arima: seq<real>, lstm: seq<real>, sentiment: real): (r: seq<real>)
    requires |arima| == |lstm|
    ensures |r| == |arima|
    ensures forall i :: 0 <= i < |r| ==>
      r[i] == ArimaWeight * (1.0 + 0.2 * sentiment) * arima[i] + LstmWeight * (1.0 + 0.2 * sentiment) * lstm[i]
  {
    var adjustment := SentimentFactor(sentiment);
    var adjustedArima := Scale(arima, adjustment);
    var adjustedLstm := Scale(lstm, adjustment);
    Add(Scale(adjustedArima, ArimaWeight), Scale(adjustedLstm, LstmWeight))
  }

  /** With neutral sentiment, [10] and [20] combine to [12]. */
  lemma NeutralEnsembleExample()
    ensures EnsemblePrediction([10.0], [20.0], 0.0) == [12.0]
  {
    var r := EnsemblePrediction([10.0], [20.0], 0.0);
    assert r[0] == 0.4 * 10.0 + 0.4 * 20.0;
  }

  /** When both models agree on a series, the ensemble is that series scaled
      by 0.8 (1 + 0.2 s): the blend weights do not sum to one. */
  lemma AgreeingModelsAreScaled(f: seq<real>, sentiment: real, i: nat)
    requires i < |f|
    ensures EnsemblePrediction(f, f, sentiment)[i] == 0.8 * (1.0 + 0.2 * sentiment) * f[i]
  {
  }

  /** The two sentiment policies stay apart: a weak sentiment of 0.05 leaves
      the simple job's forecast as it is (below its 0.1 threshold), while the
      ensemble still scales by 1 + 0.2 * 0.05 on top of its 0.8 blend. */
  lemma PoliciesDiffer(f: real)
    requires f != 0.0
    ensures Pipeline.SentimentAdjusted([f], 0.05) == [f]
    ensures EnsemblePrediction([f], [f], 0.05) == [0.808 * f]
    ensures EnsemblePrediction([f], [f], 0.05) != Pipeline.SentimentAdjusted([f], 0.05)
  {
    var r := EnsemblePrediction([f], [f], 0.05);
    assert r[0] == 0.808 * f;
    assert r != [f] by {
      assert r[0] != f;
    }
  }
}
