/** ARIMA order selection and forecasting (api/analysis/arima_model.py).
    statsmodels is a parameter: `aic(data, order)` is the AIC of the fitted
    model, or None when building or fitting it raises; `forecast(data, order,
    steps)` is the forecast of a model of that order, or None when it raises. */
module Arima {
  import opened Outcomes
  import opened StockData

  datatype Order = Order(p: nat, d: nat, q: nat)

  datatype ArimaFitter = ArimaFitter(
    aic: (seq<real>, Order) -> Option<real>,
    forecast: (seq<real>, Order, nat) -> Option<seq<real>>)

  const GridSize: nat := 27

  /** `itertools.product(range(3), range(3), range(3))`. */
  function Candidates(): (cs: seq<Order>)
    ensures |cs| == GridSize
  {
    seq(27, k requires 0 <= k < 27 => Order(k / 9, (k / 3) % 3, k % 3))
  }

  predicate LexLess(a: Order, b: Order) {
    a.p < b.p || (a.p == b.p && (a.d < b.d || (a.d == b.d && a.q < b.q)))
  }

  predicate InGrid(o: Order) {
    o.p < 3 && o.d < 3 && o.q < 3
  }

  /** The candidates are the 27 triples over {0, 1, 2}, each once, in
      lexicographic order. */
  lemma CandidatesAreTheGrid()
    ensures forall k :: 0 <= k < GridSize ==> InGrid(Candidates()[k])
    ensures forall i, j :: 0 <= i < j < GridSize ==> LexLess(Candidates()[i], Candidates()[j])
    ensures forall o :: InGrid(o) ==> Candidates()[9 * o.p + 3 * o.d + o.q] == o
  {
    forall i, j | 0 <= i < j < GridSize
      ensures LexLess(Candidates()[i], Candidates()[j])
    {
      CandidateAt(i);
      CandidateAt(j);
    }
    forall o | InGrid(o)
      ensures Candidates()[9 * o.p + 3 * o.d + o.q] == o
    {
      var k := 9 * o.p + 3 * o.d + o.q;
      CandidateAt(k);
      assert k == 9 * o.p + (3 * o.d + o.q) && 3 * o.d + o.q < 9;
    }
  }

  lemma CandidateAt(k: nat)
    requires k < GridSize
    ensures var o := Candidates()[k];
      InGrid(o) && k == 9 * o.p + 3 * o.d + o.q
  {
  }

  /** Among the first n candidates, the k-th fitted, and no fitted candidate
      has a lower AIC, nor an equal one earlier in the order. */
  predicate IsBestAt(data: seq<real>, aic: (seq<real>, Order) -> Option<real>, k: nat, n: nat)
    requires n <= GridSize
  {
    k < n && aic(data, Candidates()[k]).Some? &&
    forall j :: 0 <= j < n && aic(data, Candidates()[j]).Some? ==>
      aic(data, Candidates()[k]).value <= aic(data, Candidates()[j]).value &&
      (j < k ==> aic(data, Candidates()[k]).value < aic(data, Candidates()[j]).value)
  }

  /** The index the search holds after n candidates: a candidate replaces the
      current best only with a strictly lower AIC, and one that raises is skipped. */
  function Scan(data: seq<real>, aic: (seq<real>, Order) -> Option<real>, n: nat): (r: Option<nat>)
    requires n <= GridSize
    ensures r.Some? ==> r.value < n && aic(data, Candidates()[r.value]).Some?
  {
    if n == 0 then None
    else
      var prev := Scan(data, aic, n - 1);
      match aic(data, Candidates()[n - 1])
      case None => prev
      case Some(a) =>
        if prev.None? || a < aic(data, Candidates()[prev.value]).value then Some(n - 1) else prev
  }

  function BestOrder(data: seq<real>, aic: (seq<real>, Order) -> Option<real>): Option<Order> {
    match Scan(data, aic, GridSize)
    case None => None
    case Some(k) => Some(Candidates()[k])
  }

  lemma {:induction false} ScanFindsBest(data: seq<real>, aic: (seq<real>, Order) -> Option<real>, n: nat)
    requires n <= GridSize
    ensures Scan(data, aic, n).None? <==> forall j :: 0 <= j < n ==> aic(data, Candidates()[j]).None?
    ensures Scan(data, aic, n).Some? ==> IsBestAt(data, aic, Scan(data, aic, n).value, n)
  {
    if n > 0 {
      ScanFindsBest(data, aic, n - 1);
    }
  }

  /** The search yields None exactly when every candidate raises; otherwise
      it yields the fitted candidate of least AIC, the earliest among equals. */
  lemma BestOrderIsArgmin(data: seq<real>, aic: (seq<real>, Order) -> Option<real>)
    ensures BestOrder(data, aic).None? <==> forall j :: 0 <= j < GridSize ==> aic(data, Candidates()[j]).None?
    ensures BestOrder(data, aic).Some? ==>
      exists k: nat :: IsBestAt(data, aic, k, GridSize) && BestOrder(data, aic).value == Candidates()[k]
  {
    ScanFindsBest(data, aic, GridSize);
  }

  /** `find_best_arima_order`: the loop over the grid, keeping the best AIC
      seen so far (None standing for the initial infinity). */
  method FindBestArimaOrder(data: seq<real>, aic: (seq<real>, Order) -> Option<real>) returns (best: Option<Order>)
    ensures best == BestOrder(data, aic)
  {
    var pdq := Candidates();
    var bestAic: Option<real> := None;
    best := None;
    ghost var bestIndex: Option<nat> := None;
    for i := 0 to |pdq|
      invariant bestIndex == Scan(data, aic, i)
      invariant bestIndex.None? ==> best.None? && bestAic.None?
      invariant bestIndex.Some? ==> best == Some(pdq[bestIndex.value]) && bestAic == aic(data, pdq[bestIndex.value])
    {
      var fitted := aic(data, pdq[i]);
      if fitted.Some? && (bestAic.None? || fitted.value < bestAic.value) {
        bestAic := fitted;
        best := Some(pdq[i]);
        bestIndex := Some(i);
      }
    }
  }

  const FallbackOrder := Order(5, 1, 0)

  const ForecastFailedMessage := "Failed to generate stock price forecast."

  /** `pd.to_datetime(last) + pd.to_timedelta(range(1, days + 1), unit='D')`. */
  function ForecastDates(last: Date, days: nat): (dates: seq<Date>)
    ensures |dates| == days
    ensures forall k :: 0 <= k < days ==> dates[k] == last + k + 1
  {
    seq(days, k requires 0 <= k < days => last + k + 1)
  }

  /** Consecutive forecast dates are one day apart, starting the day after
      the history ends. */
  lemma ForecastDatesAreConsecutive(last: Date, days: nat, k: nat)
    requires 0 < k < days
    ensures ForecastDates(last, days)[0] == last + 1
    ensures ForecastDates(last, days)[k] == ForecastDates(last, days)[k - 1] + 1
  {
  }

  datatype Forecast = Forecast(values: seq<real>, dates: seq<Date>)

  /** The order the forecast uses: the best one found, else (5, 1, 0). */
  function ChosenOrder(closes: seq<real>, m: ArimaFitter): Order {
    BestOrder(closes, m.aic).GetOr(FallbackOrder)
  }

  /** `forecast_stock_price`: every failure, including an empty history whose
      last date does not exist, becomes one `AnalysisError`. */
  function ForecastStockPrice(bars: seq<Bar>, days: nat, m: ArimaFitter): (r: Outcome<Forecast>)
    ensures r.Ok? <==> bars != [] && m.forecast(Closes(bars), ChosenOrder(Closes(bars), m), days).Some?
    ensures r.Raise? ==> r.exc == AnalysisError(ForecastFailedMessage)
    ensures r.Ok? ==> r.value.values == m.forecast(Closes(bars), ChosenOrder(Closes(bars), m), days).value
    ensures r.Ok? ==> (|r.value.dates| == days &&
      forall k :: 0 <= k < days ==> r.value.dates[k] == bars[|bars| - 1].date + k + 1)
  {
    var closes := Closes(bars);
    var order := ChosenOrder(closes, m);
    match m.forecast(closes, order, days)
    case None => Raise(AnalysisError(ForecastFailedMessage))
    case Some(values) =>
      if bars == [] then Raise(AnalysisError(ForecastFailedMessage))
      else Ok(Forecast(values, ForecastDates(bars[|bars| - 1].date, days)))
  }

  /** When no candidate fits, the forecast is made with order (5, 1, 0). */
  lemma FallbackWhenNothingFits(closes: seq<real>, m: ArimaFitter)
    requires forall j :: 0 <= j < GridSize ==> m.aic(closes, Candidates()[j]).None?
    ensures ChosenOrder(closes, m) == FallbackOrder
  {
    ScanFindsBest(closes, m.aic, GridSize);
  }

  /** When some candidate fits, the forecast uses a grid order, never the
      fallback. */
  lemma GridOrderWhenSomethingFits(closes: seq<real>, m: ArimaFitter, j: nat)
    requires j < GridSize && m.aic(closes, Candidates()[j]).Some?
    ensures InGrid(ChosenOrder(closes, m)) && ChosenOrder(closes, m) != FallbackOrder
  {
    ScanFindsBest(closes, m.aic, GridSize);
    CandidateAt(Scan(closes, m.aic, GridSize).value);
  }
}
