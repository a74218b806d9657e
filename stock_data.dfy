/** Quote history and its technical indicators (api/data/stock_data.py).
    A history is a sequence of daily bars; the columns the application adds to
    the frame (the moving averages) are kept by name beside it, a missing
    value (NaN) being None. */
module StockData {
  import opened Outcomes

  /** A calendar day, counted in days. */
  type Date = int

  datatype Bar = Bar(date: Date, close: real)

  type Column = seq<Option<real>>

  datatype Frame = Frame(bars: seq<Bar>, columns: map<string, Column>)

  function Closes(bars: seq<Bar>): (xs: seq<real>)
    ensures |xs| == |bars| && forall i :: 0 <= i < |bars| ==> xs[i] == bars[i].close
  {
    seq(|bars|, i requires 0 <= i < |bars| => bars[i].close)
  }

  /** The company descriptor `ticker.info`; only its keys are inspected. */
  type Info = map<string, string>

  /** What Yahoo Finance answers: the descriptor and the five-year history, or
      an exception of the named class. */
  datatype YahooAnswer = YahooAnswer(info: Info, history: seq<Bar>) | YahooFailed(className: string)

  datatype StockPair = StockPair(info: Info, hist: Frame)

  function FetchErrorMessage(ticker: string): string {
    "An error occurred while fetching data for " + ticker + " from Yahoo Finance."
  }

  function NoHistoryMessage(ticker: string): string {
    "No historical data found for " + ticker
  }

  function IncompleteInfoMessage(ticker: string): string {
    "Incomplete company information for " + ticker
  }

  predicate CompleteInfo(info: Info) {
    "longName" in info && "symbol" in info
  }

  /** The body of the `try`: the specific checks and their own errors. */
  function CheckStockData(ticker: string, y: YahooAnswer): Outcome<StockPair> {
    if y.YahooFailed? then Raise(Unexpected(y.className))
    else if y.history == [] then Raise(StockDataError(NoHistoryMessage(ticker)))
    else if !CompleteInfo(y.info) then Raise(StockDataError(IncompleteInfoMessage(ticker)))
    else Ok(StockPair(y.info, Frame(y.history, map[])))
  }

  /** `get_stock_data`: every exception, including the two raised by the
      checks themselves, is replaced by one generic `StockDataError`. */
  function GetStockData(ticker: string, y: YahooAnswer): (r: Outcome<StockPair>)
    ensures r.Ok? <==> y.YahooAnswer? && y.history != [] && CompleteInfo(y.info)
    ensures r.Ok? ==> r.value.info == y.info && r.value.hist.bars == y.history
    ensures r.Raise? ==> r.exc == StockDataError(FetchErrorMessage(ticker))
  {
    match CheckStockData(ticker, y)
    case Ok(pair) => Ok(pair)
    case Raise(_) => Raise(StockDataError(FetchErrorMessage(ticker)))
  }

  /** The specific messages are raised inside the `try` but never reach the
      caller: whatever went wrong, the caller sees the generic one. */
  lemma SpecificErrorsAreHidden(ticker: string, y: YahooAnswer)
    requires CheckStockData(ticker, y).Raise?
    ensures GetStockData(ticker, y) == Raise(StockDataError(FetchErrorMessage(ticker)))
    ensures GetStockData(ticker, y).exc.message != NoHistoryMessage(ticker)
    ensures GetStockData(ticker, y).exc.message != IncompleteInfoMessage(ticker)
  {
    var prefix := "An error occurred while fetching data for ";
    assert FetchErrorMessage(ticker) == prefix + (ticker + " from Yahoo Finance.");
    assert FetchErrorMessage(ticker)[0] == prefix[0] == 'A';
    assert NoHistoryMessage(ticker)[0] == 'N';
    assert IncompleteInfoMessage(ticker)[0] == 'I';
  }

  // ---- Simple moving averages ----

  function Sum(xs: seq<real>): real {
    if xs == [] then 0.0 else Sum(xs[..|xs| - 1]) + xs[|xs| - 1]
  }

  function Mean(xs: seq<real>): real
    requires xs != []
  {
    Sum(xs) / |xs| as real
  }

  /** `series.rolling(window=w).mean()`: defined from index w-1 on, as the
      mean of the w values ending there. */
  function RollingMean(xs: seq<real>, w: nat): (col: Column)
    requires w >= 1
    ensures |col| == |xs|
    ensures forall i :: 0 <= i < |xs| ==> (col[i].Some? <==> i >= w - 1)
  {
    seq(|xs|, i requires 0 <= i < |xs| => if i >= w - 1 then Some(Mean(xs[i - w + 1..i + 1])) else None)
  }

  lemma {:induction false} SumBounds(xs: seq<real>, lo: real, hi: real)
    requires forall i :: 0 <= i < |xs| ==> lo <= xs[i] <= hi
    ensures |xs| as real * lo <= Sum(xs) <= |xs| as real * hi
  {
    if xs != [] {
      var init := xs[..|xs| - 1];
      SumBounds(init, lo, hi);
      var m := |init| as real;
      assert Sum(xs) == Sum(init) + xs[|xs| - 1];
      assert |xs| as real * lo == m * lo + lo;
      assert |xs| as real * hi == m * hi + hi;
    }
  }

  /** Every moving average lies between the lowest and highest close. */
  lemma RollingMeanWithinRange(xs: seq<real>, w: nat, lo: real, hi: real, i: nat)
    requires w >= 1 && i < |xs|
    requires forall k :: 0 <= k < |xs| ==> lo <= xs[k] <= hi
    ensures RollingMean(xs, w)[i].Some? ==> lo <= RollingMean(xs, w)[i].value <= hi
  {
    if i >= w - 1 {
      var win := xs[i - w + 1..i + 1];
      SumBounds(win, lo, hi);
      var n := |win| as real;
      assert n * lo <= Sum(win) <= n * hi;
      assert Sum(win) / n >= lo by {
        assert Sum(win) >= lo * n;
      }
      assert Sum(win) / n <= hi by {
        assert Sum(win) <= hi * n;
      }
    }
  }

  const Sma50Column := "SMA50"
  const Sma200Column := "SMA200"

  /** `calculate_technical_indicators` as a value: the frame with SMA50 and
      SMA200 columns over the closes, every other column as it was. */
  function WithIndicators(f: Frame): (g: Frame)
    ensures g.bars == f.bars
    ensures g.columns.Keys == f.columns.Keys + {Sma50Column, Sma200Column}
    ensures forall k :: k in f.columns && k != Sma50Column && k != Sma200Column ==> g.columns[k] == f.columns[k]
  {
    var closes := Closes(f.bars);
    f.(columns := f.columns[Sma50Column := RollingMean(closes, 50)][Sma200Column := RollingMean(closes, 200)])
  }

  /** A history shorter than a window has no value at all in that column. */
  lemma ShortHistoryHasNoAverage(f: Frame, i: nat)
    requires i < |f.bars| < 50
    ensures WithIndicators(f).columns[Sma50Column][i].None?
    ensures WithIndicators(f).columns[Sma200Column][i].None?
  {
  }

  /** The pandas frame, which `calculate_technical_indicators` changes in place. */
  class DataFrame {
    var bars: seq<Bar>
    var columns: map<string, Column>

    function Value(): Frame
      reads this
    {
      Frame(bars, columns)
    }

    constructor (f: Frame)
      ensures Value() == f
    {
      bars := f.bars;
      columns := f.columns;
    }

    /** Adds the two columns to this frame and returns the same frame. */
    method CalculateTechnicalIndicators() returns (df: DataFrame)
      modifies this
      ensures df == this
      ensures Value() == WithIndicators(old(Value()))
    {
      columns := columns[Sma50Column := RollingMean(Closes(bars), 50)];
      columns := columns[Sma200Column := RollingMean(Closes(bars), 200)];
      df := this;
    }
  }
}
