/**
 * The list-based indicators of EURUSDBot2.py: `calculate_sma`,
 * `calculate_atr` and the bullish-engulfing test, over candles as
 * `get_historical_prices` returns them.
 */
module ListIndicators {
  import opened Wrappers

  /** One candle dictionary: close, open, high, low. */
  datatype Candle = Candle(close: real, open: real, high: real, low: real)

  function ClosesOf(prices: seq<Candle>): (r: seq<real>)
    ensures |r| == |prices|
  {
    seq(|prices|, i requires 0 <= i < |prices| => prices[i].close)
  }

  /** `calculate_sma`: None for fewer than `period` candles, else the mean close of the last `period`. */
  function CalculateSma(prices: seq<Candle>, period: nat): (r: Option<real>)
    requires period >= 1
    ensures r.None? <==> |prices| < period
  {
    if |prices| < period then None
    else Some(Sum(ClosesOf(prices[|prices| - period..])) / period as real)
  }

  /** The SMA lies between the lowest and the highest of the closes it averages. */
  lemma SmaWithinWindow(prices: seq<Candle>, period: nat, lo: real, hi: real)
    requires period >= 1 && |prices| >= period
    requires forall j :: |prices| - period <= j < |prices| ==> lo <= prices[j].close <= hi
    ensures lo <= CalculateSma(prices, period).value <= hi
  {
    var closes := ClosesOf(prices[|prices| - period..]);
    assert forall j :: 0 <= j < |closes| ==> closes[j] == prices[|prices| - period + j].close;
    SumAtLeast(closes, lo);
    SumAtMost(closes, hi);
    MeanBetween(Sum(closes), period as real, lo, hi);
  }

  /** The true range of a candle against the previous close, as the loop computes it. */
  function CandleRange(prev: Candle, cur: Candle): (tr: real)
    ensures tr >= cur.high - cur.low && tr >= Abs(cur.high - prev.close) && tr >= Abs(cur.low - prev.close)
    ensures tr == cur.high - cur.low || tr == Abs(cur.high - prev.close) || tr == Abs(cur.low - prev.close)
    ensures tr >= 0.0
  {
    Max3(cur.high - cur.low, Abs(cur.high - prev.close), Abs(cur.low - prev.close))
  }

  /** The `tr_values` list: one range for each candle after the first, in order. */
  function TrueRanges(prices: seq<Candle>): (trs: seq<real>)
    ensures |trs| == if |prices| == 0 then 0 else |prices| - 1
    decreases |prices|
  {
    if |prices| <= 1 then []
    else TrueRanges(prices[..|prices| - 1]) + [CandleRange(prices[|prices| - 2], prices[|prices| - 1])]
  }

  /** Entry j of `tr_values` is the range of candle j + 1 against the close of candle j. */
  lemma {:induction false} TrueRangeAt(prices: seq<Candle>, j: nat)
    requires j + 1 < |prices|
    ensures TrueRanges(prices)[j] == CandleRange(prices[j], prices[j + 1])
    decreases |prices|
  {
    var front := prices[..|prices| - 1];
    if j + 2 < |prices| {
      TrueRangeAt(front, j);
      assert front[j] == prices[j] && front[j + 1] == prices[j + 1];
    }
  }

  /** Every true range is >= 0. */
  lemma {:induction false} TrueRangesNonNegative(prices: seq<Candle>)
    ensures forall j :: 0 <= j < |TrueRanges(prices)| ==> TrueRanges(prices)[j] >= 0.0
  {
    forall j | 0 <= j < |TrueRanges(prices)|
      ensures TrueRanges(prices)[j] >= 0.0
    {
      TrueRangeAt(prices, j);
    }
  }

  /** Python's `xs[-n:]` for n >= 1: the last n items, or all of them when there are fewer. */
  function LastN(xs: seq<real>, n: nat): (r: seq<real>)
    requires n >= 1
    ensures |r| == if |xs| <= n then |xs| else n
  {
    if |xs| <= n then xs else xs[|xs| - n..]
  }

  /** Item j of `xs[-n:]` is item |xs| - |xs[-n:]| + j of xs. */
  lemma LastNAt(xs: seq<real>, n: nat, j: nat)
    requires n >= 1 && j < |LastN(xs, n)|
    ensures LastN(xs, n)[j] == xs[|xs| - |LastN(xs, n)| + j]
  {
  }

  /**
   * The value `calculate_atr` returns: None for fewer than `period` candles,
   * else the sum of the last `period` ranges divided by `period`.
   */
  function AtrOf(prices: seq<Candle>, period: nat): (r: Option<real>)
    requires period >= 1
    ensures r.None? <==> |prices| < period
    ensures r.Some? ==> r.value >= 0.0
  {
    if |prices| < period then None
    else
      var window := LastN(TrueRanges(prices), period);
      AtrWindowNonNegative(prices, period);
      Some(Sum(window) / period as real)
  }

  lemma AtrWindowNonNegative(prices: seq<Candle>, period: nat)
    requires period >= 1
    ensures Sum(LastN(TrueRanges(prices), period)) / period as real >= 0.0
  {
    var trs := TrueRanges(prices);
    var window := LastN(trs, period);
    TrueRangesNonNegative(prices);
    forall j | 0 <= j < |window| ensures window[j] >= 0.0 {
      LastNAt(trs, period, j);
    }
    SumAtLeast(window, 0.0);
    QuotientNonNegative(Sum(window), period as real);
  }

  /** `calculate_atr`: builds `tr_values` by appending in a loop, then averages the tail. */
  method CalculateAtr(prices: seq<Candle>, period: nat) returns (r: Option<real>)
    requires period >= 1
    ensures r == AtrOf(prices, period)
  {
    if |prices| < period {
      return None;
    }
    var trValues: seq<real> := [];
    var i := 1;
    while i < |prices|
      invariant 1 <= i <= |prices|
      invariant trValues == TrueRanges(prices[..i])
    {
      var tr := Max3(
        prices[i].high - prices[i].low,
        Abs(prices[i].high - prices[i - 1].close),
        Abs(prices[i].low - prices[i - 1].close));
      assert prices[..i + 1][..i] == prices[..i];
      trValues := trValues + [tr];
      i := i + 1;
    }
    assert prices[..i] == prices;
    r := Some(Sum(LastN(trValues, period)) / period as real);
  }

  /**
   * With exactly `period` candles only period - 1 ranges exist, yet their sum
   * is still divided by `period`.
   */
  lemma AtrWithExactlyPeriodCandles(prices: seq<Candle>, period: nat)
    requires period >= 1 && |prices| == period
    ensures |TrueRanges(prices)| == period - 1
    ensures AtrOf(prices, period) == Some(Sum(TrueRanges(prices)) / period as real)
  {
  }

  /** With more than `period` candles the ATR is the plain mean of the last `period` ranges. */
  lemma AtrIsMeanOfLastRanges(prices: seq<Candle>, period: nat)
    requires period >= 1 && |prices| > period
    ensures AtrOf(prices, period) == Some(Sum(TrueRanges(prices)[|prices| - 1 - period..]) / period as real)
  {
    AtrOfLongInput(prices, period);
    LastRangesWindow(prices, period);
  }

  lemma AtrOfLongInput(prices: seq<Candle>, period: nat)
    requires period >= 1 && |prices| > period
    ensures AtrOf(prices, period) == Some(Sum(LastN(TrueRanges(prices), period)) / period as real)
  {
  }

  /** With more than `period` candles, `tr_values[-period:]` starts at range |prices| - 1 - period. */
  lemma LastRangesWindow(prices: seq<Candle>, period: nat)
    requires period >= 1 && |prices| > period
    ensures LastN(TrueRanges(prices), period) == TrueRanges(prices)[|prices| - 1 - period..]
  {
  }

  /** The bullish-engulfing test on the previous candle and the current close. */
  predicate BullishEngulfing(prev: Candle, price: real)
  {
    prev.close < prev.open && price > prev.open && price > prev.close
  }

  /**
   * The test holds exactly when the previous candle is bearish and the price
   * closes above both its open and its close; the last comparison is implied
   * by the other two.
   */
  lemma BullishEngulfingCharacterized(prev: Candle, price: real)
    ensures BullishEngulfing(prev, price) <==> prev.close < prev.open && price > prev.open
    ensures BullishEngulfing(prev, price) ==> price > prev.open && price > prev.close
  {
  }
}
