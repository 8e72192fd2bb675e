/**
 * `backtest` of EURUSDBot2.py: a walk over the dollar-index candles from bar
 * 20 on that holds a EUR_USD position of -1000, 0 or +1000 units, with an
 * ATR stop check and an SMA / engulfing / ATR entry gate, followed by the
 * expectancy of the closed trades. The broker orders the loop sends are not
 * part of this model; only the bookkeeping they accompany is.
 */
module DollarBacktest {
  import opened Wrappers
  import opened ListIndicators
  import opened Expectancy

  /** The loop starts at bar 20: `range(20, len(dxy_prices))`. */
  const WarmUp: nat := 20
  /** `calculate_sma`'s default period. */
  const SmaPeriod: nat := 20
  /** `calculate_atr`'s default period. */
  const AtrPeriod: nat := 14
  /** Units of every backtest order. */
  const OrderUnits: int := 1000
  /** The ATR must exceed this for an entry. */
  const AtrFloor: real := 0.1
  /** The stop lies this many ATRs from the price. */
  const StopAtrMultiple: real := 2.0

  /** `current_position`, `eurus_entry_price` and `trades`. */
  datatype BacktestState = BacktestState(position: int, entryPrice: real, trades: seq<Trade>)

  const Initial: BacktestState := BacktestState(0, 0.0, [])

  predicate IsPosition(p: int)
  {
    p == -OrderUnits || p == 0 || p == OrderUnits
  }

  /**
   * The ATR stop check, as written: the stop is placed 2 ATRs on the far side
   * of the current price and compared with that same price.
   */
  function StopLossCheck(s: BacktestState, eurusPrice: real, atr: real): BacktestState
  {
    if s.position > 0 then
      var stopLoss := eurusPrice - StopAtrMultiple * atr;
      if eurusPrice < stopLoss then
        BacktestState(0, s.entryPrice, s.trades + [Trade(s.entryPrice, stopLoss, stopLoss - s.entryPrice)])
      else s
    else if s.position < 0 then
      var stopLoss := eurusPrice + StopAtrMultiple * atr;
      if eurusPrice > stopLoss then
        BacktestState(0, s.entryPrice, s.trades + [Trade(s.entryPrice, stopLoss, s.entryPrice - stopLoss)])
      else s
    else s
  }

  /** Sell EUR_USD: the dollar index above its SMA, engulfing up, ATR above the floor. */
  predicate ShortSignal(dxyPrice: real, sma: real, trendUp: bool, atr: real)
  {
    dxyPrice > sma && trendUp && atr > AtrFloor
  }

  /** Buy EUR_USD: the dollar index below its SMA, no engulfing, ATR above the floor. */
  predicate LongSignal(dxyPrice: real, sma: real, trendUp: bool, atr: real)
  {
    dxyPrice < sma && !trendUp && atr > AtrFloor
  }

  /**
   * The entry rule. A short signal opens -1000 unless already short (a long is
   * closed and reversed in the same bar); a long signal mirrors it.
   */
  function SignalEntry(s: BacktestState, dxyPrice: real, eurusPrice: real, sma: real, trendUp: bool, atr: real): BacktestState
  {
    if ShortSignal(dxyPrice, sma, trendUp, atr) then
      if s.position >= 0 then s.(position := -OrderUnits, entryPrice := eurusPrice) else s
    else if LongSignal(dxyPrice, sma, trendUp, atr) then
      if s.position <= 0 then s.(position := OrderUnits, entryPrice := eurusPrice) else s
    else s
  }

  /** What one bar of the loop reads: both closes, the dollar-index SMA, the engulfing flag and the ATR. */
  datatype BarInput = BarInput(dxyPrice: real, eurusPrice: real, sma: real, trendUp: bool, atr: real)

  /** The stop check, then the entry rule, on one bar's prices and indicators. */
  function Advance(s: BacktestState, b: BarInput): BacktestState
  {
    SignalEntry(StopLossCheck(s, b.eurusPrice, b.atr), b.dxyPrice, b.eurusPrice, b.sma, b.trendUp, b.atr)
  }

  /** `calculate_sma(dxy_prices[:i+1])` at a bar of the loop, where it is always defined. */
  function SmaAt(dxy: seq<Candle>, i: nat): real
    requires WarmUp <= i < |dxy|
  {
    CalculateSma(dxy[..i + 1], SmaPeriod).value
  }

  /** `calculate_atr(dxy_prices[:i+1])` at a bar of the loop, where it is always defined. */
  function AtrAt(dxy: seq<Candle>, i: nat): (atr: real)
    requires WarmUp <= i < |dxy|
    ensures atr >= 0.0
  {
    AtrOf(dxy[..i + 1], AtrPeriod).value
  }

  /** The values the loop computes at bar i. */
  function InputAt(dxy: seq<Candle>, eur: seq<Candle>, i: nat): (b: BarInput)
    requires WarmUp <= i < |dxy| && i < |eur|
    ensures b.atr >= 0.0 && b.eurusPrice == eur[i].close
  {
    BarInput(dxy[i].close, eur[i].close, SmaAt(dxy, i), BullishEngulfing(dxy[i - 1], dxy[i].close), AtrAt(dxy, i))
  }

  /** min(a, b). */
  function Min(a: nat, b: nat): nat
  {
    if a <= b then a else b
  }

  /** The inputs of bars WarmUp .. k - 1, in order: entry j belongs to bar WarmUp + j. */
  function InputsUpTo(dxy: seq<Candle>, eur: seq<Candle>, k: nat): (bs: seq<BarInput>)
    requires k <= WarmUp || (k <= |dxy| && k <= |eur|)
    ensures |bs| == if k > WarmUp then k - WarmUp else 0
  {
    if k <= WarmUp then [] else InputsUpTo(dxy, eur, k - 1) + [InputAt(dxy, eur, k - 1)]
  }

  /** The inputs of every bar the loop reaches while both lists still have a candle. */
  function Inputs(dxy: seq<Candle>, eur: seq<Candle>): seq<BarInput>
  {
    InputsUpTo(dxy, eur, Min(|dxy|, |eur|))
  }

  /** Entry j of the inputs up to bar k is the input of bar WarmUp + j. */
  lemma {:induction false} InputsUpToAt(dxy: seq<Candle>, eur: seq<Candle>, k: nat, j: nat)
    requires k <= WarmUp || (k <= |dxy| && k <= |eur|)
    requires WarmUp + j < k
    ensures InputsUpTo(dxy, eur, k)[j] == InputAt(dxy, eur, WarmUp + j)
  {
    if WarmUp + j < k - 1 {
      InputsUpToAt(dxy, eur, k - 1, j);
    }
  }

  /** The state after the loop has consumed the inputs bs, first to last. */
  function Run(bs: seq<BarInput>): BacktestState
  {
    if |bs| == 0 then Initial else Advance(Run(bs[..|bs| - 1]), bs[|bs| - 1])
  }

  /**
   * What `backtest` returns: IndexError when the EUR_USD list is shorter than
   * a dollar-index list the loop walks, else the expectancy of the trades or
   * the error its computation raises.
   */
  function BacktestResult(dxy: seq<Candle>, eur: seq<Candle>): Result<real>
  {
    if |dxy| > WarmUp && |eur| < |dxy| then Err(IndexError)
    else
      match ComputeExpectancy(Run(Inputs(dxy, eur)).trades)
      case Err(e) => Err(e)
      case Ok(stats) => Ok(stats.expectancy)
  }

  /** `backtest`: the loop over the bars, then the expectancy of the trades. */
  method Backtest(dxyPrices: seq<Candle>, eurusPrices: seq<Candle>) returns (expectancy: Result<real>)
    ensures expectancy == BacktestResult(dxyPrices, eurusPrices)
    ensures expectancy == if |dxyPrices| > WarmUp && |eurusPrices| < |dxyPrices| then Err(IndexError) else Err(KeyError)
  {
    var trades: seq<Trade> := [];
    var currentPosition := 0;
    var eurusEntryPrice := 0.0;
    var i := WarmUp;
    while i < |dxyPrices|
      invariant WarmUp <= i && (i == WarmUp || (i <= |dxyPrices| && i <= |eurusPrices|))
      invariant BacktestState(currentPosition, eurusEntryPrice, trades) == Run(InputsUpTo(dxyPrices, eurusPrices, i))
      invariant trades == [] && IsPosition(currentPosition)
    {
      if i >= |eurusPrices| {
        BacktestAlwaysRaises(dxyPrices, eurusPrices);
        return Err(IndexError);
      }
      var dxyPrice := dxyPrices[i].close;
      var eurusPrice := eurusPrices[i].close;
      var dxySma := CalculateSma(dxyPrices[..i + 1], SmaPeriod);
      var dxyAtr := CalculateAtr(dxyPrices[..i + 1], AtrPeriod);
      var dxyTrendUp := BullishEngulfing(dxyPrices[i - 1], dxyPrice);
      ghost var before := BacktestState(currentPosition, eurusEntryPrice, trades);
      ghost var b := BarInput(dxyPrice, eurusPrice, dxySma.value, dxyTrendUp, dxyAtr.value);
      currentPosition, eurusEntryPrice, trades :=
        ApplyBar(currentPosition, eurusEntryPrice, trades, dxyPrice, eurusPrice, dxySma.value, dxyTrendUp, dxyAtr.value);
      StepFacts(before, b);
      FoldStep(dxyPrices, eurusPrices, i, dxySma, dxyAtr);
      i := i + 1;
    }
    assert Inputs(dxyPrices, eurusPrices) == InputsUpTo(dxyPrices, eurusPrices, i);
    BacktestAlwaysRaises(dxyPrices, eurusPrices);
    expectancy := match ComputeExpectancy(trades)
      case Err(e) => Err(e)
      case Ok(stats) => Ok(stats.expectancy);
  }

  /**
   * The body of the loop once the bar's indicators are known: the ATR stop
   * check, then the entry rule, updating the position, entry price and trades.
   */
  method ApplyBar(currentPosition: int, eurusEntryPrice: real, trades: seq<Trade>,
                  dxyPrice: real, eurusPrice: real, dxySma: real, dxyTrendUp: bool, dxyAtr: real)
    returns (position': int, entryPrice': real, trades': seq<Trade>)
    ensures BacktestState(position', entryPrice', trades')
         == Advance(BacktestState(currentPosition, eurusEntryPrice, trades), BarInput(dxyPrice, eurusPrice, dxySma, dxyTrendUp, dxyAtr))
  {
    position', entryPrice', trades' := currentPosition, eurusEntryPrice, trades;
    if position' > 0 {
      var stopLoss := eurusPrice - StopAtrMultiple * dxyAtr;
      if eurusPrice < stopLoss {
        trades' := trades' + [Trade(entryPrice', stopLoss, stopLoss - entryPrice')];
        position' := 0;
      }
    } else if position' < 0 {
      var stopLoss := eurusPrice + StopAtrMultiple * dxyAtr;
      if eurusPrice > stopLoss {
        trades' := trades' + [Trade(entryPrice', stopLoss, entryPrice' - stopLoss)];
        position' := 0;
      }
    }

    if dxyPrice > dxySma && dxyTrendUp && dxyAtr > AtrFloor {
      if position' >= 0 {
        entryPrice' := eurusPrice;
        position' := -OrderUnits;
      }
    } else if dxyPrice < dxySma && !dxyTrendUp && dxyAtr > AtrFloor {
      if position' <= 0 {
        entryPrice' := eurusPrice;
        position' := OrderUnits;
      }
    }
  }

  /**
   * One more bar of the loop, with the SMA and ATR it computes, advances the
   * run over the bars before it.
   */
  lemma FoldStep(dxy: seq<Candle>, eur: seq<Candle>, i: nat, sma: Option<real>, atr: Option<real>)
    requires WarmUp <= i < |dxy| && i < |eur|
    requires sma == CalculateSma(dxy[..i + 1], SmaPeriod) && atr == AtrOf(dxy[..i + 1], AtrPeriod)
    ensures sma.Some? && atr.Some?
    ensures Run(InputsUpTo(dxy, eur, i + 1))
         == Advance(Run(InputsUpTo(dxy, eur, i)),
                    BarInput(dxy[i].close, eur[i].close, sma.value, BullishEngulfing(dxy[i - 1], dxy[i].close), atr.value))
  {
    RunOfSnoc(InputsUpTo(dxy, eur, i), InputAt(dxy, eur, i));
  }

  /** Consuming one more input advances the run by that input. */
  lemma RunOfSnoc(bs: seq<BarInput>, b: BarInput)
    ensures Run(bs + [b]) == Advance(Run(bs), b)
  {
    assert (bs + [b])[..|bs|] == bs;
  }

  /** From bar 20 on both indicators over `dxy_prices[:i+1]` are defined, and the ATR is >= 0. */
  lemma IndicatorsDefinedAfterWarmUp(dxy: seq<Candle>, i: nat)
    requires WarmUp <= i < |dxy|
    ensures CalculateSma(dxy[..i + 1], SmaPeriod).Some?
    ensures AtrOf(dxy[..i + 1], AtrPeriod).Some? && AtrOf(dxy[..i + 1], AtrPeriod).value >= 0.0
  {
  }

  /**
   * The stop check changes the state exactly when a position is open and the
   * ATR is negative, which an ATR never is: both exit branches are dead.
   */
  lemma StopLossNeverFires(s: BacktestState, eurusPrice: real, atr: real)
    ensures StopLossCheck(s, eurusPrice, atr) != s <==> s.position != 0 && atr < 0.0
  {
  }

  /** The two entry conditions never hold together. */
  lemma EntriesExclusive(dxyPrice: real, sma: real, trendUp: bool, atr: real)
    ensures !(ShortSignal(dxyPrice, sma, trendUp, atr) && LongSignal(dxyPrice, sma, trendUp, atr))
  {
  }

  /** A signal in the direction already held changes nothing, nor does no signal at all. */
  lemma SameDirectionNoop(s: BacktestState, dxyPrice: real, eurusPrice: real, sma: real, trendUp: bool, atr: real)
    requires
      || (ShortSignal(dxyPrice, sma, trendUp, atr) && s.position < 0)
      || (LongSignal(dxyPrice, sma, trendUp, atr) && s.position > 0)
      || (!ShortSignal(dxyPrice, sma, trendUp, atr) && !LongSignal(dxyPrice, sma, trendUp, atr))
    ensures SignalEntry(s, dxyPrice, eurusPrice, sma, trendUp, atr) == s
  {
  }

  /** An opposite or first signal opens the new position at the current price within the step. */
  lemma FlipInOneStep(s: BacktestState, dxyPrice: real, eurusPrice: real, sma: real, trendUp: bool, atr: real)
    ensures ShortSignal(dxyPrice, sma, trendUp, atr) && s.position >= 0 ==>
              SignalEntry(s, dxyPrice, eurusPrice, sma, trendUp, atr) == s.(position := -OrderUnits, entryPrice := eurusPrice)
    ensures LongSignal(dxyPrice, sma, trendUp, atr) && s.position <= 0 ==>
              SignalEntry(s, dxyPrice, eurusPrice, sma, trendUp, atr) == s.(position := OrderUnits, entryPrice := eurusPrice)
  {
  }

  /**
   * One iteration with a non-negative ATR never records a trade, keeps the
   * position in {-1000, 0, 1000}, and changes the entry price only when it
   * opens a new position, at the current EUR_USD close.
   */
  lemma StepFacts(s: BacktestState, b: BarInput)
    requires b.atr >= 0.0 && IsPosition(s.position)
    ensures var r := Advance(s, b);
            && r.trades == s.trades
            && IsPosition(r.position)
            && (r.entryPrice != s.entryPrice ==> r.position != s.position)
            && (r.position != s.position ==> r.position != 0 && r.entryPrice == b.eurusPrice)
  {
    StopLossNeverFires(s, b.eurusPrice, b.atr);
  }

  /**
   * Over a run on inputs with non-negative ATRs `trades` stays empty, the
   * position stays in {-1000, 0, 1000}, a flat book has never opened (entry
   * price still 0), and an open position's entry price is the EUR_USD close of
   * one of the bars consumed.
   */
  lemma {:induction false} RunInvariant(bs: seq<BarInput>)
    requires forall j :: 0 <= j < |bs| ==> bs[j].atr >= 0.0
    ensures var s := Run(bs);
            && s.trades == []
            && IsPosition(s.position)
            && (s.position == 0 ==> s.entryPrice == 0.0)
            && (s.position != 0 ==> exists j :: 0 <= j < |bs| && s.entryPrice == bs[j].eurusPrice)
  {
    if |bs| > 0 {
      var front := bs[..|bs| - 1];
      RunInvariant(front);
      var prev := Run(front);
      StepFacts(prev, bs[|bs| - 1]);
      var s := Run(bs);
      if s.position != 0 && prev.position == s.position {
        var j :| 0 <= j < |front| && prev.entryPrice == front[j].eurusPrice;
        assert s.entryPrice == bs[j].eurusPrice;
      }
    }
  }

  /** The inputs the loop builds all carry a non-negative ATR. */
  lemma InputsHaveNonNegativeAtr(dxy: seq<Candle>, eur: seq<Candle>)
    ensures forall j :: 0 <= j < |Inputs(dxy, eur)| ==> Inputs(dxy, eur)[j].atr >= 0.0
  {
    var bs := Inputs(dxy, eur);
    forall j | 0 <= j < |bs|
      ensures bs[j].atr >= 0.0
    {
      InputsUpToAt(dxy, eur, Min(|dxy|, |eur|), j);
    }
  }

  /**
   * Whatever the candles, `backtest` raises: IndexError when the EUR_USD list
   * runs out first, otherwise KeyError at the average-win line, because no
   * trade is ever recorded.
   */
  lemma BacktestAlwaysRaises(dxy: seq<Candle>, eur: seq<Candle>)
    ensures BacktestResult(dxy, eur)
         == if |dxy| > WarmUp && |eur| < |dxy| then Err(IndexError) else Err(KeyError)
  {
    if !(|dxy| > WarmUp && |eur| < |dxy|) {
      InputsHaveNonNegativeAtr(dxy, eur);
      RunInvariant(Inputs(dxy, eur));
    }
  }

  /** Bar i's input reads nothing beyond candle i of either list. */
  lemma InputAtOfPrefix(dxy: seq<Candle>, eur: seq<Candle>, n: nat, i: nat)
    requires WarmUp <= i < n <= |dxy| && n <= |eur|
    ensures InputAt(dxy[..n], eur[..n], i) == InputAt(dxy, eur, i)
  {
    assert dxy[..n][..i + 1] == dxy[..i + 1];
    assert SmaAt(dxy[..n], i) == SmaAt(dxy, i);
    assert AtrAt(dxy[..n], i) == AtrAt(dxy, i);
  }

  /**
   * No lookahead: the inputs of the bars before k, computed from only the first
   * n >= k candles of each list, are those computed from the whole lists.
   */
  lemma {:induction false} InputsOfPrefix(dxy: seq<Candle>, eur: seq<Candle>, n: nat, k: nat)
    requires k <= n <= |dxy| && n <= |eur|
    ensures InputsUpTo(dxy[..n], eur[..n], k) == InputsUpTo(dxy, eur, k)
  {
    if k > WarmUp {
      InputsOfPrefix(dxy, eur, n, k - 1);
      InputAtOfPrefix(dxy, eur, n, k - 1);
      assert InputsUpTo(dxy[..n], eur[..n], k)
          == InputsUpTo(dxy[..n], eur[..n], k - 1) + [InputAt(dxy[..n], eur[..n], k - 1)];
    } else {
      assert InputsUpTo(dxy[..n], eur[..n], k) == [] == InputsUpTo(dxy, eur, k);
    }
  }
}
