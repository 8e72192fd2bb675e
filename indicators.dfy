/**
 * The column computations of `calculate_adx` and `calculate_atr` in
 * EURUSDBot.py, as functions from a bar sequence to aligned series.
 *
 * The range series ("TR") is not the textbook true range: from the second
 * bar on it is the largest absolute bar-to-bar change of High, Low and Close.
 */
module Indicators {
  import opened Wrappers
  import opened Rolling

  /** One OHLCV bar of an instrument's candle frame. */
  datatype Bar = Bar(open: real, high: real, low: real, close: real, volume: real)

  /** The default `period` of `calculate_adx` and the `atr_period` setting. */
  const AdxPeriod: nat := 14

  /** A bar whose High is not below its Low, as a candle always has. */
  predicate WellFormed(bars: seq<Bar>)
  {
    forall i :: 0 <= i < |bars| ==> bars[i].low <= bars[i].high
  }

  /** Entry i (i >= 1) of the TR column: the row-wise maximum of |diff()|. */
  function RangeStep(prev: Bar, cur: Bar): (r: real)
    ensures r >= Abs(cur.high - prev.high) && r >= Abs(cur.low - prev.low) && r >= Abs(cur.close - prev.close)
    ensures r == Abs(cur.high - prev.high) || r == Abs(cur.low - prev.low) || r == Abs(cur.close - prev.close)
  {
    Max3(Abs(cur.high - prev.high), Abs(cur.low - prev.low), Abs(cur.close - prev.close))
  }

  /** The TR column; the first entry, NaN after diff(), is filled with High - Low. */
  function TrueRange(bars: seq<Bar>): (tr: seq<real>)
    ensures |tr| == |bars|
  {
    seq(|bars|, i requires 0 <= i < |bars| =>
      if i == 0 then bars[0].high - bars[0].low else RangeStep(bars[i - 1], bars[i]))
  }

  /** `x if x > 0 else 0`: NaN (the first entry after shift) also becomes 0. */
  function PositivePart(x: real): (p: real)
    ensures p >= 0.0 && p >= x
    ensures p == x || p == 0.0
  {
    if x > 0.0 then x else 0.0
  }

  /** The +DM column: the rise of High over the previous bar, clamped at 0. */
  function PlusDM(bars: seq<Bar>): (dm: seq<real>)
    ensures |dm| == |bars|
  {
    seq(|bars|, i requires 0 <= i < |bars| =>
      if i == 0 then 0.0 else PositivePart(bars[i].high - bars[i - 1].high))
  }

  /** The -DM column: the fall of Low below the previous bar, clamped at 0. */
  function MinusDM(bars: seq<Bar>): (dm: seq<real>)
    ensures |dm| == |bars|
  {
    seq(|bars|, i requires 0 <= i < |bars| =>
      if i == 0 then 0.0 else PositivePart(bars[i - 1].low - bars[i].low))
  }

  /**
   * A directional index `(DM14 / TR14) * 100`. pandas gives inf or NaN when
   * TR14 is 0; both end as NaN in DX, so the model leaves DI undefined there.
   */
  function DirectionalIndex(dm14: Option<real>, tr14: Option<real>): Option<real>
  {
    if dm14.Some? && tr14.Some? && tr14.value != 0.0 then Some(dm14.value / tr14.value * 100.0) else None
  }

  /** DX = |+DI - -DI| / (+DI + -DI) * 100, NaN when the denominator is 0. */
  function DirectionalMovement(plusDI: Option<real>, minusDI: Option<real>): Option<real>
  {
    if plusDI.Some? && minusDI.Some? && plusDI.value + minusDI.value != 0.0 then
      Some(Abs(plusDI.value - minusDI.value) / (plusDI.value + minusDI.value) * 100.0)
    else None
  }

  /** The DX column. */
  function Dx(bars: seq<Bar>, period: nat): (dx: seq<Option<real>>)
    requires period >= 1
    ensures |dx| == |bars|
  {
    var tr14 := Sma(TrueRange(bars), period);
    var plusDM14 := Sma(PlusDM(bars), period);
    var minusDM14 := Sma(MinusDM(bars), period);
    seq(|bars|, i requires 0 <= i < |bars| =>
      DirectionalMovement(DirectionalIndex(plusDM14[i], tr14[i]), DirectionalIndex(minusDM14[i], tr14[i])))
  }

  /** `calculate_adx`: the rolling mean of DX. */
  function Adx(bars: seq<Bar>, period: nat): (adx: seq<Option<real>>)
    requires period >= 1
    ensures |adx| == |bars|
  {
    RollingMean(Dx(bars, period), period)
  }

  /** `calculate_atr`: the rolling mean of the TR column. */
  function Atr(bars: seq<Bar>, period: nat): (atr: seq<Option<real>>)
    requires period >= 1
    ensures |atr| == |bars|
  {
    Sma(TrueRange(bars), period)
  }

  // ---------------------------------------------------------------------------
  // Properties of the columns
  // ---------------------------------------------------------------------------

  /** TR is never negative when the first bar's High is not below its Low. */
  lemma TrueRangeNonNegative(bars: seq<Bar>)
    requires |bars| > 0 ==> bars[0].low <= bars[0].high
    ensures forall i :: 0 <= i < |bars| ==> TrueRange(bars)[i] >= 0.0
    ensures |bars| > 0 ==> TrueRange(bars)[0] == bars[0].high - bars[0].low
  {
  }

  /** +DM and -DM are 0 on the first bar and never negative. */
  lemma DirectionalMovesNonNegative(bars: seq<Bar>)
    ensures forall i :: 0 <= i < |bars| ==> PlusDM(bars)[i] >= 0.0 && MinusDM(bars)[i] >= 0.0
    ensures |bars| > 0 ==> PlusDM(bars)[0] == 0.0 && MinusDM(bars)[0] == 0.0
  {
  }

  /** A flat step (no change in High and Low) has no directional movement. */
  lemma FlatStepHasNoMovement(bars: seq<Bar>, i: nat)
    requires 0 < i < |bars| && TrueRange(bars)[i] == 0.0
    ensures PlusDM(bars)[i] == 0.0 && MinusDM(bars)[i] == 0.0
  {
  }

  /** ATR is undefined for the first period - 1 bars and then the mean TR of the window. */
  lemma AtrIsTrailingMean(bars: seq<Bar>, period: nat, i: nat)
    requires period >= 1 && i < |bars|
    ensures i + 1 < period ==> Atr(bars, period)[i].None?
    ensures i + 1 >= period ==> Atr(bars, period)[i] == Some(Sum(TrueRange(bars)[i + 1 - period .. i + 1]) / period as real)
  {
    SmaIsTrailingMean(TrueRange(bars), period, i);
  }

  /** ATR is never negative where it is defined. */
  lemma AtrNonNegative(bars: seq<Bar>, period: nat, i: nat)
    requires period >= 1 && i < |bars|
    requires |bars| > 0 ==> bars[0].low <= bars[0].high
    requires Atr(bars, period)[i].Some?
    ensures Atr(bars, period)[i].value >= 0.0
  {
    TrueRangeNonNegative(bars);
    RollingMeanAtLeast(Lift(TrueRange(bars)), period, 0.0, i);
  }

  /** DX is undefined, never 0, when TR14 is 0 or +DI + -DI is 0. */
  lemma DxUndefinedOnZeroDenominator(bars: seq<Bar>, period: nat, i: nat)
    requires period >= 1 && i < |bars|
    ensures var tr14 := Sma(TrueRange(bars), period)[i];
            tr14 == Some(0.0) ==> Dx(bars, period)[i].None?
    ensures var plusDI := DirectionalIndex(Sma(PlusDM(bars), period)[i], Sma(TrueRange(bars), period)[i]);
            var minusDI := DirectionalIndex(Sma(MinusDM(bars), period)[i], Sma(TrueRange(bars), period)[i]);
            plusDI.Some? && minusDI.Some? && plusDI.value + minusDI.value == 0.0 ==> Dx(bars, period)[i].None?
  {
  }

  /** DX lies in [0, 100] for non-negative directional indices. */
  lemma DirectionalMovementBounded(plusDI: Option<real>, minusDI: Option<real>)
    requires plusDI.Some? ==> plusDI.value >= 0.0
    requires minusDI.Some? ==> minusDI.value >= 0.0
    requires DirectionalMovement(plusDI, minusDI).Some?
    ensures 0.0 <= DirectionalMovement(plusDI, minusDI).value <= 100.0
  {
    var a, b := plusDI.value, minusDI.value;
    assert Abs(a - b) <= a + b;
    MeanBetween(Abs(a - b), a + b, 0.0, 1.0);
  }

  /** Wherever DX is defined on well-formed bars it lies in [0, 100]. */
  lemma DxBounded(bars: seq<Bar>, period: nat, i: nat)
    requires period >= 1 && i < |bars|
    requires WellFormed(bars)
    requires Dx(bars, period)[i].Some?
    ensures 0.0 <= Dx(bars, period)[i].value <= 100.0
  {
    var tr14 := Sma(TrueRange(bars), period);
    var plusDM14 := Sma(PlusDM(bars), period);
    var minusDM14 := Sma(MinusDM(bars), period);
    TrueRangeNonNegative(bars);
    DirectionalMovesNonNegative(bars);
    RollingMeanAtLeast(Lift(TrueRange(bars)), period, 0.0, i);
    RollingMeanAtLeast(Lift(PlusDM(bars)), period, 0.0, i);
    RollingMeanAtLeast(Lift(MinusDM(bars)), period, 0.0, i);
    var plusDI := DirectionalIndex(plusDM14[i], tr14[i]);
    var minusDI := DirectionalIndex(minusDM14[i], tr14[i]);
    assert Dx(bars, period)[i] == DirectionalMovement(plusDI, minusDI);
    DirectionalMovementBounded(plusDI, minusDI);
  }

  /** Wherever ADX is defined on well-formed bars it lies in [0, 100]. */
  lemma AdxBounded(bars: seq<Bar>, period: nat, i: nat)
    requires period >= 1 && i < |bars|
    requires WellFormed(bars)
    requires Adx(bars, period)[i].Some?
    ensures 0.0 <= Adx(bars, period)[i].value <= 100.0
  {
    var dx := Dx(bars, period);
    forall j | 0 <= j < |dx| && dx[j].Some?
      ensures 0.0 <= dx[j].value <= 100.0
    {
      DxBounded(bars, period, j);
    }
    RollingMeanAtLeast(dx, period, 0.0, i);
    RollingMeanAtMost(dx, period, 100.0, i);
  }

  /** ADX needs 2 * period - 1 bars before it can be defined. */
  lemma AdxWarmUp(bars: seq<Bar>, period: nat, i: nat)
    requires period >= 1 && i < |bars|
    requires i + 2 < 2 * period
    ensures Adx(bars, period)[i].None?
  {
    var dx := Dx(bars, period);
    if i + 1 >= period {
      assert Sma(TrueRange(bars), period)[i + 1 - period].None? by {
        SmaIsTrailingMean(TrueRange(bars), period, i + 1 - period);
      }
      assert !AllDefined(dx[i + 1 - period .. i + 1]) by {
        assert dx[i + 1 - period .. i + 1][0] == dx[i + 1 - period];
      }
    }
  }

  // ---------------------------------------------------------------------------
  // No lookahead: every column at index i depends only on bars[..i + 1]
  // ---------------------------------------------------------------------------

  lemma TrueRangeOfPrefix(bars: seq<Bar>, k: nat)
    requires k <= |bars|
    ensures TrueRange(bars[..k]) == TrueRange(bars)[..k]
    ensures PlusDM(bars[..k]) == PlusDM(bars)[..k]
    ensures MinusDM(bars[..k]) == MinusDM(bars)[..k]
  {
  }

  lemma SmaOfPrefix(xs: seq<real>, period: nat, k: nat)
    requires period >= 1 && k <= |xs|
    ensures Sma(xs[..k], period) == Sma(xs, period)[..k]
  {
    LiftOfPrefix(xs, k);
    RollingMeanOfPrefix(Lift(xs), period, k);
  }

  /** ADX and ATR of a prefix of the bars are the prefixes of ADX and ATR. */
  lemma AdxOfPrefix(bars: seq<Bar>, period: nat, k: nat)
    requires period >= 1 && k <= |bars|
    ensures Adx(bars[..k], period) == Adx(bars, period)[..k]
    ensures Atr(bars[..k], period) == Atr(bars, period)[..k]
  {
    TrueRangeOfPrefix(bars, k);
    SmaOfPrefix(TrueRange(bars), period, k);
    SmaOfPrefix(PlusDM(bars), period, k);
    SmaOfPrefix(MinusDM(bars), period, k);
    assert Dx(bars[..k], period) == Dx(bars, period)[..k];
    RollingMeanOfPrefix(Dx(bars, period), period, k);
  }
}
