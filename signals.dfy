/**
 * The divergence signal and the ADX exhaustion flag of `backtest_strategy`
 * in EURUSDBot.py: per-index rules over the EUR_USD and dollar-index columns.
 * Every comparison with an undefined (NaN) value is false, as in pandas.
 */
module Signals {
  import opened Wrappers
  import opened Rolling
  import opened Indicators

  /** `adx_threshold`. */
  const AdxThreshold: real := 25.0
  /** The window of the SMA and of the average volume. */
  const AverageWindow: nat := 20

  /** The columns one instrument contributes to the combined frame. */
  datatype InstrumentColumns = InstrumentColumns(
    close: seq<real>,
    volume: seq<real>,
    sma20: seq<Option<real>>,
    avgVolume20: seq<Option<real>>,
    adx: seq<Option<real>>)
  {
    predicate HasLength(n: nat)
    {
      |close| == n && |volume| == n && |sma20| == n && |avgVolume20| == n && |adx| == n
    }
  }

  /**
   * The Close column of a bar frame. ListIndicators.ClosesOf is the same
   * projection over the candle dictionaries of EURUSDBot2.py, which are a
   * different record type.
   */
  function Closes(bars: seq<Bar>): (r: seq<real>)
    ensures |r| == |bars|
  {
    seq(|bars|, i requires 0 <= i < |bars| => bars[i].close)
  }

  function Volumes(bars: seq<Bar>): (r: seq<real>)
    ensures |r| == |bars|
  {
    seq(|bars|, i requires 0 <= i < |bars| => bars[i].volume)
  }

  function ComputeColumns(bars: seq<Bar>): (c: InstrumentColumns)
    ensures c.HasLength(|bars|)
  {
    InstrumentColumns(
      Closes(bars), Volumes(bars),
      Sma(Closes(bars), AverageWindow), Sma(Volumes(bars), AverageWindow),
      Adx(bars, AdxPeriod))
  }

  /** `x < y` where y may be NaN. */
  predicate Below(x: real, y: Option<real>)
  {
    y.Some? && x < y.value
  }

  /** `x > y` where y may be NaN. */
  predicate Above(x: real, y: Option<real>)
  {
    y.Some? && x > y.value
  }

  /** The short mask: EUR_USD weak and falling while the dollar index is strong and rising. */
  predicate ShortMask(e: InstrumentColumns, d: InstrumentColumns, i: nat)
    requires i < |e.close| && e.HasLength(|e.close|) && d.HasLength(|e.close|)
  {
    && Below(e.close[i], e.sma20[i])
    && Above(e.volume[i], e.avgVolume20[i])
    && Exceeds(e.adx[i], AdxThreshold)
    && Above(d.close[i], d.sma20[i])
    && Above(d.volume[i], d.avgVolume20[i])
    && Exceeds(d.adx[i], AdxThreshold)
  }

  /** The long mask: the mirror image of the short mask. */
  predicate LongMask(e: InstrumentColumns, d: InstrumentColumns, i: nat)
    requires i < |e.close| && e.HasLength(|e.close|) && d.HasLength(|e.close|)
  {
    && Above(e.close[i], e.sma20[i])
    && Above(e.volume[i], e.avgVolume20[i])
    && Exceeds(e.adx[i], AdxThreshold)
    && Below(d.close[i], d.sma20[i])
    && Above(d.volume[i], d.avgVolume20[i])
    && Exceeds(d.adx[i], AdxThreshold)
  }

  /** `v > t` where v may be NaN. */
  predicate Exceeds(v: Option<real>, t: real)
  {
    v.Some? && v.value > t
  }

  /** `v < t` where v may be NaN. */
  predicate FallsBelow(v: Option<real>, t: real)
  {
    v.Some? && v.value < t
  }

  /** Signal at index i: 0, then -1 under the short mask, then 1 under the long mask. */
  function SignalAt(e: InstrumentColumns, d: InstrumentColumns, i: nat): int
    requires i < |e.close| && e.HasLength(|e.close|) && d.HasLength(|e.close|)
  {
    if LongMask(e, d, i) then 1 else if ShortMask(e, d, i) then -1 else 0
  }

  /** The Exit Signal flag: either ADX is defined and below the threshold. */
  predicate ExitFlag(eurAdx: Option<real>, dxyAdx: Option<real>)
  {
    FallsBelow(eurAdx, AdxThreshold) || FallsBelow(dxyAdx, AdxThreshold)
  }

  /** The Signal column of two aligned frames. */
  function SignalColumn(eur: seq<Bar>, dxy: seq<Bar>): (s: seq<int>)
    requires |eur| == |dxy|
    ensures |s| == |eur|
  {
    var e := ComputeColumns(eur);
    var d := ComputeColumns(dxy);
    seq(|eur|, i requires 0 <= i < |eur| => SignalAt(e, d, i))
  }

  // ---------------------------------------------------------------------------
  // Properties of the rule
  // ---------------------------------------------------------------------------

  /** The two masks never both hold, so the order of the assignments does not matter. */
  lemma MasksDisjoint(e: InstrumentColumns, d: InstrumentColumns, i: nat)
    requires i < |e.close| && e.HasLength(|e.close|) && d.HasLength(|e.close|)
    ensures !(LongMask(e, d, i) && ShortMask(e, d, i))
  {
  }

  /** The signal is 1, -1 or 0 exactly under the long mask, the short mask or neither. */
  lemma SignalCharacterized(e: InstrumentColumns, d: InstrumentColumns, i: nat)
    requires i < |e.close| && e.HasLength(|e.close|) && d.HasLength(|e.close|)
    ensures SignalAt(e, d, i) in {-1, 0, 1}
    ensures SignalAt(e, d, i) == 1 <==> LongMask(e, d, i)
    ensures SignalAt(e, d, i) == -1 <==> ShortMask(e, d, i)
    ensures SignalAt(e, d, i) == 0 <==> !LongMask(e, d, i) && !ShortMask(e, d, i)
  {
    MasksDisjoint(e, d, i);
  }

  /** An undefined indicator at index i forces a flat signal. */
  lemma SignalFlatWhenUndefined(e: InstrumentColumns, d: InstrumentColumns, i: nat)
    requires i < |e.close| && e.HasLength(|e.close|) && d.HasLength(|e.close|)
    requires e.sma20[i].None? || e.avgVolume20[i].None? || e.adx[i].None?
          || d.sma20[i].None? || d.avgVolume20[i].None? || d.adx[i].None?
    ensures SignalAt(e, d, i) == 0
  {
  }

  /** A step that raises the exit flag never carries an entry signal. */
  lemma ExitStepIsFlat(e: InstrumentColumns, d: InstrumentColumns, i: nat)
    requires i < |e.close| && e.HasLength(|e.close|) && d.HasLength(|e.close|)
    requires ExitFlag(e.adx[i], d.adx[i])
    ensures SignalAt(e, d, i) == 0
  {
  }

  /**
   * The short scenario: EUR_USD closes below its SMA on above-average volume
   * with ADX 30, the dollar index closes above its SMA on above-average volume
   * with ADX 30; the threshold is 25, so the signal is short.
   */
  lemma ShortScenario(e: InstrumentColumns, d: InstrumentColumns, i: nat)
    requires i < |e.close| && e.HasLength(|e.close|) && d.HasLength(|e.close|)
    requires Below(e.close[i], e.sma20[i]) && Above(e.volume[i], e.avgVolume20[i]) && e.adx[i] == Some(30.0)
    requires Above(d.close[i], d.sma20[i]) && Above(d.volume[i], d.avgVolume20[i]) && d.adx[i] == Some(30.0)
    ensures SignalAt(e, d, i) == -1
  {
  }

  /** No lookahead: the signals of the first k bars are the first k signals. */
  lemma SignalsOfPrefix(eur: seq<Bar>, dxy: seq<Bar>, k: nat)
    requires |eur| == |dxy| && k <= |eur|
    ensures SignalColumn(eur[..k], dxy[..k]) == SignalColumn(eur, dxy)[..k]
  {
    ColumnsOfPrefix(eur, k);
    ColumnsOfPrefix(dxy, k);
  }

  lemma ColumnsOfPrefix(bars: seq<Bar>, k: nat)
    requires k <= |bars|
    ensures var c, p := ComputeColumns(bars), ComputeColumns(bars[..k]);
            p.close == c.close[..k] && p.volume == c.volume[..k] && p.sma20 == c.sma20[..k]
            && p.avgVolume20 == c.avgVolume20[..k] && p.adx == c.adx[..k]
  {
    assert Closes(bars[..k]) == Closes(bars)[..k];
    assert Volumes(bars[..k]) == Volumes(bars)[..k];
    SmaOfPrefix(Closes(bars), AverageWindow, k);
    SmaOfPrefix(Volumes(bars), AverageWindow, k);
    AdxOfPrefix(bars, AdxPeriod, k);
  }
}
