/**
 * The position logic of `backtest_strategy` in EURUSDBot.py: the Position,
 * Entry Price, Stop Loss and Exit Signal columns and the loop that rewrites
 * Position row by row while tracking the entry price and the stop.
 */
module StrategyBacktest {
  import opened Wrappers
  import opened Rolling
  import opened Indicators
  import opened Signals

  /** `atr_period`. */
  const AtrPeriod: nat := 14
  /** `trailing_stop_atr_multiplier`. */
  const TrailingStopAtrMultiplier: real := 2.0

  /** The columns of the combined frame that the position loop reads. */
  datatype Frame = Frame(
    signal: seq<int>,
    close: seq<real>,
    atr: seq<Option<real>>,
    exitSignal: seq<bool>)
  {
    predicate Valid()
    {
      && |close| == |signal| && |atr| == |signal| && |exitSignal| == |signal|
      && forall i :: 0 <= i < |signal| ==> signal[i] in {-1, 0, 1}
    }
  }

  /** The combined frame of two aligned bar sequences. */
  function BuildFrame(eur: seq<Bar>, dxy: seq<Bar>): (f: Frame)
    requires |eur| == |dxy|
    ensures f.Valid() && |f.signal| == |eur|
  {
    var e := ComputeColumns(eur);
    var d := ComputeColumns(dxy);
    var s := SignalColumn(eur, dxy);
    assert forall i :: 0 <= i < |s| ==> s[i] in {-1, 0, 1} by {
      forall i | 0 <= i < |s| ensures s[i] in {-1, 0, 1} {
        SignalCharacterized(e, d, i);
      }
    }
    Frame(s, Closes(eur), Atr(eur, AtrPeriod),
          seq(|eur|, i requires 0 <= i < |eur| => ExitFlag(e.adx[i], d.adx[i])))
  }

  /** `Signal.diff()` at a row after the first. */
  function DiffAt(f: Frame, i: nat): (d: int)
    requires f.Valid() && 1 <= i < |f.signal|
    ensures -2 <= d <= 2
  {
    f.signal[i] - f.signal[i - 1]
  }

  /** `Close.shift(1)`: the Entry Price column. */
  function EntryPriceAt(f: Frame, i: nat): real
    requires f.Valid() && 1 <= i < |f.signal|
  {
    f.close[i - 1]
  }

  /** A stop k ATRs below a price (NaN when ATR is). */
  function StopBelow(price: real, atr: Option<real>): Option<real>
  {
    if atr.Some? then Some(price - TrailingStopAtrMultiplier * atr.value) else None
  }

  /** A stop k ATRs above a price (NaN when ATR is). */
  function StopAbove(price: real, atr: Option<real>): Option<real>
  {
    if atr.Some? then Some(price + TrailingStopAtrMultiplier * atr.value) else None
  }

  /** The Stop Loss column: set on rows whose diff is 1 or -1, 0.0 elsewhere. */
  function StopLossAt(f: Frame, i: nat): Option<real>
    requires f.Valid() && 1 <= i < |f.signal|
  {
    if DiffAt(f, i) == 1 then StopBelow(EntryPriceAt(f, i), f.atr[i])
    else if DiffAt(f, i) == -1 then StopAbove(EntryPriceAt(f, i), f.atr[i])
    else Some(0.0)
  }

  /** The loop's variables `current_position`, `entry_price` and `stop_loss_price`. */
  datatype Tracker = Tracker(position: int, entryPrice: real, stopLoss: Option<real>)

  const Start: Tracker := Tracker(0, 0.0, Some(0.0))

  /** The inputs of one loop iteration, read from row i of the frame. */
  datatype Row = Row(diff: int, entryPrice: real, stopLoss: Option<real>, close: real, atr: Option<real>, exit: bool)

  function RowAt(f: Frame, i: nat): Row
    requires f.Valid() && 1 <= i < |f.signal|
  {
    Row(DiffAt(f, i), EntryPriceAt(f, i), StopLossAt(f, i), f.close[i], f.atr[i], f.exitSignal[i])
  }

  /** The water-mark update of an open position that sees no new diff. */
  function Trail(t: Tracker, r: Row): Tracker
  {
    if t.position == 1 && r.close > t.entryPrice then Tracker(t.position, r.close, StopBelow(r.close, r.atr))
    else if t.position == -1 && r.close < t.entryPrice then Tracker(t.position, r.close, StopAbove(r.close, r.atr))
    else t
  }

  /** The close test, made after the water-mark update. */
  predicate ClosesPosition(t: Tracker, r: Row)
  {
    || (t.position == 1 && Below(r.close, t.stopLoss))
    || (t.position == -1 && Above(r.close, t.stopLoss))
    || r.exit
  }

  /** One iteration of the loop. */
  function Step(t: Tracker, r: Row): Tracker
  {
    if r.diff != 0 then Tracker(r.diff, r.entryPrice, r.stopLoss)
    else if t.position != 0 then
      var u := Trail(t, r);
      if ClosesPosition(u, r) then u.(position := 0) else u
    else t
  }

  /** The tracker after the iterations for rows 1 .. i. */
  function StateAt(f: Frame, i: nat): Tracker
    requires f.Valid() && i < |f.signal|
  {
    if i == 0 then Start else Step(StateAt(f, i - 1), RowAt(f, i))
  }

  /** The Position column the loop leaves behind (row 0 keeps the NaN of diff()). */
  function PositionColumn(f: Frame): (p: seq<Option<int>>)
    requires f.Valid()
    ensures |p| == |f.signal|
  {
    seq(|f.signal|, i requires 0 <= i < |f.signal| => if i == 0 then None else Some(StateAt(f, i).position))
  }

  /** The signal/exit/position part of `backtest_strategy`. */
  method BacktestStrategy(eur: seq<Bar>, dxy: seq<Bar>) returns (position: array<Option<int>>)
    requires |eur| == |dxy|
    ensures fresh(position)
    ensures position[..] == PositionColumn(BuildFrame(eur, dxy))
  {
    var f := BuildFrame(eur, dxy);
    position := DiffColumn(f);
    TrackPositions(f, position);
  }

  /** `df['Position'] = df['Signal'].diff()`: NaN in row 0, then the row-to-row change. */
  method DiffColumn(f: Frame) returns (position: array<Option<int>>)
    requires f.Valid()
    ensures fresh(position) && position.Length == |f.signal|
    ensures position.Length > 0 ==> position[0] == None
    ensures forall j :: 1 <= j < position.Length ==> position[j] == Some(DiffAt(f, j))
  {
    position := new Option<int>[|f.signal|](j => if 0 < j < |f.signal| then Some(f.signal[j] - f.signal[j - 1]) else None);
  }

  /** The loop over rows 1 .. n - 1 that overwrites the Position column in place. */
  method TrackPositions(f: Frame, position: array<Option<int>>)
    requires f.Valid() && position.Length == |f.signal|
    requires position.Length > 0 ==> position[0] == None
    requires forall j :: 1 <= j < position.Length ==> position[j] == Some(DiffAt(f, j))
    modifies position
    ensures position[..] == PositionColumn(f)
  {
    var n := position.Length;
    var currentPosition: int := 0;
    var entryPrice: real := 0.0;
    var stopLossPrice: Option<real> := Some(0.0);
    var i := 1;
    while i < n
      invariant 1 <= i && (n == 0 || i <= n)
      invariant n > 0 ==> position[0] == None
      invariant forall j :: i <= j < n ==> position[j] == Some(DiffAt(f, j))
      invariant n > 0 ==> position[..i] == PositionColumn(f)[..i]
      invariant n > 0 ==> Tracker(currentPosition, entryPrice, stopLossPrice) == StateAt(f, i - 1)
    {
      currentPosition, entryPrice, stopLossPrice := ApplyRow(
        currentPosition, entryPrice, stopLossPrice,
        position[i].value, EntryPriceAt(f, i), StopLossAt(f, i), f.close[i], f.atr[i], f.exitSignal[i]);
      assert Tracker(currentPosition, entryPrice, stopLossPrice) == StateAt(f, i);
      ghost var done := position[..i];
      position[i] := Some(currentPosition);
      assert position[..i + 1] == done + [PositionColumn(f)[i]];
      assert PositionColumn(f)[..i + 1] == PositionColumn(f)[..i] + [PositionColumn(f)[i]];
      i := i + 1;
    }
    assert n > 0 ==> i == n;
    assert position[..] == position[..n];
  }

  /**
   * The body of the loop for one row: a nonzero diff opens at that row's entry
   * price and stop; otherwise an open position trails its water mark and is
   * closed by its stop or the exit flag.
   */
  method ApplyRow(currentPosition: int, entryPrice: real, stopLossPrice: Option<real>,
                  diff: int, rowEntryPrice: real, rowStopLoss: Option<real>, close: real, atr: Option<real>, exit: bool)
    returns (position': int, entryPrice': real, stopLossPrice': Option<real>)
    ensures Tracker(position', entryPrice', stopLossPrice')
         == Step(Tracker(currentPosition, entryPrice, stopLossPrice), Row(diff, rowEntryPrice, rowStopLoss, close, atr, exit))
  {
    position', entryPrice', stopLossPrice' := currentPosition, entryPrice, stopLossPrice;
    if diff != 0 {
      position' := diff;
      entryPrice' := rowEntryPrice;
      stopLossPrice' := rowStopLoss;
    } else if position' != 0 {
      if position' == 1 && close > entryPrice' {
        entryPrice' := close;
        stopLossPrice' := StopBelow(entryPrice', atr);
      } else if position' == -1 && close < entryPrice' {
        entryPrice' := close;
        stopLossPrice' := StopAbove(entryPrice', atr);
      }
      if (position' == 1 && Below(close, stopLossPrice'))
        || (position' == -1 && Above(close, stopLossPrice'))
        || exit
      {
        position' := 0;
      }
    }
  }

  // ---------------------------------------------------------------------------
  // Properties of one step
  // ---------------------------------------------------------------------------

  /** A nonzero diff overwrites position, entry price and stop in one step. */
  lemma NewDiffOverwrites(t: Tracker, r: Row)
    requires r.diff != 0
    ensures Step(t, r) == Tracker(r.diff, r.entryPrice, r.stopLoss)
  {
  }

  /** With no new diff, a flat position stays flat and nothing is tracked. */
  lemma FlatStaysFlat(t: Tracker, r: Row)
    requires r.diff == 0 && t.position == 0
    ensures Step(t, r) == t
  {
  }

  /**
   * While long with no new diff, the entry price is a high-water mark: it never
   * falls, and whenever it rises it becomes the close and the stop is reset to
   * close - k * ATR.
   */
  lemma LongHighWaterMark(t: Tracker, r: Row)
    requires t.position == 1 && r.diff == 0
    ensures Step(t, r).entryPrice >= t.entryPrice
    ensures Step(t, r).entryPrice != t.entryPrice ==>
              Step(t, r).entryPrice == r.close && Step(t, r).stopLoss == StopBelow(r.close, r.atr)
    ensures Step(t, r).entryPrice == t.entryPrice ==> Step(t, r).stopLoss == t.stopLoss
  {
  }

  /** While short with no new diff, the entry price is a low-water mark. */
  lemma ShortLowWaterMark(t: Tracker, r: Row)
    requires t.position == -1 && r.diff == 0
    ensures Step(t, r).entryPrice <= t.entryPrice
    ensures Step(t, r).entryPrice != t.entryPrice ==>
              Step(t, r).entryPrice == r.close && Step(t, r).stopLoss == StopAbove(r.close, r.atr)
    ensures Step(t, r).entryPrice == t.entryPrice ==> Step(t, r).stopLoss == t.stopLoss
  {
  }

  /**
   * With no new diff, an open position becomes 0 exactly when the exit flag is
   * set, or it is long and the close is below the (updated) stop, or it is
   * short and the close is above it; otherwise it is kept.
   */
  lemma CloseConditions(t: Tracker, r: Row)
    requires t.position != 0 && r.diff == 0
    ensures var u := Step(t, r);
            (u.position == 0 <==>
               r.exit
               || (t.position == 1 && Below(r.close, u.stopLoss))
               || (t.position == -1 && Above(r.close, u.stopLoss)))
            && (u.position != 0 ==> u.position == t.position)
  {
  }

  /** A position of 2 or -2 has no trailing stop: only the exit flag closes it. */
  lemma DoublePositionOnlyExits(t: Tracker, r: Row)
    requires t.position in {-2, 2} && r.diff == 0
    ensures Step(t, r).position == (if r.exit then 0 else t.position)
    ensures Step(t, r).entryPrice == t.entryPrice && Step(t, r).stopLoss == t.stopLoss
  {
  }

  // ---------------------------------------------------------------------------
  // Properties of the whole loop
  // ---------------------------------------------------------------------------

  /** The tracked position is always one of 0, +-1, +-2: a diff of signals in {-1, 0, 1}. */
  lemma {:induction false} PositionsBounded(f: Frame, i: nat)
    requires f.Valid() && i < |f.signal|
    ensures StateAt(f, i).position in {-2, -1, 0, 1, 2}
  {
    if i > 0 {
      PositionsBounded(f, i - 1);
      assert f.signal[i] in {-1, 0, 1} && f.signal[i - 1] in {-1, 0, 1};
    }
  }

  /** The Position column holds only 0, +-1 and +-2 after its undefined first row. */
  lemma PositionColumnValues(f: Frame)
    requires f.Valid()
    ensures forall i :: 0 <= i < |f.signal| ==>
              (PositionColumn(f)[i].None? <==> i == 0)
              && (i > 0 ==> PositionColumn(f)[i].value in {-2, -1, 0, 1, 2})
  {
    forall i | 0 < i < |f.signal| ensures PositionColumn(f)[i].value in {-2, -1, 0, 1, 2} {
      PositionsBounded(f, i);
    }
  }

  /** Frames that agree on their first k rows give the same tracker on those rows. */
  lemma {:induction false} StateAtAgrees(f: Frame, g: Frame, k: nat, i: nat)
    requires f.Valid() && g.Valid() && i < k <= |f.signal| && k <= |g.signal|
    requires f.signal[..k] == g.signal[..k] && f.close[..k] == g.close[..k]
    requires f.atr[..k] == g.atr[..k] && f.exitSignal[..k] == g.exitSignal[..k]
    ensures StateAt(f, i) == StateAt(g, i)
  {
    if i > 0 {
      StateAtAgrees(f, g, k, i - 1);
      assert f.signal[i] == f.signal[..k][i] && f.signal[i - 1] == f.signal[..k][i - 1];
      assert f.close[i] == f.close[..k][i] && f.close[i - 1] == f.close[..k][i - 1];
      assert f.atr[i] == f.atr[..k][i] && f.exitSignal[i] == f.exitSignal[..k][i];
      assert RowAt(f, i) == RowAt(g, i);
    }
  }

  /** No lookahead: the positions of the first k rows depend only on the first k bars. */
  lemma PositionsOfPrefix(eur: seq<Bar>, dxy: seq<Bar>, k: nat)
    requires |eur| == |dxy| && k <= |eur|
    ensures PositionColumn(BuildFrame(eur[..k], dxy[..k])) == PositionColumn(BuildFrame(eur, dxy))[..k]
  {
    var f, g := BuildFrame(eur, dxy), BuildFrame(eur[..k], dxy[..k]);
    SignalsOfPrefix(eur, dxy, k);
    ColumnsOfPrefix(eur, k);
    ColumnsOfPrefix(dxy, k);
    AdxOfPrefix(eur, AtrPeriod, k);
    assert g.close == f.close[..k];
    assert g.exitSignal == f.exitSignal[..k];
    forall i | 0 <= i < k
      ensures PositionColumn(g)[i] == PositionColumn(f)[i]
    {
      StateAtAgrees(g, f, k, i);
    }
  }
}
