/**
 * The pure decision rules of EURUSDBot.py's live loop: risk-based sizing
 * (`calculate_units`), the trailing-stop update for an open trade and the
 * entry decision when no trade is open. Prices, balance and the last row of
 * the backtest frame are parameters; the broker calls they feed are left out.
 */
module LiveRules {
  import opened Wrappers
  import opened Signals
  import opened StrategyBacktest

  /** `risk_percentage`. */
  const RiskPercentage: real := 0.03

  /** n is Python's round(x): the nearest integer, ties going to the even one. */
  predicate RoundsTo(x: real, n: int)
  {
    Abs(n as real - x) < 0.5 || (Abs(n as real - x) == 0.5 && n % 2 == 0)
  }

  /** Python's round() of a float to an int (round half to even). */
  function RoundHalfEven(x: real): (n: int)
    ensures RoundsTo(x, n)
  {
    var f := x.Floor;
    var d := x - f as real;
    if d < 0.5 then f
    else if d > 0.5 then f + 1
    else if f % 2 == 0 then f
    else f + 1
  }

  /** round() has one answer: RoundsTo pins the integer down. */
  lemma RoundingIsUnique(x: real, n: int, m: int)
    requires RoundsTo(x, n) && RoundsTo(x, m)
    ensures n == m
  {
  }

  /**
   * `calculate_units`: round(balance * risk / |entry - stop|). A zero stop
   * distance raises ZeroDivisionError, which the function logs and re-raises.
   */
  function CalculateUnits(accountBalance: real, riskPercentage: real, entryPrice: real, stopLossPrice: real): (r: Result<int>)
    ensures r.Err? <==> entryPrice == stopLossPrice
    ensures r.Err? ==> r.error == ZeroDivisionError
    ensures r.Ok? ==> RoundsTo(accountBalance * riskPercentage / Abs(entryPrice - stopLossPrice), r.value)
  {
    var riskAmount := accountBalance * riskPercentage;
    var stopLossPips := Abs(entryPrice - stopLossPrice);
    if stopLossPips == 0.0 then Err(ZeroDivisionError) else Ok(RoundHalfEven(riskAmount / stopLossPips))
  }

  /** Only the distance between entry and stop matters, not which one is higher. */
  lemma CalculateUnitsSymmetric(accountBalance: real, riskPercentage: real, entryPrice: real, stopLossPrice: real)
    ensures CalculateUnits(accountBalance, riskPercentage, entryPrice, stopLossPrice)
         == CalculateUnits(accountBalance, riskPercentage, stopLossPrice, entryPrice)
  {
  }

  /** 3% of 10000 risked over a 0.0050 stop distance buys 60000 units. */
  lemma CalculateUnitsExample()
    ensures CalculateUnits(10000.0, 0.03, 1.1050, 1.1000) == Ok(60000)
  {
    var r := CalculateUnits(10000.0, 0.03, 1.1050, 1.1000);
    assert 10000.0 * 0.03 / Abs(1.1050 - 1.1000) == 60000.0;
    RoundingIsUnique(60000.0, r.value, 60000);
  }

  /**
   * The trailing-stop rule for one open trade: the new stop to send, or None.
   * A long trade (initial units > 0) moves its stop to price - k * ATR once the
   * price is more than k * ATR above the stop; a short trade mirrors this.
   * A NaN ATR makes both comparisons false.
   */
  function TrailingStopUpdate(initialUnits: int, currentPrice: real, stopLossPrice: real, atr: Option<real>): (r: Option<real>)
    ensures r.Some? <==>
              atr.Some? &&
              ((initialUnits > 0 && currentPrice > stopLossPrice + TrailingStopAtrMultiplier * atr.value)
               || (initialUnits < 0 && currentPrice < stopLossPrice - TrailingStopAtrMultiplier * atr.value))
    ensures r.Some? && initialUnits > 0 ==> r.value > stopLossPrice && currentPrice - r.value == TrailingStopAtrMultiplier * atr.value
    ensures r.Some? && initialUnits < 0 ==> r.value < stopLossPrice && r.value - currentPrice == TrailingStopAtrMultiplier * atr.value
  {
    if initialUnits > 0 then
      if atr.Some? && currentPrice > stopLossPrice + TrailingStopAtrMultiplier * atr.value then
        Some(currentPrice - TrailingStopAtrMultiplier * atr.value)
      else None
    else if initialUnits < 0 then
      if atr.Some? && currentPrice < stopLossPrice - TrailingStopAtrMultiplier * atr.value then
        Some(currentPrice + TrailingStopAtrMultiplier * atr.value)
      else None
    else None
  }

  /** The stop in force after the rule: the new one if it fired, the old one otherwise. */
  function StopAfterUpdate(initialUnits: int, currentPrice: real, stopLossPrice: real, atr: Option<real>): real
  {
    var u := TrailingStopUpdate(initialUnits, currentPrice, stopLossPrice, atr);
    if u.Some? then u.value else stopLossPrice
  }

  /** The stop never loosens: it only rises for a long trade and only falls for a short one. */
  lemma StopNeverLoosens(initialUnits: int, currentPrice: real, stopLossPrice: real, atr: Option<real>)
    ensures initialUnits > 0 ==> StopAfterUpdate(initialUnits, currentPrice, stopLossPrice, atr) >= stopLossPrice
    ensures initialUnits < 0 ==> StopAfterUpdate(initialUnits, currentPrice, stopLossPrice, atr) <= stopLossPrice
    ensures initialUnits == 0 ==> StopAfterUpdate(initialUnits, currentPrice, stopLossPrice, atr) == stopLossPrice
  {
  }

  /** Python's abs() of an int. */
  function AbsInt(n: int): nat
  {
    if n < 0 then -n else n
  }

  /** A market order: signed units and the stop-loss distance sent with it. */
  datatype Order = Order(units: int, stopDistance: real)

  /** The last values of the backtest frame that the entry rule reads. */
  datatype LastRow = LastRow(eurSma: Option<real>, dxySma: Option<real>, eurAdx: Option<real>, dxyAdx: Option<real>, atr: Option<real>)

  /** Buy setup: EUR_USD above its SMA, the dollar index below its SMA, both ADX above the threshold. */
  predicate BuySetup(currentPrice: real, currentDxy: real, last: LastRow)
  {
    Above(currentPrice, last.eurSma) && Below(currentDxy, last.dxySma)
    && Exceeds(last.eurAdx, AdxThreshold) && Exceeds(last.dxyAdx, AdxThreshold)
  }

  /** Sell setup: the mirror image. */
  predicate SellSetup(currentPrice: real, currentDxy: real, last: LastRow)
  {
    Below(currentPrice, last.eurSma) && Above(currentDxy, last.dxySma)
    && Exceeds(last.eurAdx, AdxThreshold) && Exceeds(last.dxyAdx, AdxThreshold)
  }

  /**
   * Units for an entry whose stop is k ATRs away. The ATR comes from the
   * frame as a numpy float64, so the division inside `calculate_units`
   * follows numpy rather than Python floats: a NaN ATR reaches round() as
   * NaN, which raises ValueError, and a zero ATR divides to inf instead of
   * raising ZeroDivisionError, and round(inf) raises OverflowError.
   */
  function SizedUnits(accountBalance: real, currentPrice: real, stop: Option<real>): (r: Result<int>)
    ensures r.Err? <==> stop.None? || stop.value == currentPrice
    ensures stop.None? ==> r == Err(ValueError)
    ensures stop.Some? && stop.value == currentPrice ==> r == Err(OverflowError)
    ensures r.Ok? ==> RoundsTo(accountBalance * RiskPercentage / Abs(currentPrice - stop.value), r.value)
  {
    if stop.None? then Err(ValueError)
    else if stop.value == currentPrice then Err(OverflowError)
    else CalculateUnits(accountBalance, RiskPercentage, currentPrice, stop.value)
  }

  /**
   * The entry decision made when no trade is open: Ok(None) when neither setup
   * holds, an order otherwise, or the error that sizing raises.
   */
  function EntryDecision(currentPrice: real, currentDxy: real, last: LastRow, accountBalance: real): (r: Result<Option<Order>>)
    ensures !BuySetup(currentPrice, currentDxy, last) && !SellSetup(currentPrice, currentDxy, last) <==> r == Ok(None)
    ensures ((BuySetup(currentPrice, currentDxy, last) || SellSetup(currentPrice, currentDxy, last))
             && last.atr.Some? && last.atr.value != 0.0) ==> r.Ok? && r.value.Some?
    ensures r.Ok? && r.value.Some? && BuySetup(currentPrice, currentDxy, last) ==> r.value.value.units >= 0
    ensures r.Ok? && r.value.Some? && SellSetup(currentPrice, currentDxy, last) ==> r.value.value.units <= 0
    ensures r.Ok? && r.value.Some? ==>
              && last.atr.Some? && last.atr.value != 0.0
              && r.value.value.stopDistance == Abs(TrailingStopAtrMultiplier * last.atr.value)
              && AbsInt(r.value.value.units)
                 == AbsInt(RoundHalfEven(accountBalance * RiskPercentage / Abs(TrailingStopAtrMultiplier * last.atr.value)))
  {
    if BuySetup(currentPrice, currentDxy, last) then
      var stop := StopBelow(currentPrice, last.atr);
      match SizedUnits(accountBalance, currentPrice, stop)
      case Err(e) => Err(e)
      case Ok(u) => Ok(Some(Order(AbsInt(u), Abs(currentPrice - stop.value))))
    else if SellSetup(currentPrice, currentDxy, last) then
      var stop := StopAbove(currentPrice, last.atr);
      match SizedUnits(accountBalance, currentPrice, stop)
      case Err(e) => Err(e)
      case Ok(u) => Ok(Some(Order(-(AbsInt(u) as int), Abs(currentPrice - stop.value))))
    else Ok(None)
  }

  /** The buy and sell setups never hold together. */
  lemma SetupsExclusive(currentPrice: real, currentDxy: real, last: LastRow)
    ensures !(BuySetup(currentPrice, currentDxy, last) && SellSetup(currentPrice, currentDxy, last))
  {
  }

  /**
   * Sizing fails exactly when a setup holds and ATR is NaN (ValueError) or 0
   * (OverflowError); the numpy division never raises ZeroDivisionError here.
   */
  lemma EntryErrors(currentPrice: real, currentDxy: real, last: LastRow, accountBalance: real)
    ensures var r := EntryDecision(currentPrice, currentDxy, last, accountBalance);
            var setup := BuySetup(currentPrice, currentDxy, last) || SellSetup(currentPrice, currentDxy, last);
            && (r == Err(ValueError) <==> setup && last.atr.None?)
            && (r == Err(OverflowError) <==> setup && last.atr == Some(0.0))
            && r != Err(ZeroDivisionError)
  {
  }

  /**
   * A buy and a sell at the same price and ATR are the same size: the stop is
   * k ATRs away on either side and sizing only sees the distance.
   */
  lemma BuyAndSellSizesAgree(accountBalance: real, currentPrice: real, atr: real)
    ensures SizedUnits(accountBalance, currentPrice, StopBelow(currentPrice, Some(atr)))
         == SizedUnits(accountBalance, currentPrice, StopAbove(currentPrice, Some(atr)))
  {
    assert Abs(currentPrice - (currentPrice - TrailingStopAtrMultiplier * atr))
        == Abs(currentPrice - (currentPrice + TrailingStopAtrMultiplier * atr));
  }
}
