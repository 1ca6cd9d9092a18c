/**
 * The buy and sell signals (strategy/strategy.go). Every predicate reads one
 * row of the price table; none keeps state.
 */
module Strategy {
  import opened Ratio

  /**
   * One row of the price table, with the indicator columns already computed:
   * timestamp, close price, EMA, MACD, MACD signal line, parabolic SAR,
   * Chaikin oscillator and price delta. `ema` is the column of the task's
   * EMA window, `EMA_<n>`, which `SetStratParams` renames to `EMA`.
   */
  datatype Row = Row(date: int, close: real, ema: real, macd: real, signal: real, sar: real, chai: real, dP: real)

  /** The strategy names the program accepts, in the order it lists them. */
  const StrategyNames: seq<string> := ["MACD-CHAI", "MACD", "PSAR", "MACD-PSAR", "alt-MACD"]

  /** Linear search of the strategy list with an early return. */
  method IsValidStrategy(name: string) returns (valid: bool)
    ensures valid <==> name in StrategyNames
  {
    for i := 0 to |StrategyNames|
      invariant forall j :: 0 <= j < i ==> StrategyNames[j] != name
    {
      if StrategyNames[i] == name {
        return true;
      }
    }
    return false;
  }

  predicate IsBuyPSAR(row: Row) {
    row.sar < row.close && row.close > row.ema
  }

  predicate IsBuyMACD(row: Row) {
    row.macd > row.signal && row.close > row.ema
  }

  predicate IsBuyAltMACD(row: Row) {
    row.macd > row.signal && row.close > row.ema && row.macd < 0.0
  }

  predicate IsBuyMACDCHAI(row: Row) {
    row.macd > row.signal && row.close > row.ema && row.chai > 0.0
  }

  /**
   * The buy signal of strategy `strat`. An unknown name never buys, and every
   * strategy buys only above the EMA.
   */
  function IsBuy(strat: string, row: Row): (buy: bool)
    ensures buy ==> strat in StrategyNames
    ensures buy ==> row.close > row.ema
    ensures buy ==> IsBuyMACD(row) || IsBuyPSAR(row)
  {
    if strat == "MACD-CHAI" then IsBuyMACDCHAI(row)
    else if strat == "MACD-PSAR" then IsBuyMACD(row) && IsBuyPSAR(row)
    else if strat == "PSAR" then IsBuyPSAR(row)
    else if strat == "MACD" then IsBuyMACD(row)
    else if strat == "alt-MACD" then IsBuyAltMACD(row)
    else false
  }

  /** Both MACD variants strengthen the plain MACD signal; MACD-PSAR is the conjunction. */
  lemma BuyVariantsRefineMACD(row: Row)
    ensures IsBuy("alt-MACD", row) ==> IsBuy("MACD", row)
    ensures IsBuy("MACD-CHAI", row) ==> IsBuy("MACD", row)
    ensures IsBuy("MACD-PSAR", row) <==> IsBuy("MACD", row) && IsBuy("PSAR", row)
  {
  }

  predicate SellCondition1(minReturn: real, currentReturn: Quotient) {
    currentReturn.Greater(minReturn)
  }

  predicate SellCondition2(price: real, ema: real, minReturn: real, currentReturn: Quotient) {
    (ema > price && currentReturn.Greater(minReturn)) || currentReturn.Greater(2.0 * minReturn)
  }

  predicate SellCondition3(price: real, ema: real, minReturn: real, currentReturn: Quotient) {
    ema < price && currentReturn.Greater(minReturn)
  }

  predicate SellCondition4(price: real, ema: real, macd: real, signal: real, minReturn: real, currentReturn: Quotient) {
    ema > price && macd < signal && currentReturn.Greater(minReturn)
  }

  /** Tests `ema > price`, although the source's comment on it reads "EMA < P". */
  predicate SellCondition5(price: real, ema: real, minReturn: real, currentReturn: Quotient) {
    ema > price && currentReturn.Greater(minReturn)
  }

  predicate SellCondition6(dP: real, minReturn: real, currentReturn: Quotient) {
    dP < 0.0 && currentReturn.Greater(minReturn)
  }

  /**
   * The sell signal of sell condition `sellCondition`. Only conditions 1 to 6
   * ever sell, and all but condition 2 sell only above `minReturn`; condition 2
   * does so too when `minReturn` is not negative.
   */
  function IsSell(minReturn: real, currentReturn: Quotient, row: Row, sellCondition: int): (sell: bool)
    ensures sell ==> 1 <= sellCondition <= 6
    ensures sell && (sellCondition != 2 || minReturn >= 0.0) ==> currentReturn.Greater(minReturn)
  {
    if sellCondition == 1 then SellCondition1(minReturn, currentReturn)
    else if sellCondition == 2 then SellCondition2(row.close, row.ema, minReturn, currentReturn)
    else if sellCondition == 3 then SellCondition3(row.close, row.ema, minReturn, currentReturn)
    else if sellCondition == 4 then SellCondition4(row.close, row.ema, row.macd, row.signal, minReturn, currentReturn)
    else if sellCondition == 5 then SellCondition5(row.close, row.ema, minReturn, currentReturn)
    else if sellCondition == 6 then SellCondition6(row.dP, minReturn, currentReturn)
    else false
  }

  /** With a negative `minReturn`, condition 2 sells at a return below `minReturn`. */
  lemma Condition2SellsBelowNegativeMinReturn(row: Row)
    ensures IsSell(-1.0, Finite(-1.5), row, 2)
    ensures !Finite(-1.5).Greater(-1.0)
  {
  }

  /** Condition 3 wants the price above the EMA and condition 5 below it. */
  lemma Conditions3And5Exclusive(minReturn: real, currentReturn: Quotient, row: Row)
    ensures !(IsSell(minReturn, currentReturn, row, 3) && IsSell(minReturn, currentReturn, row, 5))
  {
  }

  /** Condition 1 reads no column of the row and condition 6 reads only dP. */
  lemma Conditions1And6IgnoreIndicators(minReturn: real, currentReturn: Quotient, row: Row, other: Row)
    ensures IsSell(minReturn, currentReturn, row, 1) == IsSell(minReturn, currentReturn, other, 1)
    ensures row.dP == other.dP ==>
      IsSell(minReturn, currentReturn, row, 6) == IsSell(minReturn, currentReturn, other, 6)
  {
  }
}
