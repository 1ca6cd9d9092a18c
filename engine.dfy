/**
 * The trading state machine of simulation/simulation.go as functions on
 * values: one function per action, `Step` for one row and `Run` for a range
 * of rows. The class `Simulation.Simulation` updates its fields in place and
 * is proved to follow these functions; the lemmas here are about the
 * functions.
 */
module Engine {
  import opened Ratio
  import opened Strategy
  import opened Lots

  /** The parameters of one simulation, fixed once `SetStratParams` has run. */
  datatype Config = Config(
    strat: string,
    sellCondition: int,
    stratEMA: int,
    reinvestPercentage: real,
    minReturn: real,
    percentDrop: real,
    balanceTrip: real,
    feePercentage: real,
    taxRate: real,
    minReserves: real)

  /** The part of a simulation that its actions change. */
  datatype State = State(
    capital: real,
    reserves: real,
    lastBuyPrice: real,
    revenue: real,
    tax: real,
    fees: real,
    asset: real,
    numTransactions: int,
    buys: seq<int>,
    sells: seq<int>,
    balances: seq<int>,
    openReserves: seq<int>,
    purchaseHistory: seq<Purchase>)

  /**
   * The asset held is the total of the open lots, and every transaction is a
   * BUY or a SELL.
   */
  predicate Consistent(st: State) {
    && st.asset == SumAmounts(st.purchaseHistory)
    && st.numTransactions == |st.buys| + |st.sells|
  }

  /** `xs` is strictly increasing and holds row indices below `n`. */
  predicate IncreasingBelow(xs: seq<int>, n: int) {
    && (forall i, j :: 0 <= i < j < |xs| ==> xs[i] < xs[j])
    && (forall i :: 0 <= i < |xs| ==> 0 <= xs[i] < n)
  }

  /** Every event list is strictly increasing and records only rows before `n`. */
  predicate EventsBefore(st: State, n: int) {
    && IncreasingBelow(st.buys, n)
    && IncreasingBelow(st.sells, n)
    && IncreasingBelow(st.balances, n)
    && IncreasingBelow(st.openReserves, n)
  }

  /**
   * Fee and tax rates that together take at most the whole of a sale, and a
   * reinvest share between none and all of the net reward.
   */
  predicate SaneConfig(cfg: Config) {
    && 0.0 <= cfg.feePercentage && 0.0 <= cfg.taxRate && cfg.feePercentage + cfg.taxRate <= 1.0
    && 0.0 <= cfg.reinvestPercentage <= 1.0
  }

  /**
   * Capital, reserves and the asset held are never negative, and every open
   * lot was bought at a positive price for a non-negative amount.
   */
  predicate NonNegative(st: State) {
    && st.capital >= 0.0 && st.reserves >= 0.0 && st.asset >= 0.0
    && forall p :: p in st.purchaseHistory ==> p.price > 0.0 && p.amount >= 0.0
  }

  lemma AppendIncreasing(xs: seq<int>, n: int)
    requires IncreasingBelow(xs, n) && n >= 0
    ensures IncreasingBelow(xs + [n], n + 1)
    ensures IncreasingBelow(xs, n + 1)
  {
  }

  /** Half the investment is capital and half reserves; nothing else is held. */
  function Initial(investAmt: real): (st: State)
    ensures Consistent(st) && EventsBefore(st, 0)
    ensures st.capital == st.reserves && st.capital + st.reserves == investAmt
    ensures st.asset == 0.0 && st.purchaseHistory == []
    ensures st.lastBuyPrice == 0.0 && st.revenue == 0.0 && st.tax == 0.0 && st.fees == 0.0
    ensures st.numTransactions == 0 && st.buys == [] && st.sells == [] && st.balances == [] && st.openReserves == []
    ensures investAmt >= 0.0 ==> NonNegative(st)
  {
    State(investAmt / 2.0, investAmt / 2.0, 0.0, 0.0, 0.0, 0.0, 0.0, 0, [], [], [], [], [])
  }

  /** `(price - lastBuyPrice) / lastBuyPrice`, unguarded as in the source. */
  function CurrentReturn(st: State, price: real): (q: Quotient)
    ensures st.lastBuyPrice != 0.0 ==> q.Finite? && q.value * st.lastBuyPrice == price - st.lastBuyPrice
    ensures st.lastBuyPrice == 0.0 && price > 0.0 ==> q.PosInf?
  {
    Div(price - st.lastBuyPrice, st.lastBuyPrice)
  }

  datatype Positions = Positions(buy: bool, sell: bool, openRes: bool)

  /**
   * `calcPositions`: buy is considered only with capital on hand, sell only
   * without capital and with asset on hand, so never both. Before the first
   * purchase the return is +Inf, which never opens reserves.
   */
  function CalcPositions(cfg: Config, st: State, row: Row): (p: Positions)
    ensures !(p.buy && p.sell)
    ensures p.buy <==> st.capital > 0.0 && IsBuy(cfg.strat, row)
    ensures p.sell <==> st.capital <= 0.0 && st.asset > 0.0
                        && IsSell(cfg.minReturn, CurrentReturn(st, row.close), row, cfg.sellCondition)
    ensures p.openRes <==> st.capital < 1.0 && CurrentReturn(st, row.close).Less(cfg.percentDrop)
                           && st.reserves > cfg.minReserves
    ensures st.lastBuyPrice == 0.0 && row.close > 0.0 ==> !p.openRes
  {
    var currentReturn := CurrentReturn(st, row.close);
    var buy := st.capital > 0.0 && IsBuy(cfg.strat, row);
    var sell := !(st.capital > 0.0) && st.asset > 0.0
                && IsSell(cfg.minReturn, currentReturn, row, cfg.sellCondition);
    var openRes := st.capital < 1.0 && currentReturn.Less(cfg.percentDrop) && st.reserves > cfg.minReserves;
    Positions(buy, sell, openRes)
  }

  /**
   * `buyAsset`: all capital, less the fee, buys a new lot at `price`, which
   * goes to the front of the lot list.
   */
  function Buy(cfg: Config, st: State, price: real, index: int): (s: State)
    requires price > 0.0
    ensures s.capital == 0.0 && s.lastBuyPrice == price
    ensures s.purchaseHistory == [Purchase(price, s.asset - st.asset, index)] + st.purchaseHistory
    ensures s.reserves == st.reserves && s.revenue == st.revenue && s.tax == st.tax
    ensures s.numTransactions == st.numTransactions + 1
    ensures s.buys == st.buys + [index] && s.sells == st.sells
    ensures s.balances == st.balances && s.openReserves == st.openReserves
  {
    var fee := st.capital * cfg.feePercentage;
    var capital := st.capital - fee;
    var amount := capital / price;
    st.(fees := st.fees + fee,
        capital := 0.0,
        asset := st.asset + amount,
        purchaseHistory := [Purchase(price, amount, index)] + st.purchaseHistory,
        lastBuyPrice := price,
        numTransactions := st.numTransactions + 1,
        buys := st.buys + [index])
  }

  /**
   * A purchase pays the fee on the capital it spends and turns the rest into
   * units worth exactly that at the purchase price: capital plus fees plus
   * the asset's worth at `price` does not change, and the asset stays equal
   * to the open lots.
   */
  lemma BuyConservesValue(cfg: Config, st: State, price: real, index: int)
    requires price > 0.0
    ensures var s := Buy(cfg, st, price, index);
      && s.fees - st.fees == st.capital * cfg.feePercentage
      && (s.asset - st.asset) * price == st.capital - st.capital * cfg.feePercentage
      && s.capital + s.fees + s.asset * price == st.capital + st.fees + st.asset * price
      && (Consistent(st) ==> Consistent(s))
  {
    var capital := st.capital - st.capital * cfg.feePercentage;
    var amount := capital / price;
    assert amount * price == capital;
    var s := Buy(cfg, st, price, index);
    assert s.purchaseHistory[1..] == st.purchaseHistory;
    assert s.asset * price == st.asset * price + amount * price;
  }

  /** The open lots in price order, as `sellAsset` sorts them. */
  function SortedLots(st: State): (lots: seq<Purchase>)
    ensures SortedByPrice(lots)
    ensures multiset(lots) == multiset(st.purchaseHistory)
    ensures SumAmounts(lots) == SumAmounts(st.purchaseHistory)
  {
    SortByPrice(st.purchaseHistory)
  }

  /** How many of the sorted lots `sellAsset` liquidates before it breaks. */
  function SoldCount(cfg: Config, st: State, price: real): (k: nat)
    ensures k <= |SortedLots(st)|
  {
    QualifyingPrefix(SortedLots(st), price, cfg.minReturn)
  }

  /**
   * One pass of `sellAsset`'s loop body: the head lot is sold whole at
   * `price`, its units leave the asset, the sale is added to the
   * accumulators, and the lot leaves the list.
   */
  function SellHead(cfg: Config, st: State, price: real): (s: State)
    requires |st.purchaseHistory| > 0
    ensures s.purchaseHistory == st.purchaseHistory[1..]
    ensures s.asset == st.asset - st.purchaseHistory[0].amount
    ensures s.reserves == st.reserves && s.lastBuyPrice == st.lastBuyPrice
    ensures s.numTransactions == st.numTransactions && s.buys == st.buys && s.sells == st.sells
    ensures s.balances == st.balances && s.openReserves == st.openReserves
  {
    var p := st.purchaseHistory[0];
    var l := LotSale(p, price, cfg.feePercentage, cfg.taxRate, cfg.reinvestPercentage);
    st.(asset := st.asset - p.amount,
        capital := st.capital + l.capital,
        revenue := st.revenue + l.revenue,
        tax := st.tax + l.tax,
        fees := st.fees + l.fee,
        purchaseHistory := st.purchaseHistory[1..])
  }

  /**
   * `s` is `st` after its head lot was sold at `price`, field by field: how
   * the class's loop body leaves its fields.
   */
  predicate SoldHead(cfg: Config, st: State, price: real, s: State)
    requires |st.purchaseHistory| > 0
  {
    var p := st.purchaseHistory[0];
    var l := LotSale(p, price, cfg.feePercentage, cfg.taxRate, cfg.reinvestPercentage);
    && s.asset == st.asset - p.amount
    && s.capital == st.capital + l.capital && s.revenue == st.revenue + l.revenue
    && s.tax == st.tax + l.tax && s.fees == st.fees + l.fee
    && s.purchaseHistory == st.purchaseHistory[1..]
    && s.reserves == st.reserves && s.lastBuyPrice == st.lastBuyPrice
    && s.numTransactions == st.numTransactions && s.sells == st.sells
    && s.buys == st.buys && s.balances == st.balances && s.openReserves == st.openReserves
  }

  lemma SellHeadOutcome(cfg: Config, st: State, price: real, s: State)
    requires |st.purchaseHistory| > 0 && SoldHead(cfg, st, price, s)
    ensures s == SellHead(cfg, st, price)
  {
  }

  /**
   * The first `n` lots sold one after another from the head: `n` passes of
   * `sellAsset`'s loop body. The lots left are those after the first `n`,
   * and nothing but the lots and the four accumulators changes.
   */
  function SellFirst(cfg: Config, st: State, price: real, n: nat): (s: State)
    requires n <= |st.purchaseHistory|
    ensures s.purchaseHistory == st.purchaseHistory[n..]
    ensures s.reserves == st.reserves && s.lastBuyPrice == st.lastBuyPrice
    ensures s.numTransactions == st.numTransactions
    ensures s.buys == st.buys && s.sells == st.sells
    ensures s.balances == st.balances && s.openReserves == st.openReserves
    decreases n
  {
    if n == 0 then st else SellFirst(cfg, SellHead(cfg, st, price), price, n - 1)
  }

  /**
   * The loop of `sellAsset`: lots are sold from the head for as long as the
   * head's return exceeds `minReturn`, that is, the qualifying prefix.
   */
  function SellQualifying(cfg: Config, st: State, price: real): (s: State)
    ensures var k := QualifyingPrefix(st.purchaseHistory, price, cfg.minReturn);
      s.purchaseHistory == st.purchaseHistory[k..]
    ensures |s.purchaseHistory| > 0 ==> !Qualifies(s.purchaseHistory[0], price, cfg.minReturn)
    ensures s.reserves == st.reserves && s.lastBuyPrice == st.lastBuyPrice
    ensures s.numTransactions == st.numTransactions && s.buys == st.buys && s.sells == st.sells
    ensures s.balances == st.balances && s.openReserves == st.openReserves
  {
    SellFirst(cfg, st, price, QualifyingPrefix(st.purchaseHistory, price, cfg.minReturn))
  }

  /**
   * `sellAsset`: the lots are sorted by price and liquidated from the front
   * for as long as each one's return exceeds `minReturn`. One SELL counts as
   * one transaction however many lots it liquidates.
   */
  function Sell(cfg: Config, st: State, price: real, index: int): (s: State)
    ensures s.reserves == st.reserves && s.lastBuyPrice == st.lastBuyPrice
    ensures s.numTransactions == st.numTransactions + 1
    ensures s.sells == st.sells + [index] && s.buys == st.buys
    ensures s.balances == st.balances && s.openReserves == st.openReserves
  {
    var settled := SellQualifying(cfg, st.(purchaseHistory := SortedLots(st)), price);
    settled.(numTransactions := st.numTransactions + 1, sells := st.sells + [index])
  }

  /** `Sell` is the sort, then the loop on the sorted lots, then the SELL recorded. */
  lemma SellIsSortThenLoop(cfg: Config, st: State, sorted: State, settled: State, price: real, index: int, s: State)
    requires sorted == st.(purchaseHistory := SortByPrice(st.purchaseHistory))
    requires settled == SellQualifying(cfg, sorted, price)
    requires s == settled.(numTransactions := settled.numTransactions + 1, sells := settled.sells + [index])
    ensures s == Sell(cfg, st, price, index)
  {
  }

  /** Selling one more lot is one more pass of the loop body on the result. */
  lemma {:induction false} SellFirstStep(cfg: Config, st: State, price: real, n: nat)
    requires n < |st.purchaseHistory|
    ensures SellFirst(cfg, st, price, n + 1) == SellHead(cfg, SellFirst(cfg, st, price, n), price)
    decreases n
  {
    if n > 0 {
      SellFirstStep(cfg, SellHead(cfg, st, price), price, n - 1);
    }
  }

  /** Selling the first `n` lots takes exactly their units out of the asset. */
  lemma {:induction false} SellFirstSellsUnits(cfg: Config, st: State, price: real, n: nat)
    requires n <= |st.purchaseHistory|
    ensures SellFirst(cfg, st, price, n).asset == st.asset - SumAmounts(st.purchaseHistory[..n])
    decreases n
  {
    if n > 0 {
      var lots := st.purchaseHistory;
      SellFirstSellsUnits(cfg, SellHead(cfg, st, price), price, n - 1);
      assert lots[..n][1..] == lots[1..][..n - 1];
    }
  }

  /** Capital, revenue, tax and fees together. */
  function Accrued(st: State): real {
    st.capital + st.revenue + st.tax + st.fees
  }

  /**
   * Selling the first `n` lots makes capital, revenue, tax and fees together
   * grow by what those units fetch at `price`: every sale is split among
   * them with nothing lost.
   */
  lemma {:induction false} SellFirstSplitsProceeds(cfg: Config, st: State, price: real, n: nat)
    requires n <= |st.purchaseHistory|
    ensures var s := SellFirst(cfg, st, price, n);
      Accrued(s) - Accrued(st) == Proceeds(st.purchaseHistory, price) - Proceeds(s.purchaseHistory, price)
    decreases n
  {
    if n > 0 {
      var next := SellHead(cfg, st, price);
      SellFirstSplitsProceeds(cfg, next, price, n - 1);
      SellHeadAccrues(cfg, st, price);
      ProceedsOfHead(st.purchaseHistory, price);
    }
  }

  /** Selling the head lot accrues what its units fetch. */
  lemma SellHeadAccrues(cfg: Config, st: State, price: real)
    requires |st.purchaseHistory| > 0
    ensures Accrued(SellHead(cfg, st, price)) - Accrued(st) == st.purchaseHistory[0].amount * price
  {
    var l := LotSale(st.purchaseHistory[0], price, cfg.feePercentage, cfg.taxRate, cfg.reinvestPercentage);
    assert l.Total() == st.purchaseHistory[0].amount * price;
  }

  /**
   * A sale keeps the asset equal to the open lots: the units it removes are
   * those of the lots it sells, and capital, revenue, tax and fees together
   * grow by exactly what those units fetch at the price. With the asset
   * valued at the sale price nothing is created or lost.
   */
  lemma SellConservesValue(cfg: Config, st: State, price: real, index: int)
    requires Consistent(st)
    ensures var s := Sell(cfg, st, price, index);
      var sold := SortedLots(st)[..SoldCount(cfg, st, price)];
      && Consistent(s)
      && s.asset == st.asset - SumAmounts(sold)
      && Accrued(s) - Accrued(st) == Proceeds(sold, price)
  {
    var sorted := SortedLots(st);
    var k := SoldCount(cfg, st, price);
    assert sorted == sorted[..k] + sorted[k..];
    SumAmountsConcat(sorted[..k], sorted[k..]);
    ProceedsConcat(sorted[..k], sorted[k..], price);
    SellFirstSellsUnits(cfg, st.(purchaseHistory := sorted), price, k);
    SellFirstSplitsProceeds(cfg, st.(purchaseHistory := sorted), price, k);
  }

  /** Capital, revenue, tax, fees and the asset valued at `price`, together. */
  function ValueAt(st: State, price: real): real {
    Accrued(st) + st.asset * price
  }

  /**
   * With the asset valued at the sale price, a sale keeps capital, revenue,
   * tax, fees and the asset's worth together unchanged: what leaves the
   * asset is exactly what the four accumulators gain.
   */
  lemma SellKeepsValueAtPrice(cfg: Config, st: State, price: real, index: int)
    requires Consistent(st)
    ensures ValueAt(Sell(cfg, st, price, index), price) == ValueAt(st, price)
  {
    var s := Sell(cfg, st, price, index);
    SellConservesValue(cfg, st, price, index);
    ValueMovesAtPrice(st, s, SortedLots(st)[..SoldCount(cfg, st, price)], price);
  }

  /**
   * Lots leaving the asset while their proceeds at `price` are accrued keep
   * the value at `price`.
   */
  lemma ValueMovesAtPrice(st: State, s: State, sold: seq<Purchase>, price: real)
    requires s.asset == st.asset - SumAmounts(sold)
    requires Accrued(s) - Accrued(st) == Proceeds(sold, price)
    ensures ValueAt(s, price) == ValueAt(st, price)
  {
    ProceedsIsPriceTimesAmount(sold, price);
    assert s.asset * price == st.asset * price - price * SumAmounts(sold);
  }

  /**
   * A sale removes exactly the qualifying prefix of the sorted lots and keeps
   * the rest, still in price order.
   */
  lemma SellSplitsSortedLots(cfg: Config, st: State, price: real, index: int)
    ensures var s := Sell(cfg, st, price, index);
      var sold := SortedLots(st)[..SoldCount(cfg, st, price)];
      && multiset(sold) + multiset(s.purchaseHistory) == multiset(st.purchaseHistory)
      && (forall p :: p in sold ==> Qualifies(p, price, cfg.minReturn))
      && SortedByPrice(s.purchaseHistory)
  {
    var sorted := SortedLots(st);
    var k := SoldCount(cfg, st, price);
    var s := Sell(cfg, st, price, index);
    assert s.purchaseHistory == sorted[k..];
    SplitSorted(sorted, k);
    forall p | p in sorted[..k]
      ensures Qualifies(p, price, cfg.minReturn)
    {
      var j :| 0 <= j < k && sorted[j] == p;
    }
  }

  /**
   * With every lot bought at a positive price and a positive market price,
   * no lot a sale keeps qualifies, so the early break loses nothing.
   */
  lemma SellKeepsNoQualifyingLot(cfg: Config, st: State, price: real, index: int)
    requires price > 0.0 && forall p :: p in st.purchaseHistory ==> p.price > 0.0
    ensures forall p :: p in Sell(cfg, st, price, index).purchaseHistory ==> !Qualifies(p, price, cfg.minReturn)
  {
    var sorted := SortedLots(st);
    forall j | 0 <= j < |sorted|
      ensures sorted[j].price > 0.0
    {
      assert sorted[j] in multiset(st.purchaseHistory);
    }
    QualifyingPrefixIsExact(sorted, price, cfg.minReturn);
  }

  /**
   * The unguarded balance test `capital / reserves > balanceTrip`: with no
   * reserves left and capital on hand the quotient is +Inf and the balance
   * fires whatever the tripwire.
   */
  function BalanceTriggered(st: State, balanceTrip: real): (fires: bool)
    ensures st.reserves == 0.0 && st.capital > 0.0 ==> fires
    ensures st.reserves == 0.0 && st.capital <= 0.0 ==> !fires
    ensures st.reserves != 0.0 ==> (fires <==> st.capital / st.reserves > balanceTrip)
  {
    Div(st.capital, st.reserves).Greater(balanceTrip)
  }

  /** `balanceFunds`: capital and reserves are split evenly, their total kept. */
  function Balance(st: State, index: int): (s: State)
    ensures s.capital == s.reserves
    ensures s.capital + s.reserves == st.capital + st.reserves
    ensures s.balances == st.balances + [index]
    ensures s.buys == st.buys && s.sells == st.sells && s.openReserves == st.openReserves
    ensures s.asset == st.asset && s.purchaseHistory == st.purchaseHistory
    ensures s.numTransactions == st.numTransactions
    ensures s.lastBuyPrice == st.lastBuyPrice && s.revenue == st.revenue && s.tax == st.tax && s.fees == st.fees
  {
    var total := st.capital + st.reserves;
    st.(capital := total / 2.0, reserves := total / 2.0, balances := st.balances + [index])
  }

  /**
   * `openReserves`: half the reserves become the capital, overwriting what
   * capital there was, so the total is kept only when capital was zero.
   */
  function OpenReserves(st: State, index: int): (s: State)
    ensures s.capital == s.reserves && s.reserves * 2.0 == st.reserves
    ensures s.capital + s.reserves == st.capital + st.reserves - st.capital
    ensures s.openReserves == st.openReserves + [index]
    ensures s.buys == st.buys && s.sells == st.sells && s.balances == st.balances
    ensures s.asset == st.asset && s.purchaseHistory == st.purchaseHistory
    ensures s.numTransactions == st.numTransactions
    ensures s.lastBuyPrice == st.lastBuyPrice && s.revenue == st.revenue && s.tax == st.tax && s.fees == st.fees
  {
    st.(capital := st.reserves / 2.0, reserves := st.reserves / 2.0, openReserves := st.openReserves + [index])
  }

  /**
   * One pass of `RunSimulation`'s loop at row `index`: at most one of sell
   * (then possibly balance), buy, or open reserves, in that priority.
   */
  function Step(cfg: Config, st: State, row: Row, index: int): (s: State)
    requires row.close > 0.0
    ensures s.numTransactions <= st.numTransactions + 1
  {
    var p := CalcPositions(cfg, st, row);
    if p.sell then
      var sold := Sell(cfg, st, row.close, index);
      if BalanceTriggered(sold, cfg.balanceTrip) then Balance(sold, index) else sold
    else if p.buy then Buy(cfg, st, row.close, index)
    else if p.openRes then OpenReserves(st, index)
    else st
  }

  /**
   * A step keeps the asset equal to the open lots and the transaction count
   * equal to the number of BUY and SELL events.
   */
  lemma StepKeepsConsistent(cfg: Config, st: State, row: Row, index: int)
    requires row.close > 0.0 && Consistent(st)
    ensures Consistent(Step(cfg, st, row, index))
  {
    var p := CalcPositions(cfg, st, row);
    if p.sell {
      SellConservesValue(cfg, st, row.close, index);
    } else if p.buy {
      BuyConservesValue(cfg, st, row.close, index);
    }
  }

  /** A step records events only at its own row, after all earlier ones. */
  lemma StepKeepsEventsOrdered(cfg: Config, st: State, row: Row, index: int)
    requires row.close > 0.0 && index >= 0 && EventsBefore(st, index)
    ensures EventsBefore(Step(cfg, st, row, index), index + 1)
  {
    AppendIncreasing(st.buys, index);
    AppendIncreasing(st.sells, index);
    AppendIncreasing(st.balances, index);
    AppendIncreasing(st.openReserves, index);
  }

  /**
   * `RunSimulation`'s dispatch at one row: a sale if the positions allow
   * one, otherwise a buy, otherwise opening the reserves, otherwise nothing.
   * Each records only its own event at the row, and a balance is recorded
   * only together with a sale.
   */
  lemma StepDispatch(cfg: Config, st: State, row: Row, index: int)
    requires row.close > 0.0
    ensures var p, s := CalcPositions(cfg, st, row), Step(cfg, st, row, index);
      && (p.sell ==> && s.sells == st.sells + [index] && s.buys == st.buys
                     && s.openReserves == st.openReserves
                     && (s.balances == st.balances || s.balances == st.balances + [index]))
      && (!p.sell && p.buy ==> && s.buys == st.buys + [index] && s.sells == st.sells
                               && s.openReserves == st.openReserves && s.balances == st.balances)
      && (!p.sell && !p.buy && p.openRes ==> && s.openReserves == st.openReserves + [index]
                                             && s.buys == st.buys && s.sells == st.sells
                                             && s.balances == st.balances)
      && (!p.sell && !p.buy && !p.openRes ==> s == st)
  {
  }

  /**
   * Every balance was taken at a row where a sale was made: the balance
   * rows are among the sale rows, each as often as it is balanced.
   */
  predicate BalancesAreSells(st: State) {
    multiset(st.balances) <= multiset(st.sells)
  }

  /** So every balanced row is a sold row. */
  lemma BalancedRowsWereSold(st: State)
    requires BalancesAreSells(st)
    ensures forall i :: i in st.balances ==> i in st.sells
  {
    forall i | i in st.balances
      ensures i in st.sells
    {
      assert i in multiset(st.balances);
    }
  }

  /** A step balances only at a row where it also sells. */
  lemma StepKeepsBalancesAreSells(cfg: Config, st: State, row: Row, index: int)
    requires row.close > 0.0 && BalancesAreSells(st)
    ensures BalancesAreSells(Step(cfg, st, row, index))
  {
  }

  /**
   * Selling lots bought at positive prices, at a positive price, never
   * makes non-negative capital negative.
   */
  lemma {:induction false} SellFirstKeepsCapitalNonNegative(cfg: Config, st: State, price: real, n: nat)
    requires SaneConfig(cfg) && price > 0.0 && st.capital >= 0.0
    requires forall p :: p in st.purchaseHistory ==> p.price > 0.0 && p.amount >= 0.0
    requires n <= |st.purchaseHistory|
    ensures SellFirst(cfg, st, price, n).capital >= 0.0
    decreases n
  {
    if n > 0 {
      var p := st.purchaseHistory[0];
      assert p in st.purchaseHistory;
      LotSaleKeepsCapitalNonNegative(p, price, cfg.feePercentage, cfg.taxRate, cfg.reinvestPercentage);
      var next := SellHead(cfg, st, price);
      forall q | q in next.purchaseHistory
        ensures q.price > 0.0 && q.amount >= 0.0
      {
        assert q in st.purchaseHistory;
      }
      SellFirstKeepsCapitalNonNegative(cfg, next, price, n - 1);
    }
  }

  /** A sale keeps capital, reserves and the asset non-negative. */
  lemma SellKeepsNonNegative(cfg: Config, st: State, price: real, index: int)
    requires SaneConfig(cfg) && price > 0.0 && Consistent(st) && NonNegative(st)
    ensures NonNegative(Sell(cfg, st, price, index)) && Consistent(Sell(cfg, st, price, index))
  {
    var sorted := SortedLots(st);
    var s := Sell(cfg, st, price, index);
    forall q | q in sorted
      ensures q.price > 0.0 && q.amount >= 0.0
    {
      assert q in multiset(st.purchaseHistory);
    }
    SellFirstKeepsCapitalNonNegative(cfg, st.(purchaseHistory := sorted), price, SoldCount(cfg, st, price));
    SellConservesValue(cfg, st, price, index);
    SellSplitsSortedLots(cfg, st, price, index);
    forall q | q in s.purchaseHistory
      ensures q.price > 0.0 && q.amount >= 0.0
    {
      assert q in multiset(s.purchaseHistory);
      assert q in multiset(st.purchaseHistory);
    }
    SumAmountsNonNegative(s.purchaseHistory);
  }

  /**
   * A step keeps capital, reserves and the asset non-negative, and every
   * open lot bought at a positive price.
   */
  lemma StepKeepsNonNegative(cfg: Config, st: State, row: Row, index: int)
    requires SaneConfig(cfg) && row.close > 0.0 && Consistent(st) && NonNegative(st)
    ensures NonNegative(Step(cfg, st, row, index))
  {
    var p := CalcPositions(cfg, st, row);
    if p.sell {
      SellKeepsNonNegative(cfg, st, row.close, index);
    } else if p.buy {
      var s := Buy(cfg, st, row.close, index);
      MulNonNegative(st.capital, 1.0 - cfg.feePercentage);
      BuyConservesValue(cfg, st, row.close, index);
      assert s.asset - st.asset >= 0.0 by {
        if s.asset - st.asset < 0.0 {
          MulNonPositive(s.asset - st.asset, -row.close);
          assert false;
        }
      }
      forall q | q in s.purchaseHistory
        ensures q.price > 0.0 && q.amount >= 0.0
      {
        if q != s.purchaseHistory[0] {
          assert q in s.purchaseHistory[1..];
        }
      }
    }
  }

  /** Rows `lo` to `hi - 1` processed in order, each once, starting from `st`. */
  function Run(cfg: Config, st: State, rows: seq<Row>, lo: int, hi: int): (s: State)
    requires 0 <= lo <= hi <= |rows|
    requires forall k :: lo <= k < hi ==> rows[k].close > 0.0
    ensures s.numTransactions <= st.numTransactions + (hi - lo)
    decreases hi - lo
  {
    if lo == hi then st
    else Run(cfg, Step(cfg, st, rows[lo], lo), rows, lo + 1, hi)
  }

  /**
   * However many rows are processed, the asset stays equal to the open lots
   * and the transaction count to the BUY and SELL events.
   */
  lemma {:induction false} RunKeepsConsistent(cfg: Config, st: State, rows: seq<Row>, lo: int, hi: int)
    requires 0 <= lo <= hi <= |rows|
    requires forall k :: lo <= k < hi ==> rows[k].close > 0.0
    requires Consistent(st)
    ensures Consistent(Run(cfg, st, rows, lo, hi))
    decreases hi - lo
  {
    if lo < hi {
      StepKeepsConsistent(cfg, st, rows[lo], lo);
      RunKeepsConsistent(cfg, Step(cfg, st, rows[lo], lo), rows, lo + 1, hi);
    }
  }

  /**
   * Every event list stays strictly increasing and within the rows
   * processed so far.
   */
  lemma {:induction false} RunKeepsEventsOrdered(cfg: Config, st: State, rows: seq<Row>, lo: int, hi: int)
    requires 0 <= lo <= hi <= |rows|
    requires forall k :: lo <= k < hi ==> rows[k].close > 0.0
    requires EventsBefore(st, lo)
    ensures EventsBefore(Run(cfg, st, rows, lo, hi), hi)
    decreases hi - lo
  {
    if lo < hi {
      StepKeepsEventsOrdered(cfg, st, rows[lo], lo);
      RunKeepsEventsOrdered(cfg, Step(cfg, st, rows[lo], lo), rows, lo + 1, hi);
    }
  }

  /** However many rows are processed, every balance follows a sale at its row. */
  lemma {:induction false} RunKeepsBalancesAreSells(cfg: Config, st: State, rows: seq<Row>, lo: int, hi: int)
    requires 0 <= lo <= hi <= |rows|
    requires forall k :: lo <= k < hi ==> rows[k].close > 0.0
    requires BalancesAreSells(st)
    ensures BalancesAreSells(Run(cfg, st, rows, lo, hi))
    decreases hi - lo
  {
    if lo < hi {
      var next := Step(cfg, st, rows[lo], lo);
      StepKeepsBalancesAreSells(cfg, st, rows[lo], lo);
      RunKeepsBalancesAreSells(cfg, next, rows, lo + 1, hi);
    }
  }

  /**
   * However many rows are processed, capital, reserves and the asset stay
   * non-negative and every open lot was bought at a positive price.
   */
  lemma {:induction false} RunKeepsNonNegative(cfg: Config, st: State, rows: seq<Row>, lo: int, hi: int)
    requires 0 <= lo <= hi <= |rows|
    requires forall k :: lo <= k < hi ==> rows[k].close > 0.0
    requires SaneConfig(cfg) && Consistent(st) && NonNegative(st)
    ensures NonNegative(Run(cfg, st, rows, lo, hi))
    decreases hi - lo
  {
    if lo < hi {
      StepKeepsNonNegative(cfg, st, rows[lo], lo);
      StepKeepsConsistent(cfg, st, rows[lo], lo);
      RunKeepsNonNegative(cfg, Step(cfg, st, rows[lo], lo), rows, lo + 1, hi);
    }
  }

  /**
   * In every state a simulation can reach from its start, a sale leaves no
   * lot that would still have qualified: the positive purchase prices that
   * `SellKeepsNoQualifyingLot` needs always hold.
   */
  lemma ReachedSaleLeavesNoQualifyingLot(cfg: Config, investAmt: real, rows: seq<Row>, k: int, price: real,
                                         index: int)
    requires SaneConfig(cfg) && investAmt >= 0.0 && price > 0.0
    requires 0 <= k <= |rows| && forall j :: 0 <= j < k ==> rows[j].close > 0.0
    ensures var st := Run(cfg, Initial(investAmt), rows, 0, k);
      forall p :: p in Sell(cfg, st, price, index).purchaseHistory ==> !Qualifies(p, price, cfg.minReturn)
  {
    RunKeepsNonNegative(cfg, Initial(investAmt), rows, 0, k);
    SellKeepsNoQualifyingLot(cfg, Run(cfg, Initial(investAmt), rows, 0, k), price, index);
  }

  /** The final value reported: cash, reserves and the asset at the last price. */
  function FinalValue(st: State, price: real): real {
    st.capital + st.reserves + st.asset * price
  }

  /**
   * With the asset equal to the open lots, the reported value is cash,
   * reserves, and what every open lot fetches at `price`.
   */
  lemma FinalValueCountsOpenLots(st: State, price: real)
    requires Consistent(st)
    ensures FinalValue(st, price) == st.capital + st.reserves + Proceeds(st.purchaseHistory, price)
  {
    ProceedsIsPriceTimesAmount(st.purchaseHistory, price);
  }

  /**
   * `getBuyHold`: the profit of investing `investment` at the first close,
   * paying the fee, and selling at the last close, paying the fee and, on a
   * gain over the investment, the tax.
   */
  function BuyHold(initialPrice: real, finalPrice: real, investment: real, feePercentage: real, taxRate: real): real
    requires initialPrice > 0.0
  {
    var feeBuy := investment * feePercentage;
    var capital := investment - feeBuy;
    var amount := capital / initialPrice;
    var usdValueSold := amount * finalPrice;
    var feeSell := usdValueSold * feePercentage;
    var gain := usdValueSold - investment;
    if gain > 0.0 then gain - gain * taxRate - feeSell else gain - feeSell
  }

  /** Without a gain over the investment the tax rate has no effect. */
  lemma BuyHoldTaxOnlyOnGain(initialPrice: real, finalPrice: real, investment: real, feePercentage: real, taxRate: real, otherRate: real)
    requires initialPrice > 0.0
    requires (investment - investment * feePercentage) / initialPrice * finalPrice <= investment
    ensures BuyHold(initialPrice, finalPrice, investment, feePercentage, taxRate)
         == BuyHold(initialPrice, finalPrice, investment, feePercentage, otherRate)
  {
  }

  /** On a flat market the benchmark loses exactly the two fees. */
  lemma BuyHoldFlatMarket(price: real, investment: real, feePercentage: real, taxRate: real)
    requires price > 0.0 && investment >= 0.0 && feePercentage >= 0.0
    ensures BuyHold(price, price, investment, feePercentage, taxRate)
         == -(investment * feePercentage) - (investment - investment * feePercentage) * feePercentage
  {
    var capital := investment - investment * feePercentage;
    assert capital / price * price == capital;
  }
}
