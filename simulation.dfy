/**
 * The `Simulation` record of simulation/simulation.go as a class whose
 * fields its actions update in place. Every action is proved to leave the
 * class in the state the matching `Engine` function computes, so what the
 * lemmas of `Engine` prove about those functions holds of the class.
 */
module Simulation {
  import opened Wrappers
  import opened Ratio
  import opened Strategy
  import opened Lots
  import Engine

  /**
   * The fields of the result line of one simulation, before rounding and
   * formatting: first and last timestamp, the parameters, the buy-and-hold
   * benchmark, the final value, the accumulators and the event lists.
   */
  datatype SimResult = SimResult(
    assetName: string,
    start: int,
    end: int,
    strat: string,
    stratEMA: int,
    reinvestPercentage: real,
    minReturn: real,
    percentDrop: real,
    balanceTrip: real,
    buyHold: real,
    finalValue: real,
    revenue: real,
    tax: real,
    fees: real,
    numTransactions: int,
    buys: seq<int>,
    sells: seq<int>,
    balances: seq<int>,
    openReserves: seq<int>,
    dataFile: string)

  class Simulation {
    const initialInvestment: real
    const assetName: string
    const dataFile: string
    const feePercentage: real
    const taxRate: real
    const minReserves: real
    /** The price table, one row per hour, in date order. */
    const rows: seq<Row>

    var capital: real
    var reserves: real
    var lastBuyPrice: real
    var revenue: real
    var tax: real
    var fees: real
    var asset: real
    var numTransactions: int
    var strat: string
    var sellCondition: int
    var stratEMA: int
    var reinvestPercentage: real
    var minReturn: real
    var percentDrop: real
    var balanceTrip: real
    var buys: seq<int>
    var sells: seq<int>
    var balances: seq<int>
    var openReserves: seq<int>
    var purchaseHistory: seq<Purchase>
    /** The row the simulation is at. */
    var index: int

    /** The parameters the actions read. */
    function Cfg(): Engine.Config
      reads this`strat, this`sellCondition, this`stratEMA, this`reinvestPercentage, this`minReturn,
            this`percentDrop, this`balanceTrip
    {
      Engine.Config(strat, sellCondition, stratEMA, reinvestPercentage, minReturn,
                    percentDrop, balanceTrip, feePercentage, taxRate, minReserves)
    }

    /** The fields the actions change. */
    function Current(): Engine.State
      reads this`capital, this`reserves, this`lastBuyPrice, this`revenue, this`tax, this`fees, this`asset,
            this`numTransactions, this`buys, this`sells, this`balances, this`openReserves, this`purchaseHistory
    {
      Engine.State(capital, reserves, lastBuyPrice, revenue, tax, fees, asset, numTransactions,
                   buys, sells, balances, openReserves, purchaseHistory)
    }

    /**
     * `NewSimulation`: half the investment is capital and half reserves, the
     * reserve floor is an eighth of the investment, and no strategy is set.
     */
    constructor NewSimulation(asset: string, investAmt: real, taxRate: real, feePercentage: real,
                              dataFile: string, data: seq<Row>)
      ensures Current() == Engine.Initial(investAmt)
      ensures initialInvestment == investAmt && minReserves == investAmt * 0.125
      ensures this.assetName == asset && this.dataFile == dataFile && rows == data
      ensures this.taxRate == taxRate && this.feePercentage == feePercentage
      ensures strat == "" && sellCondition == 0 && stratEMA == 0 && index == 0
      ensures reinvestPercentage == 0.0 && minReturn == 0.0 && percentDrop == 0.0 && balanceTrip == 0.0
    {
      initialInvestment := investAmt;
      assetName := asset;
      this.dataFile := dataFile;
      this.feePercentage := feePercentage;
      this.taxRate := taxRate;
      capital := investAmt / 2.0;
      reserves := investAmt / 2.0;
      lastBuyPrice := 0.0;
      revenue := 0.0;
      tax := 0.0;
      fees := 0.0;
      this.asset := 0.0;
      numTransactions := 0;
      strat := "";
      sellCondition := 0;
      stratEMA := 0;
      reinvestPercentage := 0.0;
      minReturn := 0.0;
      percentDrop := 0.0;
      balanceTrip := 0.0;
      minReserves := investAmt * 0.125;
      buys := [];
      sells := [];
      balances := [];
      openReserves := [];
      purchaseHistory := [];
      rows := data;
      index := 0;
    }

    /**
     * `SetStratParams`: an unknown strategy is refused with "Invalid strategy"
     * and nothing changes; otherwise the parameters are stored, the drop
     * threshold negated, and the simulation rewound to the first row.
     */
    method SetStratParams(strat: string, sellCondition: int, ema: int, reinvestPercentage: real,
                          minReturn: real, percentDrop: real, balanceTrip: real)
      returns (err: Option<string>)
      modifies this`strat, this`sellCondition, this`stratEMA, this`reinvestPercentage, this`minReturn,
               this`percentDrop, this`balanceTrip, this`index
      ensures err.Some? <==> strat !in StrategyNames
      ensures err.Some? ==> err.value == "Invalid strategy" && Cfg() == old(Cfg()) && index == old(index)
      ensures err.None? ==> Cfg() == Engine.Config(strat, sellCondition, ema, reinvestPercentage, minReturn,
                                                   -1.0 * percentDrop, balanceTrip, feePercentage, taxRate, minReserves)
      ensures err.None? ==> index == 0
    {
      var valid := IsValidStrategy(strat);
      if valid {
        this.strat := strat;
      } else {
        return Some("Invalid strategy");
      }
      stratEMA := ema;
      this.sellCondition := sellCondition;
      this.reinvestPercentage := reinvestPercentage;
      this.minReturn := minReturn;
      this.percentDrop := -1.0 * percentDrop;
      this.balanceTrip := balanceTrip;
      index := 0;
      return None;
    }

    /** `buyAsset` at the current row. */
    method BuyAsset()
      requires 0 <= index < |rows| && rows[index].close > 0.0
      modifies this`fees, this`capital, this`asset, this`purchaseHistory, this`lastBuyPrice,
               this`numTransactions, this`buys
      ensures Current() == Engine.Buy(old(Cfg()), old(Current()), rows[old(index)].close, old(index))
    {
      ghost var st := Current();
      var fee := capital * feePercentage;
      var capital := this.capital - fee;
      var price := rows[index].close;
      var amount := capital / price;
      ghost var s := Engine.Buy(Cfg(), st, price, index);
      fees := fees + fee;
      this.capital := 0.0;
      asset := asset + amount;
      var p := Purchase(price, amount, index);
      purchaseHistory := [p] + purchaseHistory;
      lastBuyPrice := price;
      numTransactions := numTransactions + 1;
      buys := buys + [index];
      assert this.capital == s.capital;
      assert fees == s.fees;
      assert asset == s.asset;
      assert purchaseHistory == s.purchaseHistory;
      assert Current() == s;
    }

    /**
     * `sellAsset` at the current row: the lots are sorted by price, then a
     * copy is walked from the front, each qualifying lot sold and dropped
     * from the head of the list, until the first lot that does not qualify.
     */
    method SellAsset()
      requires 0 <= index < |rows|
      modifies this`asset, this`capital, this`revenue, this`tax, this`fees, this`purchaseHistory,
               this`numTransactions, this`sells
      ensures Current() == Engine.Sell(old(Cfg()), old(Current()), rows[old(index)].close, old(index))
      ensures Cfg() == old(Cfg()) && index == old(index)
    {
      var price := rows[index].close;
      ghost var cfg, st, at := Cfg(), Current(), index;
      SortLots();
      ghost var sorted := Current();
      SellQualifying(price);
      ghost var settled := Current();
      RecordSell();
      Engine.SellIsSortThenLoop(cfg, st, sorted, settled, price, at, Current());
    }

    /** The last step of `sellAsset`: one SELL is recorded at the current row. */
    method RecordSell()
      modifies this`numTransactions, this`sells
      ensures Current() == old(Current()).(numTransactions := old(Current()).numTransactions + 1,
                                           sells := old(Current()).sells + [index])
      ensures Cfg() == old(Cfg()) && index == old(index)
    {
      numTransactions := numTransactions + 1;
      sells := sells + [index];
    }

    /** The first step of `sellAsset`: the lots are put in price order. */
    method SortLots()
      modifies this`purchaseHistory
      ensures Current() == old(Current()).(purchaseHistory := SortByPrice(old(Current()).purchaseHistory))
      ensures Cfg() == old(Cfg()) && index == old(index)
    {
      purchaseHistory := SortByPrice(purchaseHistory);
    }

    /**
     * The loop of `sellAsset`: a copy of the lots is walked from the front,
     * each lot whose return exceeds `minReturn` is sold and dropped from the
     * head of the list, and the first one that does not qualify ends it.
     */
    method SellQualifying(price: real)
      modifies this`asset, this`capital, this`revenue, this`tax, this`fees, this`purchaseHistory
      ensures Current() == Engine.SellQualifying(old(Cfg()), old(Current()), price)
    {
      ghost var cfg, st := Cfg(), Current();
      var ph := purchaseHistory;
      var i := 0;
      while i < |ph|
        invariant 0 <= i <= |ph|
        invariant Cfg() == cfg && Current() == Engine.SellFirst(cfg, st, price, i)
        invariant forall j :: 0 <= j < i ==> Qualifies(ph[j], price, minReturn)
      {
        ghost var before := Current();
        var sold := SellStep(ph[i], price);
        if !sold {
          break;
        }
        assert Cfg() == cfg;
        assert Current() == Engine.SellHead(cfg, before, price);
        Engine.SellFirstStep(cfg, st, price, i);
        i := i + 1;
      }
      assert i == QualifyingPrefix(ph, price, minReturn);
    }

    /**
     * One pass of `sellAsset`'s loop over the head lot `p`: it is sold if its
     * return exceeds `minReturn`, and the loop stops otherwise.
     */
    method SellStep(p: Purchase, price: real) returns (sold: bool)
      requires |purchaseHistory| > 0 && purchaseHistory[0] == p
      modifies this`asset, this`capital, this`revenue, this`tax, this`fees, this`purchaseHistory
      ensures sold <==> Qualifies(p, price, minReturn)
      ensures sold ==> Current() == Engine.SellHead(Cfg(), old(Current()), price)
      ensures !sold ==> Current() == old(Current())
    {
      var currentReturn := Div(price - p.price, p.price);
      if currentReturn.Greater(minReturn) {
        ghost var before := Current();
        SellLot(p, price);
        Engine.SellHeadOutcome(Cfg(), before, price, Current());
        sold := true;
      } else {
        sold := false;
      }
    }

    /**
     * One pass of `sellAsset`'s loop body: the head lot `p` is sold whole at
     * `price` (the arithmetic is `LotSale`), its units leave the asset, the
     * sale is added to the accumulators, and the lot leaves the list.
     */
    method SellLot(p: Purchase, price: real)
      requires |purchaseHistory| > 0
      modifies this`asset, this`capital, this`revenue, this`tax, this`fees, this`purchaseHistory
      ensures var l := LotSale(p, price, feePercentage, taxRate, reinvestPercentage);
        && asset == old(asset) - p.amount
        && capital == old(capital) + l.capital && revenue == old(revenue) + l.revenue
        && tax == old(tax) + l.tax && fees == old(fees) + l.fee
        && purchaseHistory == old(purchaseHistory)[1..]
    {
      var sale := LotSale(p, price, feePercentage, taxRate, reinvestPercentage);
      capital := capital + sale.capital;
      revenue := revenue + sale.revenue;
      tax := tax + sale.tax;
      fees := fees + sale.fee;
      asset := asset - p.amount;
      purchaseHistory := purchaseHistory[1..];
    }

    /** `balanceFunds` at the current row. */
    method BalanceFunds()
      modifies this`capital, this`reserves, this`balances
      ensures Current() == Engine.Balance(old(Current()), old(index))
    {
      var total := capital + reserves;
      capital := total / 2.0;
      reserves := total / 2.0;
      balances := balances + [index];
    }

    /** `openReserves` at the current row. */
    method OpenReserves()
      modifies this`capital, this`reserves, this`openReserves
      ensures Current() == Engine.OpenReserves(old(Current()), old(index))
    {
      capital := reserves / 2.0;
      reserves := reserves / 2.0;
      openReserves := openReserves + [index];
    }

    /**
     * `getResultString` before rounding and formatting: the first and last
     * timestamps, the parameters, the buy-and-hold benchmark, the value of
     * the position at `price`, and the accumulators and event lists.
     */
    function ResultAt(price: real): (r: SimResult)
      requires |rows| > 0 && rows[0].close > 0.0
      reads this
      ensures r.finalValue == Engine.FinalValue(Current(), price)
      ensures r.buyHold == Engine.BuyHold(rows[0].close, rows[|rows| - 1].close, initialInvestment, feePercentage, taxRate)
      ensures r.assetName == assetName && r.dataFile == dataFile
      ensures r.start == rows[0].date && r.end == rows[|rows| - 1].date
      ensures r.strat == Cfg().strat && r.stratEMA == Cfg().stratEMA
      ensures r.reinvestPercentage == Cfg().reinvestPercentage && r.minReturn == Cfg().minReturn
      ensures r.percentDrop == Cfg().percentDrop && r.balanceTrip == Cfg().balanceTrip
      ensures r.revenue == Current().revenue && r.tax == Current().tax && r.fees == Current().fees
      ensures r.numTransactions == Current().numTransactions
      ensures r.buys == Current().buys && r.sells == Current().sells
      ensures r.balances == Current().balances && r.openReserves == Current().openReserves
    {
      var buyHold := Engine.BuyHold(rows[0].close, rows[|rows| - 1].close, initialInvestment, feePercentage, taxRate);
      SimResult(assetName, rows[0].date, rows[|rows| - 1].date, strat, stratEMA,
                reinvestPercentage, minReturn, percentDrop, balanceTrip, buyHold,
                capital + reserves + asset * price,
                revenue, tax, fees, numTransactions, buys, sells, balances, openReserves, dataFile)
    }

    /**
     * One pass of `RunSimulation`'s loop at the current row: the positions
     * are read off the row, and a sell (followed by a balance when the
     * capital to reserves ratio passes the tripwire), a buy or an opening of
     * the reserves is carried out, in that order of precedence.
     */
    method StepRow()
      requires 0 <= index < |rows| && rows[index].close > 0.0
      modifies this`capital, this`reserves, this`lastBuyPrice, this`revenue, this`tax, this`fees, this`asset,
               this`numTransactions, this`buys, this`sells, this`balances, this`openReserves, this`purchaseHistory
      ensures Current() == Engine.Step(old(Cfg()), old(Current()), rows[old(index)], old(index))
      ensures Cfg() == old(Cfg()) && index == old(index)
    {
      var positions := Engine.CalcPositions(Cfg(), Current(), rows[index]);
      if positions.sell {
        SellAsset();
        if Div(capital, reserves).Greater(balanceTrip) {
          BalanceFunds();
        }
      } else if positions.buy {
        BuyAsset();
      } else if positions.openRes {
        OpenReserves();
      }
    }

    /**
     * One pass of `RunSimulation`'s loop: the current row is processed and
     * the simulation moves to the next row, unless it was the last one.
     */
    method ProcessRow() returns (last: bool)
      requires 0 <= index < |rows| && rows[index].close > 0.0
      modifies this`capital, this`reserves, this`lastBuyPrice, this`revenue, this`tax, this`fees, this`asset,
               this`numTransactions, this`buys, this`sells, this`balances, this`openReserves, this`purchaseHistory,
               this`index
      ensures Current() == Engine.Step(old(Cfg()), old(Current()), rows[old(index)], old(index))
      ensures Cfg() == old(Cfg())
      ensures last <==> old(index) + 1 >= |rows|
      ensures index == if last then old(index) else old(index) + 1
    {
      StepRow();
      index := index + 1;
      last := index >= |rows|;
      if last {
        index := index - 1;
      }
    }

    /**
     * `RunSimulation`: every row from the current one to the last is
     * processed once, in order, and the position is valued at the last close.
     */
    method RunSimulation() returns (r: SimResult)
      requires 0 <= index < |rows|
      requires forall k :: 0 <= k < |rows| ==> rows[k].close > 0.0
      modifies this`capital, this`reserves, this`lastBuyPrice, this`revenue, this`tax, this`fees, this`asset,
               this`numTransactions, this`buys, this`sells, this`balances, this`openReserves, this`purchaseHistory,
               this`index
      ensures Current() == Engine.Run(old(Cfg()), old(Current()), rows, old(index), |rows|)
      ensures index == |rows| - 1
      ensures r == ResultAt(rows[index].close)
    {
      ghost var cfg := Cfg();
      ghost var final := Engine.Run(cfg, Current(), rows, index, |rows|);
      while true
        invariant 0 <= index < |rows|
        invariant Cfg() == cfg
        invariant Engine.Run(cfg, Current(), rows, index, |rows|) == final
        decreases |rows| - index
      {
        var last := ProcessRow();
        if last {
          break;
        }
      }
      r := ResultAt(rows[index].close);
    }
  }
}
