/**
 * Purchase lots (the `purchase` records of simulation/simulation.go): their
 * total amount, the price order `sellAsset` sorts them into, which of them a
 * sale liquidates, and what liquidating one lot pays out.
 */
module Lots {
  import opened Ratio

  /** One purchase: bought at `price`, `amount` units of the asset, at row `index`. */
  datatype Purchase = Purchase(price: real, amount: real, index: int)

  /** The total number of asset units held in `lots`. */
  function SumAmounts(lots: seq<Purchase>): real {
    if |lots| == 0 then 0.0 else lots[0].amount + SumAmounts(lots[1..])
  }

  lemma {:induction false} SumAmountsConcat(a: seq<Purchase>, b: seq<Purchase>)
    ensures SumAmounts(a + b) == SumAmounts(a) + SumAmounts(b)
  {
    if |a| == 0 {
      assert a + b == b;
    } else {
      assert (a + b)[1..] == a[1..] + b;
      SumAmountsConcat(a[1..], b);
    }
  }

  /** Lots of non-negative amounts hold a non-negative total. */
  lemma {:induction false} SumAmountsNonNegative(lots: seq<Purchase>)
    requires forall p :: p in lots ==> p.amount >= 0.0
    ensures SumAmounts(lots) >= 0.0
  {
    if |lots| > 0 {
      assert lots[0] in lots;
      forall p | p in lots[1..]
        ensures p.amount >= 0.0
      {
        assert p in lots;
      }
      SumAmountsNonNegative(lots[1..]);
    }
  }

  /** The order `purchaseHistory.Less` defines: ascending purchase price. */
  predicate SortedByPrice(lots: seq<Purchase>) {
    forall i, j :: 0 <= i < j < |lots| ==> lots[i].price <= lots[j].price
  }

  /** Cutting sorted lots at `k` leaves a sorted rest, and the two parts hold all of them. */
  lemma SplitSorted(lots: seq<Purchase>, k: nat)
    requires SortedByPrice(lots) && k <= |lots|
    ensures SortedByPrice(lots[k..])
    ensures multiset(lots[..k]) + multiset(lots[k..]) == multiset(lots)
  {
    assert lots == lots[..k] + lots[k..];
  }

  function InsertByPrice(p: Purchase, lots: seq<Purchase>): (r: seq<Purchase>)
    requires SortedByPrice(lots)
    ensures SortedByPrice(r)
    ensures multiset(r) == multiset(lots) + multiset{p}
    ensures SumAmounts(r) == p.amount + SumAmounts(lots)
  {
    if |lots| == 0 || p.price <= lots[0].price then
      assert ([p] + lots)[1..] == lots;
      [p] + lots
    else
      var rest := InsertByPrice(p, lots[1..]);
      InsertedAboveHead(p, lots, rest);
      assert lots == [lots[0]] + lots[1..];
      assert ([lots[0]] + rest)[1..] == rest;
      [lots[0]] + rest
  }

  lemma InsertedAboveHead(p: Purchase, lots: seq<Purchase>, rest: seq<Purchase>)
    requires SortedByPrice(lots) && |lots| > 0 && p.price > lots[0].price
    requires SortedByPrice(rest) && multiset(rest) == multiset(lots[1..]) + multiset{p}
    ensures SortedByPrice([lots[0]] + rest)
  {
    forall j | 0 <= j < |rest|
      ensures lots[0].price <= rest[j].price
    {
      assert rest[j] in multiset(rest);
      if rest[j] != p {
        assert rest[j] in multiset(lots[1..]);
      }
    }
  }

  /**
   * `sort.Sort(purchaseHistory(...))`: the lots in ascending price order, the
   * same lots and hence the same total amount. Go's sort is not stable; this
   * is one of the orders it may produce.
   */
  function SortByPrice(lots: seq<Purchase>): (r: seq<Purchase>)
    ensures SortedByPrice(r)
    ensures multiset(r) == multiset(lots)
    ensures SumAmounts(r) == SumAmounts(lots)
  {
    if |lots| == 0 then []
    else
      assert lots == [lots[0]] + lots[1..];
      InsertByPrice(lots[0], SortByPrice(lots[1..]))
  }

  /** A lot is sold when its return `(price - p.price) / p.price` exceeds `minReturn`. */
  predicate Qualifies(p: Purchase, price: real, minReturn: real) {
    Div(price - p.price, p.price).Greater(minReturn)
  }

  /**
   * The length of the longest prefix of `lots` whose every lot qualifies:
   * where `sellAsset`'s loop breaks.
   */
  function QualifyingPrefix(lots: seq<Purchase>, price: real, minReturn: real): (k: nat)
    ensures k <= |lots|
    ensures forall j :: 0 <= j < k ==> Qualifies(lots[j], price, minReturn)
    ensures k < |lots| ==> !Qualifies(lots[k], price, minReturn)
  {
    if |lots| == 0 || !Qualifies(lots[0], price, minReturn) then 0
    else 1 + QualifyingPrefix(lots[1..], price, minReturn)
  }

  /** At a positive market price a cheaper lot has the higher return. */
  lemma ReturnFallsWithPurchasePrice(price: real, p: Purchase, q: Purchase, minReturn: real)
    requires price > 0.0 && 0.0 < p.price <= q.price
    ensures Qualifies(q, price, minReturn) ==> Qualifies(p, price, minReturn)
  {
    var rq, rp := (price - q.price) / q.price, (price - p.price) / p.price;
    assert (rq + 1.0) * q.price == price;
    assert (rp + 1.0) * p.price == price;
    assert rq <= rp;
  }

  /**
   * On lots sorted by price, all with positive prices, the early break loses
   * nothing: the qualifying prefix holds exactly the lots that qualify.
   */
  lemma QualifyingPrefixIsExact(lots: seq<Purchase>, price: real, minReturn: real)
    requires SortedByPrice(lots)
    requires price > 0.0
    requires forall j :: 0 <= j < |lots| ==> lots[j].price > 0.0
    ensures forall j :: 0 <= j < |lots| ==>
      (Qualifies(lots[j], price, minReturn) <==> j < QualifyingPrefix(lots, price, minReturn))
  {
    var k := QualifyingPrefix(lots, price, minReturn);
    forall j | k <= j < |lots|
      ensures !Qualifies(lots[j], price, minReturn)
    {
      ReturnFallsWithPurchasePrice(price, lots[k], lots[j], minReturn);
    }
  }

  /**
   * What liquidating lots adds to the simulation's capital, revenue, tax and
   * fees.
   */
  datatype Sale = Sale(capital: real, revenue: real, tax: real, fee: real) {
    /** Everything the sale hands out, wherever it goes. */
    function Total(): real {
      capital + revenue + tax + fee
    }
  }

  /**
   * Selling the whole lot `p` at `price`: the cost basis plus the reinvested
   * share of the net reward go back to capital, the rest of the net reward is
   * revenue; tax is due only on a positive gain.
   */
  function LotSale(p: Purchase, price: real, feePercentage: real, taxRate: real, reinvestPercentage: real): (s: Sale)
    ensures s.Total() == p.amount * price
  {
    var usdValueSold := p.amount * price;
    var fee := usdValueSold * feePercentage;
    var gain := usdValueSold - p.amount * p.price;
    var tax := if gain > 0.0 then gain * taxRate else 0.0;
    var reward := gain - fee - tax;
    var toCapital := reward * reinvestPercentage;
    Sale(usdValueSold - gain + toCapital, reward - toCapital, tax, fee)
  }

  /** Tax is charged only on a gain: a lot sold at no more than it cost pays none. */
  lemma LotSaleTaxesOnlyGain(p: Purchase, price: real, feePercentage: real, taxRate: real, reinvestPercentage: real)
    ensures p.amount * price <= p.amount * p.price ==> LotSale(p, price, feePercentage, taxRate, reinvestPercentage).tax == 0.0
    ensures p.amount * price > p.amount * p.price ==>
      LotSale(p, price, feePercentage, taxRate, reinvestPercentage).tax == (p.amount * price - p.amount * p.price) * taxRate
  {
  }

  /**
   * With fee and tax rates that together take at most the whole sale, and a
   * reinvest share between none and all, selling a lot never takes capital
   * away: the cost basis comes back, less at most the fee and the tax.
   */
  lemma LotSaleKeepsCapitalNonNegative(p: Purchase, price: real, feePercentage: real, taxRate: real,
                                       reinvestPercentage: real)
    requires p.price > 0.0 && p.amount >= 0.0 && price > 0.0
    requires 0.0 <= feePercentage && 0.0 <= taxRate && feePercentage + taxRate <= 1.0
    requires 0.0 <= reinvestPercentage <= 1.0
    ensures LotSale(p, price, feePercentage, taxRate, reinvestPercentage).capital >= 0.0
  {
    var usdValueSold := p.amount * price;
    var cost := p.amount * p.price;
    var gain := usdValueSold - cost;
    var tax := if gain > 0.0 then gain * taxRate else 0.0;
    MulNonNegative(p.amount, price);
    MulNonNegative(p.amount, p.price);
    MulNonNegative(cost, taxRate);
    if gain > 0.0 {
      MulNonNegative(gain, taxRate);
    }
    ReinvestedShareNonNegative(usdValueSold, cost, usdValueSold * feePercentage, tax, feePercentage, taxRate,
                               reinvestPercentage);
  }

  /**
   * The arithmetic of `LotSaleKeepsCapitalNonNegative` over plain reals: the
   * cost basis plus the reinvested share of the reward is never negative.
   */
  lemma ReinvestedShareNonNegative(usdValueSold: real, cost: real, fee: real, tax: real, feePercentage: real,
                                   taxRate: real, reinvestPercentage: real)
    requires usdValueSold >= 0.0 && cost >= 0.0 && fee == usdValueSold * feePercentage
    requires 0.0 <= tax <= usdValueSold * taxRate
    requires 0.0 <= feePercentage && 0.0 <= taxRate && feePercentage + taxRate <= 1.0
    requires 0.0 <= reinvestPercentage <= 1.0
    ensures usdValueSold - (usdValueSold - cost) + (usdValueSold - cost - fee - tax) * reinvestPercentage >= 0.0
  {
    var reward := usdValueSold - cost - fee - tax;
    MulNonNegative(usdValueSold, 1.0 - feePercentage - taxRate);
    if reward < 0.0 {
      MulNonPositive(reward, reinvestPercentage - 1.0);
    } else {
      MulNonNegative(reward, reinvestPercentage);
    }
  }

  lemma MulNonNegative(a: real, b: real)
    requires a >= 0.0 && b >= 0.0
    ensures a * b >= 0.0
  {
  }

  lemma MulNonPositive(a: real, b: real)
    requires a <= 0.0 && b <= 0.0
    ensures a * b >= 0.0
  {
  }

  /** What the units of `sold` fetch at `price`, before fees and tax. */
  function Proceeds(sold: seq<Purchase>, price: real): real {
    if |sold| == 0 then 0.0 else sold[0].amount * price + Proceeds(sold[1..], price)
  }

  lemma ProceedsOfHead(lots: seq<Purchase>, price: real)
    requires |lots| > 0
    ensures Proceeds(lots, price) == lots[0].amount * price + Proceeds(lots[1..], price)
  {
  }

  /** What two runs of lots fetch together is what each fetches. */
  lemma {:induction false} ProceedsConcat(a: seq<Purchase>, b: seq<Purchase>, price: real)
    ensures Proceeds(a + b, price) == Proceeds(a, price) + Proceeds(b, price)
  {
    if |a| == 0 {
      assert a + b == b;
    } else {
      ProceedsConcat(a[1..], b, price);
      assert (a + b)[1..] == a[1..] + b;
    }
  }

  /** What the lots fetch is their total amount times the price. */
  lemma {:induction false} ProceedsIsPriceTimesAmount(sold: seq<Purchase>, price: real)
    ensures Proceeds(sold, price) == price * SumAmounts(sold)
  {
    if |sold| > 0 {
      ProceedsIsPriceTimesAmount(sold[1..], price);
      Distribute(price, sold[0].amount, SumAmounts(sold[1..]));
    }
  }

  lemma Distribute(p: real, a: real, b: real)
    ensures p * (a + b) == a * p + p * b
  {
  }
}
