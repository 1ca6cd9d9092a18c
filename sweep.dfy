/**
 * The parameter sweep of main.go: the configuration checks, the count of
 * simulations, the seven nested loops that launch one simulation per
 * combination of the swept values, the data check of `getData`, and the
 * completion accounting of `simulate`. The goroutines run one after another
 * here, in launch order.
 */
module Sweep {
  import opened Wrappers
  import opened Strategy
  import Simulation
  import Engine

  /** The swept lists of the configuration file, and the sell condition. */
  datatype Params = Params(
    strategies: seq<string>,
    balanceTripwires: seq<real>,
    percentDrops: seq<real>,
    minReturns: seq<real>,
    reinvestPercentages: seq<real>,
    emaValues: seq<int>,
    sellCondition: int)

  /** The lists as read from the configuration file; `None` where a value did not parse. */
  datatype RawParams = RawParams(
    strategies: seq<string>,
    balanceTripwires: seq<real>,
    percentDrops: seq<real>,
    minReturns: seq<real>,
    reinvestPercentages: seq<real>,
    emaValues: seq<int>,
    sellCondition: Option<int>)

  /** The arguments of one `simulate` goroutine. */
  datatype Task = Task(asset: string, strat: string, ema: int, reinvest: real, minReturn: real,
                       percentDrop: real, balanceTrip: real)

  /** The configuration keys `getParameters` checks, in the order it checks them. */
  datatype ConfigKey =
    | StrategiesKey | BalanceTripwiresKey | PercentDropsKey | MinReturnsKey
    | ReinvestPercentagesKey | EmaValuesKey | SellConditionKey
  {
    /** The position of the key's check in `getParameters`. */
    function Rank(): nat {
      match this
      case StrategiesKey => 0
      case BalanceTripwiresKey => 1
      case PercentDropsKey => 2
      case MinReturnsKey => 3
      case ReinvestPercentagesKey => 4
      case EmaValuesKey => 5
      case SellConditionKey => 6
    }

    /** The key's name in the configuration file. */
    function Name(): string {
      match this
      case StrategiesKey => "strategies"
      case BalanceTripwiresKey => "balance_tripwires"
      case PercentDropsKey => "percent_drops"
      case MinReturnsKey => "min_returns"
      case ReinvestPercentagesKey => "reinvest_percentages"
      case EmaValuesKey => "ema_values"
      case SellConditionKey => "sell_condition"
    }

    /** The error `getParameters` returns when the key's check fails. */
    function Message(): string {
      "Config file not configured for [" + Name() + "]"
    }
  }

  /** Two keys are told apart by their names. */
  lemma NamesDiffer(k1: ConfigKey, k2: ConfigKey)
    requires k1 != k2
    ensures k1.Name() != k2.Name()
  {
  }

  /** Each failed check reports its own message: different keys, different errors. */
  lemma MessagesDiffer(k1: ConfigKey, k2: ConfigKey)
    requires k1 != k2
    ensures k1.Message() != k2.Message()
  {
    var prefix := "Config file not configured for [";
    assert k1.Message()[|prefix|..|k1.Message()| - 1] == k1.Name();
    assert k2.Message()[|prefix|..|k2.Message()| - 1] == k2.Name();
    NamesDiffer(k1, k2);
  }

  /** Whether the check of key `k` fails on `raw`: an empty list, or a sell condition that did not parse. */
  predicate Missing(raw: RawParams, k: ConfigKey) {
    match k
    case StrategiesKey => |raw.strategies| < 1
    case BalanceTripwiresKey => |raw.balanceTripwires| < 1
    case PercentDropsKey => |raw.percentDrops| < 1
    case MinReturnsKey => |raw.minReturns| < 1
    case ReinvestPercentagesKey => |raw.reinvestPercentages| < 1
    case EmaValuesKey => |raw.emaValues| < 1
    case SellConditionKey => raw.sellCondition.None?
  }

  lemma NothingMissing(raw: RawParams)
    requires |raw.strategies| >= 1 && |raw.balanceTripwires| >= 1 && |raw.percentDrops| >= 1
    requires |raw.minReturns| >= 1 && |raw.reinvestPercentages| >= 1 && |raw.emaValues| >= 1
    requires raw.sellCondition.Some?
    ensures forall k: ConfigKey :: !Missing(raw, k)
  {
    forall k: ConfigKey
      ensures !Missing(raw, k)
    {
      match k {
        case StrategiesKey =>
        case BalanceTripwiresKey =>
        case PercentDropsKey =>
        case MinReturnsKey =>
        case ReinvestPercentagesKey =>
        case EmaValuesKey =>
        case SellConditionKey =>
      }
    }
  }

  /**
   * `getParameters` on the parsed lists: each swept list must be non-empty,
   * checked in the order strategies, balance tripwires, percent drops, min
   * returns, reinvest percentages, EMA values, and the sell condition must
   * be an integer. The first failed check names its key.
   */
  function CheckParameters(raw: RawParams): (r: Result<Params, ConfigKey>)
    ensures r.Err? ==> Missing(raw, r.error)
    ensures r.Err? ==> forall k: ConfigKey :: k.Rank() < r.error.Rank() ==> !Missing(raw, k)
    ensures r.Ok? ==> forall k: ConfigKey :: !Missing(raw, k)
    ensures r.Ok? ==> (NonEmpty(r.value)
      && r.value.strategies == raw.strategies && r.value.balanceTripwires == raw.balanceTripwires
      && r.value.percentDrops == raw.percentDrops && r.value.minReturns == raw.minReturns
      && r.value.reinvestPercentages == raw.reinvestPercentages && r.value.emaValues == raw.emaValues
      && raw.sellCondition == Some(r.value.sellCondition))
  {
    if |raw.strategies| < 1 then Err(StrategiesKey)
    else if |raw.balanceTripwires| < 1 then Err(BalanceTripwiresKey)
    else if |raw.percentDrops| < 1 then Err(PercentDropsKey)
    else if |raw.minReturns| < 1 then Err(MinReturnsKey)
    else if |raw.reinvestPercentages| < 1 then Err(ReinvestPercentagesKey)
    else if |raw.emaValues| < 1 then Err(EmaValuesKey)
    else if raw.sellCondition.None? then Err(SellConditionKey)
    else
      NothingMissing(raw);
      Ok(Params(raw.strategies, raw.balanceTripwires, raw.percentDrops, raw.minReturns,
                raw.reinvestPercentages, raw.emaValues, raw.sellCondition.value))
  }

  predicate NonEmpty(p: Params) {
    p.strategies != [] && p.balanceTripwires != [] && p.percentDrops != []
    && p.minReturns != [] && p.reinvestPercentages != [] && p.emaValues != []
  }

  /** `getNumSims`: the product of the lengths of the swept lists and the assets. */
  function NumSims(assets: seq<string>, p: Params): int {
    |assets| * |p.emaValues| * |p.reinvestPercentages| * |p.minReturns| * |p.percentDrops|
      * |p.balanceTripwires| * |p.strategies|
  }

  /** A product of naturals is zero exactly when one factor is. */
  lemma ProductIsZero(a: int, b: int)
    requires a >= 0 && b >= 0
    ensures a * b >= 0
    ensures a * b == 0 <==> a == 0 || b == 0
  {
  }

  /** The count is never negative, and it is zero exactly when the assets or one swept list are empty. */
  lemma NumSimsIsZeroOnEmptyList(assets: seq<string>, p: Params)
    ensures NumSims(assets, p) >= 0
    ensures NumSims(assets, p) == 0 <==>
      (|assets| == 0 || |p.emaValues| == 0 || |p.reinvestPercentages| == 0 || |p.minReturns| == 0
       || |p.percentDrops| == 0 || |p.balanceTripwires| == 0 || |p.strategies| == 0)
  {
    var n1 := |assets| * |p.emaValues|;
    ProductIsZero(|assets|, |p.emaValues|);
    var n2 := n1 * |p.reinvestPercentages|;
    ProductIsZero(n1, |p.reinvestPercentages|);
    var n3 := n2 * |p.minReturns|;
    ProductIsZero(n2, |p.minReturns|);
    var n4 := n3 * |p.percentDrops|;
    ProductIsZero(n3, |p.percentDrops|);
    var n5 := n4 * |p.balanceTripwires|;
    ProductIsZero(n4, |p.balanceTripwires|);
    ProductIsZero(n5, |p.strategies|);
  }

  /**
   * Once the checks pass, there are simulations to run exactly when there
   * are assets: no swept list can zero the count.
   */
  lemma CheckedParametersSweep(assets: seq<string>, raw: RawParams)
    requires CheckParameters(raw).Ok?
    ensures NumSims(assets, CheckParameters(raw).value) > 0 <==> |assets| > 0
  {
    NumSimsIsZeroOnEmptyList(assets, CheckParameters(raw).value);
  }

  // The launch order of `main`'s seven nested loops, one function per
  // loop level: each appends, for every value of its list in order, what
  // the levels inside it launch for that value.

  function TripTasks(a: string, s: string, e: int, r: real, m: real, d: real, bs: seq<real>): seq<Task> {
    if |bs| == 0 then []
    else TripTasks(a, s, e, r, m, d, bs[..|bs| - 1]) + [Task(a, s, e, r, m, d, bs[|bs| - 1])]
  }

  function DropTasks(p: Params, a: string, s: string, e: int, r: real, m: real, ds: seq<real>): seq<Task> {
    if |ds| == 0 then []
    else DropTasks(p, a, s, e, r, m, ds[..|ds| - 1]) + TripTasks(a, s, e, r, m, ds[|ds| - 1], p.balanceTripwires)
  }

  function MinReturnTasks(p: Params, a: string, s: string, e: int, r: real, ms: seq<real>): seq<Task> {
    if |ms| == 0 then []
    else MinReturnTasks(p, a, s, e, r, ms[..|ms| - 1]) + DropTasks(p, a, s, e, r, ms[|ms| - 1], p.percentDrops)
  }

  function ReinvestTasks(p: Params, a: string, s: string, e: int, rs: seq<real>): seq<Task> {
    if |rs| == 0 then []
    else ReinvestTasks(p, a, s, e, rs[..|rs| - 1]) + MinReturnTasks(p, a, s, e, rs[|rs| - 1], p.minReturns)
  }

  function EmaTasks(p: Params, a: string, s: string, es: seq<int>): seq<Task> {
    if |es| == 0 then []
    else EmaTasks(p, a, s, es[..|es| - 1]) + ReinvestTasks(p, a, s, es[|es| - 1], p.reinvestPercentages)
  }

  function StrategyTasks(p: Params, a: string, ss: seq<string>): seq<Task> {
    if |ss| == 0 then []
    else StrategyTasks(p, a, ss[..|ss| - 1]) + EmaTasks(p, a, ss[|ss| - 1], p.emaValues)
  }

  /** Every task the sweep launches, in launch order. */
  function AssetTasks(p: Params, xs: seq<string>): seq<Task> {
    if |xs| == 0 then []
    else AssetTasks(p, xs[..|xs| - 1]) + StrategyTasks(p, xs[|xs| - 1], p.strategies)
  }

  // What each loop level launches: as many tasks as the product of the
  // lengths of its list and the lists inside it, and exactly the tasks whose
  // values come from those lists.

  lemma {:induction false} TripTasksShape(a: string, s: string, e: int, r: real, m: real, d: real, bs: seq<real>)
    ensures |TripTasks(a, s, e, r, m, d, bs)| == |bs|
    ensures forall t :: t in TripTasks(a, s, e, r, m, d, bs) <==>
      t.asset == a && t.strat == s && t.ema == e && t.reinvest == r && t.minReturn == m && t.percentDrop == d && t.balanceTrip in bs
  {
    if |bs| > 0 {
      TripTasksShape(a, s, e, r, m, d, bs[..|bs| - 1]);
      assert bs == bs[..|bs| - 1] + [bs[|bs| - 1]];
    }
  }

  lemma {:induction false} DropTasksShape(p: Params, a: string, s: string, e: int, r: real, m: real, ds: seq<real>)
    ensures |DropTasks(p, a, s, e, r, m, ds)| == |ds| * |p.balanceTripwires|
    ensures forall t :: t in DropTasks(p, a, s, e, r, m, ds) <==>
      t.asset == a && t.strat == s && t.ema == e && t.reinvest == r && t.minReturn == m && t.percentDrop in ds && t.balanceTrip in p.balanceTripwires
  {
    if |ds| > 0 {
      DropTasksShape(p, a, s, e, r, m, ds[..|ds| - 1]);
      TripTasksShape(a, s, e, r, m, ds[|ds| - 1], p.balanceTripwires);
      MulSucc(|ds| - 1, |p.balanceTripwires|);
      assert ds == ds[..|ds| - 1] + [ds[|ds| - 1]];
    }
  }

  lemma {:induction false} MinReturnTasksShape(p: Params, a: string, s: string, e: int, r: real, ms: seq<real>)
    ensures |MinReturnTasks(p, a, s, e, r, ms)| == |ms| * (|p.percentDrops| * |p.balanceTripwires|)
    ensures forall t :: t in MinReturnTasks(p, a, s, e, r, ms) <==>
      t.asset == a && t.strat == s && t.ema == e && t.reinvest == r && t.minReturn in ms && t.percentDrop in p.percentDrops && t.balanceTrip in p.balanceTripwires
  {
    if |ms| > 0 {
      MinReturnTasksShape(p, a, s, e, r, ms[..|ms| - 1]);
      DropTasksShape(p, a, s, e, r, ms[|ms| - 1], p.percentDrops);
      MulSucc(|ms| - 1, |p.percentDrops| * |p.balanceTripwires|);
      assert ms == ms[..|ms| - 1] + [ms[|ms| - 1]];
    }
  }

  lemma {:induction false} ReinvestTasksShape(p: Params, a: string, s: string, e: int, rs: seq<real>)
    ensures |ReinvestTasks(p, a, s, e, rs)| == |rs| * (|p.minReturns| * (|p.percentDrops| * |p.balanceTripwires|))
    ensures forall t :: t in ReinvestTasks(p, a, s, e, rs) <==>
      t.asset == a && t.strat == s && t.ema == e && t.reinvest in rs && t.minReturn in p.minReturns && t.percentDrop in p.percentDrops && t.balanceTrip in p.balanceTripwires
  {
    if |rs| > 0 {
      ReinvestTasksShape(p, a, s, e, rs[..|rs| - 1]);
      MinReturnTasksShape(p, a, s, e, rs[|rs| - 1], p.minReturns);
      MulSucc(|rs| - 1, |p.minReturns| * (|p.percentDrops| * |p.balanceTripwires|));
      assert rs == rs[..|rs| - 1] + [rs[|rs| - 1]];
    }
  }

  lemma {:induction false} EmaTasksShape(p: Params, a: string, s: string, es: seq<int>)
    ensures |EmaTasks(p, a, s, es)| == |es| * (|p.reinvestPercentages| * (|p.minReturns| * (|p.percentDrops| * |p.balanceTripwires|)))
    ensures forall t :: t in EmaTasks(p, a, s, es) <==>
      t.asset == a && t.strat == s && t.ema in es && t.reinvest in p.reinvestPercentages && t.minReturn in p.minReturns && t.percentDrop in p.percentDrops && t.balanceTrip in p.balanceTripwires
  {
    if |es| > 0 {
      EmaTasksShape(p, a, s, es[..|es| - 1]);
      ReinvestTasksShape(p, a, s, es[|es| - 1], p.reinvestPercentages);
      MulSucc(|es| - 1, |p.reinvestPercentages| * (|p.minReturns| * (|p.percentDrops| * |p.balanceTripwires|)));
      assert es == es[..|es| - 1] + [es[|es| - 1]];
    }
  }

  lemma {:induction false} StrategyTasksShape(p: Params, a: string, ss: seq<string>)
    ensures |StrategyTasks(p, a, ss)| == |ss| * (|p.emaValues| * (|p.reinvestPercentages| * (|p.minReturns| * (|p.percentDrops| * |p.balanceTripwires|))))
    ensures forall t :: t in StrategyTasks(p, a, ss) <==>
      t.asset == a && t.strat in ss && t.ema in p.emaValues && t.reinvest in p.reinvestPercentages && t.minReturn in p.minReturns && t.percentDrop in p.percentDrops && t.balanceTrip in p.balanceTripwires
  {
    if |ss| > 0 {
      StrategyTasksShape(p, a, ss[..|ss| - 1]);
      EmaTasksShape(p, a, ss[|ss| - 1], p.emaValues);
      MulSucc(|ss| - 1, |p.emaValues| * (|p.reinvestPercentages| * (|p.minReturns| * (|p.percentDrops| * |p.balanceTripwires|))));
      assert ss == ss[..|ss| - 1] + [ss[|ss| - 1]];
    }
  }

  lemma {:induction false} AssetTasksShape(p: Params, xs: seq<string>)
    ensures |AssetTasks(p, xs)| == |xs| * (|p.strategies| * (|p.emaValues| * (|p.reinvestPercentages| * (|p.minReturns| * (|p.percentDrops| * |p.balanceTripwires|)))))
    ensures forall t :: t in AssetTasks(p, xs) <==>
      t.asset in xs && t.strat in p.strategies && t.ema in p.emaValues && t.reinvest in p.reinvestPercentages && t.minReturn in p.minReturns && t.percentDrop in p.percentDrops && t.balanceTrip in p.balanceTripwires
  {
    if |xs| > 0 {
      AssetTasksShape(p, xs[..|xs| - 1]);
      StrategyTasksShape(p, xs[|xs| - 1], p.strategies);
      MulSucc(|xs| - 1, |p.strategies| * (|p.emaValues| * (|p.reinvestPercentages| * (|p.minReturns| * (|p.percentDrops| * |p.balanceTripwires|)))));
      assert xs == xs[..|xs| - 1] + [xs[|xs| - 1]];
    }
  }

  /** As many simulations are launched as `getNumSims` adds to the wait group. */
  lemma LaunchCountIsNumSims(assets: seq<string>, p: Params)
    ensures |AssetTasks(p, assets)| == NumSims(assets, p)
  {
    AssetTasksShape(p, assets);
    var a, s, e, r, m, d, b := |assets|, |p.strategies|, |p.emaValues|, |p.reinvestPercentages|,
                               |p.minReturns|, |p.percentDrops|, |p.balanceTripwires|;
    calc {
      a * (s * (e * (r * (m * (d * b)))));
      { Reorder(a, s, e * (r * (m * (d * b)))); }
      a * (e * (r * (m * (d * b)))) * s;
      { Associate(a, e, r * (m * (d * b)));
        Associate(a * e, r, m * (d * b));
        Associate(a * e * r, m, d * b);
        Associate(a * e * r * m, d, b); }
      a * e * r * m * d * b * s;
    }
  }

  lemma MulSucc(n: int, w: int)
    ensures (n + 1) * w == n * w + w
  {
  }

  lemma Reorder(a: int, s: int, x: int)
    ensures a * (s * x) == a * x * s
  {
  }

  lemma Associate(a: int, b: int, c: int)
    ensures a * (b * c) == a * b * c
  {
  }

  /**
   * The seven nested loops of `main`, in their nesting order asset,
   * strategy, EMA, reinvest percentage, min return, percent drop, balance
   * tripwire: one task launched per innermost pass. Each loop level is a
   * method of its own below.
   */
  method LaunchAll(assets: seq<string>, p: Params) returns (tasks: seq<Task>)
    ensures tasks == AssetTasks(p, assets)
  {
    tasks := [];
    for i := 0 to |assets|
      invariant tasks == AssetTasks(p, assets[..i])
    {
      var launched := LaunchStrategies(p, assets[i]);
      tasks := tasks + launched;
      assert assets[..i + 1][..i] == assets[..i];
    }
    assert assets[..|assets|] == assets;
  }

  method LaunchStrategies(p: Params, asset: string) returns (tasks: seq<Task>)
    ensures tasks == StrategyTasks(p, asset, p.strategies)
  {
    tasks := [];
    for j := 0 to |p.strategies|
      invariant tasks == StrategyTasks(p, asset, p.strategies[..j])
    {
      var launched := LaunchEmas(p, asset, p.strategies[j]);
      tasks := tasks + launched;
      assert p.strategies[..j + 1][..j] == p.strategies[..j];
    }
    assert p.strategies[..|p.strategies|] == p.strategies;
  }

  method LaunchEmas(p: Params, asset: string, strat: string) returns (tasks: seq<Task>)
    ensures tasks == EmaTasks(p, asset, strat, p.emaValues)
  {
    tasks := [];
    for k := 0 to |p.emaValues|
      invariant tasks == EmaTasks(p, asset, strat, p.emaValues[..k])
    {
      var launched := LaunchReinvests(p, asset, strat, p.emaValues[k]);
      tasks := tasks + launched;
      assert p.emaValues[..k + 1][..k] == p.emaValues[..k];
    }
    assert p.emaValues[..|p.emaValues|] == p.emaValues;
  }

  method LaunchReinvests(p: Params, asset: string, strat: string, ema: int) returns (tasks: seq<Task>)
    ensures tasks == ReinvestTasks(p, asset, strat, ema, p.reinvestPercentages)
  {
    tasks := [];
    for l := 0 to |p.reinvestPercentages|
      invariant tasks == ReinvestTasks(p, asset, strat, ema, p.reinvestPercentages[..l])
    {
      var launched := LaunchMinReturns(p, asset, strat, ema, p.reinvestPercentages[l]);
      tasks := tasks + launched;
      assert p.reinvestPercentages[..l + 1][..l] == p.reinvestPercentages[..l];
    }
    assert p.reinvestPercentages[..|p.reinvestPercentages|] == p.reinvestPercentages;
  }

  method LaunchMinReturns(p: Params, asset: string, strat: string, ema: int, reinvest: real)
    returns (tasks: seq<Task>)
    ensures tasks == MinReturnTasks(p, asset, strat, ema, reinvest, p.minReturns)
  {
    tasks := [];
    for m := 0 to |p.minReturns|
      invariant tasks == MinReturnTasks(p, asset, strat, ema, reinvest, p.minReturns[..m])
    {
      var launched := LaunchDrops(p, asset, strat, ema, reinvest, p.minReturns[m]);
      tasks := tasks + launched;
      assert p.minReturns[..m + 1][..m] == p.minReturns[..m];
    }
    assert p.minReturns[..|p.minReturns|] == p.minReturns;
  }

  method LaunchDrops(p: Params, asset: string, strat: string, ema: int, reinvest: real, minReturn: real)
    returns (tasks: seq<Task>)
    ensures tasks == DropTasks(p, asset, strat, ema, reinvest, minReturn, p.percentDrops)
  {
    tasks := [];
    for n := 0 to |p.percentDrops|
      invariant tasks == DropTasks(p, asset, strat, ema, reinvest, minReturn, p.percentDrops[..n])
    {
      var launched := LaunchTrips(p, asset, strat, ema, reinvest, minReturn, p.percentDrops[n]);
      tasks := tasks + launched;
      assert p.percentDrops[..n + 1][..n] == p.percentDrops[..n];
    }
    assert p.percentDrops[..|p.percentDrops|] == p.percentDrops;
  }

  method LaunchTrips(p: Params, asset: string, strat: string, ema: int, reinvest: real, minReturn: real,
                     percentDrop: real) returns (tasks: seq<Task>)
    ensures tasks == TripTasks(asset, strat, ema, reinvest, minReturn, percentDrop, p.balanceTripwires)
  {
    tasks := [];
    for o := 0 to |p.balanceTripwires|
      invariant tasks == TripTasks(asset, strat, ema, reinvest, minReturn, percentDrop, p.balanceTripwires[..o])
    {
      tasks := tasks + [Task(asset, strat, ema, reinvest, minReturn, percentDrop, p.balanceTripwires[o])];
      assert p.balanceTripwires[..o + 1][..o] == p.balanceTripwires[..o];
    }
    assert p.balanceTripwires[..|p.balanceTripwires|] == p.balanceTripwires;
  }

  // getData

  /** A data file as read: its path and its rows, in date order. */
  datatype Source = Source(file: string, rows: seq<Row>)

  /**
   * Why `getData` fails: the file could not be opened, a configured date did
   * not parse (each with the library's message), or the row count is too
   * far from the hours between the dates.
   */
  datatype DataError =
    | OpenFailed(message: string)
    | BadDate(message: string)
    | InvalidData(asset: string, received: int, expected: int)

  /**
   * The whole hours from `start` to `end` (Unix seconds): the difference
   * divided by 3600 with Go's integer division, which truncates toward zero.
   */
  function HoursBetween(start: int, end: int): (h: int)
    ensures end - start >= 0 ==> 0 <= (end - start) - h * 3600 < 3600
    ensures end - start < 0 ==> -3600 < (end - start) - h * 3600 <= 0
  {
    var d := end - start;
    if d >= 0 then d / 3600 else -((-d) / 3600)
  }

  function Abs(x: int): nat {
    if x < 0 then -x else x
  }

  function RealAbs(x: real): real {
    if x < 0.0 then -x else x
  }

  /** The tolerance test of `getData` as written: more than 600 days off. */
  predicate TooFarOff(nrow: int, delta: int) {
    RealAbs((nrow - delta) as real / 24.0) > 600.0
  }

  /** The test in whole rows: the data is refused exactly when it is more than 14400 rows off. */
  lemma TooFarOffIsRowCount(nrow: int, delta: int)
    ensures TooFarOff(nrow, delta) <==> Abs(nrow - delta) > 14400
  {
    var x := (nrow - delta) as real;
    if nrow - delta < 0 {
      assert RealAbs(x / 24.0) == (-x) / 24.0;
    } else {
      assert RealAbs(x / 24.0) == x / 24.0;
    }
  }

  /**
   * `getData` once the newest file of the asset's directory is chosen:
   * `source` is that file as read, or `None` when it does not open; `start`
   * and `end` are the configured dates in Unix seconds, or an error message.
   */
  function GetData(asset: string, source: Option<Source>, start: Result<int, string>, end: Result<int, string>)
    : (r: Result<Source, DataError>)
    ensures r.Ok? <==> source.Some? && start.Ok? && end.Ok?
                       && Abs(|source.value.rows| - HoursBetween(start.value, end.value)) <= 14400
    ensures r.Ok? ==> r.value == source.value
    ensures r.Err? && r.error.InvalidData? <==>
      (source.Some? && start.Ok? && end.Ok? && Abs(|source.value.rows| - HoursBetween(start.value, end.value)) > 14400)
    ensures r.Err? && r.error.InvalidData? ==>
      r.error == InvalidData(asset, |source.value.rows|, HoursBetween(start.value, end.value))
  {
    if source.None? then Err(OpenFailed("open failed"))
    else if start.Err? then Err(BadDate(start.error))
    else if end.Err? then Err(BadDate(end.error))
    else
      var delta := HoursBetween(start.value, end.value);
      var nrow := |source.value.rows|;
      TooFarOffIsRowCount(nrow, delta);
      if TooFarOff(nrow, delta) then Err(InvalidData(asset, nrow, delta))
      else Ok(source.value)
  }

  // The error message of InvalidDataError, with Go's %d for the numbers.

  function DigitChar(d: nat): char
    requires d < 10
  {
    ('0' as int + d) as char
  }

  predicate AllDigits(s: string) {
    forall i :: 0 <= i < |s| ==> '0' <= s[i] <= '9'
  }

  /** The decimal digits of `n`, most significant first, with no leading zero. */
  function NatString(n: nat): (s: string)
    ensures |s| > 0 && AllDigits(s)
    ensures s[0] == '0' ==> n == 0
  {
    if n < 10 then [DigitChar(n)] else NatString(n / 10) + [DigitChar(n % 10)]
  }

  /** `%d`: a minus sign before the digits of a negative number. */
  function IntString(n: int): string {
    if n < 0 then "-" + NatString(-n) else NatString(n)
  }

  /** The value of a string of decimal digits. */
  function ParseNat(s: string): nat
    requires AllDigits(s)
  {
    if |s| == 0 then 0 else ParseNat(s[..|s| - 1]) * 10 + (s[|s| - 1] as int - '0' as int)
  }

  function ParseInt(s: string): int
    requires |s| > 0 && (s[0] == '-' ==> AllDigits(s[1..])) && (s[0] != '-' ==> AllDigits(s))
  {
    if s[0] == '-' then 0 - ParseNat(s[1..]) else ParseNat(s)
  }

  lemma {:induction false} NatStringReadsBack(n: nat)
    ensures ParseNat(NatString(n)) == n
  {
    if n >= 10 {
      NatStringReadsBack(n / 10);
      var s := NatString(n / 10) + [DigitChar(n % 10)];
      assert s[..|s| - 1] == NatString(n / 10);
    }
  }

  /** The numbers in the message read back as themselves. */
  lemma IntStringReadsBack(n: int)
    ensures var s := IntString(n);
      |s| > 0 && (s[0] == '-' ==> AllDigits(s[1..])) && (s[0] != '-' ==> AllDigits(s)) && ParseInt(s) == n
  {
    if n < 0 {
      NatStringReadsBack(-n);
      assert IntString(n)[1..] == NatString(-n);
    } else {
      NatStringReadsBack(n);
    }
  }

  function InvalidDataMessage(asset: string, received: int, expected: int): string {
    "[" + asset + "] Invalid Data: Expected [" + IntString(expected) + "] Received [" + IntString(received) + "]"
  }

  // simulate

  /** How one `simulate` goroutine ends. */
  datatype Outcome =
    | Skipped(message: string)
    | Logged(result: Simulation.SimResult)
    | Fatal(reason: string)

  datatype Verdict = Skip | Log | Stop

  /** What the sweep runs with besides the tasks. */
  datatype Env = Env(sources: map<string, Source>, start: Result<int, string>, end: Result<int, string>,
                     investment: real, taxRate: real, fees: real, sellCondition: int)

  /** `getData` for `asset`: an asset without a data file fails to open. */
  function Load(env: Env, asset: string): Result<Source, DataError> {
    GetData(asset, if asset in env.sources then Some(env.sources[asset]) else None, env.start, env.end)
  }

  /** The parameters `simulate` gives the simulation of task `t`. */
  function TaskConfig(env: Env, t: Task): Engine.Config {
    Engine.Config(t.strat, env.sellCondition, t.ema, t.reinvest, t.minReturn, -1.0 * t.percentDrop,
                  t.balanceTrip, env.fees, env.taxRate, env.investment * 0.125)
  }

  /**
   * How `simulate` ends on `data`: invalid data is skipped, any other data
   * error, an unknown strategy or an empty table stops the program, and
   * otherwise the result is logged.
   */
  function VerdictOf(t: Task, data: Result<Source, DataError>): Verdict {
    if data.Err? then (if data.error.InvalidData? then Skip else Stop)
    else if t.strat !in StrategyNames || |data.value.rows| == 0 then Stop
    else Log
  }

  predicate PositiveCloses(rows: seq<Row>) {
    forall k :: 0 <= k < |rows| ==> rows[k].close > 0.0
  }

  /** The state a simulation of task `t` over `rows` ends in. */
  function TaskFinal(env: Env, t: Task, rows: seq<Row>): Engine.State
    requires PositiveCloses(rows)
  {
    Engine.Run(TaskConfig(env, t), Engine.Initial(env.investment), rows, 0, |rows|)
  }

  /**
   * What a logged result of task `t` on the data `src` reports: the asset,
   * the file, the first and last dates, the task's parameters (the drop
   * negated as stored), the benchmark, and the value, accumulators and event
   * rows of the engine's run over every row.
   */
  predicate ReportsRun(env: Env, t: Task, src: Source, r: Simulation.SimResult)
    requires PositiveCloses(src.rows) && |src.rows| > 0
  {
    var rows := src.rows;
    var final := TaskFinal(env, t, rows);
    && r.assetName == t.asset && r.dataFile == src.file
    && r.start == rows[0].date && r.end == rows[|rows| - 1].date
    && r.strat == t.strat && r.stratEMA == t.ema && r.reinvestPercentage == t.reinvest
    && r.minReturn == t.minReturn && r.percentDrop == -1.0 * t.percentDrop && r.balanceTrip == t.balanceTrip
    && r.buyHold == Engine.BuyHold(rows[0].close, rows[|rows| - 1].close, env.investment, env.fees, env.taxRate)
    && r.finalValue == Engine.FinalValue(final, rows[|rows| - 1].close)
    && r.revenue == final.revenue && r.tax == final.tax && r.fees == final.fees
    && r.numTransactions == final.numTransactions
    && r.buys == final.buys && r.sells == final.sells
    && r.balances == final.balances && r.openReserves == final.openReserves
  }

  /**
   * Lines 133-143 of `simulate` once the strategy is known to be valid: a
   * new simulation, its parameters, and a run over every row.
   */
  method RunTask(env: Env, t: Task, src: Source) returns (r: Simulation.SimResult)
    requires t.strat in StrategyNames && |src.rows| > 0 && PositiveCloses(src.rows)
    ensures ReportsRun(env, t, src, r)
  {
    var sim := new Simulation.Simulation.NewSimulation(t.asset, env.investment, env.taxRate, env.fees,
                                                       src.file, src.rows);
    ghost var st := sim.Current();
    var err := sim.SetStratParams(t.strat, env.sellCondition, t.ema, t.reinvest, t.minReturn,
                                  t.percentDrop, t.balanceTrip);
    assert sim.Current() == st;
    ghost var cfg := sim.Cfg();
    assert cfg == TaskConfig(env, t);
    r := sim.RunSimulation();
    assert sim.Current() == TaskFinal(env, t, src.rows);
  }

  /**
   * `simulate`: the data is loaded; invalid data is counted as done and
   * skipped, any other error is fatal; then a simulation is built, its
   * parameters set (an unknown strategy is fatal), it is run to the last
   * row, and its result is logged.
   */
  method Simulate(env: Env, t: Task, data: Result<Source, DataError>) returns (o: Outcome)
    requires data.Ok? ==> PositiveCloses(data.value.rows)
    ensures o.Skipped? <==> VerdictOf(t, data) == Skip
    ensures o.Skipped? ==> o.message == InvalidDataMessage(data.error.asset, data.error.received, data.error.expected)
    ensures o.Fatal? <==> VerdictOf(t, data) == Stop
    ensures data.Ok? && t.strat !in StrategyNames ==> o == Fatal("Invalid strategy")
    ensures o.Logged? ==> VerdictOf(t, data) == Log && ReportsRun(env, t, data.value, o.result)
  {
    if data.Err? {
      match data.error
      case InvalidData(asset, received, expected) =>
        return Skipped(InvalidDataMessage(asset, received, expected));
      case OpenFailed(message) =>
        return Fatal(message);
      case BadDate(message) =>
        return Fatal(message);
    }
    var valid := IsValidStrategy(t.strat);
    if !valid {
      return Fatal("Invalid strategy");
    }
    if |data.value.rows| == 0 {
      return Fatal("index out of range");
    }
    var r := RunTask(env, t, data.value);
    return Logged(r);
  }

  /** The sweep's results: the logged results and the skipped count, or the reason it stopped. */
  datatype SweepResult = Completed(results: seq<Simulation.SimResult>, skipped: nat) | Aborted(reason: string)

  /** How the task `t` ends once its data is loaded. */
  function TaskVerdict(env: Env, t: Task): Verdict {
    VerdictOf(t, Load(env, t.asset))
  }

  function CountVerdict(env: Env, ts: seq<Task>, v: Verdict): (n: nat)
    ensures n <= |ts|
  {
    if |ts| == 0 then 0
    else CountVerdict(env, ts[..|ts| - 1], v) + (if TaskVerdict(env, ts[|ts| - 1]) == v then 1 else 0)
  }

  /** Tasks that do not stop the program are each either skipped or logged. */
  lemma {:induction false} SkipsAndLogsCoverAll(env: Env, ts: seq<Task>)
    requires forall t :: t in ts ==> TaskVerdict(env, t) != Stop
    ensures CountVerdict(env, ts, Skip) + CountVerdict(env, ts, Log) == |ts|
  {
    if |ts| > 0 {
      SkipsAndLogsCoverAll(env, ts[..|ts| - 1]);
    }
  }

  predicate AllPositive(env: Env) {
    forall a :: a in env.sources ==> PositiveCloses(env.sources[a].rows)
  }

  /** `simulate` for task `t`: its data is loaded and the simulation run on it. */
  method SimulateTask(env: Env, t: Task) returns (o: Outcome)
    requires AllPositive(env)
    ensures o.Fatal? <==> TaskVerdict(env, t) == Stop
    ensures o.Skipped? <==> TaskVerdict(env, t) == Skip
  {
    var data := Load(env, t.asset);
    o := Simulate(env, t, data);
  }

  /**
   * The launched tasks from `WG.Add` to `WG.Wait()`, one after another:
   * each task marks itself done exactly once, by the skip or after logging;
   * a fatal error ends the program with tasks still pending.
   */
  method RunTasks(env: Env, tasks: seq<Task>) returns (res: SweepResult, pending: int)
    requires AllPositive(env)
    ensures res.Completed? <==> forall t :: t in tasks ==> TaskVerdict(env, t) != Stop
    ensures res.Completed? ==> pending == 0 && |res.results| + res.skipped == |tasks|
    ensures res.Completed? ==> res.skipped == CountVerdict(env, tasks, Skip)
    ensures res.Aborted? ==> pending > 0
  {
    pending := |tasks|;
    var results: seq<Simulation.SimResult> := [];
    var skipped := 0;
    for i := 0 to |tasks|
      invariant pending == |tasks| - i
      invariant skipped == CountVerdict(env, tasks[..i], Skip)
      invariant |results| == CountVerdict(env, tasks[..i], Log)
      invariant forall j :: 0 <= j < i ==> TaskVerdict(env, tasks[j]) != Stop
    {
      var o := SimulateTask(env, tasks[i]);
      assert tasks[..i + 1][..i] == tasks[..i];
      match o
      case Fatal(reason) =>
        return Aborted(reason), pending;
      case Skipped(_) =>
        skipped := skipped + 1;
        pending := pending - 1;
      case Logged(r) =>
        results := results + [r];
        pending := pending - 1;
    }
    assert tasks[..|tasks|] == tasks;
    SkipsAndLogsCoverAll(env, tasks);
    return Completed(results, skipped), pending;
  }

  /**
   * `main` from `getNumSims` to `WG.Wait()`: the counter starts at the
   * number of combinations, one task is launched per combination, and the
   * counter reaches zero exactly when no task stops the program.
   */
  method RunSweep(env: Env, assets: seq<string>, p: Params) returns (res: SweepResult, pending: int)
    requires AllPositive(env) && env.sellCondition == p.sellCondition
    ensures res.Completed? <==> forall t :: t in AssetTasks(p, assets) ==> TaskVerdict(env, t) != Stop
    ensures res.Completed? ==> pending == 0 && |res.results| + res.skipped == NumSims(assets, p)
    ensures res.Completed? ==> res.skipped == CountVerdict(env, AssetTasks(p, assets), Skip)
    ensures res.Aborted? ==> pending > 0
  {
    var tasks := LaunchAll(assets, p);
    LaunchCountIsNumSims(assets, p);
    res, pending := RunTasks(env, tasks);
  }
}
