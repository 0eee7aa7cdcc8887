/**
  A whole backtest: the runner object, the bar loop, the equity curve and the close-out at
  the last bar, with what its result is worth.
 */
module RunBacktest {
  import opened Wrappers
  import opened Rounding
  import opened Orders
  import opened Candles
  import opened Books
  import opened Backtest
  import opened BacktestLedger
  import opened BacktestLifecycle
  import opened MovingAverage
  import opened BacktestBroker
  import opened Strategy
  import opened Metrics

  // ----- equity

  function FloatingSum(cfg: Config, s: State, ps: seq<Position>): real {
    if ps == [] then 0.0
    else
      var p := ps[|ps|-1];
      FloatingSum(cfg, s, ps[..|ps|-1]) + Gross(cfg, p, Quoted(cfg, Opposite(p.side), LastPrice(s, p)), p.volume)
  }

  function AccruedSwap(cfg: Config, ps: seq<Position>, at: int): int {
    if ps == [] then 0 else AccruedSwap(cfg, ps[..|ps|-1], at) + SwapFor(cfg, ps[|ps|-1], ps[|ps|-1].volume, at)
  }

  function RealizedSwap(ts: seq<Trade>): int {
    if ts == [] then 0 else RealizedSwap(ts[..|ts|-1]) + ts[|ts|-1].swap
  }

  function Equity(cfg: Config, s: State, at: int): int {
    s.balance + Round(FloatingSum(cfg, s, s.positions)) + RealizedSwap(s.closed) + AccruedSwap(cfg, s.positions, at)
  }

  /** A flat account's equity counts every realised swap once more, with the wrong sign. */
  lemma FlatEquity(cfg: Config, s: State, at: int)
    requires s.positions == []
    ensures Equity(cfg, s, at) == s.balance + RealizedSwap(s.closed)
  {
    RoundInt(0);
  }

  // ----- the close-out

  /** Neither ids nor money nor volume are lost by closing every open position. */
  lemma {:induction false} ClosesAll(cfg: Config, s: State, at: int, funds: int, n: nat)
    requires BookValid(s) && LedgerHolds(cfg, s, funds) && n <= |s.positions|
    ensures var t := Run(cfg, s, ClosingAll(s.positions, at)[..n]);
            && BookValid(t) && LedgerHolds(cfg, t, funds)
            && t.positions == s.positions[n..] && t.orders == s.orders
  {
    hide BookValid, LedgerHolds, ClosePosition;
    if n != 0 {
      ClosesAll(cfg, s, at, funds, n - 1);
      var cmds := ClosingAll(s.positions, at)[..n];
      assert cmds[..n-1] == ClosingAll(s.positions, at)[..n-1];
      var t := Run(cfg, s, cmds[..n-1]);
      ClosesFirst(cfg, t, at);
      StepBook(cfg, t, cmds[n-1]);
      StepLedger(cfg, t, cmds[n-1], funds);
      assert cmds[n-1] == Close(t.positions[0].id, None, None, Some(at));
      CloseKeepsOrders(cfg, t, t.positions[0].id, at);
    }
  }

  lemma CloseKeepsOrders(cfg: Config, s: State, id: nat, at: int)
    ensures ClosePosition(cfg, s, id, None, None, Some(at)).orders == s.orders
  {
    hide MakeTrade, Tick, Quoted, Find;
  }

  function CloseOut(cfg: Config, s: State, at: int): State {
    Run(cfg, s, ClosingAll(s.positions, at))
  }

  lemma CloseOutFlat(cfg: Config, s: State, at: int, funds: int)
    requires BookValid(s) && LedgerHolds(cfg, s, funds)
    ensures var t := CloseOut(cfg, s, at);
            && t.positions == [] && t.orders == s.orders
            && t.balance - funds == NetPnl(t.closed) - EntryFees(cfg, t.orders)
  {
    ClosesAll(cfg, s, at, funds, |s.positions|);
    var cmds := ClosingAll(s.positions, at);
    assert cmds[..|s.positions|] == cmds;
  }

  /**
    Whatever a strategy commanded, a backtest ends flat and its net profit is the net of
    its closed trades less the entry commissions of its filled orders; and every filled
    order has been closed in full.
   */
  lemma AnyBacktestEndsFlat(cfg: Config, initial: int, candles: seq<Candle>, cmds: seq<Command>, at: int, id: nat)
    requires Transfers(cfg, Initial(initial, candles), cmds) == 0
    ensures var t := CloseOut(cfg, Run(cfg, Initial(initial, candles), cmds), at);
            && t.positions == []
            && t.balance - initial == NetPnl(t.closed) - EntryFees(cfg, t.orders)
            && ClosedVolume(t.closed, id) == FilledVolume(t.orders, id)
  {
    var s := Run(cfg, Initial(initial, candles), cmds);
    InitialBook(initial, candles);
    RunBook(cfg, Initial(initial, candles), cmds);
    RunLedger(cfg, Initial(initial, candles), cmds, initial);
    CloseOutFlat(cfg, s, at, initial);
    RunBook(cfg, s, ClosingAll(s.positions, at));
    var t := CloseOut(cfg, s, at);
    assert FilledVolume(t.orders, id) == OpenVolume(t.positions, id) + ClosedVolume(t.closed, id);
  }

  /**
    Whatever was commanded, the flat account at the end of a backtest has an equity that is
    off its balance by the realised swaps: it is the balance exactly when those cancel out.
   */
  lemma FlatEquityIsBalanceIff(cfg: Config, initial: int, candles: seq<Candle>, cmds: seq<Command>, at: int)
    ensures var t := CloseOut(cfg, Run(cfg, Initial(initial, candles), cmds), at);
            && Equity(cfg, t, at) - t.balance == RealizedSwap(t.closed)
            && (Equity(cfg, t, at) == t.balance <==> RealizedSwap(t.closed) == 0)
  {
    hide Run, Transfers, BookValid, LedgerHolds, Equity;
    var s := Run(cfg, Initial(initial, candles), cmds);
    InitialBook(initial, candles);
    InitialLedger(cfg, initial, candles);
    RunBook(cfg, Initial(initial, candles), cmds);
    RunLedger(cfg, Initial(initial, candles), cmds, initial);
    CloseOutFlat(cfg, s, at, initial + Transfers(cfg, Initial(initial, candles), cmds));
    FlatEquity(cfg, CloseOut(cfg, s, at), at);
  }

  lemma InitialLedger(cfg: Config, initial: int, candles: seq<Candle>)
    ensures LedgerHolds(cfg, Initial(initial, candles), initial)
  {
  }

  // ----- a backtest whose final equity is not its balance

  function StillBar(ts: int): Candle {
    Candle("EURUSD", "D1", ts, 100000.0, 100000.0, 100000.0, 100000.0)
  }

  function TwoDays(): seq<Candle> {
    [StillBar(SECONDS_PER_DAY), StillBar(2 * SECONDS_PER_DAY)]
  }

  /** Euro against dollar with nothing charged but its swap: two hundredths of a cent a day on a unit of volume. */
  function SwapOnly(): Config {
    Config(0.0, 0.0, 0.01, 0.0, 100, false, true, map["EURUSD" := 0.2], 0.1)
  }

  function HoldOverNight(): seq<Command> {
    [Place(OrderRequest("EURUSD", "buy", "market", 10000.0, None, None, None, None, 0, None)),
     Bar(StillBar(SECONDS_PER_DAY)), Bar(StillBar(2 * SECONDS_PER_DAY))]
  }

  function HeldOrder(state: OrderState): Order {
    Order(0, "EURUSD", Buy, Market, 10000, state, None, None, 0, None, false)
  }

  function HeldPosition(): Position {
    Position(0, "EURUSD", Buy, 10000, 100000.0, None, None, SECONDS_PER_DAY, 0, 0, None, None)
  }

  function Held(c: Candle): State {
    State(1000000, 0, [HeldOrder(Filled(100000.0))], [HeldPosition()], [], [], Some(c))
  }

  lemma HeldPlaced()
    ensures PlaceOrder(Initial(1000000, TwoDays()), HoldOverNight()[0].request) == Initial(1000000, TwoDays()).(orders := [HeldOrder(Pending)], queue := [0])
  {
    RoundInt(10000);
    hide Round;
  }

  lemma HeldTick()
    ensures Tick(100000.0) == 100000.0 && Round(0.0) == 0
  {
    RoundInt(100000);
    RoundInt(0);
  }

  lemma HeldStays(c: Candle)
    requires c == StillBar(c.ts)
    ensures Outcomes(SwapOnly(), [HeldPosition()], c) == [Stays(HeldPosition())]
    ensures Kept([Stays(HeldPosition())]) == [HeldPosition()] && Left([Stays(HeldPosition())]) == []
  {
    var outcomes := [Stays(HeldPosition())];
    assert outcomes[..0] == [];
  }

  /** A bar that finds the order filled changes nothing but the current bar. */
  lemma HeldProtected(s: State, c: Candle)
    requires s == Held(c) && c == StillBar(c.ts)
    ensures Protect(SwapOnly(), s, 1, c) == s
  {
    HeldStays(c);
    assert s.positions[..1] == s.positions && s.positions[1..] == [];
  }

  lemma HeldFills()
    ensures var c := StillBar(SECONDS_PER_DAY);
            OnBar(SwapOnly(), Initial(1000000, TwoDays()).(orders := [HeldOrder(Pending)], queue := [0]), c) == Held(c)
  {
    hide Tick, Round, Protect;
    HeldTick();
    var cfg, c := SwapOnly(), StillBar(SECONDS_PER_DAY);
    var s := Initial(1000000, TwoDays()).(orders := [HeldOrder(Pending)], queue := [0], candle := Some(c));
    assert Fill(cfg, s, 0, 100000.0, c.ts) == Held(c).(queue := [0]);
    assert [0][..0] == [];
    assert SettleQueue(cfg, s, [], c) == s;
    assert SettleQueue(cfg, s, [0], c) == FillQueued(cfg, s, 0, c) == Held(c).(queue := [0]);
    var t := Held(c);
    assert SettlePending(cfg, t, 1, c) == FillPending(cfg, SettlePending(cfg, t, 0, c), 0, c) == t;
    HeldProtected(t, c);
  }

  lemma HeldWaits()
    ensures var c := StillBar(2 * SECONDS_PER_DAY);
            OnBar(SwapOnly(), Held(StillBar(SECONDS_PER_DAY)), c) == Held(c)
  {
    hide Tick, Round, Protect;
    var cfg, c := SwapOnly(), StillBar(2 * SECONDS_PER_DAY);
    var t := Held(c);
    assert SettlePending(cfg, t, 1, c) == FillPending(cfg, SettlePending(cfg, t, 0, c), 0, c) == t;
    HeldProtected(t, c);
  }

  lemma HeldClosed()
    ensures var cfg := SwapOnly();
            var at := 2 * SECONDS_PER_DAY;
            var t := CloseOut(cfg, Held(StillBar(at)), at);
            t.positions == [] && t.balance == 999800 && RealizedSwap(t.closed) == 200
  {
    var cfg, at := SwapOnly(), 2 * SECONDS_PER_DAY;
    var s := Held(StillBar(at));
    HeldTick();
    RoundInt(200);
    RoundInt(-200);
    hide Tick, Round;
    var trade := MakeTrade(cfg, HeldPosition(), 100000.0, 10000, at);
    assert trade.net == -200 && trade.swap == 200;
    var cmd := Close(0, None, None, Some(at));
    assert ClosingAll(s.positions, at) == [cmd];
    assert [cmd][..0] == [] && Run(cfg, s, []) == s;
    assert Run(cfg, s, [cmd]) == ClosePosition(cfg, s, 0, None, None, Some(at));
    assert [HeldPosition()][..0] == [] && Find([HeldPosition()], 0) == Some(0);
    assert CloseRequest(cfg, s, 0, None, None, Some(at)) == Ok(trade);
    assert [trade][..0] == [] && s.closed + [trade] == [trade];
  }

  /** A position held over one night: the backtest ends flat, its equity the swap of 200 cents above its balance. */
  lemma FlatEquityOffBalance()
    ensures var cfg := SwapOnly();
            var at := 2 * SECONDS_PER_DAY;
            var t := CloseOut(cfg, Run(cfg, Initial(1000000, TwoDays()), HoldOverNight()), at);
            t.positions == [] && t.balance == 999800 && Equity(cfg, t, at) == 1000000
  {
    hide OnBar, PlaceOrder, CloseOut, Equity;
    var cfg := SwapOnly();
    var s, cmds := Initial(1000000, TwoDays()), HoldOverNight();
    HeldPlaced();
    HeldFills();
    HeldWaits();
    HeldClosed();
    assert cmds[..0] == [] && Run(cfg, s, cmds[..0]) == s;
    assert cmds[..1][..0] == cmds[..0] && cmds[..2][..1] == cmds[..1] && cmds[..3] == cmds;
    assert Run(cfg, s, cmds[..1]) == Step(cfg, s, cmds[0]);
    assert Run(cfg, s, cmds[..2]) == Step(cfg, Run(cfg, s, cmds[..1]), cmds[1]);
    assert Run(cfg, s, cmds) == Step(cfg, Run(cfg, s, cmds[..2]), cmds[2]) == Held(StillBar(2 * SECONDS_PER_DAY));
    FlatEquity(cfg, CloseOut(cfg, Held(StillBar(2 * SECONDS_PER_DAY)), 2 * SECONDS_PER_DAY), 2 * SECONDS_PER_DAY);
  }

  // ----- the runner

  class StrategyRunner {
    const params: Params
    const broker: BacktestBroker
    var status: Status
    var closes: seq<real>
    var signals: seq<Side>
    var ordersPlaced: nat

    function View(): Runner
      reads this, broker
    {
      Runner(broker.Snapshot(), closes, status)
    }

    ghost predicate Valid()
      reads this, broker
    {
      ValidParams(params) && StrategyBook(broker.config, params, broker.Snapshot())
    }

    constructor (params: Params, broker: BacktestBroker)
      requires ValidParams(params)
      ensures this.params == params && this.broker == broker
      ensures status == Idle && closes == [] && signals == [] && ordersPlaced == 0
    {
      this.params, this.broker := params, broker;
      status, closes, signals, ordersPlaced := Idle, [], [], 0;
    }

    method Start() returns (ok: bool)
      modifies this`status
      ensures ok <==> old(status) != Running
      ensures status == Running
    {
      ok := !status.Running?;
      status := Running;
    }

    method Stop()
      modifies this`status
      ensures status == if old(status).Running? then Stopped else old(status)
    {
      if status.Running? { status := Stopped; }
    }

    /** Feeds a completed candle; nothing reaches a strategy that is not running. */
    method FeedCandle(candle: Candle)
      requires Valid()
      modifies this, broker
      ensures View() == Strategy.FeedCandle(broker.config, params, old(View()), candle)
      ensures signals == old(signals) + Emitted(params, old(View()), candle)
      ensures ordersPlaced == old(ordersPlaced) + OrdersPlaced(params, old(View()), candle)
      ensures broker.Valid()
    {
      if status.Running? {
        OnCandle(candle);
      }
    }

    method OnCandle(candle: Candle)
      requires Valid() && status.Running?
      modifies this, broker
      ensures View() == Strategy.FeedCandle(broker.config, params, old(View()), candle)
      ensures signals == old(signals) + Emitted(params, old(View()), candle)
      ensures ordersPlaced == old(ordersPlaced) + OrdersPlaced(params, old(View()), candle)
      ensures broker.Valid()
    {
      hide BookValid, QueueCovers, OwnBook, Strategy.OnSignal, HookFails, HookOrders, WindowSum;
      closes := closes + [candle.c];
      if |closes| < params.slow + 1 { return; }
      var fastSeries := Sma(closes, params.fast);
      var slowSeries := Sma(closes, params.slow);
      var n := |closes| - 1;
      var fastNow, fastPrev := fastSeries.value[n].value, fastSeries.value[n-1].value;
      var slowNow, slowPrev := slowSeries.value[n].value, slowSeries.value[n-1].value;
      if fastPrev <= slowPrev && fastNow > slowNow {
        signals := signals + [Buy];
        OnSignal(Buy);
      } else if fastPrev >= slowPrev && fastNow < slowNow {
        signals := signals + [Sell];
        OnSignal(Sell);
      }
    }

    /** The strategy's reaction to its own signal; a refused order puts the runner in error. */
    method OnSignal(side: Side)
      requires Valid() && status.Running?
      modifies this`status, this`ordersPlaced, broker
      ensures broker.Snapshot() == Strategy.OnSignal(broker.config, params, old(broker.Snapshot()), side)
      ensures status == if HookFails(params, old(broker.Snapshot()), side) then Error else Running
      ensures ordersPlaced == old(ordersPlaced) + if HookOrders(params, old(broker.Snapshot()), side) then 1 else 0
      ensures broker.Valid()
    {
      OwnPositions(broker.config, params, broker.Snapshot());
      var open := OnSymbol(broker.positions, params.symbol);
      if side.Buy? {
        if open != [] { return; }
        var order := broker.PlaceOrder(MarketBuy(params));
        if order.Err? {
          status := Error;
        } else {
          ordersPlaced := ordersPlaced + 1;
        }
      } else {
        CloseOpen(open);
      }
    }

    method CloseOpen(open: seq<Position>)
      requires broker.Valid() && open == broker.positions
      modifies broker
      ensures broker.Snapshot() == Run(broker.config, old(broker.Snapshot()), CloseEach(open))
      ensures broker.Valid()
    {
      hide BookValid, Run, CloseEach, Backtest.ClosePosition, CloseRequest;
      ghost var start := broker.Snapshot();
      NoneClosed(broker.config, start, open);
      for i := 0 to |open|
        invariant broker.Valid()
        invariant broker.Snapshot() == Run(broker.config, start, CloseEach(open[..i]))
      {
        NextClosed(broker.config, start, open, i);
        var _ := broker.ClosePosition(open[i].id, None, None, None);
      }
      assert open[..|open|] == open;
    }
  }

  lemma NoneClosed(cfg: Config, s: State, open: seq<Position>)
    ensures Run(cfg, s, CloseEach(open[..0])) == s
  {
  }

  lemma NextClosed(cfg: Config, s: State, open: seq<Position>, i: nat)
    requires i < |open|
    ensures Run(cfg, s, CloseEach(open[..i+1])) ==
            ClosePosition(cfg, Run(cfg, s, CloseEach(open[..i])), open[i].id, None, None, None)
  {
    hide ClosePosition;
    assert CloseEach(open[..i+1])[..i] == CloseEach(open[..i]);
  }

  // ----- the backtest

  datatype Failure = NoCandles | BadParameters

  datatype Outcome = Outcome(trades: seq<Trade>, netProfit: int, equityCurve: seq<int>, status: Status, endBalance: int,
                             maxDrawdown: real, maxDrawdownPct: real)

  function Started(initial: int, candles: seq<Candle>): Runner {
    Runner(Initial(initial, candles), [], Running)
  }

  function Money(cents: seq<int>): (r: seq<real>)
    ensures |r| == |cents| && forall k :: 0 <= k < |r| ==> r[k] == cents[k] as real
  {
    seq(|cents|, k requires 0 <= k < |cents| => cents[k] as real)
  }

  /** The account after the whole series was replayed and the last bar closed it out. */
  function EndState(cfg: Config, p: Params, initial: int, candles: seq<Candle>): State
    requires ValidParams(p) && candles != []
  {
    CloseOut(cfg, RunBars(cfg, p, Started(initial, candles), candles).broker, candles[|candles|-1].ts)
  }

  lemma FeedLedger(cfg: Config, p: Params, r: Runner, c: Candle, funds: int)
    requires ValidParams(p) && LedgerHolds(cfg, r.broker, funds)
    ensures LedgerHolds(cfg, BarStep(cfg, p, r, c).broker, funds)
  {
    OnBarLedger(cfg, r.broker, c, funds);
    var s := Backtest.OnBar(cfg, r.broker, c);
    var cmds := CloseEach(OnSymbol(s.positions, p.symbol));
    NoTransfers(cfg, s, cmds);
    RunLedger(cfg, s, cmds, funds);
    StepLedger(cfg, s, Place(MarketBuy(p)), funds);
  }

  lemma {:induction false} NoTransfers(cfg: Config, s: State, cmds: seq<Command>)
    requires forall k :: 0 <= k < |cmds| ==> !cmds[k].Deposit? && !cmds[k].Withdraw?
    ensures Transfers(cfg, s, cmds) == 0
  {
    if cmds != [] { NoTransfers(cfg, s, cmds[..|cmds|-1]); }
  }

  lemma {:induction false} RunBarsLedger(cfg: Config, p: Params, r: Runner, candles: seq<Candle>, funds: int)
    requires ValidParams(p) && LedgerHolds(cfg, r.broker, funds)
    ensures LedgerHolds(cfg, RunBars(cfg, p, r, candles).broker, funds)
  {
    if candles != [] {
      RunBarsLedger(cfg, p, r, candles[..|candles|-1], funds);
      FeedLedger(cfg, p, RunBars(cfg, p, r, candles[..|candles|-1]), candles[|candles|-1], funds);
    }
  }

  /** A crossover backtest ends flat, with its net profit accounted for trade by trade. */
  lemma CrossoverEndsFlat(cfg: Config, p: Params, initial: int, candles: seq<Candle>)
    requires ValidParams(p) && candles != []
    ensures var t := EndState(cfg, p, initial, candles);
            && t.positions == []
            && t.balance - initial == NetPnl(t.closed) - EntryFees(cfg, t.orders)
  {
    NeverStacks(cfg, p, initial, candles, candles);
    RunBarsLedger(cfg, p, Started(initial, candles), candles, initial);
    CloseOutFlat(cfg, RunBars(cfg, p, Started(initial, candles), candles).broker, candles[|candles|-1].ts, initial);
  }

  /** The equity after each bar of a replay. */
  predicate IsCurve(cfg: Config, p: Params, start: Runner, candles: seq<Candle>, curve: seq<int>)
    requires ValidParams(p)
  {
    |curve| <= |candles| &&
    forall k :: 0 <= k < |curve| ==>
      curve[k] == Equity(cfg, RunBars(cfg, p, start, candles[..k+1]).broker, candles[k].ts)
  }

  /** One more bar of a fresh replay: the next state of the run, with the strategy's book intact. */
  lemma NextBar(cfg: Config, p: Params, initial: int, candles: seq<Candle>, i: nat)
    requires ValidParams(p) && i < |candles|
    ensures var r := RunBars(cfg, p, Started(initial, candles), candles[..i]);
            && StrategyBook(cfg, p, r.broker) && BookValid(r.broker)
            && StrategyBook(cfg, p, Backtest.OnBar(cfg, r.broker, candles[i]))
            && RunBars(cfg, p, Started(initial, candles), candles[..i+1]) == BarStep(cfg, p, r, candles[i])
            && StrategyBook(cfg, p, BarStep(cfg, p, r, candles[i]).broker)
  {
    NeverStacks(cfg, p, initial, candles, candles[..i]);
    NeverStacks(cfg, p, initial, candles, candles[..i+1]);
    assert candles[..i+1][..i] == candles[..i];
    BarKeepsBook(cfg, p, RunBars(cfg, p, Started(initial, candles), candles[..i]).broker, candles[i]);
  }

  lemma CurveGrows(cfg: Config, p: Params, start: Runner, candles: seq<Candle>, curve: seq<int>, equity: int)
    requires ValidParams(p) && IsCurve(cfg, p, start, candles, curve) && |curve| < |candles|
    requires equity == Equity(cfg, RunBars(cfg, p, start, candles[..|curve|+1]).broker, candles[|curve|].ts)
    ensures IsCurve(cfg, p, start, candles, curve + [equity])
  {
    hide Equity, RunBars;
  }

  lemma FreshRun(cfg: Config, p: Params, start: Runner, candles: seq<Candle>)
    requires ValidParams(p)
    ensures RunBars(cfg, p, start, candles[..0]) == start && IsCurve(cfg, p, start, candles, [])
  {
  }

  method ReplayBar(runner: StrategyRunner, candle: Candle)
    requires runner.broker.Valid() && ValidParams(runner.params)
    requires StrategyBook(runner.broker.config, runner.params,
                          Backtest.OnBar(runner.broker.config, runner.broker.Snapshot(), candle))
    modifies runner, runner.broker
    ensures runner.View() == BarStep(runner.broker.config, runner.params, old(runner.View()), candle)
    ensures runner.broker.Valid()
  {
    hide StrategyBook, BookValid, Strategy.FeedCandle, Backtest.OnBar;
    runner.broker.OnBar(candle);
    runner.FeedCandle(candle);
  }

  /** The bar loop: each bar settles at the broker, then reaches the strategy, then is valued. */
  method ReplayBars(runner: StrategyRunner, candles: seq<Candle>, ghost initial: int) returns (curve: seq<int>)
    requires runner.View() == Started(initial, candles)
    requires runner.broker.Valid() && ValidParams(runner.params)
    modifies runner, runner.broker
    ensures runner.View() == RunBars(runner.broker.config, runner.params, Started(initial, candles), candles)
    ensures runner.broker.Valid()
    ensures |curve| == |candles|
    ensures IsCurve(runner.broker.config, runner.params, Started(initial, candles), candles, curve)
  {
    var broker := runner.broker;
    ghost var p := runner.params;
    curve := [];
    FreshRun(broker.config, p, Started(initial, candles), candles);
    hide StrategyBook, BookValid, Equity, BarStep, Backtest.OnBar, Started, RunBars, IsCurve;
    for i := 0 to |candles|
      invariant runner.View() == RunBars(broker.config, p, Started(initial, candles), candles[..i])
      invariant broker.Valid()
      invariant |curve| == i && IsCurve(broker.config, p, Started(initial, candles), candles, curve)
    {
      NextBar(broker.config, p, initial, candles, i);
      ReplayBar(runner, candles[i]);
      var equity := Equity(broker.config, broker.Snapshot(), candles[i].ts);
      CurveGrows(broker.config, p, Started(initial, candles), candles, curve, equity);
      curve := curve + [equity];
    }
    assert candles[..|candles|] == candles;
  }

  method RunBacktest(config: Config, params: Params, initialBalance: int, candles: seq<Candle>)
    returns (r: Result<Outcome, Failure>)
    ensures r.Err? <==> candles == [] || !ValidParams(params)
    ensures r.Ok? ==>
      var end := EndState(config, params, initialBalance, candles);
      && r.value.trades == end.closed
      && r.value.endBalance == end.balance
      && r.value.netProfit == NetPnl(end.closed) - EntryFees(config, end.orders)
      && |r.value.equityCurve| == |candles|
      && IsCurve(config, params, Started(initialBalance, candles), candles, r.value.equityCurve)
      && IsMaxDrawdown(Money(r.value.equityCurve), r.value.maxDrawdown, r.value.maxDrawdownPct)
  {
    hide BookValid, Equity, EntryFees, NetPnl, RunBars, Run, ClosingAll, IsMaxDrawdown, IsCurve, Money;
    if candles == [] { return Err(NoCandles); }
    if !ValidParams(params) { return Err(BadParameters); }
    var broker := new BacktestBroker(config, initialBalance, candles);
    var runner := new StrategyRunner(params, broker);
    var _ := runner.Start();
    var curve := ReplayBars(runner, candles, initialBalance);
    CloseAll(broker, candles[|candles|-1].ts);
    runner.Stop();
    CrossoverEndsFlat(config, params, initialBalance, candles);
    var drawdown, pct := MaxDrawdown(Money(curve));
    return Ok(Outcome(broker.closed, broker.balance - initialBalance, curve, runner.status, broker.balance, drawdown, pct));
  }

  /**
    The figures of a report agree up to the entry commissions: net profit is gross profit
    less gross loss less what was paid to enter.
   */
  lemma ReportAddsUp(cfg: Config, p: Params, initial: int, candles: seq<Candle>)
    requires ValidParams(p) && candles != []
    ensures var t := EndState(cfg, p, initial, candles);
            t.balance - initial == GrossProfit(Nets(t.closed)) - GrossLoss(Nets(t.closed)) - EntryFees(cfg, t.orders)
  {
    CrossoverEndsFlat(cfg, p, initial, candles);
    var t := EndState(cfg, p, initial, candles);
    NetsSum(t.closed);
    ProfitLessLoss(Nets(t.closed));
  }

  /**
    The drawdown a backtest reports: where the first bar leaves a positive equity, no later
    equity is ever further below an earlier one, on any pair of bars of the replay.
   */
  lemma ReportedDrawdown(cfg: Config, p: Params, start: Runner, candles: seq<Candle>, curve: seq<int>, drawdown: real, pct: real, i: nat, j: nat)
    requires ValidParams(p) && IsCurve(cfg, p, start, candles, curve) && |curve| == |candles|
    requires IsMaxDrawdown(Money(curve), drawdown, pct) && i <= j < |candles| && curve[0] > 0
    ensures Equity(cfg, RunBars(cfg, p, start, candles[..i+1]).broker, candles[i].ts) as real
            - Equity(cfg, RunBars(cfg, p, start, candles[..j+1]).broker, candles[j].ts) as real <= drawdown
    ensures exists a: nat, b: nat :: AttainedBy(Money(curve), a, b, drawdown, pct)
  {
    hide Equity, RunBars, IsMaxDrawdown;
    PositiveStart(Money(curve), drawdown, pct);
    assert curve[i] == Equity(cfg, RunBars(cfg, p, start, candles[..i+1]).broker, candles[i].ts);
    assert curve[j] == Equity(cfg, RunBars(cfg, p, start, candles[..j+1]).broker, candles[j].ts);
    assert Money(curve)[i] - Money(curve)[j] <= drawdown;
  }

  function Nets(ts: seq<Trade>): seq<int> {
    seq(|ts|, i requires 0 <= i < |ts| => ts[i].net)
  }

  lemma {:induction false} NetsSum(ts: seq<Trade>)
    ensures SumOf(Nets(ts)) == NetPnl(ts)
  {
    if ts != [] {
      NetsSum(ts[..|ts|-1]);
      assert Nets(ts)[..|ts|-1] == Nets(ts[..|ts|-1]);
    }
  }
}
