/**
  The strategy runner and the moving-average crossover strategy driven by the replay
  broker, bar by bar, as a backtest drives them.
 */
module Strategy {
  import opened Wrappers
  import opened Rounding
  import opened Orders
  import opened Candles
  import opened Books
  import opened Backtest
  import opened BacktestLedger
  import opened BacktestLifecycle
  import opened MovingAverage

  datatype Status = Idle | Running | Stopped | Error

  datatype Params = Params(symbol: string, fast: nat, slow: nat, volume: real, magic: int)

  /** The constructor refuses periods that are not positive and in order. */
  predicate ValidParams(p: Params) {
    0 < p.fast < p.slow
  }

  /** What the runner holds: the broker, the closes seen and its status. */
  datatype Runner = Runner(broker: State, closes: seq<real>, status: Status)

  /** The crossover signal of the last close, if any. */
  function Signal(p: Params, closes: seq<real>): Option<Side>
    requires ValidParams(p)
  {
    if |closes| < p.slow + 1 then None
    else
      var n := |closes| - 1;
      var fastNow, fastPrev := SmaAt(closes, p.fast, n).value, SmaAt(closes, p.fast, n - 1).value;
      var slowNow, slowPrev := SmaAt(closes, p.slow, n).value, SmaAt(closes, p.slow, n - 1).value;
      if fastPrev <= slowPrev && fastNow > slowNow then Some(Buy)
      else if fastPrev >= slowPrev && fastNow < slowNow then Some(Sell)
      else None
  }

  function MarketBuy(p: Params): OrderRequest {
    OrderRequest(p.symbol, "buy", "market", p.volume, None, None, None, None, p.magic, None)
  }

  function OnSymbol(ps: seq<Position>, symbol: string): seq<Position> {
    if ps == [] then []
    else OnSymbol(ps[..|ps|-1], symbol) + if ps[|ps|-1].symbol == symbol then [ps[|ps|-1]] else []
  }

  function CloseEach(open: seq<Position>): seq<Command> {
    seq(|open|, i requires 0 <= i < |open| => Close(open[i].id, None, None, None))
  }

  /** The hook for a signal: buy when flat on the symbol, close everything on a sell. */
  function OnSignal(cfg: Config, p: Params, s: State, side: Side): State {
    var open := OnSymbol(s.positions, p.symbol);
    if side.Sell? then Run(cfg, s, CloseEach(open))
    else if open != [] then s
    else Backtest.PlaceOrder(s, MarketBuy(p))
  }

  /** Whether the hook places an order. */
  predicate HookOrders(p: Params, s: State, side: Side) {
    side.Buy? && OnSymbol(s.positions, p.symbol) == [] && NewOrder(s, MarketBuy(p)).Ok?
  }

  /** What a candle makes a runner signal, and how many orders it makes it place. */
  function Emitted(p: Params, r: Runner, c: Candle): (e: seq<Side>)
    requires ValidParams(p)
    ensures |e| <= 1
  {
    if !r.status.Running? then []
    else
      var signal := Signal(p, r.closes + [c.c]);
      if signal.None? then [] else [signal.value]
  }

  function OrdersPlaced(p: Params, r: Runner, c: Candle): nat
    requires ValidParams(p)
  {
    var e := Emitted(p, r, c);
    if e != [] && HookOrders(p, r.broker, e[0]) then 1 else 0
  }

  /** A hook that raises leaves the runner in error. */
  predicate HookFails(p: Params, s: State, side: Side) {
    side.Buy? && OnSymbol(s.positions, p.symbol) == [] && NewOrder(s, MarketBuy(p)).Err?
  }

  function FeedCandle(cfg: Config, p: Params, r: Runner, c: Candle): Runner
    requires ValidParams(p)
  {
    if !r.status.Running? then r
    else
      var closes := r.closes + [c.c];
      var signal := Signal(p, closes);
      if signal.None? then r.(closes := closes)
      else Runner(OnSignal(cfg, p, r.broker, signal.value), closes,
                  if HookFails(p, r.broker, signal.value) then Error else Running)
  }

  function BarStep(cfg: Config, p: Params, r: Runner, c: Candle): Runner
    requires ValidParams(p)
  {
    FeedCandle(cfg, p, r.(broker := Backtest.OnBar(cfg, r.broker, c)), c)
  }

  function RunBars(cfg: Config, p: Params, r: Runner, candles: seq<Candle>): Runner
    requires ValidParams(p)
  {
    if candles == [] then r
    else BarStep(cfg, p, RunBars(cfg, p, r, candles[..|candles|-1]), candles[|candles|-1])
  }

  // ----- exposure

  function PendingCount(orders: seq<Order>): nat {
    if orders == [] then 0
    else PendingCount(orders[..|orders|-1]) + if orders[|orders|-1].state.Pending? then 1 else 0
  }

  function Exposure(s: State): nat {
    PendingCount(s.orders) + |s.positions|
  }

  lemma {:induction false} PendingUpdate(orders: seq<Order>, i: nat, o: Order)
    requires i < |orders|
    ensures PendingCount(orders[i := o]) ==
            PendingCount(orders) - (if orders[i].state.Pending? then 1 else 0) + (if o.state.Pending? then 1 else 0)
  {
    var n := |orders| - 1;
    if i == n {
      assert orders[i := o][..n] == orders[..n];
    } else {
      assert orders[i := o][..n] == orders[..n][i := o];
      PendingUpdate(orders[..n], i, o);
    }
  }

  lemma {:induction false} NonePending(orders: seq<Order>)
    requires forall i :: 0 <= i < |orders| ==> !orders[i].state.Pending?
    ensures PendingCount(orders) == 0
  {
    if orders != [] { NonePending(orders[..|orders|-1]); }
  }

  lemma FillExposure(cfg: Config, s: State, id: nat, price: real, at: int)
    requires id < |s.orders| && s.orders[id].state.Pending?
    ensures Exposure(Fill(cfg, s, id, price, at)) <= Exposure(s)
  {
    PendingUpdate(s.orders, id, Fill(cfg, s, id, price, at).orders[id]);
  }

  lemma {:induction false} QueueExposure(cfg: Config, s: State, ids: seq<nat>, c: Candle)
    ensures Exposure(SettleQueue(cfg, s, ids, c)) <= Exposure(s)
  {
    if ids != [] {
      QueueExposure(cfg, s, ids[..|ids|-1], c);
      var t, id := SettleQueue(cfg, s, ids[..|ids|-1], c), ids[|ids|-1];
      if id < |t.orders| && t.orders[id].state.Pending? {
        FillExposure(cfg, t, id, Slip(cfg, t.orders[id].side, Quoted(cfg, t.orders[id].side, c.o)), c.ts);
      }
    }
  }

  lemma {:induction false} PendingExposure(cfg: Config, s: State, n: nat, c: Candle)
    requires n <= |s.orders|
    ensures Exposure(SettlePending(cfg, s, n, c)) <= Exposure(s)
  {
    if n != 0 {
      PendingExposure(cfg, s, n - 1, c);
      var t := SettlePending(cfg, s, n - 1, c);
      if Triggers(t.orders[n-1], c) {
        FillExposure(cfg, t, n - 1, PendingPrice(cfg, t.orders[n-1], c), c.ts);
      }
    }
  }

  /** A bar turns pending orders into positions at best one for one: it never adds exposure. */
  lemma BarExposure(cfg: Config, s: State, c: Candle)
    ensures Exposure(Backtest.OnBar(cfg, s, c)) <= Exposure(s)
  {
    QueueExposure(cfg, s.(candle := Some(c)), s.queue, c);
    var q := AfterQueue(cfg, s, c);
    PendingExposure(cfg, q, |q.orders|, c);
    var t := AfterPending(cfg, s, c);
    KeptCount(Outcomes(cfg, t.positions[..|t.positions|], c));
  }

  /** Every order of the book is a market order of the strategy's symbol. */
  predicate OwnBook(p: Params, s: State) {
    forall i :: 0 <= i < |s.orders| ==> s.orders[i].kind.Market? && s.orders[i].symbol == p.symbol
  }

  ghost predicate StrategyBook(cfg: Config, p: Params, s: State) {
    BookValid(s) && QueueCovers(s) && OwnBook(p, s)
  }

  lemma BarKeepsBook(cfg: Config, p: Params, s: State, c: Candle)
    requires StrategyBook(cfg, p, s)
    ensures var t := Backtest.OnBar(cfg, s, c);
            StrategyBook(cfg, p, t) && PendingCount(t.orders) == 0
  {
    OnBarBook(cfg, s, c);
    StepQueue(cfg, s, Bar(c));
    BarSettlesOrders(cfg, s, c);
    var t := Backtest.OnBar(cfg, s, c);
    forall i | 0 <= i < |t.orders| ensures t.orders[i].kind.Market? && t.orders[i].symbol == p.symbol && !t.orders[i].state.Pending? {
      assert BarSettles(cfg, s.orders[i], t.orders[i], i in s.queue, c, MarketFunds(cfg, s, c, i), BookFunds(cfg, s, c, i));
    }
    NonePending(t.orders);
  }

  lemma {:induction false} AllOnSymbol(ps: seq<Position>, symbol: string)
    requires forall j :: 0 <= j < |ps| ==> ps[j].symbol == symbol
    ensures OnSymbol(ps, symbol) == ps
  {
    if ps != [] { AllOnSymbol(ps[..|ps|-1], symbol); }
  }

  lemma OwnPositions(cfg: Config, p: Params, s: State)
    requires StrategyBook(cfg, p, s)
    ensures OnSymbol(s.positions, p.symbol) == s.positions
  {
    forall j | 0 <= j < |s.positions| ensures s.positions[j].symbol == p.symbol {
      assert OpenedBy(s.positions[j], s.orders[s.positions[j].id]);
    }
    AllOnSymbol(s.positions, p.symbol);
  }

  lemma FirstCloses(cfg: Config, s: State)
    requires BookValid(s) && s.positions != []
    ensures var t := ClosePosition(cfg, s, s.positions[0].id, None, None, None);
            && BookValid(t) && t.positions == s.positions[1..]
            && t.orders == s.orders && t.queue == s.queue
  {
    CloseBook(cfg, s, s.positions[0].id, None, None, None);
    OpenVolumeUnique(s.positions, 0);
    assert OpenedBy(s.positions[0], s.orders[s.positions[0].id]);
    hide BookValid, Gross, Commission, SwapFor, Tick, Quoted, Find;
  }

  /** Closing every position, front to back, leaves none and touches no order. */
  lemma {:induction false} ClosesEach(cfg: Config, s: State, n: nat)
    requires BookValid(s) && n <= |s.positions|
    ensures var t := Run(cfg, s, CloseEach(s.positions)[..n]);
            && BookValid(t) && t.positions == s.positions[n..]
            && t.orders == s.orders && t.queue == s.queue
  {
    if n != 0 {
      ClosesEach(cfg, s, n - 1);
      var cmds := CloseEach(s.positions)[..n];
      assert cmds[..n-1] == CloseEach(s.positions)[..n-1];
      var t := Run(cfg, s, cmds[..n-1]);
      FirstCloses(cfg, t);
      hide BookValid, ClosePosition;
      assert cmds[n-1] == Close(t.positions[0].id, None, None, None);
    }
  }

  lemma SignalKeeps(cfg: Config, p: Params, s: State, side: Side)
    requires StrategyBook(cfg, p, s)
    requires PendingCount(s.orders) == 0 && |s.positions| <= 1
    ensures var t := OnSignal(cfg, p, s, side);
            StrategyBook(cfg, p, t) && Exposure(t) <= 1
  {
    OwnPositions(cfg, p, s);
    if side.Sell? {
      SellKeeps(cfg, p, s);
    } else if s.positions == [] {
      BuyKeeps(cfg, p, s);
    }
    hide StrategyBook, PendingCount, Backtest.PlaceOrder, Run;
  }

  lemma SellKeeps(cfg: Config, p: Params, s: State)
    requires StrategyBook(cfg, p, s)
    ensures var t := Run(cfg, s, CloseEach(s.positions));
            && StrategyBook(cfg, p, t) && t.positions == [] && t.orders == s.orders
  {
    ClosesEach(cfg, s, |s.positions|);
    var cmds := CloseEach(s.positions);
    assert cmds[..|s.positions|] == cmds;
    hide BookValid, Run;
  }

  lemma BuyKeeps(cfg: Config, p: Params, s: State)
    requires StrategyBook(cfg, p, s)
    ensures var t := Backtest.PlaceOrder(s, MarketBuy(p));
            && StrategyBook(cfg, p, t) && t.positions == s.positions
            && PendingCount(t.orders) <= PendingCount(s.orders) + 1
  {
    PlaceBook(s, MarketBuy(p));
    StepQueue(cfg, s, Place(MarketBuy(p)));
    hide BookValid, QueueCovers;
    var t := Backtest.PlaceOrder(s, MarketBuy(p));
    if NewOrder(s, MarketBuy(p)).Ok? {
      assert t.orders[..|t.orders|-1] == s.orders;
    }
  }

  lemma InitialStrategyBook(cfg: Config, p: Params, initial: int, candles: seq<Candle>)
    ensures StrategyBook(cfg, p, Initial(initial, candles)) && Exposure(Initial(initial, candles)) == 0
  {
    InitialBook(initial, candles);
  }

  /** Nothing a candle makes the strategy do breaks its book or stacks exposure. */
  lemma FeedKeeps(cfg: Config, p: Params, r: Runner, c: Candle)
    requires ValidParams(p) && StrategyBook(cfg, p, r.broker)
    requires PendingCount(r.broker.orders) == 0 && |r.broker.positions| <= 1
    ensures var t := FeedCandle(cfg, p, r, c);
            StrategyBook(cfg, p, t.broker) && Exposure(t.broker) <= 1
  {
    hide StrategyBook, PendingCount, Signal, OnSignal, HookFails;
    var signal := Signal(p, r.closes + [c.c]);
    if r.status.Running? && signal.Some? {
      SignalKeeps(cfg, p, r.broker, signal.value);
    }
  }

  /**
    The crossover strategy never stacks exposure: at every bar boundary of every backtest
    at most one order is pending or one position open, whatever the sequence of signals.
   */
  lemma {:induction false} NeverStacks(cfg: Config, p: Params, initial: int, candles: seq<Candle>, bars: seq<Candle>)
    requires ValidParams(p)
    ensures var r := RunBars(cfg, p, Runner(Initial(initial, candles), [], Running), bars);
            StrategyBook(cfg, p, r.broker) && Exposure(r.broker) <= 1
  {
    hide StrategyBook, PendingCount, Backtest.OnBar, FeedCandle;
    if bars == [] {
      InitialStrategyBook(cfg, p, initial, candles);
    } else {
      var n := |bars| - 1;
      NeverStacks(cfg, p, initial, candles, bars[..n]);
      var r := RunBars(cfg, p, Runner(Initial(initial, candles), [], Running), bars[..n]);
      BarKeepsBook(cfg, p, r.broker, bars[n]);
      BarExposure(cfg, r.broker, bars[n]);
      FeedKeeps(cfg, p, r.(broker := Backtest.OnBar(cfg, r.broker, bars[n])), bars[n]);
    }
  }
}
