/**
  The replay broker as a transition system on values: what each command and each bar does
  to the whole state. `BacktestBroker` (the class) is proved to take exactly these steps.
 */
module Backtest {
  import opened Wrappers
  import opened Rounding
  import opened Orders
  import opened Candles
  import opened Books

  type Leverage = n: int | n > 0 witness 100

  /**
    Execution parameters. `halfSpread` and `slippage` are in ticks, `unitValue` is the
    money (in cents) one tick is worth on one unit of volume, and `swapPoints` gives the
    daily points per symbol, `swapValue` turning them into cents per unit of volume.
   */
  datatype Config = Config(
    halfSpread: real,
    slippage: real,
    unitValue: real,
    commissionRate: real,
    leverage: Leverage,
    marginEnabled: bool,
    swapEnabled: bool,
    swapPoints: map<string, real>,
    swapValue: real)

  datatype State = State(
    balance: int,
    commissionTotal: int,
    orders: seq<Order>,
    positions: seq<Position>,
    closed: seq<Trade>,
    queue: seq<nat>,
    candle: Option<Candle>)

  datatype Command =
    | Place(request: OrderRequest)
    | Cancel(order: nat)
    | Close(position: nat, price: Option<real>, volume: Option<real>, at: Option<int>)
    | Modify(position: nat, sl: Change, tp: Change, trail: Change)
    | Deposit(amount: int)
    | Withdraw(amount: int)
    | Bar(candle: Candle)

  function BooksOf(s: State): Books {
    Books(s.orders, s.positions, s.closed)
  }

  const SECONDS_PER_DAY := 86400

  function Initial(balance: int, candles: seq<Candle>): State {
    State(balance, 0, [], [], [], [], if candles == [] then None else Some(candles[0]))
  }

  // ----- prices and money

  function Bid(cfg: Config, price: real): real { Tick(price - cfg.halfSpread) }

  function Ask(cfg: Config, price: real): real { Tick(price + cfg.halfSpread) }

  /** The price at which a side trades: buys pay the ask, sells get the bid. */
  function Quoted(cfg: Config, side: Side, price: real): real {
    if side.Buy? then Ask(cfg, price) else Bid(cfg, price)
  }

  function Slip(cfg: Config, side: Side, price: real): real {
    if cfg.slippage <= 0.0 then price
    else Tick(price + Direction(side) * cfg.slippage)
  }

  function Notional(cfg: Config, price: real, volume: int): real {
    price * cfg.unitValue * volume as real
  }

  function Commission(cfg: Config, price: real, volume: int): int {
    Round(Notional(cfg, price, volume) * cfg.commissionRate)
  }

  function Margin(cfg: Config, price: real, volume: int): real {
    Notional(cfg, price, volume) / cfg.leverage as real
  }

  function DaysHeld(openedAt: int, at: int): int {
    if at > openedAt then at / SECONDS_PER_DAY - openedAt / SECONDS_PER_DAY else 0
  }

  function PointsFor(cfg: Config, symbol: string): real {
    if symbol in cfg.swapPoints then cfg.swapPoints[symbol] else 0.0
  }

  function RawSwap(cfg: Config, p: Position, volume: int, at: int): real {
    PointsFor(cfg, p.symbol) * cfg.swapValue * volume as real * DaysHeld(p.openedAt, at) as real
  }

  function SwapFor(cfg: Config, p: Position, volume: int, at: int): int {
    if cfg.swapEnabled then Round(RawSwap(cfg, p, volume, at)) else 0
  }

  function Gross(cfg: Config, p: Position, price: real, volume: int): real {
    (price - p.openPrice) * Direction(p.side) * cfg.unitValue * volume as real
  }

  /** The trade that closes `volume` of a position at an already rounded price. */
  function MakeTrade(cfg: Config, p: Position, price: real, volume: int, at: int): Trade {
    var commission := Commission(cfg, price, volume);
    var swap := SwapFor(cfg, p, volume, at);
    var gross := Gross(cfg, p, price, volume);
    Trade(p.id, p.symbol, p.side, volume, p.openPrice, price, Round(gross),
          Round(gross - commission as real - swap as real), commission, swap, p.openedAt, at)
  }

  // ----- commands between bars

  function NewOrder(s: State, req: OrderRequest): Result<Order, BrokerError> {
    var side := ParseSide(req.side);
    if side.Err? then Err(side.error) else
    var kind := ParseKind(req, side.value);
    if kind.Err? then Err(kind.error)
    else if Round(req.volume) <= 0 then Err(InvalidOrder)
    else if !kind.value.Market? && !ValidSlTp(side.value, kind.value.price, req.sl, req.tp) then Err(InvalidOrder)
    else Ok(Order(|s.orders|, req.symbol, side.value, kind.value, Round(req.volume), Pending,
                  req.sl, req.tp, req.magic, None, false))
  }

  function PlaceOrder(s: State, req: OrderRequest): State {
    var order := NewOrder(s, req);
    if order.Err? then s
    else s.(orders := s.orders + [order.value],
            queue := if order.value.kind.Market? then s.queue + [order.value.id] else s.queue)
  }

  function CancelError(s: State, id: nat): Option<BrokerError> {
    if id >= |s.orders| then Some(UnknownRef)
    else if !s.orders[id].state.Pending? then Some(InvalidOrder)
    else None
  }

  function SetState(s: State, id: nat, state: OrderState): State
    requires id < |s.orders|
  {
    s.(orders := s.orders[id := s.orders[id].(state := state)])
  }

  function CancelOrder(s: State, id: nat): State {
    if CancelError(s, id).Some? then s else SetState(s, id, Cancelled)
  }

  /** The reference price of the current bar; there are no positions before the first one. */
  function LastPrice(s: State, p: Position): real {
    if s.candle.Some? then s.candle.value.c else p.openPrice
  }

  function Now(s: State): int {
    if s.candle.Some? then s.candle.value.ts else 0
  }

  /** The trade that a close request makes, or why it is refused. */
  function CloseRequest(cfg: Config, s: State, id: nat, price: Option<real>, volume: Option<real>, at: Option<int>):
    (r: Result<Trade, BrokerError>)
    ensures r.Ok? ==> Find(s.positions, id).Some? && 0 < r.value.volume <= s.positions[Find(s.positions, id).value].volume
  {
    var i := Find(s.positions, id);
    if i.None? then Err(UnknownRef) else
    var p := s.positions[i.value];
    var closePrice := Tick(price.GetOr(Quoted(cfg, Opposite(p.side), LastPrice(s, p))));
    var size := if volume.None? then p.volume else Round(volume.value);
    if size <= 0 || size > p.volume then Err(InvalidOrder)
    else Ok(MakeTrade(cfg, p, closePrice, size, at.GetOr(Now(s))))
  }

  function Settle(s: State, i: nat, trade: Trade): State
    requires i < |s.positions|
  {
    s.(balance := s.balance + trade.net,
       commissionTotal := s.commissionTotal + trade.commission,
       positions := Shrink(s.positions, i, trade.volume),
       closed := s.closed + [trade])
  }

  function ClosePosition(cfg: Config, s: State, id: nat, price: Option<real>, volume: Option<real>, at: Option<int>): State {
    var trade := CloseRequest(cfg, s, id, price, volume, at);
    if trade.Err? then s else Settle(s, Find(s.positions, id).value, trade.value)
  }

  /** Protections must lie on the right sides of the current market. */
  predicate ValidProtection(side: Side, bid: real, ask: real, sl: Option<real>, tp: Option<real>, trail: Option<real>) {
    && (sl.Some? ==> if side.Buy? then sl.value < bid else sl.value > ask)
    && (tp.Some? ==> if side.Buy? then tp.value > bid else tp.value < ask)
    && (trail.Some? ==> trail.value > 0.0)
  }

  /** The position with its new protections, or why the change is refused. */
  function ModifyRequest(cfg: Config, s: State, id: nat, sl: Change, tp: Change, trail: Change): Result<Position, BrokerError> {
    var i := Find(s.positions, id);
    if i.None? then Err(UnknownRef) else
    var p := s.positions[i.value];
    var bid, ask := Bid(cfg, LastPrice(s, p)), Ask(cfg, LastPrice(s, p));
    var newTrail := trail.Apply(p.trail);
    if !ValidProtection(p.side, bid, ask, sl.Apply(p.sl), tp.Apply(p.tp), newTrail) then Err(InvalidOrder)
    else
      var extreme := if trail.Set? && newTrail.Some? then Some(if p.side.Buy? then bid else ask) else p.extreme;
      Ok(p.(sl := sl.Apply(p.sl), tp := tp.Apply(p.tp), trail := newTrail, extreme := extreme))
  }

  function ModifyPosition(cfg: Config, s: State, id: nat, sl: Change, tp: Change, trail: Change): State {
    var p := ModifyRequest(cfg, s, id, sl, tp, trail);
    if p.Err? then s else s.(positions := s.positions[Find(s.positions, id).value := p.value])
  }

  function DepositMoney(s: State, amount: int): State {
    if amount <= 0 then s else s.(balance := s.balance + amount)
  }

  function WithdrawMoney(s: State, amount: int): State {
    if amount <= 0 || amount > s.balance then s else s.(balance := s.balance - amount)
  }

  // ----- one bar

  predicate Rejects(cfg: Config, s: State, o: Order, fill: real) {
    || ((o.sl.Some? || o.tp.Some?) && !ValidSlTp(o.side, fill, o.sl, o.tp))
    || (cfg.marginEnabled && Margin(cfg, fill, o.volume) > s.balance as real)
  }

  function Opened(cfg: Config, o: Order, fill: real, at: int): Position {
    Position(o.id, o.symbol, o.side, o.volume, fill, o.sl, o.tp, at, Commission(cfg, fill, o.volume), o.magic, None, None)
  }

  /** The order filled at `fill`, its commission paid and its position opened. */
  function OpenPosition(cfg: Config, s: State, id: nat, fill: real, at: int): State
    requires id < |s.orders|
  {
    var p := Opened(cfg, s.orders[id], fill, at);
    SetState(s, id, Filled(fill)).(
      balance := s.balance - p.commission,
      commissionTotal := s.commissionTotal + p.commission,
      positions := s.positions + [p])
  }

  /** Fills or rejects one order at the given price. */
  function Fill(cfg: Config, s: State, id: nat, price: real, at: int): State
    requires id < |s.orders|
  {
    if Rejects(cfg, s, s.orders[id], Tick(price)) then SetState(s, id, OrderState.Rejected)
    else OpenPosition(cfg, s, id, Tick(price), at)
  }

  /** A queued market order trades at the bar's open. */
  function FillQueued(cfg: Config, s: State, id: nat, c: Candle): State {
    if id < |s.orders| && s.orders[id].state.Pending? then
      Fill(cfg, s, id, Slip(cfg, s.orders[id].side, Quoted(cfg, s.orders[id].side, c.o)), c.ts)
    else s
  }

  function SettleQueue(cfg: Config, s: State, ids: seq<nat>, c: Candle): State {
    if ids == [] then s
    else FillQueued(cfg, SettleQueue(cfg, s, ids[..|ids|-1], c), ids[|ids|-1], c)
  }

  /** Price at which a bar triggers a pending order, if it does. */
  function IntrabarFill(o: Order, c: Candle): Option<real> {
    match o.kind
    case Market => None
    case Limit(price) =>
      if (if o.side.Buy? then c.low <= price else c.h >= price) then Some(price) else None
    case Stop(price) =>
      if (if o.side.Buy? then c.h >= price else c.low <= price) then Some(price) else None
    case StopLimit(price, limit) =>
      if (if o.side.Buy? then c.h >= price && c.low <= limit else c.low <= price && c.h >= limit) then Some(limit) else None
  }

  predicate Triggers(o: Order, c: Candle) {
    o.symbol == c.symbol && o.state.Pending? && IntrabarFill(o, c).Some?
  }

  /** Limit orders trade at their own price; stop orders pay the spread and slip. */
  function PendingPrice(cfg: Config, o: Order, c: Candle): real
    requires IntrabarFill(o, c).Some?
  {
    var fill := IntrabarFill(o, c).value;
    if o.kind.Stop? then Slip(cfg, o.side, Quoted(cfg, o.side, fill)) else fill
  }

  function FillPending(cfg: Config, s: State, id: nat, c: Candle): State
    requires id < |s.orders|
  {
    if Triggers(s.orders[id], c) then Fill(cfg, s, id, PendingPrice(cfg, s.orders[id], c), c.ts) else s
  }

  /** The first `n` orders of the book are tried in the order they were placed. */
  function SettlePending(cfg: Config, s: State, n: nat, c: Candle): (r: State)
    requires n <= |s.orders|
    ensures |r.orders| == |s.orders|
  {
    if n == 0 then s else FillPending(cfg, SettlePending(cfg, s, n - 1, c), n - 1, c)
  }

  predicate StopTouched(p: Position, c: Candle) {
    p.sl.Some? && if p.side.Buy? then c.low <= p.sl.value else c.h >= p.sl.value
  }

  predicate TargetTouched(p: Position, c: Candle) {
    p.tp.Some? && if p.side.Buy? then c.h >= p.tp.value else c.low <= p.tp.value
  }

  /** Gap-aware exit prices: a gap through a level trades at the open. */
  function StopPrice(p: Position, c: Candle): real
    requires p.sl.Some?
  {
    if p.side.Buy? then Min(p.sl.value, c.o) else Max(p.sl.value, c.o)
  }

  function TargetPrice(p: Position, c: Candle): real
    requires p.tp.Some?
  {
    if p.side.Buy? then Max(p.tp.value, c.o) else Min(p.tp.value, c.o)
  }

  /** With both levels in the bar's reach, whether the stop is taken first. */
  predicate StopFirst(p: Position, c: Candle)
    requires p.sl.Some? && p.tp.Some?
  {
    if p.side.Buy? then c.o - p.sl.value <= p.tp.value - c.o
    else p.sl.value - c.o <= c.o - p.tp.value
  }

  function IntrabarExit(cfg: Config, p: Position, c: Candle): Option<real> {
    var stop, target := StopTouched(p, c), TargetTouched(p, c);
    if stop && target then Some(if StopFirst(p, c) then StopPrice(p, c) else TargetPrice(p, c))
    else if stop then Some(Slip(cfg, Opposite(p.side), StopPrice(p, c)))
    else if target then Some(TargetPrice(p, c))
    else None
  }

  function ApplyTrailing(p: Position, c: Candle): Position {
    Trailed(p, if p.side.Buy? then c.h else c.low)
  }

  /** What a bar makes of a position: its stop trailed, then closed whole if its stop or target is reached. */
  function OutcomeOf(cfg: Config, p: Position, c: Candle): Outcome {
    if p.symbol != c.symbol then Stays(p)
    else
      var q := ApplyTrailing(p, c);
      var exit := IntrabarExit(cfg, q, c);
      if exit.None? then Stays(q) else Leaves(MakeTrade(cfg, q, Tick(exit.value), q.volume, c.ts))
  }

  function Outcomes(cfg: Config, ps: seq<Position>, c: Candle): (r: seq<Outcome>)
    ensures |r| == |ps| && forall i :: 0 <= i < |ps| ==> r[i] == OutcomeOf(cfg, ps[i], c)
  {
    seq(|ps|, i requires 0 <= i < |ps| => OutcomeOf(cfg, ps[i], c))
  }

  /** The protections of the first `n` positions resolved against the bar. */
  function Protect(cfg: Config, s: State, n: nat, c: Candle): State
    requires n <= |s.positions|
  {
    var outcomes := Outcomes(cfg, s.positions[..n], c);
    s.(balance := s.balance + NetPnl(Left(outcomes)),
       commissionTotal := s.commissionTotal + ExitFees(Left(outcomes)),
       positions := Kept(outcomes) + s.positions[n..],
       closed := s.closed + Left(outcomes))
  }

  /** State after the bar's market fills, and after its pending orders. */
  function AfterQueue(cfg: Config, s: State, c: Candle): State {
    SettleQueue(cfg, s.(candle := Some(c)), s.queue, c).(queue := [])
  }

  function AfterPending(cfg: Config, s: State, c: Candle): State {
    SettlePending(cfg, AfterQueue(cfg, s, c), |AfterQueue(cfg, s, c).orders|, c)
  }

  function OnBar(cfg: Config, s: State, c: Candle): State {
    var t := AfterPending(cfg, s, c);
    Protect(cfg, t, |t.positions|, c)
  }

  // ----- runs

  function Step(cfg: Config, s: State, cmd: Command): State {
    match cmd
    case Place(req) => PlaceOrder(s, req)
    case Cancel(id) => CancelOrder(s, id)
    case Close(id, price, volume, at) => ClosePosition(cfg, s, id, price, volume, at)
    case Modify(id, sl, tp, trail) => ModifyPosition(cfg, s, id, sl, tp, trail)
    case Deposit(amount) => DepositMoney(s, amount)
    case Withdraw(amount) => WithdrawMoney(s, amount)
    case Bar(candle) => OnBar(cfg, s, candle)
  }

  function Run(cfg: Config, s: State, cmds: seq<Command>): State {
    if cmds == [] then s else Step(cfg, Run(cfg, s, cmds[..|cmds|-1]), cmds[|cmds|-1])
  }

  /** Money moved in or out by a command, and over a run. */
  function Transfer(s: State, cmd: Command): int {
    match cmd
    case Deposit(amount) => if amount <= 0 then 0 else amount
    case Withdraw(amount) => if amount <= 0 || amount > s.balance then 0 else -amount
    case _ => 0
  }

  function Transfers(cfg: Config, s: State, cmds: seq<Command>): int {
    if cmds == [] then 0
    else Transfers(cfg, s, cmds[..|cmds|-1]) + Transfer(Run(cfg, s, cmds[..|cmds|-1]), cmds[|cmds|-1])
  }
}
