/**
  The live paper broker as a transition system on values: orders fill against quotes, a
  stop-limit order first arms, and every fresh quote settles orders and protections.
 */
module Paper {
  import opened Wrappers
  import opened Rounding
  import opened Orders
  import opened Books

  const LEVERAGE: real := 100.0
  const COMMISSION_RATE: real := 0.00002
  const SECONDS_PER_DAY: real := 86400.0

  /** What one tick is worth on one unit of volume, and the daily swap on one, in cents. */
  datatype SymbolInfo = SymbolInfo(unitValue: real, swapPerDay: real)

  type Market = string -> SymbolInfo

  datatype Quote = Quote(bid: real, ask: real)

  datatype State = State(
    balance: int,
    commissionTotal: int,
    orders: seq<Order>,
    positions: seq<Position>,
    closed: seq<Trade>)

  datatype Event = OrderExpired(order: Order) | OrderFilled(order: Order)

  /** A command together with the quote and the clock reading it meets. */
  datatype Command =
    | Place(request: OrderRequest, quote: Quote, now: int)
    | Cancel(order: nat)
    | Close(position: nat, price: Option<real>, volume: Option<real>, quote: Quote, at: int)
    | Modify(position: nat, sl: Change, tp: Change, trail: Change, quote: Quote)
    | Deposit(amount: int)
    | Withdraw(amount: int)
    | Refresh(symbol: string, quote: Quote, now: int)

  function Initial(balance: int): State {
    State(balance, 0, [], [], [])
  }

  function BooksOf(s: State): Books {
    Books(s.orders, s.positions, s.closed)
  }

  /** The price at which a side trades. */
  function Quoted(side: Side, q: Quote): real {
    if side.Buy? then q.ask else q.bid
  }

  // ----- money

  function Notional(m: Market, symbol: string, price: real, volume: int): real {
    price * m(symbol).unitValue * volume as real
  }

  function Margin(m: Market, symbol: string, price: real, volume: int): real {
    Notional(m, symbol, price, volume) / LEVERAGE
  }

  function Commission(m: Market, symbol: string, price: real, volume: int): int {
    Round(Notional(m, symbol, price, volume) * COMMISSION_RATE)
  }

  function DaysHeld(openedAt: int, at: int): real {
    if at > openedAt then (at - openedAt) as real / SECONDS_PER_DAY else 0.0
  }

  function SwapFor(m: Market, p: Position, volume: int, at: int): int {
    Round(m(p.symbol).swapPerDay * volume as real * DaysHeld(p.openedAt, at))
  }

  function Gross(m: Market, symbol: string, side: Side, openPrice: real, price: real, volume: int): real {
    (price - openPrice) * Direction(side) * m(symbol).unitValue * volume as real
  }

  function Share(amount: int, part: int, whole: int): real
    requires whole != 0
  {
    amount as real * part as real / whole as real
  }

  /** The part of the entry commission that a closed volume carries. */
  function OpenShare(p: Position, volume: int): int
    requires p.volume != 0
  {
    Round(Share(p.commission, volume, p.volume))
  }

  /** What a trade puts into the balance: the entry commission was taken at the fill. */
  function Settled(m: Market, t: Trade): int {
    Round(Gross(m, t.symbol, t.side, t.openPrice, t.closePrice, t.volume) - t.commission as real - t.swap as real)
  }

  /** A trade's reported net, in contrast, also subtracts the share of the entry commission. */
  function MakeTrade(m: Market, p: Position, price: real, volume: int, at: int): Trade
    requires p.volume != 0
  {
    var gross := Gross(m, p.symbol, p.side, p.openPrice, price, volume);
    var commission := Commission(m, p.symbol, price, volume);
    var swap := SwapFor(m, p, volume, at);
    Trade(p.id, p.symbol, p.side, volume, p.openPrice, price, Round(gross),
          Round(gross - commission as real - OpenShare(p, volume) as real - swap as real),
          commission, swap, p.openedAt, at)
  }

  // ----- filling

  function WithPrice(kind: OrderKind, price: real): OrderKind {
    match kind
    case Market => Market
    case Limit(_) => Limit(price)
    case Stop(_) => Stop(price)
    case StopLimit(_, limit) => StopLimit(price, limit)
  }

  predicate Affordable(m: Market, s: State, o: Order, price: real) {
    Margin(m, o.symbol, price, o.volume) <= s.balance as real
  }

  function FilledOrder(o: Order, price: real): Order {
    o.(state := Filled(price), kind := WithPrice(o.kind, price), triggered := false)
  }

  function OpenedPosition(m: Market, o: Order, price: real, now: int): Position {
    Position(o.id, o.symbol, o.side, o.volume, price, o.sl, o.tp, now, Commission(m, o.symbol, price, o.volume), o.magic, None, None)
  }

  /** The order filled and its position opened; the order is new or already in the book. */
  function OpenPosition(m: Market, s: State, o: Order, price: real, now: int): State
    requires o.id <= |s.orders|
  {
    var p := OpenedPosition(m, o, price, now);
    var filled := FilledOrder(o, price);
    s.(balance := s.balance - p.commission,
       commissionTotal := s.commissionTotal + p.commission,
       orders := if o.id < |s.orders| then s.orders[o.id := filled] else s.orders + [filled],
       positions := s.positions + [p])
  }

  /** Without margin nothing is stored: the order handed back is rejected, the book unchanged. */
  function Fill(m: Market, s: State, o: Order, price: real, now: int): (State, Order)
    requires o.id <= |s.orders|
  {
    if Affordable(m, s, o, price) then (OpenPosition(m, s, o, price, now), FilledOrder(o, price))
    else (s, o.(state := OrderState.Rejected, kind := WithPrice(o.kind, price), triggered := false))
  }

  predicate IsCrossed(side: Side, kind: OrderKind, q: Quote) {
    match kind
    case Limit(price) => if side.Buy? then q.ask <= price else q.bid >= price
    case Stop(price) => if side.Buy? then q.ask >= price else q.bid <= price
    case _ => false
  }

  /** A stop-limit order is armed once its stop level has been crossed. */
  predicate Armed(o: Order, q: Quote) {
    o.kind.StopLimit? && (o.triggered || if o.side.Buy? then q.ask >= o.kind.price else q.bid <= o.kind.price)
  }

  /** The price at which the quote fills the order, if it does. */
  function FillPrice(o: Order, q: Quote): Option<real> {
    match o.kind
    case StopLimit(_, limit) =>
      if Armed(o, q) && (if o.side.Buy? then q.ask <= limit else q.bid >= limit) then Some(limit) else None
    case Market => None
    case _ => if IsCrossed(o.side, o.kind, q) then Some(o.kind.price) else None
  }

  function Arm(s: State, id: nat, q: Quote): State
    requires id < |s.orders|
  {
    if Armed(s.orders[id], q) then s.(orders := s.orders[id := s.orders[id].(triggered := true)]) else s
  }

  /** Arms the order if the quote does, then fills it if the quote reaches it. */
  function MaybeFill(m: Market, s: State, id: nat, q: Quote, now: int): (State, Option<Order>)
    requires id < |s.orders| && s.orders[id].id == id
  {
    var t := Arm(s, id, q);
    var price := FillPrice(t.orders[id], q);
    if price.None? then (t, None)
    else
      var (u, o) := Fill(m, t, t.orders[id], price.value, now);
      (u, Some(o))
  }

  // ----- commands

  /** The order a request describes, or why it is refused; a market order is checked against the quote. */
  function NewOrder(s: State, req: OrderRequest, q: Quote, now: int): Result<Order, BrokerError> {
    var side := ParseSide(req.side);
    if side.Err? then Err(side.error) else
    var kind := ParseKind(req, side.value);
    if kind.Err? then Err(kind.error)
    else if Round(req.volume) <= 0 then Err(InvalidOrder)
    else if req.expiry.Some? && req.expiry.value <= now then Err(InvalidOrder)
    else
      var price := if kind.value.Market? then Quoted(side.value, q) else kind.value.price;
      if !ValidSlTp(side.value, price, req.sl, req.tp) then Err(InvalidOrder)
      else Ok(Order(|s.orders|, req.symbol, side.value, kind.value, Round(req.volume), Pending,
                    req.sl, req.tp, req.magic, req.expiry, false))
  }

  function PlaceOrder(m: Market, s: State, req: OrderRequest, q: Quote, now: int): (State, Result<Order, BrokerError>) {
    var order := NewOrder(s, req, q, now);
    if order.Err? then (s, order)
    else
      var o := order.value;
      if o.kind.Market? then
        var (t, r) := Fill(m, s, o, Tick(Quoted(o.side, q)), now);
        (t, Ok(r))
      else
        var (t, r) := MaybeFill(m, s.(orders := s.orders + [o]), |s.orders|, q, now);
        (t, Ok(r.GetOr(o)))
  }

  function CancelError(s: State, id: nat): Option<BrokerError> {
    if id >= |s.orders| then Some(UnknownRef)
    else if !s.orders[id].state.Pending? then Some(NotPending)
    else None
  }

  function CancelOrder(s: State, id: nat): State {
    if CancelError(s, id).Some? then s
    else s.(orders := s.orders[id := s.orders[id].(state := Cancelled)])
  }

  function CloseRequest(m: Market, s: State, id: nat, price: Option<real>, volume: Option<real>, q: Quote, at: int):
    (r: Result<Trade, BrokerError>)
    ensures r.Ok? ==> Find(s.positions, id).Some? && 0 < r.value.volume <= s.positions[Find(s.positions, id).value].volume
  {
    var i := Find(s.positions, id);
    if i.None? then Err(UnknownRef) else
    var p := s.positions[i.value];
    var size := if volume.None? then p.volume else Round(volume.value);
    if size <= 0 || size > p.volume then Err(InvalidOrder)
    else Ok(MakeTrade(m, p, Tick(price.GetOr(Quoted(Opposite(p.side), q))), size, at))
  }

  function Settle(m: Market, s: State, i: nat, t: Trade): State
    requires i < |s.positions|
  {
    s.(balance := s.balance + Settled(m, t),
       commissionTotal := s.commissionTotal + t.commission,
       positions := Shrink(s.positions, i, t.volume),
       closed := s.closed + [t])
  }

  function ClosePosition(m: Market, s: State, id: nat, price: Option<real>, volume: Option<real>, q: Quote, at: int): State {
    var trade := CloseRequest(m, s, id, price, volume, q, at);
    if trade.Err? then s else Settle(m, s, Find(s.positions, id).value, trade.value)
  }

  predicate ValidProtection(side: Side, q: Quote, sl: Option<real>, tp: Option<real>, trail: Option<real>) {
    && (sl.Some? ==> if side.Buy? then sl.value < q.bid else sl.value > q.ask)
    && (tp.Some? ==> if side.Buy? then tp.value > q.bid else tp.value < q.ask)
    && (trail.Some? ==> trail.value > 0.0)
  }

  function ModifyRequest(s: State, id: nat, sl: Change, tp: Change, trail: Change, q: Quote): Result<Position, BrokerError> {
    var i := Find(s.positions, id);
    if i.None? then Err(UnknownRef) else
    var p := s.positions[i.value];
    var newTrail := trail.Apply(p.trail);
    if !ValidProtection(p.side, q, sl.Apply(p.sl), tp.Apply(p.tp), newTrail) then Err(InvalidOrder)
    else
      var extreme := if trail.Set? && newTrail.Some? then Some(if p.side.Buy? then q.bid else q.ask) else p.extreme;
      Ok(p.(sl := sl.Apply(p.sl), tp := tp.Apply(p.tp), trail := newTrail, extreme := extreme))
  }

  function ModifyPosition(s: State, id: nat, sl: Change, tp: Change, trail: Change, q: Quote): State {
    var p := ModifyRequest(s, id, sl, tp, trail, q);
    if p.Err? then s else s.(positions := s.positions[Find(s.positions, id).value := p.value])
  }

  function DepositMoney(s: State, amount: int): State {
    if amount <= 0 then s else s.(balance := s.balance + amount)
  }

  function WithdrawMoney(s: State, amount: int): State {
    if amount <= 0 || amount > s.balance then s else s.(balance := s.balance - amount)
  }

  // ----- a fresh quote

  predicate PastExpiry(o: Order, now: int) {
    o.expiry.Some? && o.expiry.value < now
  }

  /** One order met by a quote of its symbol: expired, armed, filled, or left. */
  function SettleOrder(m: Market, s: State, id: nat, symbol: string, q: Quote, now: int): (State, seq<Event>)
    requires id < |s.orders| && s.orders[id].id == id
  {
    var o := s.orders[id];
    if o.symbol != symbol || !o.state.Pending? then (s, [])
    else if PastExpiry(o, now) then
      var expired := o.(state := OrderState.Expired);
      (s.(orders := s.orders[id := expired]), [OrderExpired(expired)])
    else
      var (t, r) := MaybeFill(m, s, id, q, now);
      (t, if r.Some? then [OrderFilled(r.value)] else [])
  }

  predicate Numbered(orders: seq<Order>) {
    forall i :: 0 <= i < |orders| ==> orders[i].id == i
  }

  function SettleOrders(m: Market, s: State, n: nat, symbol: string, q: Quote, now: int): (r: (State, seq<Event>))
    requires n <= |s.orders| && Numbered(s.orders)
    ensures |r.0.orders| == |s.orders| && Numbered(r.0.orders)
  {
    if n == 0 then (s, [])
    else
      var (t, events) := SettleOrders(m, s, n - 1, symbol, q, now);
      var (u, more) := SettleOrder(m, t, n - 1, symbol, q, now);
      (u, events + more)
  }

  predicate StopHit(p: Position, q: Quote) {
    p.sl.Some? && if p.side.Buy? then q.bid <= p.sl.value else q.ask >= p.sl.value
  }

  predicate TargetHit(p: Position, q: Quote) {
    p.tp.Some? && if p.side.Buy? then q.bid >= p.tp.value else q.ask <= p.tp.value
  }

  function ApplyTrailing(p: Position, q: Quote): Position {
    Trailed(p, if p.side.Buy? then q.bid else q.ask)
  }

  /** The stop is checked before the target; either closes at its own level. */
  function QuoteExit(p: Position, q: Quote): Option<real> {
    if StopHit(p, q) then p.sl
    else if TargetHit(p, q) then p.tp
    else None
  }

  /** What a quote makes of a position; an open position always has volume left to close. */
  function OutcomeOf(m: Market, p: Position, symbol: string, q: Quote, now: int): Outcome {
    if p.symbol != symbol then Stays(p)
    else
      var r := ApplyTrailing(p, q);
      var exit := QuoteExit(r, q);
      if exit.None? || p.volume == 0 then Stays(r)
      else Leaves(MakeTrade(m, r, Tick(exit.value), r.volume, now))
  }

  function Outcomes(m: Market, ps: seq<Position>, symbol: string, q: Quote, now: int): (r: seq<Outcome>)
    ensures |r| == |ps| && forall i :: 0 <= i < |ps| ==> r[i] == OutcomeOf(m, ps[i], symbol, q, now)
  {
    seq(|ps|, i requires 0 <= i < |ps| => OutcomeOf(m, ps[i], symbol, q, now))
  }

  function SettledSum(m: Market, ts: seq<Trade>): int {
    if ts == [] then 0 else SettledSum(m, ts[..|ts|-1]) + Settled(m, ts[|ts|-1])
  }

  /** The protections of the first `n` positions resolved against the quote. */
  function Protect(m: Market, s: State, n: nat, symbol: string, q: Quote, now: int): State
    requires n <= |s.positions|
  {
    var outcomes := Outcomes(m, s.positions[..n], symbol, q, now);
    s.(balance := s.balance + SettledSum(m, Left(outcomes)),
       commissionTotal := s.commissionTotal + ExitFees(Left(outcomes)),
       positions := Kept(outcomes) + s.positions[n..],
       closed := s.closed + Left(outcomes))
  }

  /** The book after a quote's orders, and after its protections. */
  function AfterOrders(m: Market, s: State, symbol: string, q: Quote, now: int): State
    requires Numbered(s.orders)
  {
    SettleOrders(m, s, |s.orders|, symbol, q, now).0
  }

  function OnQuote(m: Market, s: State, symbol: string, q: Quote, now: int): State
    requires Numbered(s.orders)
  {
    var t := AfterOrders(m, s, symbol, q, now);
    Protect(m, t, |t.positions|, symbol, q, now)
  }

  // ----- runs

  function Step(m: Market, s: State, cmd: Command): (t: State)
    requires Numbered(s.orders)
    ensures Numbered(t.orders)
  {
    match cmd
    case Place(req, q, now) => PlaceOrder(m, s, req, q, now).0
    case Cancel(id) => CancelOrder(s, id)
    case Close(id, price, volume, q, at) => ClosePosition(m, s, id, price, volume, q, at)
    case Modify(id, sl, tp, trail, q) => ModifyPosition(s, id, sl, tp, trail, q)
    case Deposit(amount) => DepositMoney(s, amount)
    case Withdraw(amount) => WithdrawMoney(s, amount)
    case Refresh(symbol, q, now) => OnQuote(m, s, symbol, q, now)
  }

  function Run(m: Market, s: State, cmds: seq<Command>): (t: State)
    requires Numbered(s.orders)
    ensures Numbered(t.orders)
  {
    if cmds == [] then s else Step(m, Run(m, s, cmds[..|cmds|-1]), cmds[|cmds|-1])
  }

  function Transfer(s: State, cmd: Command): int {
    match cmd
    case Deposit(amount) => if amount <= 0 then 0 else amount
    case Withdraw(amount) => if amount <= 0 || amount > s.balance then 0 else -amount
    case _ => 0
  }

  function Transfers(m: Market, s: State, cmds: seq<Command>): int
    requires Numbered(s.orders)
  {
    if cmds == [] then 0
    else Transfers(m, s, cmds[..|cmds|-1]) + Transfer(Run(m, s, cmds[..|cmds|-1]), cmds[|cmds|-1])
  }
}
