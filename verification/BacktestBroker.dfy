/**
  The replay broker as the mutable object it is: its methods update the books in place and
  loop over them bar by bar, and each is proved to take exactly the step of the transition
  system in module Backtest.
 */
module BacktestBroker {
  import opened Wrappers
  import opened Rounding
  import opened Orders
  import opened Candles
  import opened Books
  import opened Backtest
  import opened BacktestLedger

  /** The protections of one more position are those of that position after those before it. */
  lemma ProtectNext(cfg: Config, s: State, i: nat, c: Candle)
    requires i < |s.positions|
    ensures var t, u, o := Protect(cfg, s, i, c), Protect(cfg, s, i + 1, c), OutcomeOf(cfg, s.positions[i], c);
            && u.balance == t.balance + (if o.Leaves? then o.trade.net else 0)
            && u.commissionTotal == t.commissionTotal + (if o.Leaves? then o.trade.commission else 0)
            && t.positions == Kept(Outcomes(cfg, s.positions[..i], c)) + [s.positions[i]] + s.positions[i+1..]
            && u.positions == Kept(Outcomes(cfg, s.positions[..i], c)) + (if o.Stays? then [o.position] else []) + s.positions[i+1..]
            && u.closed == t.closed + (if o.Leaves? then [o.trade] else [])
            && u == t.(balance := u.balance, commissionTotal := u.commissionTotal, positions := u.positions, closed := u.closed)
  {
    hide OutcomeOf;
    var before, after := Outcomes(cfg, s.positions[..i], c), Outcomes(cfg, s.positions[..i+1], c);
    assert after[..i] == before;
    var o := OutcomeOf(cfg, s.positions[i], c);
    assert after[i] == o;
    var left := if o.Leaves? then [o.trade] else [];
    assert Left(after) == Left(before) + left;
    TradeSumsConcat(Left(before), left);
    assert s.closed + Left(after) == s.closed + Left(before) + left;
  }

  lemma ProtectNone(cfg: Config, s: State, c: Candle)
    ensures Protect(cfg, s, 0, c) == s
  {
    assert s.positions[..0] == [];
    assert s.closed + [] == s.closed;
  }

  lemma TrailingKeeps(p: Position, c: Candle)
    ensures SamePosition(p, ApplyTrailing(p, c))
  {
  }

  class BacktestBroker {
    const config: Config
    var balance: int
    var commissionTotal: int
    var orders: seq<Order>
    var positions: seq<Position>
    var closed: seq<Trade>
    var openFillIds: seq<nat>
    var candle: Option<Candle>

    function Snapshot(): State
      reads this
    {
      State(balance, commissionTotal, orders, positions, closed, openFillIds, candle)
    }

    /** Ids are unique, positions and trades belong to filled orders, and volumes add up. */
    ghost predicate Valid()
      reads this
    {
      BookValid(Snapshot())
    }

    constructor (config: Config, initialBalance: int, candles: seq<Candle>)
      ensures Valid() && this.config == config
      ensures Snapshot() == Initial(initialBalance, candles)
    {
      this.config := config;
      balance, commissionTotal := initialBalance, 0;
      orders, positions, closed, openFillIds := [], [], [], [];
      candle := if candles == [] then None else Some(candles[0]);
      new;
      InitialBook(initialBalance, candles);
    }

    method Deposit(amount: int) returns (r: Result<(), BrokerError>)
      modifies this
      ensures Snapshot() == DepositMoney(old(Snapshot()), amount)
      ensures r.Ok? <==> amount > 0
    {
      if amount <= 0 {
        return Err(InvalidOrder);
      }
      balance := balance + amount;
      return Ok(());
    }

    method Withdraw(amount: int) returns (r: Result<(), BrokerError>)
      modifies this
      ensures Snapshot() == WithdrawMoney(old(Snapshot()), amount)
      ensures r.Ok? <==> 0 < amount <= old(balance)
    {
      if amount <= 0 || amount > balance {
        return Err(InvalidOrder);
      }
      balance := balance - amount;
      return Ok(());
    }

    method PlaceOrder(request: OrderRequest) returns (r: Result<Order, BrokerError>)
      requires Valid()
      modifies this
      ensures Valid()
      ensures Snapshot() == Backtest.PlaceOrder(old(Snapshot()), request)
      ensures r == NewOrder(old(Snapshot()), request)
    {
      PlaceBook(Snapshot(), request);
      var side := ParseSide(request.side);
      if side.Err? { return Err(side.error); }
      var kind := ParseKind(request, side.value);
      if kind.Err? { return Err(kind.error); }
      var volume := Round(request.volume);
      if volume <= 0 { return Err(InvalidOrder); }
      if !kind.value.Market? && !ValidSlTp(side.value, kind.value.price, request.sl, request.tp) {
        return Err(InvalidOrder);
      }
      var order := Order(|orders|, request.symbol, side.value, kind.value, volume, Pending,
                         request.sl, request.tp, request.magic, None, false);
      orders := orders + [order];
      if kind.value.Market? {
        openFillIds := openFillIds + [order.id];
      }
      return Ok(order);
    }

    method CancelOrder(id: nat) returns (r: Result<Order, BrokerError>)
      requires Valid()
      modifies this`orders
      ensures Valid()
      ensures Snapshot() == Backtest.CancelOrder(old(Snapshot()), id)
      ensures r.Ok? <==> CancelError(old(Snapshot()), id).None?
      ensures r.Ok? ==> id < |orders| && r.value == orders[id]
    {
      CancelBook(Snapshot(), id);
      if id >= |orders| { return Err(UnknownRef); }
      if !orders[id].state.Pending? { return Err(InvalidOrder); }
      orders := orders[id := orders[id].(state := Cancelled)];
      return Ok(orders[id]);
    }

    /** Advances the replay to a bar and settles orders, then protections, against it. */
    method OnBar(bar: Candle)
      requires Valid()
      modifies this
      ensures Valid()
      ensures Snapshot() == Backtest.OnBar(config, old(Snapshot()), bar)
    {
      OnBarBook(config, Snapshot(), bar);
      candle := Some(bar);
      FillQueuedOrders(bar);
      openFillIds := [];
      FillPendingOrders(bar);
      assert Snapshot() == AfterPending(config, old(Snapshot()), bar);
      ResolveProtections(bar);
    }

    method FillQueuedOrders(bar: Candle)
      modifies this`balance, this`commissionTotal, this`orders, this`positions
      ensures Snapshot() == SettleQueue(config, old(Snapshot()), old(openFillIds), bar)
    {
      ghost var start := Snapshot();
      for i := 0 to |openFillIds|
        invariant Snapshot() == SettleQueue(config, start, openFillIds[..i], bar)
      {
        assert openFillIds[..i+1][..i] == openFillIds[..i];
        var id := openFillIds[i];
        if id < |orders| && orders[id].state.Pending? {
          var price := Slip(config, orders[id].side, Quoted(config, orders[id].side, bar.o));
          FillOrder(id, price, bar.ts);
        }
      }
      assert openFillIds[..|openFillIds|] == openFillIds;
    }

    method FillPendingOrders(bar: Candle)
      modifies this`balance, this`commissionTotal, this`orders, this`positions
      ensures Snapshot() == SettlePending(config, old(Snapshot()), |old(orders)|, bar)
    {
      ghost var start := Snapshot();
      var n := |orders|;
      for i := 0 to n
        invariant |orders| == n == |start.orders|
        invariant Snapshot() == SettlePending(config, start, i, bar)
      {
        var order := orders[i];
        if order.symbol == bar.symbol && order.state.Pending? {
          var fill := IntrabarFill(order, bar);
          if fill.Some? {
            var price := fill.value;
            if order.kind.Stop? {
              price := Slip(config, order.side, Quoted(config, order.side, price));
            }
            FillOrder(i, price, bar.ts);
          }
        }
      }
    }

    /** Fills one order, or rejects it for its protections or for want of margin. */
    method FillOrder(id: nat, price: real, at: int)
      requires id < |orders|
      modifies this`balance, this`commissionTotal, this`orders, this`positions
      ensures Snapshot() == Fill(config, old(Snapshot()), id, price, at)
    {
      var order := orders[id];
      var fill := Tick(price);
      if (order.sl.Some? || order.tp.Some?) && !ValidSlTp(order.side, fill, order.sl, order.tp) {
        orders := orders[id := order.(state := OrderState.Rejected)];
        return;
      }
      if config.marginEnabled && Margin(config, fill, order.volume) > balance as real {
        orders := orders[id := order.(state := OrderState.Rejected)];
        return;
      }
      var commission := Commission(config, fill, order.volume);
      orders := orders[id := order.(state := Filled(fill))];
      balance := balance - commission;
      commissionTotal := commissionTotal + commission;
      positions := positions + [Position(order.id, order.symbol, order.side, order.volume, fill, order.sl, order.tp,
                                         at, commission, order.magic, None, None)];
    }

    /** Trails and resolves every position of a snapshot of the book, closing those that exit. */
    method ResolveProtections(bar: Candle)
      requires Valid() && candle == Some(bar)
      modifies this`balance, this`commissionTotal, this`positions, this`closed
      ensures Valid()
      ensures Snapshot() == Protect(config, old(Snapshot()), |old(positions)|, bar)
    {
      hide Consistent, OutcomeOf, Outcomes, Kept, Left, NetPnl, ExitFees;
      ghost var start := Snapshot();
      var snapshot := positions;
      ProtectNone(config, start, bar);
      for i := 0 to |snapshot|
        invariant Valid()
        invariant Snapshot() == Protect(config, start, i, bar)
      {
        ProtectNext(config, start, i, bar);
        ResolveOne(Kept(Outcomes(config, snapshot[..i], bar)), snapshot[i], snapshot[i+1..], bar);
      }
    }

    /** One position in the middle of the book: trailed, and closed if the bar reaches its stop or target. */
    method ResolveOne(ghost kept: seq<Position>, p: Position, ghost rest: seq<Position>, bar: Candle)
      requires Valid() && positions == kept + [p] + rest
      modifies this`balance, this`commissionTotal, this`positions, this`closed
      ensures Valid()
      ensures var o := OutcomeOf(config, p, bar);
              && positions == kept + (if o.Stays? then [o.position] else []) + rest
              && closed == old(closed) + (if o.Leaves? then [o.trade] else [])
              && balance == old(balance) + (if o.Leaves? then o.trade.net else 0)
              && commissionTotal == old(commissionTotal) + (if o.Leaves? then o.trade.commission else 0)
    {
      hide Consistent, MakeTrade, IntrabarExit, ApplyTrailing, Find, Tick;
      TrailingKeeps(p, bar);
      Middle(BooksOf(Snapshot()), kept, p, rest);
      var at := Find(positions, p.id);
      var position := positions[at.value];
      if position.symbol == bar.symbol {
        position := ApplyTrailing(position, bar);
        ReplaceProtections(at.value, position);
        assert positions == kept + [position] + rest;
        var exit := IntrabarExit(config, position, bar);
        if exit.Some? {
          CloseBehind(kept, position, rest, exit.value, bar.ts);
        }
      }
    }

    /** The whole of a position in the middle of the book closed at a given price. */
    method CloseBehind(ghost kept: seq<Position>, p: Position, ghost rest: seq<Position>, price: real, at: int)
      requires Valid() && positions == kept + [p] + rest
      modifies this`balance, this`commissionTotal, this`positions, this`closed
      ensures Valid()
      ensures positions == kept + rest
      ensures var trade := MakeTrade(config, p, Tick(price), p.volume, at);
              && closed == old(closed) + [trade]
              && balance == old(balance) + trade.net
              && commissionTotal == old(commissionTotal) + trade.commission
    {
      hide Consistent, Gross, Commission, SwapFor, Find, Tick;
      Middle(BooksOf(Snapshot()), kept, p, rest);
      var _ := ClosePosition(p.id, Some(price), None, Some(at));
    }

    /** Puts a position with changed protections in the place of the old one. */
    method ReplaceProtections(i: nat, p: Position)
      requires Valid() && i < |positions|
      requires SamePosition(positions[i], p)
      modifies this`positions
      ensures Valid() && positions == old(positions)[i := p]
    {
      hide Consistent;
      ReplaceKeeps(BooksOf(Snapshot()), i, p);
      positions := positions[i := p];
    }

    method ClosePosition(id: nat, price: Option<real>, volume: Option<real>, at: Option<int>)
      returns (r: Result<Trade, BrokerError>)
      requires Valid()
      modifies this`balance, this`commissionTotal, this`positions, this`closed
      ensures Valid()
      ensures Snapshot() == Backtest.ClosePosition(config, old(Snapshot()), id, price, volume, at)
      ensures r == CloseRequest(config, old(Snapshot()), id, price, volume, at)
    {
      CloseBook(config, Snapshot(), id, price, volume, at);
      hide Consistent, Gross, Commission, SwapFor, Tick, Round, Quoted, LastPrice, Find;
      var i := Find(positions, id);
      if i.None? { return Err(UnknownRef); }
      var position := positions[i.value];
      var closePrice := Tick(if price.Some? then price.value
                             else Quoted(config, Opposite(position.side), LastPrice(Snapshot(), position)));
      var size := if volume.None? then position.volume else Round(volume.value);
      if size <= 0 || size > position.volume { return Err(InvalidOrder); }
      var trade := MakeTrade(config, position, closePrice, size, at.GetOr(Now(Snapshot())));
      SettleTrade(i.value, trade);
      return Ok(trade);
    }

    /** Books a trade: its net into the balance, its volume out of the position. */
    method SettleTrade(i: nat, trade: Trade)
      requires i < |positions|
      modifies this`balance, this`commissionTotal, this`positions, this`closed
      ensures Snapshot() == Settle(old(Snapshot()), i, trade)
    {
      balance := balance + trade.net;
      commissionTotal := commissionTotal + trade.commission;
      if trade.volume >= positions[i].volume {
        positions := positions[..i] + positions[i+1..];
      } else {
        positions := positions[i := positions[i].(volume := positions[i].volume - trade.volume)];
      }
      closed := closed + [trade];
    }

    method ModifyPosition(id: nat, sl: Change, tp: Change, trail: Change) returns (r: Result<Position, BrokerError>)
      requires Valid()
      modifies this`positions
      ensures Valid()
      ensures Snapshot() == Backtest.ModifyPosition(config, old(Snapshot()), id, sl, tp, trail)
      ensures r == ModifyRequest(config, old(Snapshot()), id, sl, tp, trail)
    {
      hide BookValid, Find, Bid, Ask, LastPrice;
      var i := Find(positions, id);
      if i.None? { return Err(UnknownRef); }
      var position := positions[i.value];
      var last := LastPrice(Snapshot(), position);
      var bid, ask := Bid(config, last), Ask(config, last);
      var newSl, newTp, newTrail := sl.Apply(position.sl), tp.Apply(position.tp), trail.Apply(position.trail);
      if newSl.Some? {
        if position.side.Buy? && newSl.value >= bid { return Err(InvalidOrder); }
        if position.side.Sell? && newSl.value <= ask { return Err(InvalidOrder); }
      }
      if newTp.Some? {
        if position.side.Buy? && newTp.value <= bid { return Err(InvalidOrder); }
        if position.side.Sell? && newTp.value >= ask { return Err(InvalidOrder); }
      }
      if newTrail.Some? && newTrail.value <= 0.0 { return Err(InvalidOrder); }
      var extreme := position.extreme;
      if trail.Set? && newTrail.Some? {
        extreme := Some(if position.side.Buy? then bid else ask);
      }
      var updated := position.(sl := newSl, tp := newTp, trail := newTrail, extreme := extreme);
      ReplaceProtections(i.value, updated);
      return Ok(updated);
    }
  }

  function ClosingAll(open: seq<Position>, at: int): seq<Command> {
    seq(|open|, i requires 0 <= i < |open| => Close(open[i].id, None, None, Some(at)))
  }

  /** Closing the first of the open positions whole leaves the others. */
  lemma ClosesFirst(cfg: Config, s: State, at: int)
    requires BookValid(s) && s.positions != []
    ensures ClosePosition(cfg, s, s.positions[0].id, None, None, Some(at)).positions == s.positions[1..]
  {
    OpenVolumeUnique(s.positions, 0);
    assert OpenedBy(s.positions[0], s.orders[s.positions[0].id]);
    hide BookValid, Gross, Commission, SwapFor, Tick, Quoted, Find;
  }

  /** Closes every open position at the last bar, as the end of a backtest does. */
  method CloseAll(broker: BacktestBroker, at: int)
    requires broker.Valid()
    modifies broker
    ensures broker.Valid()
    ensures broker.Snapshot() == Run(broker.config, old(broker.Snapshot()), ClosingAll(old(broker.positions), at))
    ensures broker.positions == []
  {
    hide BookValid, ClosePosition, CloseRequest;
    var open := broker.positions;
    ghost var start := broker.Snapshot();
    assert ClosingAll(open, at)[..0] == [];
    for i := 0 to |open|
      invariant broker.Valid()
      invariant broker.Snapshot() == Run(broker.config, start, ClosingAll(open, at)[..i])
      invariant broker.positions == open[i..]
    {
      ClosesFirst(broker.config, broker.Snapshot(), at);
      assert ClosingAll(open, at)[..i+1][..i] == ClosingAll(open, at)[..i];
      var _ := broker.ClosePosition(open[i].id, None, None, Some(at));
    }
    assert ClosingAll(open, at)[..|open|] == ClosingAll(open, at);
  }
}
