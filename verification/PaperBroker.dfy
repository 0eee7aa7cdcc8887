/**
  The paper broker as the mutable object it is, each method proved to take exactly the step
  of the transition system in module Paper.
 */
module PaperBroker {
  import opened Wrappers
  import opened Rounding
  import opened Orders
  import opened Books
  import opened Paper
  import opened PaperLedger

  /** The protections of one more position are those of that position after those before it. */
  lemma ProtectNext(m: Market, s: State, i: nat, symbol: string, q: Quote, now: int)
    requires i < |s.positions|
    ensures var t, u := Protect(m, s, i, symbol, q, now), Protect(m, s, i + 1, symbol, q, now);
            var o := OutcomeOf(m, s.positions[i], symbol, q, now);
            var kept := Kept(Outcomes(m, s.positions[..i], symbol, q, now));
            && u.balance == t.balance + (if o.Leaves? then Settled(m, o.trade) else 0)
            && u.commissionTotal == t.commissionTotal + (if o.Leaves? then o.trade.commission else 0)
            && t.positions == kept + [s.positions[i]] + s.positions[i+1..]
            && u.positions == kept + (if o.Stays? then [o.position] else []) + s.positions[i+1..]
            && u.closed == t.closed + (if o.Leaves? then [o.trade] else [])
            && u == t.(balance := u.balance, commissionTotal := u.commissionTotal, positions := u.positions, closed := u.closed)
  {
    hide OutcomeOf, Settled;
    var before := Outcomes(m, s.positions[..i], symbol, q, now);
    var after := Outcomes(m, s.positions[..i+1], symbol, q, now);
    assert after[..i] == before;
    var o := OutcomeOf(m, s.positions[i], symbol, q, now);
    assert after[i] == o;
    var left := if o.Leaves? then [o.trade] else [];
    assert Left(after) == Left(before) + left;
    SettledConcat(m, Left(before), left);
    if o.Leaves? { SettledOne(m, o.trade); }
    assert s.closed + Left(after) == s.closed + Left(before) + left;
  }

  lemma ProtectNone(m: Market, s: State, symbol: string, q: Quote, now: int)
    ensures Protect(m, s, 0, symbol, q, now) == s
  {
    assert s.positions[..0] == [];
    assert s.closed + [] == s.closed;
  }

  lemma TrailingKeeps(p: Position, q: Quote)
    ensures SamePosition(p, ApplyTrailing(p, q))
  {
  }

  lemma ExitLevel(p: Position, q: Quote)
    ensures QuoteExit(p, q) == if StopHit(p, q) then p.sl else if TargetHit(p, q) then p.tp else None
  {
  }

  class PaperBroker {
    const market: Market
    var balance: int
    var commissionTotal: int
    var orders: seq<Order>
    var positions: seq<Position>
    var closed: seq<Trade>

    function Snapshot(): State
      reads this
    {
      State(balance, commissionTotal, orders, positions, closed)
    }

    ghost predicate Valid()
      reads this
    {
      BookValid(Snapshot())
    }

    constructor (market: Market, initialBalance: int)
      ensures Valid() && this.market == market
      ensures Snapshot() == Initial(initialBalance)
    {
      this.market := market;
      balance, commissionTotal := initialBalance, 0;
      orders, positions, closed := [], [], [];
      new;
      InitialKeeps(market, initialBalance);
    }

    method Deposit(amount: int) returns (r: Result<(), BrokerError>)
      modifies this`balance
      ensures Snapshot() == DepositMoney(old(Snapshot()), amount)
      ensures r.Ok? <==> amount > 0
    {
      if amount <= 0 { return Err(InvalidOrder); }
      balance := balance + amount;
      return Ok(());
    }

    method Withdraw(amount: int) returns (r: Result<(), BrokerError>)
      modifies this`balance
      ensures Snapshot() == WithdrawMoney(old(Snapshot()), amount)
      ensures r.Ok? <==> 0 < amount <= old(balance)
    {
      if amount <= 0 { return Err(InvalidOrder); }
      if amount > balance { return Err(InsufficientMargin); }
      balance := balance - amount;
      return Ok(());
    }

    /** Places an order: a market order fills at once or is rejected, a pending one may fill at once. */
    method PlaceOrder(request: OrderRequest, quote: Quote, now: int) returns (r: Result<Order, BrokerError>)
      requires Valid()
      modifies this
      ensures Valid()
      ensures (Snapshot(), r) == Paper.PlaceOrder(market, old(Snapshot()), request, quote, now)
    {
      hide Consistent, Affordable, FilledOrder, Armed, FillPrice;
      PlaceKeeps(market, Snapshot(), request, quote, now);
      r := NewOrder(Snapshot(), request, quote, now);
      if r.Err? { return r; }
      var order := r.value;
      if order.kind.Market? {
        order := FillOrder(order, Tick(Quoted(order.side, quote)), now);
        return Ok(order);
      }
      orders := orders + [order];
      var filled := TryFill(order.id, quote, now);
      return Ok(filled.GetOr(order));
    }

    /** Arms a stop-limit order the quote has crossed, then fills an order the quote reaches. */
    method TryFill(id: nat, quote: Quote, now: int) returns (r: Option<Order>)
      requires id < |orders| && orders[id].id == id
      modifies this`balance, this`commissionTotal, this`orders, this`positions
      ensures (Snapshot(), r) == MaybeFill(market, old(Snapshot()), id, quote, now)
    {
      hide Affordable;
      if Armed(orders[id], quote) {
        orders := orders[id := orders[id].(triggered := true)];
      }
      var price := FillPrice(orders[id], quote);
      if price.None? { return None; }
      var order := FillOrder(orders[id], price.value, now);
      return Some(order);
    }

    /** Fills an order of the book or a new one; without margin the book stays as it is. */
    method FillOrder(order: Order, price: real, now: int) returns (r: Order)
      requires order.id <= |orders|
      modifies this`balance, this`commissionTotal, this`orders, this`positions
      ensures (Snapshot(), r) == Fill(market, old(Snapshot()), order, price, now)
    {
      if Margin(market, order.symbol, price, order.volume) > balance as real {
        return order.(state := OrderState.Rejected, kind := WithPrice(order.kind, price), triggered := false);
      }
      r := order.(state := Filled(price), kind := WithPrice(order.kind, price), triggered := false);
      orders := if order.id < |orders| then orders[order.id := r] else orders + [r];
      var commission := Commission(market, order.symbol, price, order.volume);
      positions := positions + [Position(order.id, order.symbol, order.side, order.volume, price, order.sl, order.tp,
                                         now, commission, order.magic, None, None)];
      balance := balance - commission;
      commissionTotal := commissionTotal + commission;
    }

    method CancelOrder(id: nat) returns (r: Result<Order, BrokerError>)
      requires Valid()
      modifies this`orders
      ensures Valid()
      ensures Snapshot() == Paper.CancelOrder(old(Snapshot()), id)
      ensures r.Ok? <==> CancelError(old(Snapshot()), id).None?
      ensures r.Ok? ==> id < |orders| && r.value == orders[id]
    {
      CancelKeeps(Snapshot(), id);
      hide Consistent;
      if id >= |orders| { return Err(UnknownRef); }
      if !orders[id].state.Pending? { return Err(NotPending); }
      orders := orders[id := orders[id].(state := Cancelled)];
      return Ok(orders[id]);
    }

    /** Settles pending orders and protections of a symbol against a fresh quote. */
    method OnQuote(symbol: string, quote: Quote, now: int) returns (events: seq<Event>)
      requires Valid()
      modifies this
      ensures Valid()
      ensures Snapshot() == Paper.OnQuote(market, old(Snapshot()), symbol, quote, now)
      ensures events == SettleOrders(market, old(Snapshot()), |old(orders)|, symbol, quote, now).1
    {
      hide Consistent, SettleOrders, Protect;
      ValidIsNumbered(Snapshot());
      OnQuoteKeeps(market, Snapshot(), symbol, quote, now);
      events := FillPendingOrders(symbol, quote, now);
      ResolveProtections(symbol, quote, now);
    }

    method FillPendingOrders(symbol: string, quote: Quote, now: int) returns (events: seq<Event>)
      requires Numbered(orders)
      modifies this`balance, this`commissionTotal, this`orders, this`positions
      ensures (Snapshot(), events) == SettleOrders(market, old(Snapshot()), |old(orders)|, symbol, quote, now)
    {
      hide MaybeFill;
      ghost var start := Snapshot();
      events := [];
      var n := |orders|;
      for i := 0 to n
        invariant |orders| == n == |start.orders| && Numbered(orders)
        invariant (Snapshot(), events) == SettleOrders(market, start, i, symbol, quote, now)
      {
        var order := orders[i];
        assert events + [] == events;
        if order.symbol == symbol && order.state.Pending? {
          if PastExpiry(order, now) {
            var expired := order.(state := OrderState.Expired);
            orders := orders[i := expired];
            events := events + [OrderExpired(expired)];
          } else {
            var filled := TryFill(i, quote, now);
            if filled.Some? { events := events + [OrderFilled(filled.value)]; }
          }
        }
        assert (Snapshot(), events) == SettleOrders(market, start, i + 1, symbol, quote, now);
      }
    }

    method ResolveProtections(symbol: string, quote: Quote, now: int)
      requires Valid()
      modifies this`balance, this`commissionTotal, this`positions, this`closed
      ensures Valid()
      ensures Snapshot() == Protect(market, old(Snapshot()), |old(positions)|, symbol, quote, now)
    {
      hide Consistent, OutcomeOf, Outcomes, Kept, Left, SettledSum, ExitFees, Settled;
      ghost var start := Snapshot();
      var snapshot := positions;
      ProtectNone(market, start, symbol, quote, now);
      for i := 0 to |snapshot|
        invariant Valid()
        invariant Snapshot() == Protect(market, start, i, symbol, quote, now)
      {
        ProtectNext(market, start, i, symbol, quote, now);
        ResolveOne(Kept(Outcomes(market, snapshot[..i], symbol, quote, now)), snapshot[i], snapshot[i+1..], symbol, quote, now);
      }
    }

    /** One position in the middle of the book: trailed, then closed at its stop or else its target if touched. */
    method ResolveOne(ghost kept: seq<Position>, p: Position, ghost rest: seq<Position>, symbol: string, quote: Quote, now: int)
      requires Valid() && positions == kept + [p] + rest
      modifies this`balance, this`commissionTotal, this`positions, this`closed
      ensures Valid()
      ensures var o := OutcomeOf(market, p, symbol, quote, now);
              && positions == kept + (if o.Stays? then [o.position] else []) + rest
              && closed == old(closed) + (if o.Leaves? then [o.trade] else [])
              && balance == old(balance) + (if o.Leaves? then Settled(market, o.trade) else 0)
              && commissionTotal == old(commissionTotal) + (if o.Leaves? then o.trade.commission else 0)
    {
      hide Consistent, MakeTrade, Settled, ApplyTrailing, QuoteExit, StopHit, TargetHit, Find, Tick;
      TrailingKeeps(p, quote);
      Middle(BooksOf(Snapshot()), kept, p, rest);
      var at := Find(positions, p.id);
      var position := positions[at.value];
      if position.symbol == symbol {
        position := ApplyTrailing(position, quote);
        ReplaceProtections(at.value, position);
        assert positions == kept + [position] + rest;
        ExitLevel(position, quote);
        var level := if StopHit(position, quote) then position.sl
                     else if TargetHit(position, quote) then position.tp
                     else None;
        if level.Some? {
          CloseBehind(kept, position, rest, level, quote, now);
        }
      }
    }

    /** The whole of a position in the middle of the book closed at a given price. */
    method CloseBehind(ghost kept: seq<Position>, p: Position, ghost rest: seq<Position>, price: Option<real>, quote: Quote, now: int)
      requires Valid() && positions == kept + [p] + rest && p.volume > 0 && price.Some?
      modifies this`balance, this`commissionTotal, this`positions, this`closed
      ensures Valid()
      ensures positions == kept + rest
      ensures var trade := MakeTrade(market, p, Tick(price.value), p.volume, now);
              && closed == old(closed) + [trade]
              && balance == old(balance) + Settled(market, trade)
              && commissionTotal == old(commissionTotal) + trade.commission
    {
      hide Consistent, Gross, Commission, SwapFor, OpenShare, Settled, Find;
      Middle(BooksOf(Snapshot()), kept, p, rest);
      var _ := ClosePosition(p.id, price, None, quote, now);
    }

    method ReplaceProtections(i: nat, p: Position)
      requires Valid() && i < |positions|
      requires SamePosition(positions[i], p)
      modifies this`positions
      ensures Valid() && positions == old(positions)[i := p]
    {
      hide Consistent;
      ReplaceKeeps(BooksOf(Snapshot()), i, p);
      positions := positions[i := p];
    }

    method ClosePosition(id: nat, price: Option<real>, volume: Option<real>, quote: Quote, at: int)
      returns (r: Result<Trade, BrokerError>)
      requires Valid()
      modifies this`balance, this`commissionTotal, this`positions, this`closed
      ensures Valid()
      ensures Snapshot() == Paper.ClosePosition(market, old(Snapshot()), id, price, volume, quote, at)
      ensures r == CloseRequest(market, old(Snapshot()), id, price, volume, quote, at)
    {
      hide Consistent, Gross, Commission, SwapFor, OpenShare, Tick, Quoted, Find, Settled;
      CloseKeeps(market, Snapshot(), id, price, volume, quote, at);
      var i := Find(positions, id);
      if i.None? { return Err(UnknownRef); }
      var position := positions[i.value];
      var closePrice := Tick(if price.Some? then price.value else Quoted(Opposite(position.side), quote));
      var size := if volume.None? then position.volume else Round(volume.value);
      if size <= 0 || size > position.volume { return Err(InvalidOrder); }
      var trade := MakeTrade(market, position, closePrice, size, at);
      SettleTrade(i.value, trade);
      return Ok(trade);
    }

    /** Books a trade: its settled amount into the balance, its volume out of the position. */
    method SettleTrade(i: nat, trade: Trade)
      requires i < |positions|
      modifies this`balance, this`commissionTotal, this`positions, this`closed
      ensures Snapshot() == Settle(market, old(Snapshot()), i, trade)
    {
      balance := balance + Settled(market, trade);
      commissionTotal := commissionTotal + trade.commission;
      if trade.volume >= positions[i].volume {
        positions := positions[..i] + positions[i+1..];
      } else {
        positions := positions[i := positions[i].(volume := positions[i].volume - trade.volume)];
      }
      closed := closed + [trade];
    }

    method ModifyPosition(id: nat, sl: Change, tp: Change, trail: Change, quote: Quote) returns (r: Result<Position, BrokerError>)
      requires Valid()
      modifies this`positions
      ensures Valid()
      ensures Snapshot() == Paper.ModifyPosition(old(Snapshot()), id, sl, tp, trail, quote)
      ensures r == ModifyRequest(old(Snapshot()), id, sl, tp, trail, quote)
    {
      hide Consistent, Find;
      var i := Find(positions, id);
      if i.None? { return Err(UnknownRef); }
      var position := positions[i.value];
      var newSl, newTp, newTrail := sl.Apply(position.sl), tp.Apply(position.tp), trail.Apply(position.trail);
      if newSl.Some? {
        if position.side.Buy? && newSl.value >= quote.bid { return Err(InvalidOrder); }
        if position.side.Sell? && newSl.value <= quote.ask { return Err(InvalidOrder); }
      }
      if newTp.Some? {
        if position.side.Buy? && newTp.value <= quote.bid { return Err(InvalidOrder); }
        if position.side.Sell? && newTp.value >= quote.ask { return Err(InvalidOrder); }
      }
      if newTrail.Some? && newTrail.value <= 0.0 { return Err(InvalidOrder); }
      var extreme := position.extreme;
      if trail.Set? && newTrail.Some? {
        extreme := Some(if position.side.Buy? then quote.bid else quote.ask);
      }
      var updated := position.(sl := newSl, tp := newTp, trail := newTrail, extreme := extreme);
      ReplaceProtections(i.value, updated);
      return Ok(updated);
    }
  }
}
