/**
  What a fresh quote leaves behind: no expired order, no reachable order that could be
  afforded, no position whose stop or target the quote touches; and what its events say.
 */
module PaperQuotes {
  import opened Wrappers
  import opened Rounding
  import opened Orders
  import opened Books
  import opened Paper
  import opened PaperLedger

  // ----- orders

  /** The order as it stands when the quote has armed it. */
  function Met(o: Order, q: Quote): Order {
    if Armed(o, q) then o.(triggered := true) else o
  }

  /**
    What a quote does to an order of its symbol: an expired one expires; a reached one
    fills at its price if there is margin and stays armed and pending if not; any other
    stays, armed if the quote armed it. `funds` is the balance when the order was tried.
   */
  predicate QuoteSettles(m: Market, before: Order, after: Order, symbol: string, q: Quote, now: int, funds: int) {
    if before.symbol != symbol || !before.state.Pending? then after == before
    else if PastExpiry(before, now) then after == before.(state := OrderState.Expired)
    else
      var met := Met(before, q);
      var price := FillPrice(met, q);
      if price.Some? && Margin(m, met.symbol, price.value, met.volume) <= funds as real
      then after == FilledOrder(met, price.value)
      else after == met
  }

  lemma SettleOrderSettles(m: Market, s: State, id: nat, symbol: string, q: Quote, now: int)
    requires id < |s.orders| && s.orders[id].id == id
    ensures var t := SettleOrder(m, s, id, symbol, q, now).0;
            && |t.orders| == |s.orders|
            && QuoteSettles(m, s.orders[id], t.orders[id], symbol, q, now, s.balance)
            && (forall j :: 0 <= j < |s.orders| && j != id ==> t.orders[j] == s.orders[j])
            && t.closed == s.closed
  {
    hide Margin, Commission;
  }

  /** The balance when order `id` was tried. */
  function FundsAt(m: Market, s: State, id: nat, symbol: string, q: Quote, now: int): int
    requires id < |s.orders| && Numbered(s.orders)
  {
    SettleOrders(m, s, id, symbol, q, now).0.balance
  }

  lemma {:induction false} SettleOrdersSettle(m: Market, s: State, n: nat, symbol: string, q: Quote, now: int)
    requires n <= |s.orders| && Numbered(s.orders)
    ensures var t := SettleOrders(m, s, n, symbol, q, now).0;
            && |t.orders| == |s.orders|
            && (forall j :: 0 <= j < n ==>
                  QuoteSettles(m, s.orders[j], t.orders[j], symbol, q, now, FundsAt(m, s, j, symbol, q, now)))
            && (forall j :: n <= j < |s.orders| ==> t.orders[j] == s.orders[j])
  {
    hide QuoteSettles, SettleOrder;
    if n != 0 {
      SettleOrdersSettle(m, s, n - 1, symbol, q, now);
      SettleOrderSettles(m, SettleOrders(m, s, n - 1, symbol, q, now).0, n - 1, symbol, q, now);
    }
  }

  /** A quote settles every order of the book as it stood, each against the balance left by those before it. */
  lemma OnQuoteSettlesOrders(m: Market, s: State, symbol: string, q: Quote, now: int, id: nat)
    requires Numbered(s.orders) && id < |s.orders|
    ensures |OnQuote(m, s, symbol, q, now).orders| == |s.orders|
    ensures QuoteSettles(m, s.orders[id], OnQuote(m, s, symbol, q, now).orders[id], symbol, q, now,
                         FundsAt(m, s, id, symbol, q, now))
  {
    hide QuoteSettles, SettleOrders, Outcomes;
    SettleOrdersSettle(m, s, |s.orders|, symbol, q, now);
  }

  /**
    After a quote, a pending order of its symbol is not past expiry, and the quote does not
    reach it or its margin was above the balance when it was tried.
   */
  lemma PendingAfterQuote(m: Market, s: State, symbol: string, q: Quote, now: int, id: nat)
    requires Numbered(s.orders) && id < |s.orders|
    ensures var o := OnQuote(m, s, symbol, q, now).orders[id];
            o.symbol == symbol && o.state.Pending? ==>
              && !PastExpiry(o, now)
              && o == Met(s.orders[id], q)
              && (FillPrice(o, q).Some? ==>
                    Margin(m, symbol, FillPrice(o, q).value, o.volume) > FundsAt(m, s, id, symbol, q, now) as real)
  {
    hide OnQuote, FundsAt, Margin;
    OnQuoteSettlesOrders(m, s, symbol, q, now, id);
  }

  /** Armed once, an order stays armed as long as it is pending. */
  predicate StaysArmed(before: Order, after: Order) {
    before.triggered && after.state.Pending? ==> after.triggered
  }

  /** A final state is for ever; a pending order keeps its terms and is only ever armed. */
  predicate Advances(before: Order, after: Order) {
    && (!before.state.Pending? ==> after == before)
    && StaysArmed(before, after)
    && (after.state.Pending? ==> after == before.(triggered := after.triggered))
  }

  lemma PlaceAdvances(m: Market, s: State, req: OrderRequest, q: Quote, now: int)
    requires Numbered(s.orders)
    ensures var t := PlaceOrder(m, s, req, q, now).0;
            |s.orders| <= |t.orders| && forall i :: 0 <= i < |s.orders| ==> t.orders[i] == s.orders[i]
  {
    hide Affordable, Commission, Armed, ValidSlTp;
  }

  lemma StepAdvances(m: Market, s: State, cmd: Command)
    requires Numbered(s.orders)
    ensures var t := Step(m, s, cmd);
            |s.orders| <= |t.orders| && forall i :: 0 <= i < |s.orders| ==> Advances(s.orders[i], t.orders[i])
  {
    hide PlaceOrder, OnQuote, ClosePosition, ModifyPosition, Margin, FundsAt;
    match cmd
    case Place(req, q, now) => PlaceAdvances(m, s, req, q, now);
    case Refresh(symbol, q, now) =>
      forall i | 0 <= i < |s.orders|
        ensures |OnQuote(m, s, symbol, q, now).orders| == |s.orders|
        ensures Advances(s.orders[i], OnQuote(m, s, symbol, q, now).orders[i])
      {
        OnQuoteSettlesOrders(m, s, symbol, q, now, i);
      }
      QuoteKeepsCount(m, s, symbol, q, now);
    case Close(id, price, volume, q, at) => CloseKeepsOrders(m, s, id, price, volume, q, at);
    case Modify(id, sl, tp, trail, q) => ModifyKeepsOrders(s, id, sl, tp, trail, q);
    case _ =>
  }

  lemma QuoteKeepsCount(m: Market, s: State, symbol: string, q: Quote, now: int)
    requires Numbered(s.orders)
    ensures |OnQuote(m, s, symbol, q, now).orders| == |s.orders|
  {
    hide SettleOrders;
  }

  lemma CloseKeepsOrders(m: Market, s: State, id: nat, price: Option<real>, volume: Option<real>, q: Quote, at: int)
    ensures ClosePosition(m, s, id, price, volume, q, at).orders == s.orders
  {
    hide CloseRequest;
  }

  lemma ModifyKeepsOrders(s: State, id: nat, sl: Change, tp: Change, trail: Change, q: Quote)
    ensures ModifyPosition(s, id, sl, tp, trail, q).orders == s.orders
  {
    hide ModifyRequest;
  }

  /** Over any run: final states absorb, pending orders keep their terms, and nothing is ever disarmed. */
  lemma {:induction false} PaperOrdersAbsorb(m: Market, s: State, cmds: seq<Command>)
    requires Numbered(s.orders)
    ensures var t := Run(m, s, cmds);
            |s.orders| <= |t.orders| && forall i :: 0 <= i < |s.orders| ==> Advances(s.orders[i], t.orders[i])
  {
    hide Step;
    if cmds != [] {
      PaperOrdersAbsorb(m, s, cmds[..|cmds|-1]);
      var t := Run(m, s, cmds[..|cmds|-1]);
      StepAdvances(m, t, cmds[|cmds|-1]);
      var u := Run(m, s, cmds);
      forall i | 0 <= i < |s.orders| ensures Advances(s.orders[i], u.orders[i]) {
        assert Advances(s.orders[i], t.orders[i]) && Advances(t.orders[i], u.orders[i]);
      }
    }
  }

  // ----- protections

  lemma {:induction false} SettleOrdersCloseNothing(m: Market, s: State, n: nat, symbol: string, q: Quote, now: int)
    requires n <= |s.orders| && Numbered(s.orders)
    ensures var t := SettleOrders(m, s, n, symbol, q, now).0; t.closed == s.closed && s.positions <= t.positions
  {
    hide SettleOrder;
    if n != 0 {
      SettleOrdersCloseNothing(m, s, n - 1, symbol, q, now);
      SettleOrderClosesNothing(m, SettleOrders(m, s, n - 1, symbol, q, now).0, n - 1, symbol, q, now);
    }
  }

  lemma SettleOrderClosesNothing(m: Market, s: State, id: nat, symbol: string, q: Quote, now: int)
    requires id < |s.orders| && s.orders[id].id == id
    ensures var t := SettleOrder(m, s, id, symbol, q, now).0; t.closed == s.closed && s.positions <= t.positions
  {
    hide Affordable, Armed, FillPrice, OpenedPosition;
  }

  /** The orders of a quote are settled before its protections, and close nothing. */
  lemma OrdersCloseNothing(m: Market, s: State, symbol: string, q: Quote, now: int)
    requires Numbered(s.orders)
    ensures AfterOrders(m, s, symbol, q, now).closed == s.closed
    ensures s.positions <= AfterOrders(m, s, symbol, q, now).positions
  {
    SettleOrdersCloseNothing(m, s, |s.orders|, symbol, q, now);
  }

  /** After a quote no open position of its symbol has its stop or target touched by it. */
  lemma NothingTouched(m: Market, s: State, symbol: string, q: Quote, now: int, j: nat)
    requires BookValid(s) && Numbered(s.orders)
    requires j < |OnQuote(m, s, symbol, q, now).positions|
    ensures var p := OnQuote(m, s, symbol, q, now).positions[j];
            p.symbol == symbol ==> !StopHit(p, q) && !TargetHit(p, q)
  {
    hide AfterOrders, Kept, Left, SettledSum, ExitFees, MakeTrade, ApplyTrailing;
    OnQuoteKeeps(m, s, symbol, q, now);
    var t, u := AfterOrders(m, s, symbol, q, now), OnQuote(m, s, symbol, q, now);
    ProtectIsSweep(m, t, symbol, q, now);
    var outcomes := Outcomes(m, t.positions, symbol, q, now);
    KeptOrigin(outcomes, j);
    var k :| 0 <= k < |outcomes| && outcomes[k] == Stays(u.positions[j]);
    assert OpenedBy(t.positions[k], t.orders[t.positions[k].id]);
    assert OutcomeOf(m, t.positions[k], symbol, q, now) == Stays(u.positions[j]);
  }

  /** Every close a quote makes is at the (trailed) stop if that is touched, else at the target. */
  lemma QuoteClosesAtLevels(m: Market, s: State, symbol: string, q: Quote, now: int, j: nat)
    requires BookValid(s) && Numbered(s.orders)
    requires |s.closed| <= j < |OnQuote(m, s, symbol, q, now).closed|
    ensures exists k :: 0 <= k < |AfterOrders(m, s, symbol, q, now).positions| &&
              ClosedAtLevel(ApplyTrailing(AfterOrders(m, s, symbol, q, now).positions[k], q), q, OnQuote(m, s, symbol, q, now).closed[j])
  {
    hide Consistent, AfterOrders, Kept, Left, SettledSum, ExitFees, OutcomeOf, ClosedAtLevel, ApplyTrailing, NetPnl;
    OrdersCloseNothing(m, s, symbol, q, now);
    var t, u := AfterOrders(m, s, symbol, q, now), OnQuote(m, s, symbol, q, now);
    ProtectIsSweep(m, t, symbol, q, now);
    var outcomes := Outcomes(m, t.positions, symbol, q, now);
    LeftOrigin(outcomes, j - |t.closed|);
    var k :| 0 <= k < |outcomes| && outcomes[k] == Leaves(Left(outcomes)[j - |t.closed|]);
    LeavesAtLevel(m, t.positions[k], symbol, q, now);
  }

  predicate ClosedAtLevel(p: Position, q: Quote, t: Trade) {
    && t.position == p.id && t.volume == p.volume
    && (if StopHit(p, q) then t.closePrice == Tick(p.sl.value)
        else TargetHit(p, q) && t.closePrice == Tick(p.tp.value))
  }

  lemma LeavesAtLevel(m: Market, p: Position, symbol: string, q: Quote, now: int)
    ensures OutcomeOf(m, p, symbol, q, now).Leaves? ==>
              ClosedAtLevel(ApplyTrailing(p, q), q, OutcomeOf(m, p, symbol, q, now).trade)
  {
    hide Gross, Commission, SwapFor, OpenShare, Tick;
  }

  // ----- changing protections

  /** The same trade with the requested protections. */
  function Asked(p: Position, sl: Change, tp: Change, trail: Change): Position {
    p.(sl := sl.Apply(p.sl), tp := tp.Apply(p.tp), trail := trail.Apply(p.trail))
  }

  /**
    A change is accepted exactly when the position is open, the quote would not at once
    close it under the new protections, and the new trailing distance is positive.
   */
  lemma ModifySucceedsIff(s: State, id: nat, sl: Change, tp: Change, trail: Change, q: Quote)
    ensures ModifyRequest(s, id, sl, tp, trail, q).Ok? <==>
            exists i :: 0 <= i < |s.positions| && Find(s.positions, id) == Some(i) &&
              var p := Asked(s.positions[i], sl, tp, trail);
              QuoteExit(p, q) == None && (p.trail.Some? ==> p.trail.value > 0.0)
  {
    hide Find;
    var i := Find(s.positions, id);
    if i.Some? {
      assert 0 <= i.value < |s.positions| && Find(s.positions, id) == Some(i.value);
    }
  }

  /**
    An accepted change alters that position's protections and nothing else at all, leaves
    neither of its levels touched by the quote, and starts a new trail at the quote's price.
   */
  lemma ModifyAchieves(s: State, id: nat, sl: Change, tp: Change, trail: Change, q: Quote)
    requires ModifyRequest(s, id, sl, tp, trail, q).Ok?
    ensures var t, i := ModifyPosition(s, id, sl, tp, trail, q), Find(s.positions, id).value;
            && t == s.(positions := t.positions) && |t.positions| == |s.positions|
            && (forall j :: 0 <= j < |s.positions| && j != i ==> t.positions[j] == s.positions[j])
            && SamePosition(s.positions[i], t.positions[i])
            && t.positions[i] == Asked(s.positions[i], sl, tp, trail).(extreme := t.positions[i].extreme)
            && QuoteExit(t.positions[i], q) == None
            && t.positions[i].extreme == (if trail.Set? && trail.value.Some? then Some(Quoted(Opposite(s.positions[i].side), q))
                                          else s.positions[i].extreme)
  {
    hide Find;
  }

  // ----- events

  /**
    What an event of a quote tells, `after` being the orders then in the book. An "order
    filled" event carries a filled order, as it then stands in the book, exactly when its
    margin was within the balance; otherwise it carries a rejected copy of an order that
    the book keeps pending, armed if the quote armed it.
   */
  predicate EventTells(m: Market, s: State, after: seq<Order>, e: Event, symbol: string, q: Quote, now: int) {
    && Numbered(s.orders) && e.order.id < |s.orders| && e.order.id < |after|
    && var before, kept, o := s.orders[e.order.id], after[e.order.id], e.order;
    && before.symbol == symbol && before.state.Pending?
    && match e
       case OrderExpired(_) => PastExpiry(before, now) && o.state.Expired? && kept == o
       case OrderFilled(_) =>
         && !PastExpiry(before, now) && FillPrice(Met(before, q), q).Some?
         && if Margin(m, symbol, FillPrice(Met(before, q), q).value, before.volume) <= FundsAt(m, s, o.id, symbol, q, now) as real
            then o.state.Filled? && kept == o
            else o.state.Rejected? && kept.state.Pending? && kept == Met(before, q)
  }

  /** An "order filled" event carries a filled order exactly when its margin was within the balance. */
  lemma FilledEventsIff(m: Market, s: State, symbol: string, q: Quote, now: int)
    requires Numbered(s.orders)
    ensures var events := SettleOrders(m, s, |s.orders|, symbol, q, now).1;
            forall e :: 0 <= e < |events| ==>
              EventTells(m, s, OnQuote(m, s, symbol, q, now).orders, events[e], symbol, q, now)
  {
    hide EventTells, Outcomes, SettleOrders;
    EventsTell(m, s, |s.orders|, symbol, q, now);
  }

  lemma {:induction false} EventsTell(m: Market, s: State, n: nat, symbol: string, q: Quote, now: int)
    requires n <= |s.orders| && Numbered(s.orders)
    ensures var (t, events) := SettleOrders(m, s, n, symbol, q, now);
            forall e :: 0 <= e < |events| ==> events[e].order.id < n && EventTells(m, s, t.orders, events[e], symbol, q, now)
  {
    hide FundsAt, SettleOrder, EventTells, QuoteSettles;
    if n != 0 {
      var (t, before) := SettleOrders(m, s, n - 1, symbol, q, now);
      var (u, events) := SettleOrders(m, s, n, symbol, q, now);
      EventsTell(m, s, n - 1, symbol, q, now);
      SettleOrdersSettle(m, s, n - 1, symbol, q, now);
      SettleOrderSettles(m, t, n - 1, symbol, q, now);
      forall e | 0 <= e < |before| ensures EventTells(m, s, u.orders, before[e], symbol, q, now) {
        StillTells(m, s, t.orders, u.orders, before[e], symbol, q, now);
      }
      LastEventsTell(m, s, n - 1, symbol, q, now);
    }
  }

  /** An event tells of its own order only. */
  lemma StillTells(m: Market, s: State, a: seq<Order>, b: seq<Order>, e: Event, symbol: string, q: Quote, now: int)
    requires EventTells(m, s, a, e, symbol, q, now)
    requires |a| == |b| && a[e.order.id] == b[e.order.id]
    ensures EventTells(m, s, b, e, symbol, q, now)
  {
    hide FundsAt, FillPrice, Met, Margin;
  }

  lemma LastEventsTell(m: Market, s: State, id: nat, symbol: string, q: Quote, now: int)
    requires id < |s.orders| && Numbered(s.orders)
    ensures var t := SettleOrders(m, s, id, symbol, q, now).0;
            var (u, events) := SettleOrder(m, t, id, symbol, q, now);
            forall e :: 0 <= e < |events| ==> events[e].order.id == id && EventTells(m, s, u.orders, events[e], symbol, q, now)
  {
    hide Margin, Commission, SettleOrders;
    SettleOrdersSettle(m, s, id, symbol, q, now);
  }

  function LimitBuy(price: real): OrderRequest {
    OrderRequest("EURUSD", "buy", "limit", 10000.0, Some(price), None, None, None, 0, None)
  }

  /** A limit order that is reached but cannot be afforded: the event says filled, its order rejected, the book pending. */
  lemma FilledEventOfRejectedOrder(m: Market)
    requires m("EURUSD") == SymbolInfo(0.01, 0.02)
    ensures var s := Run(m, Initial(10), [Place(LimitBuy(100000.0), Quote(100010.0, 100010.0), 0)]);
            var q := Quote(99990.0, 99990.0);
            var events := SettleOrders(m, s, |s.orders|, "EURUSD", q, 1).1;
            && |events| == 1 && events[0].OrderFilled? && events[0].order.state.Rejected?
            && OnQuote(m, s, "EURUSD", q, 1).orders == s.orders && |s.orders| == 1 && s.orders[0].state.Pending?
  {
    var q := Quote(99990.0, 99990.0);
    var order := Order(0, "EURUSD", Buy, Limit(100000.0), 10000, Pending, None, None, 0, None, false);
    var s := Initial(10).(orders := [order]);
    var place := Place(LimitBuy(100000.0), Quote(100010.0, 100010.0), 0);
    LimitPlaced(m);
    assert [place][..0] == [];
    assert Run(m, Initial(10), [place]) == Step(m, Initial(10), place) == s;
    assert Margin(m, "EURUSD", 100000.0, 10000) == 100000.0;
    assert SettleOrders(m, s, 0, "EURUSD", q, 1) == (s, []);
    assert SettleOrder(m, s, 0, "EURUSD", q, 1) == (s, [OrderFilled(order.(state := OrderState.Rejected))]);
    assert [] + SettleOrder(m, s, 0, "EURUSD", q, 1).1 == SettleOrder(m, s, 0, "EURUSD", q, 1).1;
    assert SettleOrders(m, s, 1, "EURUSD", q, 1) == SettleOrder(m, s, 0, "EURUSD", q, 1);
    hide SettleOrders, Outcomes;
  }

  lemma LimitPlaced(m: Market)
    ensures Paper.PlaceOrder(m, Initial(10), LimitBuy(100000.0), Quote(100010.0, 100010.0), 0).0 ==
            Initial(10).(orders := [Order(0, "EURUSD", Buy, Limit(100000.0), 10000, Pending, None, None, 0, None, false)])
  {
    RoundInt(10000);
    RoundInt(100000);
    hide Round;
  }
}
