/**
  The life of an order in the replay broker: pending is the only state an order leaves,
  nothing but a bar fills an order, and a queued market order is settled by the very next
  bar at a price that depends on nothing of that bar but its open.
 */
module BacktestLifecycle {
  import opened Wrappers
  import opened Rounding
  import opened Orders
  import opened Candles
  import opened Backtest

  /** Either nothing changes, or a pending order reaches a final state and nothing else changes. */
  predicate Advances(before: Order, after: Order) {
    after == before || (before.state.Pending? && !after.state.Pending? && after == before.(state := after.state))
  }

  predicate BookAdvances(s: State, t: State) {
    |s.orders| <= |t.orders| && forall i :: 0 <= i < |s.orders| ==> Advances(s.orders[i], t.orders[i])
  }

  /** An order can be filled at a price if its protections fit that price and its margin is within the funds. */
  predicate Fillable(cfg: Config, o: Order, fill: real, funds: int) {
    && (o.sl.Some? || o.tp.Some? ==> ValidSlTp(o.side, fill, o.sl, o.tp))
    && (cfg.marginEnabled ==> Margin(cfg, fill, o.volume) <= funds as real)
  }

  /** The order tried at a price: filled if it can be, rejected if not, and otherwise as it was. */
  function Tried(cfg: Config, o: Order, fill: real, funds: int): Order {
    o.(state := if Fillable(cfg, o, fill, funds) then Filled(fill) else OrderState.Rejected)
  }

  lemma FillAdvances(cfg: Config, s: State, id: nat, price: real, at: int)
    requires id < |s.orders| && s.orders[id].state.Pending?
    ensures BookAdvances(s, Fill(cfg, s, id, price, at))
    ensures Fill(cfg, s, id, price, at).queue == s.queue && Fill(cfg, s, id, price, at).candle == s.candle
    ensures Fill(cfg, s, id, price, at).orders[id] == Tried(cfg, s.orders[id], Tick(price), s.balance)
    ensures |Fill(cfg, s, id, price, at).orders| == |s.orders|
    ensures forall i :: 0 <= i < |s.orders| && i != id ==> Fill(cfg, s, id, price, at).orders[i] == s.orders[i]
  {
    hide Tick, Margin, Commission, ValidSlTp;
  }

  /** The price at which a market order of a side trades on a bar. */
  function MarketPrice(cfg: Config, side: Side, open: real): real {
    Tick(Slip(cfg, side, Quoted(cfg, side, open)))
  }

  /** The balance when the queue comes to an order for the first time, or at its end. */
  function QueueFunds(cfg: Config, s: State, ids: seq<nat>, c: Candle, id: nat): int {
    if ids == [] then s.balance
    else if id in ids[..|ids|-1] then QueueFunds(cfg, s, ids[..|ids|-1], c, id)
    else SettleQueue(cfg, s, ids[..|ids|-1], c).balance
  }

  /** What the queue does to one order: an order in it is tried at the open, no other is touched. */
  predicate QueueSettles(cfg: Config, before: Order, after: Order, queued: bool, c: Candle, funds: int) {
    after == if queued && before.state.Pending? then Tried(cfg, before, MarketPrice(cfg, before.side, c.o), funds) else before
  }

  lemma {:induction false} SettleQueueOrders(cfg: Config, s: State, ids: seq<nat>, c: Candle)
    ensures var t := SettleQueue(cfg, s, ids, c);
            && |t.orders| == |s.orders| && t.queue == s.queue && t.candle == s.candle
            && forall i :: 0 <= i < |s.orders| ==>
                 QueueSettles(cfg, s.orders[i], t.orders[i], i in ids, c, QueueFunds(cfg, s, ids, c, i))
  {
    hide Fill, Tick, Fillable, Quoted, Slip;
    if ids != [] {
      var n := |ids| - 1;
      SettleQueueOrders(cfg, s, ids[..n], c);
      var t, u := SettleQueue(cfg, s, ids[..n], c), SettleQueue(cfg, s, ids, c);
      var id := ids[n];
      assert forall i :: i in ids <==> i in ids[..n] || i == id;
      if id < |t.orders| && t.orders[id].state.Pending? {
        FillAdvances(cfg, t, id, Slip(cfg, t.orders[id].side, Quoted(cfg, t.orders[id].side, c.o)), c.ts);
      }
      forall i | 0 <= i < |s.orders|
        ensures QueueSettles(cfg, s.orders[i], u.orders[i], i in ids, c, QueueFunds(cfg, s, ids, c, i))
      {
        assert QueueSettles(cfg, s.orders[i], t.orders[i], i in ids[..n], c, QueueFunds(cfg, s, ids[..n], c, i));
      }
    }
  }

  /** What a bar does to one order left by the queue: exactly the triggered ones are tried, at their price. */
  predicate PendingSettles(cfg: Config, before: Order, after: Order, tried: bool, c: Candle, funds: int) {
    after == if tried && Triggers(before, c) then Tried(cfg, before, Tick(PendingPrice(cfg, before, c)), funds) else before
  }

  lemma {:induction false} SettlePendingOrders(cfg: Config, s: State, n: nat, c: Candle)
    requires n <= |s.orders|
    ensures var t := SettlePending(cfg, s, n, c);
            && |t.orders| == |s.orders| && t.queue == s.queue && t.candle == s.candle
            && forall i :: 0 <= i < |s.orders| ==>
                 PendingSettles(cfg, s.orders[i], t.orders[i], i < n, c, SettlePending(cfg, s, i, c).balance)
  {
    hide SettlePending, Fill, Tick, Fillable, Quoted, Slip, IntrabarFill, Tried;
    NextPending(cfg, s, n, c);
    if n != 0 {
      SettlePendingOrders(cfg, s, n - 1, c);
      var t, u := SettlePending(cfg, s, n - 1, c), SettlePending(cfg, s, n, c);
      if Triggers(t.orders[n-1], c) {
        FillAdvances(cfg, t, n - 1, PendingPrice(cfg, t.orders[n-1], c), c.ts);
      }
      forall i | 0 <= i < |s.orders|
        ensures PendingSettles(cfg, s.orders[i], u.orders[i], i < n, c, SettlePending(cfg, s, i, c).balance)
      {
        assert PendingSettles(cfg, s.orders[i], t.orders[i], i < n - 1, c, SettlePending(cfg, s, i, c).balance);
      }
    }
  }

  lemma NextPending(cfg: Config, s: State, n: nat, c: Candle)
    requires n <= |s.orders|
    ensures SettlePending(cfg, s, n, c) ==
            if n == 0 then s else FillPending(cfg, SettlePending(cfg, s, n - 1, c), n - 1, c)
  {
    hide FillPending;
  }

  /** The balance that the orders tried before it leave to a queued order, and to an order of the book. */
  function MarketFunds(cfg: Config, s: State, c: Candle, id: nat): int {
    QueueFunds(cfg, s.(candle := Some(c)), s.queue, c, id)
  }

  function BookFunds(cfg: Config, s: State, c: Candle, id: nat): int
    requires id < |AfterQueue(cfg, s, c).orders|
  {
    SettlePending(cfg, AfterQueue(cfg, s, c), id, c).balance
  }

  /**
    One bar, order by order: an order leaves the pending state exactly if it was queued, or
    the bar triggers it; a queued one is tried at the open, a triggered one at its price, and
    filled exactly if its protections fit and its margin is within what those before it left.
   */
  predicate BarSettles(cfg: Config, before: Order, after: Order, queued: bool, c: Candle, marketFunds: int, bookFunds: int) {
    after ==
      if queued && before.state.Pending? then Tried(cfg, before, MarketPrice(cfg, before.side, c.o), marketFunds)
      else if Triggers(before, c) then Tried(cfg, before, Tick(PendingPrice(cfg, before, c)), bookFunds)
      else before
  }

  lemma BarSettlesOrders(cfg: Config, s: State, c: Candle)
    ensures var t := OnBar(cfg, s, c);
            && |t.orders| == |s.orders| == |AfterQueue(cfg, s, c).orders| && t.queue == []
            && forall i :: 0 <= i < |s.orders| ==>
                 BarSettles(cfg, s.orders[i], t.orders[i], i in s.queue, c, MarketFunds(cfg, s, c, i), BookFunds(cfg, s, c, i))
  {
    hide SettleQueue, SettlePending, QueueFunds, Fillable, Tick, IntrabarFill, Outcomes;
    SettleQueueOrders(cfg, s.(candle := Some(c)), s.queue, c);
    var q := AfterQueue(cfg, s, c);
    SettlePendingOrders(cfg, q, |q.orders|, c);
    var t := OnBar(cfg, s, c);
    assert t.orders == AfterPending(cfg, s, c).orders;
    forall i | 0 <= i < |s.orders|
      ensures BarSettles(cfg, s.orders[i], t.orders[i], i in s.queue, c, MarketFunds(cfg, s, c, i), BookFunds(cfg, s, c, i))
    {
      assert QueueSettles(cfg, s.orders[i], q.orders[i], i in s.queue, c, MarketFunds(cfg, s, c, i));
      assert PendingSettles(cfg, q.orders[i], t.orders[i], i < |q.orders|, c, BookFunds(cfg, s, c, i));
    }
  }

  lemma StepAdvances(cfg: Config, s: State, cmd: Command)
    ensures BookAdvances(s, Step(cfg, s, cmd))
  {
    if cmd.Bar? {
      BarSettlesOrders(cfg, s, cmd.candle);
      var t := OnBar(cfg, s, cmd.candle);
      forall i | 0 <= i < |s.orders| ensures Advances(s.orders[i], t.orders[i]) {
        assert BarSettles(cfg, s.orders[i], t.orders[i], i in s.queue, cmd.candle,
                          MarketFunds(cfg, s, cmd.candle, i), BookFunds(cfg, s, cmd.candle, i));
      }
    }
  }

  /** Over any run a final state is for ever, and a pending order changes nothing but its state. */
  lemma {:induction false} OrdersAbsorb(cfg: Config, s: State, cmds: seq<Command>)
    ensures BookAdvances(s, Run(cfg, s, cmds))
  {
    if cmds != [] {
      var t := Run(cfg, s, cmds[..|cmds|-1]);
      OrdersAbsorb(cfg, s, cmds[..|cmds|-1]);
      StepAdvances(cfg, t, cmds[|cmds|-1]);
      var u := Run(cfg, s, cmds);
      forall i | 0 <= i < |s.orders| ensures Advances(s.orders[i], u.orders[i]) {
        assert Advances(s.orders[i], t.orders[i]) && Advances(t.orders[i], u.orders[i]);
      }
    }
  }

  /** Between bars no order fills and no position opens: nothing trades on the bar that placed it. */
  lemma {:induction false} OnlyBarsFill(cfg: Config, s: State, cmds: seq<Command>)
    requires forall k :: 0 <= k < |cmds| ==> !cmds[k].Bar?
    ensures var t := Run(cfg, s, cmds);
            && |s.orders| <= |t.orders| && |t.positions| <= |s.positions|
            && forall i :: 0 <= i < |t.orders| && t.orders[i].state.Filled? ==> i < |s.orders| && t.orders[i] == s.orders[i]
  {
    if cmds != [] {
      hide Step;
      OnlyBarsFill(cfg, s, cmds[..|cmds|-1]);
      assert !cmds[|cmds|-1].Bar?;
      StepFillsNothing(cfg, Run(cfg, s, cmds[..|cmds|-1]), cmds[|cmds|-1]);
    }
  }

  lemma StepFillsNothing(cfg: Config, s: State, cmd: Command)
    requires !cmd.Bar?
    ensures var t := Step(cfg, s, cmd);
            && |s.orders| <= |t.orders| && |t.positions| <= |s.positions|
            && forall i :: 0 <= i < |t.orders| && t.orders[i].state.Filled? ==> i < |s.orders| && t.orders[i] == s.orders[i]
  {
    hide MakeTrade, ValidProtection, Find, Tick, ParseSide, ParseKind, ValidSlTp;
  }

  // ----- market orders

  predicate QueueCovers(s: State) {
    forall i :: 0 <= i < |s.orders| && s.orders[i].kind.Market? && s.orders[i].state.Pending? ==> i in s.queue
  }

  lemma StepQueue(cfg: Config, s: State, cmd: Command)
    requires QueueCovers(s)
    ensures QueueCovers(Step(cfg, s, cmd))
  {
    var t := Step(cfg, s, cmd);
    if cmd.Bar? {
      BarSettlesOrders(cfg, s, cmd.candle);
      forall i | 0 <= i < |t.orders| && t.orders[i].kind.Market? ensures !t.orders[i].state.Pending? {
        assert BarSettles(cfg, s.orders[i], t.orders[i], i in s.queue, cmd.candle,
                          MarketFunds(cfg, s, cmd.candle, i), BookFunds(cfg, s, cmd.candle, i));
      }
    } else if cmd.Place? && NewOrder(s, cmd.request).Ok? && NewOrder(s, cmd.request).value.kind.Market? {
      var id := |s.orders|;
      assert t.queue[|s.queue|] == id;
    }
  }

  lemma {:induction false} RunQueue(cfg: Config, s: State, cmds: seq<Command>)
    requires QueueCovers(s)
    ensures QueueCovers(Run(cfg, s, cmds))
  {
    if cmds != [] {
      RunQueue(cfg, s, cmds[..|cmds|-1]);
      StepQueue(cfg, Run(cfg, s, cmds[..|cmds|-1]), cmds[|cmds|-1]);
    }
  }

  /**
    At every bar of every run, a market order still pending before it is filled at the bar's
    open (spread and slippage added) if it can be and rejected if not: none stays pending.
   */
  lemma MarketOrdersSettleNextBar(cfg: Config, initial: int, candles: seq<Candle>, cmds: seq<Command>, c: Candle)
    ensures var s := Run(cfg, Initial(initial, candles), cmds);
            var t := OnBar(cfg, s, c);
            |t.orders| == |s.orders| &&
            forall i :: 0 <= i < |t.orders| && t.orders[i].kind.Market? ==>
              && !t.orders[i].state.Pending?
              && (s.orders[i].state.Pending? ==>
                    t.orders[i] == Tried(cfg, s.orders[i], MarketPrice(cfg, s.orders[i].side, c.o), MarketFunds(cfg, s, c, i)))
  {
    var s := Run(cfg, Initial(initial, candles), cmds);
    var t := OnBar(cfg, s, c);
    RunQueue(cfg, Initial(initial, candles), cmds);
    BarSettlesOrders(cfg, s, c);
    forall i | 0 <= i < |t.orders| && t.orders[i].kind.Market?
      ensures !t.orders[i].state.Pending?
      ensures s.orders[i].state.Pending? ==>
                t.orders[i] == Tried(cfg, s.orders[i], MarketPrice(cfg, s.orders[i].side, c.o), MarketFunds(cfg, s, c, i))
    {
      assert BarSettles(cfg, s.orders[i], t.orders[i], i in s.queue, c, MarketFunds(cfg, s, c, i), BookFunds(cfg, s, c, i));
    }
  }

  /** Filling the queue looks neither at the bar's range or close nor at the bar recorded last. */
  lemma {:induction false} QueueSeesOnlyTheOpen(cfg: Config, s: State, ids: seq<nat>, c: Candle, d: Candle)
    requires c.o == d.o && c.ts == d.ts
    ensures SettleQueue(cfg, s.(candle := Some(c)), ids, c) == SettleQueue(cfg, s.(candle := Some(d)), ids, d).(candle := Some(c))
  {
    if ids != [] {
      QueueSeesOnlyTheOpen(cfg, s, ids[..|ids|-1], c, d);
    }
  }

  /**
    No look-ahead: two bars with the same open and time leave every market order in the same
    state, whatever they reach later, which pending orders they fill and what they close.
   */
  lemma MarketFillsSeeOnlyTheOpen(cfg: Config, s: State, c: Candle, d: Candle)
    requires c.o == d.o && c.ts == d.ts
    ensures |OnBar(cfg, s, c).orders| == |OnBar(cfg, s, d).orders|
    ensures forall i :: 0 <= i < |OnBar(cfg, s, c).orders| && OnBar(cfg, s, c).orders[i].kind.Market? ==>
              OnBar(cfg, s, c).orders[i] == OnBar(cfg, s, d).orders[i]
  {
    QueueSeesOnlyTheOpen(cfg, s, s.queue, c, d);
    PendingLeavesMarket(cfg, s, c);
    PendingLeavesMarket(cfg, s, d);
    hide OnBar, SettleQueue;
  }

  /** The pending orders of a bar are settled after its market orders, and touch none of those. */
  lemma PendingLeavesMarket(cfg: Config, s: State, c: Candle)
    ensures var q, t := AfterQueue(cfg, s, c), OnBar(cfg, s, c);
            |t.orders| == |q.orders| && forall i :: 0 <= i < |t.orders| ==>
              t.orders[i].kind == q.orders[i].kind && (q.orders[i].kind.Market? ==> t.orders[i] == q.orders[i])
  {
    var q, t := AfterQueue(cfg, s, c), OnBar(cfg, s, c);
    SettlePendingOrders(cfg, q, |q.orders|, c);
    assert t.orders == AfterPending(cfg, s, c).orders;
    forall i | 0 <= i < |t.orders|
      ensures t.orders[i].kind == q.orders[i].kind && (q.orders[i].kind.Market? ==> t.orders[i] == q.orders[i])
    {
      assert PendingSettles(cfg, q.orders[i], t.orders[i], i < |q.orders|, c, BookFunds(cfg, s, c, i));
    }
  }
}
