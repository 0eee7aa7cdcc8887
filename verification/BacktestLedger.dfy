/**
  Conservation over every run of the replay broker: money (balance and commissions are
  exactly what transfers, fills and closed trades account for) and volume (every filled
  order is one position, whose volume is what was closed plus what is still open).
 */
module BacktestLedger {
  import opened Wrappers
  import opened Rounding
  import opened Orders
  import opened Candles
  import opened Books
  import opened Backtest

  // ----- money

  function EntryFee(cfg: Config, o: Order): int {
    if o.state.Filled? then Commission(cfg, o.state.price, o.volume) else 0
  }

  function EntryFees(cfg: Config, orders: seq<Order>): int {
    if orders == [] then 0
    else EntryFees(cfg, orders[..|orders|-1]) + EntryFee(cfg, orders[|orders|-1])
  }

  /** `funds` is the money put in from outside. */
  predicate LedgerHolds(cfg: Config, s: State, funds: int) {
    && s.balance == funds - EntryFees(cfg, s.orders) + NetPnl(s.closed)
    && s.commissionTotal == EntryFees(cfg, s.orders) + ExitFees(s.closed)
  }

  lemma {:induction false} EntryFeesUpdate(cfg: Config, orders: seq<Order>, i: nat, o: Order)
    requires i < |orders|
    ensures EntryFees(cfg, orders[i := o]) == EntryFees(cfg, orders) - EntryFee(cfg, orders[i]) + EntryFee(cfg, o)
  {
    var n := |orders| - 1;
    if i == n {
      assert orders[i := o][..n] == orders[..n];
    } else {
      assert orders[i := o][..n] == orders[..n][i := o];
      EntryFeesUpdate(cfg, orders[..n], i, o);
    }
  }

  lemma FillLedger(cfg: Config, s: State, id: nat, price: real, at: int, funds: int)
    requires id < |s.orders| && s.orders[id].state.Pending?
    requires LedgerHolds(cfg, s, funds)
    ensures LedgerHolds(cfg, Fill(cfg, s, id, price, at), funds)
  {
    EntryFeesUpdate(cfg, s.orders, id, Fill(cfg, s, id, price, at).orders[id]);
  }

  lemma {:induction false} SettleQueueLedger(cfg: Config, s: State, ids: seq<nat>, c: Candle, funds: int)
    requires LedgerHolds(cfg, s, funds)
    ensures LedgerHolds(cfg, SettleQueue(cfg, s, ids, c), funds)
  {
    if ids != [] {
      SettleQueueLedger(cfg, s, ids[..|ids|-1], c, funds);
      var t, id := SettleQueue(cfg, s, ids[..|ids|-1], c), ids[|ids|-1];
      if id < |t.orders| && t.orders[id].state.Pending? {
        FillLedger(cfg, t, id, Slip(cfg, t.orders[id].side, Quoted(cfg, t.orders[id].side, c.o)), c.ts, funds);
      }
    }
  }

  lemma {:induction false} SettlePendingLedger(cfg: Config, s: State, n: nat, c: Candle, funds: int)
    requires n <= |s.orders| && LedgerHolds(cfg, s, funds)
    ensures LedgerHolds(cfg, SettlePending(cfg, s, n, c), funds)
  {
    if n != 0 {
      SettlePendingLedger(cfg, s, n - 1, c, funds);
      var t := SettlePending(cfg, s, n - 1, c);
      if Triggers(t.orders[n-1], c) {
        FillLedger(cfg, t, n - 1, PendingPrice(cfg, t.orders[n-1], c), c.ts, funds);
      }
    }
  }

  lemma OnBarLedger(cfg: Config, s: State, c: Candle, funds: int)
    requires LedgerHolds(cfg, s, funds)
    ensures LedgerHolds(cfg, OnBar(cfg, s, c), funds)
  {
    SettleQueueLedger(cfg, s.(candle := Some(c)), s.queue, c, funds);
    var q := AfterQueue(cfg, s, c);
    SettlePendingLedger(cfg, q, |q.orders|, c, funds);
    var t := AfterPending(cfg, s, c);
    TradeSumsConcat(t.closed, Left(Outcomes(cfg, t.positions[..|t.positions|], c)));
  }

  lemma StepLedger(cfg: Config, s: State, cmd: Command, funds: int)
    requires LedgerHolds(cfg, s, funds)
    ensures LedgerHolds(cfg, Step(cfg, s, cmd), funds + Transfer(s, cmd))
  {
    hide OnBar, MakeTrade, ModifyRequest, Find, Tick;
    match cmd
    case Bar(c) => OnBarLedger(cfg, s, c, funds);
    case Close(id, price, volume, at) =>
      var trade := CloseRequest(cfg, s, id, price, volume, at);
      if trade.Ok? { TradeSumsConcat(s.closed, [trade.value]); }
    case Cancel(id) =>
      if CancelError(s, id).None? {
        EntryFeesUpdate(cfg, s.orders, id, s.orders[id].(state := Cancelled));
      }
    case _ =>
  }

  lemma {:induction false} RunLedger(cfg: Config, s: State, cmds: seq<Command>, funds: int)
    requires LedgerHolds(cfg, s, funds)
    ensures LedgerHolds(cfg, Run(cfg, s, cmds), funds + Transfers(cfg, s, cmds))
  {
    if cmds != [] {
      var before := cmds[..|cmds|-1];
      RunLedger(cfg, s, before, funds);
      StepLedger(cfg, Run(cfg, s, before), cmds[|cmds|-1], funds + Transfers(cfg, s, before));
    }
  }

  /** Money is conserved over every run from the start, whatever is commanded. */
  lemma MoneyConserved(cfg: Config, initial: int, candles: seq<Candle>, cmds: seq<Command>)
    ensures var s := Run(cfg, Initial(initial, candles), cmds);
            && s.balance == initial + Transfers(cfg, Initial(initial, candles), cmds)
                            - EntryFees(cfg, s.orders) + NetPnl(s.closed)
            && s.commissionTotal == EntryFees(cfg, s.orders) + ExitFees(s.closed)
  {
    RunLedger(cfg, Initial(initial, candles), cmds, initial);
  }

  // ----- the books and volume

  ghost predicate BookValid(s: State) {
    Consistent(BooksOf(s))
  }

  lemma FillBook(cfg: Config, s: State, id: nat, price: real, at: int)
    requires id < |s.orders| && s.orders[id].state.Pending?
    requires BookValid(s)
    ensures BookValid(Fill(cfg, s, id, price, at))
  {
    var o := s.orders[id];
    if Rejects(cfg, s, o, Tick(price)) {
      UnfilledKeeps(BooksOf(s), id, o.(state := OrderState.Rejected));
    } else {
      OpenKeeps(BooksOf(s), id, o.(state := Filled(Tick(price))), Opened(cfg, o, Tick(price), at));
    }
    hide Consistent, Rejects, Tick, Commission;
  }

  lemma {:induction false} SettleQueueBook(cfg: Config, s: State, ids: seq<nat>, c: Candle)
    requires BookValid(s)
    ensures BookValid(SettleQueue(cfg, s, ids, c))
  {
    hide BookValid, Fill;
    if ids != [] {
      SettleQueueBook(cfg, s, ids[..|ids|-1], c);
      var t, id := SettleQueue(cfg, s, ids[..|ids|-1], c), ids[|ids|-1];
      if id < |t.orders| && t.orders[id].state.Pending? {
        FillBook(cfg, t, id, Slip(cfg, t.orders[id].side, Quoted(cfg, t.orders[id].side, c.o)), c.ts);
      }
    }
  }

  lemma {:induction false} SettlePendingBook(cfg: Config, s: State, n: nat, c: Candle)
    requires n <= |s.orders| && BookValid(s)
    ensures BookValid(SettlePending(cfg, s, n, c))
  {
    hide BookValid, Fill;
    if n != 0 {
      SettlePendingBook(cfg, s, n - 1, c);
      var t := SettlePending(cfg, s, n - 1, c);
      if Triggers(t.orders[n-1], c) {
        FillBook(cfg, t, n - 1, PendingPrice(cfg, t.orders[n-1], c), c.ts);
      }
    }
  }

  lemma OutcomeFits(cfg: Config, p: Position, c: Candle)
    ensures Fits(p, OutcomeOf(cfg, p, c))
  {
    hide IntrabarExit, Gross, Commission, SwapFor, Tick;
  }

  lemma OutcomesFit(cfg: Config, ps: seq<Position>, c: Candle)
    ensures AllFit(ps, Outcomes(cfg, ps, c))
  {
    forall j | 0 <= j < |ps| ensures Fits(ps[j], Outcomes(cfg, ps, c)[j]) { OutcomeFits(cfg, ps[j], c); }
  }

  /** All protections resolved at once are one sweep over the positions. */
  lemma ProtectIsSweep(cfg: Config, s: State, c: Candle)
    ensures BooksOf(Protect(cfg, s, |s.positions|, c)) == Sweep(BooksOf(s), Outcomes(cfg, s.positions, c))
  {
    hide Kept, Left, NetPnl, ExitFees, Outcomes;
    assert s.positions[..|s.positions|] == s.positions;
  }

  lemma OnBarBook(cfg: Config, s: State, c: Candle)
    requires BookValid(s)
    ensures BookValid(AfterPending(cfg, s, c))
    ensures BookValid(OnBar(cfg, s, c))
  {
    hide Consistent, Protect, SettleQueue, SettlePending;
    SettleQueueBook(cfg, s.(candle := Some(c)), s.queue, c);
    var q := AfterQueue(cfg, s, c);
    SettlePendingBook(cfg, q, |q.orders|, c);
    var t := AfterPending(cfg, s, c);
    ProtectIsSweep(cfg, t, c);
    OutcomesFit(cfg, t.positions, c);
    SweepKeeps(BooksOf(t), Outcomes(cfg, t.positions, c));
  }

  lemma CloseBook(cfg: Config, s: State, id: nat, price: Option<real>, volume: Option<real>, at: Option<int>)
    requires BookValid(s)
    ensures BookValid(ClosePosition(cfg, s, id, price, volume, at))
  {
    hide Consistent, Gross, Commission, SwapFor, Tick, Quoted;
    var trade := CloseRequest(cfg, s, id, price, volume, at);
    if trade.Ok? { CutKeeps(BooksOf(s), Find(s.positions, id).value, trade.value); }
  }

  lemma PlaceBook(s: State, req: OrderRequest)
    requires BookValid(s)
    ensures BookValid(PlaceOrder(s, req))
  {
    hide Consistent;
    var order := NewOrder(s, req);
    if order.Ok? { AddKeeps(BooksOf(s), order.value); }
  }

  lemma CancelBook(s: State, id: nat)
    requires BookValid(s)
    ensures BookValid(CancelOrder(s, id))
  {
    if CancelError(s, id).None? {
      assert OrdersNumbered(s.orders);
      UnfilledKeeps(BooksOf(s), id, s.orders[id].(state := Cancelled));
    }
    hide Consistent;
  }

  lemma ModifyBook(cfg: Config, s: State, id: nat, sl: Change, tp: Change, trail: Change)
    requires BookValid(s)
    ensures BookValid(ModifyPosition(cfg, s, id, sl, tp, trail))
  {
    hide Consistent;
    var p := ModifyRequest(cfg, s, id, sl, tp, trail);
    if p.Ok? { ReplaceKeeps(BooksOf(s), Find(s.positions, id).value, p.value); }
  }

  lemma StepBook(cfg: Config, s: State, cmd: Command)
    requires BookValid(s)
    ensures BookValid(Step(cfg, s, cmd))
  {
    hide Consistent, PlaceOrder, CancelOrder, ClosePosition, ModifyPosition, OnBar;
    match cmd
    case Place(req) => PlaceBook(s, req);
    case Cancel(id) => CancelBook(s, id);
    case Close(id, price, volume, at) => CloseBook(cfg, s, id, price, volume, at);
    case Modify(id, sl, tp, trail) => ModifyBook(cfg, s, id, sl, tp, trail);
    case Deposit(_) =>
    case Withdraw(_) =>
    case Bar(c) => OnBarBook(cfg, s, c);
  }

  lemma {:induction false} RunBook(cfg: Config, s: State, cmds: seq<Command>)
    requires BookValid(s)
    ensures BookValid(Run(cfg, s, cmds))
  {
    hide BookValid, Step;
    if cmds != [] {
      RunBook(cfg, s, cmds[..|cmds|-1]);
      StepBook(cfg, Run(cfg, s, cmds[..|cmds|-1]), cmds[|cmds|-1]);
    }
  }

  lemma InitialBook(initial: int, candles: seq<Candle>)
    ensures BookValid(Initial(initial, candles))
  {
    var s := Initial(initial, candles);
    assert forall id: nat :: FilledVolume(s.orders, id) == 0;
  }

  /**
    Volume is conserved over every run: filled volume is what was closed plus what is open in
    one position, and positions and trades belong to filled orders only.
   */
  lemma VolumeConserved(cfg: Config, initial: int, candles: seq<Candle>, cmds: seq<Command>, id: nat)
    ensures var b := BooksOf(Run(cfg, Initial(initial, candles), cmds));
            && VolumeAccounted(b, id)
            && PositionsBacked(b) && UniqueIds(b.positions) && AllCut(b.closed, b.orders)
  {
    InitialBook(initial, candles);
    RunBook(cfg, Initial(initial, candles), cmds);
    ConsistentAccounts(BooksOf(Run(cfg, Initial(initial, candles), cmds)), id);
  }
}
