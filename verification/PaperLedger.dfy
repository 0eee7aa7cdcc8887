/**
  Every run of the paper broker: the books stay consistent, money is conserved down to the
  cent, and no opening fill overdraws the account.
 */
module PaperLedger {
  import opened Wrappers
  import opened Rounding
  import opened Orders
  import opened Books
  import opened Paper

  ghost predicate BookValid(s: State) {
    Consistent(BooksOf(s))
  }

  lemma ValidIsNumbered(s: State)
    requires BookValid(s)
    ensures Numbered(s.orders)
  {
  }

  // ----- the books

  lemma OpenNewKeeps(m: Market, s: State, o: Order, price: real, now: int)
    requires BookValid(s) && o.id == |s.orders| && o.volume > 0
    ensures BookValid(OpenPosition(m, s, o, price, now))
  {
    hide Consistent;
    var pending := o.(state := Pending);
    AddKeeps(BooksOf(s), pending);
    OpenKeeps(AddOrder(BooksOf(s), pending), o.id, FilledOrder(o, price), OpenedPosition(m, o, price, now));
    assert (s.orders + [pending])[o.id := FilledOrder(o, price)] == s.orders + [FilledOrder(o, price)];
  }

  lemma OpenHeldKeeps(m: Market, s: State, o: Order, price: real, now: int)
    requires BookValid(s) && o.id < |s.orders| && s.orders[o.id] == o && o.state.Pending?
    ensures BookValid(OpenPosition(m, s, o, price, now))
  {
    assert o.volume > 0;
    hide Consistent;
    OpenKeeps(BooksOf(s), o.id, FilledOrder(o, price), OpenedPosition(m, o, price, now));
  }

  lemma ArmKeeps(s: State, id: nat, q: Quote)
    requires BookValid(s) && id < |s.orders| && s.orders[id].state.Pending?
    ensures BookValid(Arm(s, id, q))
  {
    assert s.orders[id].id == id && s.orders[id].volume > 0;
    hide Consistent, Armed;
    UnfilledKeeps(BooksOf(s), id, s.orders[id].(triggered := true));
  }

  lemma MaybeFillKeeps(m: Market, s: State, id: nat, q: Quote, now: int)
    requires BookValid(s) && id < |s.orders| && s.orders[id].id == id && s.orders[id].state.Pending?
    ensures BookValid(MaybeFill(m, s, id, q, now).0)
  {
    hide Consistent, OpenPosition, Armed, Affordable;
    ArmKeeps(s, id, q);
    var t := Arm(s, id, q);
    if FillPrice(t.orders[id], q).Some? {
      OpenHeldKeeps(m, t, t.orders[id], FillPrice(t.orders[id], q).value, now);
    }
  }

  lemma SettleOrderKeeps(m: Market, s: State, id: nat, symbol: string, q: Quote, now: int)
    requires BookValid(s) && id < |s.orders| && s.orders[id].id == id
    ensures BookValid(SettleOrder(m, s, id, symbol, q, now).0)
  {
    var o := s.orders[id];
    assert o.volume > 0;
    hide Consistent, MaybeFill;
    if o.symbol == symbol && o.state.Pending? {
      if PastExpiry(o, now) {
        UnfilledKeeps(BooksOf(s), id, o.(state := OrderState.Expired));
      } else {
        MaybeFillKeeps(m, s, id, q, now);
      }
    }
  }

  lemma {:induction false} SettleOrdersKeeps(m: Market, s: State, n: nat, symbol: string, q: Quote, now: int)
    requires BookValid(s) && n <= |s.orders| && Numbered(s.orders)
    ensures BookValid(SettleOrders(m, s, n, symbol, q, now).0)
  {
    hide Consistent, SettleOrder;
    if n != 0 {
      SettleOrdersKeeps(m, s, n - 1, symbol, q, now);
      SettleOrderKeeps(m, SettleOrders(m, s, n - 1, symbol, q, now).0, n - 1, symbol, q, now);
    }
  }

  lemma OutcomesFit(m: Market, ps: seq<Position>, symbol: string, q: Quote, now: int)
    ensures AllFit(ps, Outcomes(m, ps, symbol, q, now))
  {
    hide Gross, Commission, SwapFor, Tick, OpenShare, QuoteExit;
  }

  lemma ProtectIsSweep(m: Market, s: State, symbol: string, q: Quote, now: int)
    ensures BooksOf(Protect(m, s, |s.positions|, symbol, q, now)) == Sweep(BooksOf(s), Outcomes(m, s.positions, symbol, q, now))
  {
    hide Kept, Left, SettledSum, ExitFees, Outcomes;
    assert s.positions[..|s.positions|] == s.positions;
  }

  lemma OnQuoteKeeps(m: Market, s: State, symbol: string, q: Quote, now: int)
    requires BookValid(s)
    ensures BookValid(AfterOrders(m, s, symbol, q, now))
    ensures BookValid(OnQuote(m, s, symbol, q, now))
  {
    hide Consistent, Protect, SettleOrders;
    ValidIsNumbered(s);
    SettleOrdersKeeps(m, s, |s.orders|, symbol, q, now);
    var t := AfterOrders(m, s, symbol, q, now);
    ProtectIsSweep(m, t, symbol, q, now);
    OutcomesFit(m, t.positions, symbol, q, now);
    SweepKeeps(BooksOf(t), Outcomes(m, t.positions, symbol, q, now));
  }

  lemma PlaceKeeps(m: Market, s: State, req: OrderRequest, q: Quote, now: int)
    requires BookValid(s)
    ensures BookValid(PlaceOrder(m, s, req, q, now).0)
  {
    hide Consistent, OpenPosition, MaybeFill, Affordable, Quoted, ValidSlTp;
    var order := NewOrder(s, req, q, now);
    if order.Ok? {
      var o := order.value;
      if o.kind.Market? {
        OpenNewKeeps(m, s, o, Tick(Quoted(o.side, q)), now);
      } else {
        AddKeeps(BooksOf(s), o);
        MaybeFillKeeps(m, s.(orders := s.orders + [o]), |s.orders|, q, now);
      }
    }
  }

  lemma CancelKeeps(s: State, id: nat)
    requires BookValid(s)
    ensures BookValid(CancelOrder(s, id))
  {
    if CancelError(s, id).None? {
      assert s.orders[id].id == id && s.orders[id].volume > 0;
      UnfilledKeeps(BooksOf(s), id, s.orders[id].(state := Cancelled));
    }
    hide Consistent;
  }

  lemma CloseKeeps(m: Market, s: State, id: nat, price: Option<real>, volume: Option<real>, q: Quote, at: int)
    requires BookValid(s)
    ensures BookValid(ClosePosition(m, s, id, price, volume, q, at))
  {
    hide Consistent, Gross, Commission, SwapFor, Tick, OpenShare, Settled;
    var trade := CloseRequest(m, s, id, price, volume, q, at);
    if trade.Ok? { CutKeeps(BooksOf(s), Find(s.positions, id).value, trade.value); }
  }

  lemma ModifyKeeps(s: State, id: nat, sl: Change, tp: Change, trail: Change, q: Quote)
    requires BookValid(s)
    ensures BookValid(ModifyPosition(s, id, sl, tp, trail, q))
  {
    hide Consistent;
    var p := ModifyRequest(s, id, sl, tp, trail, q);
    if p.Ok? { ReplaceKeeps(BooksOf(s), Find(s.positions, id).value, p.value); }
  }

  lemma StepKeeps(m: Market, s: State, cmd: Command)
    requires BookValid(s)
    ensures BookValid(Step(m, s, cmd))
  {
    hide Consistent, PlaceOrder, CancelOrder, ClosePosition, ModifyPosition, OnQuote;
    match cmd
    case Place(req, q, now) => PlaceKeeps(m, s, req, q, now);
    case Cancel(id) => CancelKeeps(s, id);
    case Close(id, price, volume, q, at) => CloseKeeps(m, s, id, price, volume, q, at);
    case Modify(id, sl, tp, trail, q) => ModifyKeeps(s, id, sl, tp, trail, q);
    case Deposit(_) =>
    case Withdraw(_) =>
    case Refresh(symbol, q, now) => OnQuoteKeeps(m, s, symbol, q, now);
  }

  // ----- money

  function EntryFee(m: Market, o: Order): int {
    if o.state.Filled? then Commission(m, o.symbol, o.state.price, o.volume) else 0
  }

  function EntryFees(m: Market, orders: seq<Order>): int {
    if orders == [] then 0
    else EntryFees(m, orders[..|orders|-1]) + EntryFee(m, orders[|orders|-1])
  }

  /** The balance is what was put in, less every entry commission, plus what every close settled. */
  predicate LedgerHolds(m: Market, s: State, funds: int) {
    && s.balance == funds - EntryFees(m, s.orders) + SettledSum(m, s.closed)
    && s.commissionTotal == EntryFees(m, s.orders) + ExitFees(s.closed)
  }

  lemma {:induction false} FeesUpdate(m: Market, orders: seq<Order>, i: nat, o: Order)
    requires i < |orders|
    ensures EntryFees(m, orders[i := o]) == EntryFees(m, orders) - EntryFee(m, orders[i]) + EntryFee(m, o)
  {
    hide EntryFee;
    var n := |orders| - 1;
    if i == n {
      assert orders[i := o][..n] == orders[..n];
    } else {
      assert orders[i := o][..n] == orders[..n][i := o];
      FeesUpdate(m, orders[..n], i, o);
    }
  }

  lemma {:induction false} SettledConcat(m: Market, a: seq<Trade>, b: seq<Trade>)
    ensures SettledSum(m, a + b) == SettledSum(m, a) + SettledSum(m, b)
    ensures ExitFees(a + b) == ExitFees(a) + ExitFees(b)
  {
    hide Settled;
    if b == [] {
      assert a + b == a;
    } else {
      assert (a + b)[..|a+b|-1] == a + b[..|b|-1];
      SettledConcat(m, a, b[..|b|-1]);
    }
  }

  lemma OpenLedger(m: Market, s: State, o: Order, price: real, now: int, funds: int)
    requires LedgerHolds(m, s, funds) && o.id <= |s.orders|
    requires o.id < |s.orders| ==> !s.orders[o.id].state.Filled?
    ensures LedgerHolds(m, OpenPosition(m, s, o, price, now), funds)
  {
    hide Commission, WithPrice;
    var filled := FilledOrder(o, price);
    if o.id < |s.orders| {
      FeesUpdate(m, s.orders, o.id, filled);
    } else {
      assert (s.orders + [filled])[..|s.orders|] == s.orders;
    }
  }

  lemma MaybeFillLedger(m: Market, s: State, id: nat, q: Quote, now: int, funds: int)
    requires LedgerHolds(m, s, funds) && id < |s.orders| && s.orders[id].id == id && s.orders[id].state.Pending?
    ensures LedgerHolds(m, MaybeFill(m, s, id, q, now).0, funds)
  {
    hide OpenPosition, Armed, Affordable, EntryFees, SettledSum, ExitFees;
    FeesUpdate(m, s.orders, id, s.orders[id].(triggered := true));
    var t := Arm(s, id, q);
    if FillPrice(t.orders[id], q).Some? {
      OpenLedger(m, t, t.orders[id], FillPrice(t.orders[id], q).value, now, funds);
    }
  }

  lemma SettleOrderLedger(m: Market, s: State, id: nat, symbol: string, q: Quote, now: int, funds: int)
    requires LedgerHolds(m, s, funds) && id < |s.orders| && s.orders[id].id == id
    ensures LedgerHolds(m, SettleOrder(m, s, id, symbol, q, now).0, funds)
  {
    hide MaybeFill, EntryFees, SettledSum, ExitFees;
    var o := s.orders[id];
    if o.symbol == symbol && o.state.Pending? {
      FeesUpdate(m, s.orders, id, o.(state := OrderState.Expired));
      MaybeFillLedger(m, s, id, q, now, funds);
    }
  }

  lemma {:induction false} SettleOrdersLedger(m: Market, s: State, n: nat, symbol: string, q: Quote, now: int, funds: int)
    requires LedgerHolds(m, s, funds) && n <= |s.orders| && Numbered(s.orders)
    ensures LedgerHolds(m, SettleOrders(m, s, n, symbol, q, now).0, funds)
  {
    hide LedgerHolds, SettleOrder;
    if n != 0 {
      SettleOrdersLedger(m, s, n - 1, symbol, q, now, funds);
      SettleOrderLedger(m, SettleOrders(m, s, n - 1, symbol, q, now).0, n - 1, symbol, q, now, funds);
    }
  }

  lemma OnQuoteLedger(m: Market, s: State, symbol: string, q: Quote, now: int, funds: int)
    requires LedgerHolds(m, s, funds) && Numbered(s.orders)
    ensures LedgerHolds(m, OnQuote(m, s, symbol, q, now), funds)
  {
    hide SettleOrders, Outcomes, Left, Kept, EntryFees, SettledSum, ExitFees;
    SettleOrdersLedger(m, s, |s.orders|, symbol, q, now, funds);
    var t := AfterOrders(m, s, symbol, q, now);
    SettledConcat(m, t.closed, Left(Outcomes(m, t.positions[..|t.positions|], symbol, q, now)));
  }

  lemma PlaceLedger(m: Market, s: State, req: OrderRequest, q: Quote, now: int, funds: int)
    requires LedgerHolds(m, s, funds)
    ensures LedgerHolds(m, PlaceOrder(m, s, req, q, now).0, funds)
  {
    hide OpenPosition, MaybeFill, Affordable, Quoted, ValidSlTp;
    var order := NewOrder(s, req, q, now);
    if order.Ok? {
      var o := order.value;
      if o.kind.Market? {
        OpenLedger(m, s, o, Tick(Quoted(o.side, q)), now, funds);
      } else {
        assert (s.orders + [o])[..|s.orders|] == s.orders;
        MaybeFillLedger(m, s.(orders := s.orders + [o]), |s.orders|, q, now, funds);
      }
    }
  }

  lemma StepLedger(m: Market, s: State, cmd: Command, funds: int)
    requires LedgerHolds(m, s, funds) && Numbered(s.orders)
    ensures LedgerHolds(m, Step(m, s, cmd), funds + Transfer(s, cmd))
  {
    hide PlaceOrder, OnQuote, EntryFees, SettledSum, ExitFees, MakeTrade, Settled, ModifyRequest;
    match cmd
    case Place(req, q, now) => PlaceLedger(m, s, req, q, now, funds);
    case Cancel(id) =>
      if CancelError(s, id).None? { FeesUpdate(m, s.orders, id, s.orders[id].(state := Cancelled)); }
    case Close(id, price, volume, q, at) =>
      var trade := CloseRequest(m, s, id, price, volume, q, at);
      if trade.Ok? {
        SettledConcat(m, s.closed, [trade.value]);
        SettledOne(m, trade.value);
      }
    case Refresh(symbol, q, now) => OnQuoteLedger(m, s, symbol, q, now, funds);
    case _ =>
  }

  lemma SettledOne(m: Market, t: Trade)
    ensures SettledSum(m, [t]) == Settled(m, t) && ExitFees([t]) == t.commission
  {
    assert [t][..0] == [];
  }

  lemma {:induction false} RunKeeps(m: Market, s: State, cmds: seq<Command>, funds: int)
    requires Numbered(s.orders) && BookValid(s) && LedgerHolds(m, s, funds)
    ensures BookValid(Run(m, s, cmds))
    ensures LedgerHolds(m, Run(m, s, cmds), funds + Transfers(m, s, cmds))
  {
    hide BookValid, LedgerHolds, Step;
    if cmds != [] {
      var before := cmds[..|cmds|-1];
      RunKeeps(m, s, before, funds);
      StepKeeps(m, Run(m, s, before), cmds[|cmds|-1]);
      StepLedger(m, Run(m, s, before), cmds[|cmds|-1], funds + Transfers(m, s, before));
    }
  }

  lemma InitialKeeps(m: Market, initial: int)
    ensures BookValid(Initial(initial)) && LedgerHolds(m, Initial(initial), initial)
  {
    assert forall k: nat :: FilledVolume(Initial(initial).orders, k) == 0;
  }

  /** Money and volume are conserved over every run of the paper broker. */
  lemma PaperConserves(m: Market, initial: int, cmds: seq<Command>, id: nat)
    ensures var s := Run(m, Initial(initial), cmds);
            && s.balance == initial + Transfers(m, Initial(initial), cmds) - EntryFees(m, s.orders) + SettledSum(m, s.closed)
            && s.commissionTotal == EntryFees(m, s.orders) + ExitFees(s.closed)
            && VolumeAccounted(BooksOf(s), id)
  {
    hide Consistent, Run, Transfers, VolumeAccounted;
    InitialKeeps(m, initial);
    RunKeeps(m, Initial(initial), cmds, initial);
    ConsistentAccounts(BooksOf(Run(m, Initial(initial), cmds)), id);
  }

  // ----- no overdraft by opening

  /** A commission of a five-hundredth of an affordable margin never exceeds the balance. */
  lemma CommissionAffordable(m: Market, symbol: string, price: real, volume: int, balance: int)
    requires balance >= 0 && Margin(m, symbol, price, volume) <= balance as real
    ensures Commission(m, symbol, price, volume) <= balance
  {
    var notional := Notional(m, symbol, price, volume);
    assert notional == Margin(m, symbol, price, volume) * LEVERAGE;
    hide Notional;
    CommissionBound(notional, balance);
  }

  lemma CommissionBound(notional: real, balance: int)
    requires balance >= 0 && notional <= 100.0 * balance as real
    ensures Round(notional * 0.00002) <= balance
  {
    RoundMonotone(notional * 0.00002, balance as real);
    RoundInt(balance);
  }

  /** No opening fill takes a balance that is not negative below zero. */
  lemma OpeningNeverOverdraws(m: Market, s: State, o: Order, price: real, now: int)
    requires o.id <= |s.orders| && s.balance >= 0
    ensures Fill(m, s, o, price, now).0.balance >= 0
  {
    hide Margin, Commission;
    if Affordable(m, s, o, price) {
      CommissionAffordable(m, o.symbol, price, o.volume, s.balance);
    }
  }

  lemma {:induction false} OrdersNeverOverdraw(m: Market, s: State, n: nat, symbol: string, q: Quote, now: int)
    requires n <= |s.orders| && Numbered(s.orders) && s.balance >= 0
    ensures SettleOrders(m, s, n, symbol, q, now).0.balance >= 0
  {
    hide Fill, FillPrice, Armed;
    if n != 0 {
      OrdersNeverOverdraw(m, s, n - 1, symbol, q, now);
      var t := Arm(SettleOrders(m, s, n - 1, symbol, q, now).0, n - 1, q);
      if FillPrice(t.orders[n-1], q).Some? {
        OpeningNeverOverdraws(m, t, t.orders[n-1], FillPrice(t.orders[n-1], q).value, now);
      }
    }
  }
}
