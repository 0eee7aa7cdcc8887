/** What a fill of the replay broker costs: spread and slippage are never in the trader's favour. */
module BacktestPrices {
  import opened Wrappers
  import opened Reals
  import opened Rounding
  import opened Orders
  import opened Candles
  import opened Backtest
  import opened BacktestLifecycle

  predicate OnGrid(price: real) {
    Tick(price) == price
  }

  lemma TickOnGrid(x: real)
    ensures OnGrid(Tick(x))
  {
    RoundInt(Round(x));
  }

  /** No price for a side is better than the given one. */
  predicate Adverse(side: Side, price: real, reference: real) {
    if side.Buy? then price >= reference else price <= reference
  }

  lemma QuotedAdverse(cfg: Config, side: Side, price: real)
    requires cfg.halfSpread >= 0.0
    ensures OnGrid(Quoted(cfg, side, price)) && Adverse(side, Quoted(cfg, side, price), Tick(price))
  {
    TickOnGrid(price + cfg.halfSpread);
    TickOnGrid(price - cfg.halfSpread);
    TickMonotone(price, price + cfg.halfSpread);
    TickMonotone(price - cfg.halfSpread, price);
    hide Tick;
  }

  lemma SlipAdverse(cfg: Config, side: Side, price: real)
    requires OnGrid(price)
    ensures OnGrid(Slip(cfg, side, price)) && Adverse(side, Slip(cfg, side, price), price)
  {
    TickOnGrid(price + Direction(side) * cfg.slippage);
    if cfg.slippage > 0.0 {
      if side.Buy? { TickMonotone(price, price + cfg.slippage); } else { TickMonotone(price - cfg.slippage, price); }
    }
    hide Tick;
  }

  /** A market order never trades at a better price than the bar's open, rounded to a tick if it is not one. */
  lemma MarketPriceAdverse(cfg: Config, side: Side, open: real)
    requires cfg.halfSpread >= 0.0
    ensures OnGrid(MarketPrice(cfg, side, open)) && Adverse(side, MarketPrice(cfg, side, open), Tick(open))
    ensures Adverse(side, MarketPrice(cfg, side, open), Quoted(cfg, side, open))
    ensures OnGrid(open) ==> Adverse(side, MarketPrice(cfg, side, open), open)
  {
    hide Tick;
    QuotedAdverse(cfg, side, open);
    SlipAdverse(cfg, side, Quoted(cfg, side, open));
  }

  /** A triggered stop never fills better than its own price; any other order fills exactly at its price. */
  lemma PendingPriceAdverse(cfg: Config, o: Order, c: Candle)
    requires cfg.halfSpread >= 0.0 && Triggers(o, c) && OnGrid(IntrabarFill(o, c).value)
    ensures Adverse(o.side, Tick(PendingPrice(cfg, o, c)), IntrabarFill(o, c).value)
    ensures !o.kind.Stop? ==> Tick(PendingPrice(cfg, o, c)) == IntrabarFill(o, c).value
  {
    hide Tick;
    var price := IntrabarFill(o, c).value;
    QuotedAdverse(cfg, o.side, price);
    SlipAdverse(cfg, o.side, Quoted(cfg, o.side, price));
  }

  /** Opening at a price and closing at the market of that same price never gains, on either side. */
  lemma RoundTripNeverGains(cfg: Config, p: Position, price: real, volume: int)
    requires cfg.halfSpread >= 0.0 && cfg.unitValue >= 0.0 && volume >= 0
    requires p.openPrice == MarketPrice(cfg, p.side, price)
    ensures Gross(cfg, p, Quoted(cfg, Opposite(p.side), price), volume) <= 0.0
  {
    hide Tick, Quoted, MarketPrice;
    MarketPriceAdverse(cfg, p.side, price);
    QuotedAdverse(cfg, Opposite(p.side), price);
    var close := Quoted(cfg, Opposite(p.side), price);
    var loss := (p.openPrice - close) * Direction(p.side);
    ProductNonnegative(loss, cfg.unitValue);
    ProductNonnegative(loss * cfg.unitValue, volume as real);
    NegatedProduct(p.openPrice, close, Direction(p.side), cfg.unitValue, volume as real);
  }

  lemma NegatedProduct(a: real, b: real, d: real, u: real, v: real)
    ensures (b - a) * d * u * v == -((a - b) * d * u * v)
  {
    assert (b - a) * d == -((a - b) * d);
    assert (b - a) * d * u == -((a - b) * d * u);
  }

  /** The bar gapped past the order's price: its whole range lies on the far side. */
  predicate Gapped(o: Order, c: Candle) {
    match o.kind
    case Market => false
    case Limit(price) => if o.side.Buy? then c.h < price else price < c.low
    case Stop(price) => if o.side.Buy? then price < c.low else c.h < price
    case StopLimit(_, limit) => if o.side.Buy? then c.h < limit else limit < c.low
  }

  /** A pending order's price lies inside the bar that fills it exactly when the bar has not gapped past it. */
  lemma FillInsideBarIff(o: Order, c: Candle)
    requires Triggers(o, c) && c.low <= c.h
    ensures c.low <= IntrabarFill(o, c).value <= c.h <==> !Gapped(o, c)
  {
  }

  /** A gapped bar fills a limit order at the order's price, outside the bar. */
  lemma GappedLimitFillsOutside()
    ensures var o := Order(0, "X", Buy, Limit(100.0), 1, Pending, None, None, 0, None, false);
            var c := Candle("X", "H1", 0, 90.0, 95.0, 85.0, 92.0);
            Triggers(o, c) && IntrabarFill(o, c) == Some(100.0) && 100.0 > c.h
  {
  }

  // ----- margin and commission

  /**
    A margin check protects the balance from the commission as long as the commission rate
    does not exceed the margin rate: no opening fill makes a balance negative.
   */
  lemma OpeningNeverOverdraws(cfg: Config, s: State, id: nat, price: real, at: int)
    requires id < |s.orders| && s.balance >= 0 && cfg.marginEnabled
    requires 0.0 <= cfg.commissionRate && cfg.commissionRate * cfg.leverage as real <= 1.0
    ensures Fill(cfg, s, id, price, at).balance >= 0
  {
    hide Commission, Margin, Tick, ValidSlTp;
    if !Rejects(cfg, s, s.orders[id], Tick(price)) {
      CommissionAffordable(cfg, Tick(price), s.orders[id].volume, s.balance);
    }
  }

  /** A commission whose rate is at most the margin rate is within a balance that covers the margin. */
  lemma CommissionAffordable(cfg: Config, price: real, volume: int, balance: int)
    requires 0.0 <= cfg.commissionRate && cfg.commissionRate * cfg.leverage as real <= 1.0
    requires balance >= 0 && Margin(cfg, price, volume) <= balance as real
    ensures Commission(cfg, price, volume) <= balance
  {
    hide Notional, Round;
    var notional := Notional(cfg, price, volume);
    FeeWithinMargin(notional, cfg.commissionRate, cfg.leverage as real, balance as real);
    RoundMonotone(notional * cfg.commissionRate, balance as real);
    RoundInt(balance);
  }

  lemma FeeWithinMargin(notional: real, rate: real, leverage: real, balance: real)
    requires leverage > 0.0 && rate >= 0.0 && rate * leverage <= 1.0
    requires notional / leverage <= balance && balance >= 0.0
    ensures notional * rate <= balance
  {
    TimesQuotient(notional, leverage);
    var margin := notional / leverage;
    assert notional * rate == margin * (rate * leverage) by { Regroup(leverage, margin, rate); }
    var k := rate * leverage;
    ProductNonnegative(rate, leverage);
    if margin >= 0.0 {
      ProductNonnegative(margin, 1.0 - k);
      assert margin * (1.0 - k) == margin - margin * k;
    } else {
      ProductNonnegative(-margin, k);
      assert -margin * k == -(margin * k);
    }
  }

  lemma Regroup(leverage: real, margin: real, rate: real)
    ensures (leverage * margin) * rate == margin * (rate * leverage)
  {
  }
}
