/**
  Stops and targets of the replay broker: no position outlives a bar that touches its stop
  or target, and every exit has a fair price.
 */
module BacktestProtection {
  import opened Wrappers
  import opened Rounding
  import opened Orders
  import opened Candles
  import opened Books
  import opened Backtest
  import opened BacktestLedger

  predicate WellFormed(c: Candle) {
    WellFormedBar(c) && c.low <= c.o <= c.h
  }

  // ----- nothing outlives a touched level

  /** After a bar, no open position of its symbol has its stop or its target in the bar's reach. */
  lemma ProtectionSafe(cfg: Config, s: State, c: Candle)
    ensures forall j :: 0 <= j < |OnBar(cfg, s, c).positions| && OnBar(cfg, s, c).positions[j].symbol == c.symbol ==>
      && !StopTouched(OnBar(cfg, s, c).positions[j], c)
      && !TargetTouched(OnBar(cfg, s, c).positions[j], c)
  {
    hide AfterPending, Kept, Left, NetPnl, ExitFees, MakeTrade, ApplyTrailing;
    var u, t := AfterPending(cfg, s, c), OnBar(cfg, s, c);
    ProtectIsSweep(cfg, u, c);
    var outcomes := Outcomes(cfg, u.positions, c);
    assert t.positions == Kept(outcomes);
    forall j | 0 <= j < |t.positions| && t.positions[j].symbol == c.symbol
      ensures !StopTouched(t.positions[j], c) && !TargetTouched(t.positions[j], c)
    {
      KeptOrigin(outcomes, j);
      var k :| 0 <= k < |outcomes| && outcomes[k] == Stays(t.positions[j]);
      assert OutcomeOf(cfg, u.positions[k], c) == Stays(t.positions[j]);
    }
  }

  // ----- exit prices

  function Distance(a: real, b: real): real {
    if a <= b then b - a else a - b
  }

  predicate Ordered(p: Position)
    requires p.sl.Some? && p.tp.Some?
  {
    if p.side.Buy? then p.sl.value < p.tp.value else p.tp.value < p.sl.value
  }

  /** A stop exit: reached, inside the bar before slippage, never better than the stop. */
  predicate FairStop(cfg: Config, p: Position, c: Candle, price: real) {
    && StopTouched(p, c)
    && c.low <= StopPrice(p, c) <= c.h
    && NotBetter(p.side, StopPrice(p, c), p.sl.value)
    && price == (if TargetTouched(p, c) then StopPrice(p, c) else Slip(cfg, Opposite(p.side), StopPrice(p, c)))
    && (TargetTouched(p, c) && Ordered(p) ==> Distance(c.o, p.sl.value) <= Distance(c.o, p.tp.value))
  }

  /** A target exit: reached, inside the bar, never worse than the target, and strictly nearer than a touched stop. */
  predicate FairTarget(p: Position, c: Candle, price: real) {
    && TargetTouched(p, c)
    && c.low <= price <= c.h
    && NotBetter(p.side, p.tp.value, price)
    && (StopTouched(p, c) && Ordered(p) ==> Distance(c.o, p.tp.value) < Distance(c.o, p.sl.value))
  }

  lemma ExitIsFair(cfg: Config, p: Position, c: Candle)
    requires WellFormed(c)
    ensures match IntrabarExit(cfg, p, c)
            case None => !StopTouched(p, c) && !TargetTouched(p, c)
            case Some(price) => FairStop(cfg, p, c, price) || FairTarget(p, c, price)
  {
  }

  /** A trade closes the whole of a position at the fair price of its stop or target, rounded to a tick. */
  ghost predicate ClosedFairly(cfg: Config, p: Position, c: Candle, t: Trade) {
    && t.position == p.id && t.volume == p.volume && t.openPrice == p.openPrice
    && exists price :: t.closePrice == Tick(price) && (FairStop(cfg, p, c, price) || FairTarget(p, c, price))
  }

  lemma ExitClosesFairly(cfg: Config, p: Position, c: Candle, t: Trade)
    requires WellFormed(c) && OutcomeOf(cfg, p, c) == Leaves(t)
    ensures ClosedFairly(cfg, ApplyTrailing(p, c), c, t)
  {
    var q := ApplyTrailing(p, c);
    ExitIsFair(cfg, q, c);
    hide FairStop, FairTarget, IntrabarExit;
    var price := IntrabarExit(cfg, q, c).value;
    assert FairStop(cfg, q, c, price) || FairTarget(q, c, price);
  }

  /** Every trade a bar adds fairly closes one position of the state that the bar's fills left. */
  lemma BarExitsAreFair(cfg: Config, s: State, c: Candle, j: nat)
    requires WellFormed(c)
    requires |s.closed| <= j < |OnBar(cfg, s, c).closed|
    ensures exists k :: 0 <= k < |AfterPending(cfg, s, c).positions| &&
              ClosedFairly(cfg, ApplyTrailing(AfterPending(cfg, s, c).positions[k], c), c, OnBar(cfg, s, c).closed[j])
  {
    FillsCloseNothing(cfg, s, c);
    hide AfterPending, ClosedFairly, ApplyTrailing, OutcomeOf, Kept, Left;
    var u := AfterPending(cfg, s, c);
    ProtectIsSweep(cfg, u, c);
    var outcomes := Outcomes(cfg, u.positions, c);
    LeftOrigin(outcomes, j - |s.closed|);
    var k :| 0 <= k < |outcomes| && outcomes[k] == Leaves(Left(outcomes)[j - |s.closed|]);
    ExitClosesFairly(cfg, u.positions[k], c, OnBar(cfg, s, c).closed[j]);
  }

  lemma {:induction false} QueueClosesNothing(cfg: Config, s: State, ids: seq<nat>, c: Candle)
    ensures var t := SettleQueue(cfg, s, ids, c); t.closed == s.closed && s.positions <= t.positions
  {
    if ids != [] { QueueClosesNothing(cfg, s, ids[..|ids|-1], c); }
  }

  lemma {:induction false} PendingClosesNothing(cfg: Config, s: State, n: nat, c: Candle)
    requires n <= |s.orders|
    ensures var t := SettlePending(cfg, s, n, c); t.closed == s.closed && s.positions <= t.positions
  {
    if n != 0 { PendingClosesNothing(cfg, s, n - 1, c); }
  }

  lemma FillsCloseNothing(cfg: Config, s: State, c: Candle)
    ensures AfterPending(cfg, s, c).closed == s.closed
    ensures s.positions <= AfterPending(cfg, s, c).positions
  {
    QueueClosesNothing(cfg, s.(candle := Some(c)), s.queue, c);
    PendingClosesNothing(cfg, AfterQueue(cfg, s, c), |AfterQueue(cfg, s, c).orders|, c);
  }

  /** Both levels are one, and the bar opens at it or beyond it on the stop's side. */
  predicate LevelsMeet(p: Position, c: Candle)
    requires p.sl.Some? && p.tp.Some?
  {
    p.sl.value == p.tp.value && if p.side.Buy? then c.o <= p.sl.value else p.sl.value <= c.o
  }

  /**
    The midpoint rule picks the level nearer to the open (ties to the stop) exactly when
    the levels are in order, or the open is their midpoint, or they meet on the open's far side.
   */
  lemma NearerLevelWinsIff(p: Position, c: Candle)
    requires p.sl.Some? && p.tp.Some?
    ensures (StopFirst(p, c) <==> Distance(c.o, p.sl.value) <= Distance(c.o, p.tp.value)) <==>
            (Ordered(p) || c.o - p.sl.value == p.tp.value - c.o || LevelsMeet(p, c))
  {
  }

  /** A trailing stop can pass the target within one bar, and then the farther level is taken, at a worse price. */
  lemma TrailingCanPassTarget(cfg: Config)
    ensures var p := Position(0, "X", Buy, 1, 100.0, None, Some(110.0), 0, 0, 0, Some(5.0), None);
            var c := Candle("X", "H1", 0, 108.0, 120.0, 105.0, 112.0);
            var q := ApplyTrailing(p, c);
            && WellFormed(c) && StopTouched(q, c) && TargetTouched(q, c) && !Ordered(q)
            && Distance(c.o, q.tp.value) < Distance(c.o, q.sl.value)
            && IntrabarExit(cfg, q, c) == Some(108.0) && TargetPrice(q, c) == 110.0
  {
    RoundInt(5);
    RoundInt(115);
  }

  /** A trailing stop can land on the target, and then the tie goes to the target, filled at the open. */
  lemma TrailingCanMeetTarget(cfg: Config)
    ensures var p := Position(0, "X", Buy, 1, 100.0, None, Some(115.0), 0, 0, 0, Some(5.0), None);
            var c := Candle("X", "H1", 0, 118.0, 120.0, 105.0, 112.0);
            var q := ApplyTrailing(p, c);
            && WellFormed(c) && StopTouched(q, c) && TargetTouched(q, c)
            && Distance(c.o, q.sl.value) == Distance(c.o, q.tp.value) && !StopFirst(q, c)
            && IntrabarExit(cfg, q, c) == Some(118.0)
  {
    RoundInt(5);
    RoundInt(115);
  }

  // ----- changing protections

  /** The price at which the market would now close a position. */
  function ExitQuote(cfg: Config, s: State, p: Position): real {
    Quoted(cfg, Opposite(p.side), LastPrice(s, p))
  }

  /** A bar that trades at one price only. */
  function Still(symbol: string, price: real): Candle {
    Candle(symbol, "", 0, price, price, price, price)
  }

  /** The same trade with the requested protections. */
  function Asked(p: Position, sl: Change, tp: Change, trail: Change): Position {
    p.(sl := sl.Apply(p.sl), tp := tp.Apply(p.tp), trail := trail.Apply(p.trail))
  }

  /**
    A change is accepted exactly when the position is open, the market would not at once
    close it under the new protections, and the new trailing distance is positive.
   */
  lemma ModifySucceedsIff(cfg: Config, s: State, id: nat, sl: Change, tp: Change, trail: Change)
    ensures ModifyRequest(cfg, s, id, sl, tp, trail).Ok? <==>
            exists i :: 0 <= i < |s.positions| && Find(s.positions, id) == Some(i) &&
              var p := s.positions[i];
              var q := Asked(p, sl, tp, trail);
              && IntrabarExit(cfg, q, Still(p.symbol, ExitQuote(cfg, s, p))) == None
              && (q.trail.Some? ==> q.trail.value > 0.0)
  {
    hide Tick, Find;
    var i := Find(s.positions, id);
    if i.Some? {
      assert 0 <= i.value < |s.positions| && Find(s.positions, id) == Some(i.value);
    }
  }

  /**
    An accepted change alters that position's protections and nothing else at all, leaves
    neither of its levels touched by the market, and starts a new trail at the market's price.
   */
  lemma ModifyAchieves(cfg: Config, s: State, id: nat, sl: Change, tp: Change, trail: Change)
    requires ModifyRequest(cfg, s, id, sl, tp, trail).Ok?
    ensures var t, i := ModifyPosition(cfg, s, id, sl, tp, trail), Find(s.positions, id).value;
            && t == s.(positions := t.positions) && |t.positions| == |s.positions|
            && (forall j :: 0 <= j < |s.positions| && j != i ==> t.positions[j] == s.positions[j])
            && SamePosition(s.positions[i], t.positions[i])
            && t.positions[i] == Asked(s.positions[i], sl, tp, trail).(extreme := t.positions[i].extreme)
            && IntrabarExit(cfg, t.positions[i], Still(t.positions[i].symbol, ExitQuote(cfg, t, t.positions[i]))) == None
            && t.positions[i].extreme == (if trail.Set? && trail.value.Some? then Some(ExitQuote(cfg, s, s.positions[i]))
                                          else s.positions[i].extreme)
  {
    hide Tick, Find;
  }
}
