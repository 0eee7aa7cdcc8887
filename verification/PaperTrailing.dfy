/**
  Trailing stops of the paper broker: over any run a position that is still open carries
  exactly the ratcheted stop of the quotes it met, and one that is gone stays gone.
 */
module PaperTrailing {
  import opened Wrappers
  import opened Orders
  import opened Books
  import opened Paper
  import opened PaperLedger
  import opened PaperQuotes
  import opened Trailing

  // ----- what is gone stays gone

  /** No command takes a closed trade back. */
  lemma StepCloses(m: Market, s: State, cmd: Command)
    requires Numbered(s.orders)
    ensures s.closed <= Step(m, s, cmd).closed
  {
    hide AfterOrders, CloseRequest, ModifyRequest, Find, Outcomes, PlaceOrder;
    match cmd
    case Refresh(symbol, q, now) => OrdersCloseNothing(m, s, symbol, q, now);
    case Place(req, q, now) => PlaceClosesNothing(m, s, req, q, now);
    case _ =>
  }

  lemma PlaceClosesNothing(m: Market, s: State, req: OrderRequest, q: Quote, now: int)
    ensures PlaceOrder(m, s, req, q, now).0.closed == s.closed
    ensures s.positions <= PlaceOrder(m, s, req, q, now).0.positions
  {
    hide Affordable, Armed, FillPrice, OpenedPosition, ValidSlTp;
  }

  lemma {:induction false} RunCloses(m: Market, s: State, cmds: seq<Command>)
    requires Numbered(s.orders)
    ensures s.closed <= Run(m, s, cmds).closed
  {
    hide Step;
    if cmds != [] {
      RunCloses(m, s, cmds[..|cmds|-1]);
      StepCloses(m, Run(m, s, cmds[..|cmds|-1]), cmds[|cmds|-1]);
    }
  }

  lemma {:induction false} RunBook(m: Market, s: State, cmds: seq<Command>)
    requires Numbered(s.orders) && BookValid(s)
    ensures BookValid(Run(m, s, cmds))
  {
    hide BookValid, Step;
    if cmds != [] {
      RunBook(m, s, cmds[..|cmds|-1]);
      StepKeeps(m, Run(m, s, cmds[..|cmds|-1]), cmds[|cmds|-1]);
    }
  }

  /** A filled order whose position is gone never has one again, whatever is commanded. */
  lemma ClosedStaysClosed(m: Market, s: State, cmds: seq<Command>, id: nat)
    requires Numbered(s.orders) && BookValid(s)
    requires id < |s.orders| && s.orders[id].state.Filled?
    requires Find(s.positions, id).None?
    ensures Find(Run(m, s, cmds).positions, id).None?
  {
    hide Consistent, Run, Find;
    var t := Run(m, s, cmds);
    RunBook(m, s, cmds);
    PaperOrdersAbsorb(m, s, cmds);
    assert Advances(s.orders[id], t.orders[id]);
    RunCloses(m, s, cmds);
    GoneStaysGone(BooksOf(s), BooksOf(t), id);
  }

  // ----- survivors of a run carry exactly the ratcheted stop

  /** The price of a quote that a side trails on. */
  function Reach(side: Side, q: Quote): real {
    Quoted(Opposite(side), q)
  }

  /** What one command adds to the prices of a symbol that a side trails on. */
  function Seen(side: Side, symbol: string, cmd: Command): (r: seq<real>)
    ensures |r| <= 1
  {
    if cmd.Refresh? && cmd.symbol == symbol then [Reach(side, cmd.quote)] else []
  }

  /** The prices of the quotes of a symbol among the commands of a run. */
  function PricesSeen(side: Side, symbol: string, cmds: seq<Command>): seq<real> {
    if cmds == [] then []
    else PricesSeen(side, symbol, cmds[..|cmds|-1]) + Seen(side, symbol, cmds[|cmds|-1])
  }

  predicate NeverModifies(cmds: seq<Command>, id: nat) {
    forall i :: 0 <= i < |cmds| ==> !(cmds[i].Modify? && cmds[i].position == id)
  }

  /** What one command makes of a position that survives it, but for a partial close. */
  function TrailedBy(p: Position, cmd: Command): Position {
    var prices := Seen(p.side, p.symbol, cmd);
    if prices == [] then p else Trailed(p, prices[0])
  }

  lemma SurvivorIsTrailed(m: Market, s: State, symbol: string, q: Quote, now: int, k: nat, j: nat)
    requires Numbered(s.orders) && BookValid(s) && k < |s.positions|
    requires j < |OnQuote(m, s, symbol, q, now).positions| && OnQuote(m, s, symbol, q, now).positions[j].id == s.positions[k].id
    ensures OnQuote(m, s, symbol, q, now).positions[j] ==
            if s.positions[k].symbol == symbol then ApplyTrailing(s.positions[k], q) else s.positions[k]
  {
    hide BookValid, AfterOrders, Kept, Left, ApplyTrailing, Fits, SettledSum, ExitFees, OutcomeOf;
    OrdersCloseNothing(m, s, symbol, q, now);
    OnQuoteKeeps(m, s, symbol, q, now);
    var t := AfterOrders(m, s, symbol, q, now);
    ProtectIsSweep(m, t, symbol, q, now);
    var outcomes := Outcomes(m, t.positions, symbol, q, now);
    KeptOrigin(outcomes, j);
    var i :| 0 <= i < |outcomes| && outcomes[i] == Stays(OnQuote(m, s, symbol, q, now).positions[j]);
    assert t.positions[k] == s.positions[k];
    StaysTrailed(m, t.positions[i], symbol, q, now);
    SamePlace(t, i, k);
  }

  lemma SamePlace(s: State, i: nat, k: nat)
    requires BookValid(s) && i < |s.positions| && k < |s.positions| && s.positions[i].id == s.positions[k].id
    ensures i == k
  {
  }

  lemma StaysTrailed(m: Market, p: Position, symbol: string, q: Quote, now: int)
    ensures OutcomeOf(m, p, symbol, q, now).Stays? ==>
              && OutcomeOf(m, p, symbol, q, now).position.id == p.id
              && OutcomeOf(m, p, symbol, q, now).position == if p.symbol == symbol then ApplyTrailing(p, q) else p
  {
  }

  lemma CloseLeaves(m: Market, s: State, cmd: Command, k: nat, j: nat)
    requires Numbered(s.orders) && BookValid(s) && cmd.Close? && k < |s.positions|
    requires j < |Step(m, s, cmd).positions| && Step(m, s, cmd).positions[j].id == s.positions[k].id
    ensures Step(m, s, cmd).positions[j] == s.positions[k].(volume := Step(m, s, cmd).positions[j].volume)
    ensures Step(m, s, cmd).positions[j].volume <= s.positions[k].volume
  {
    hide MakeTrade, PositionsBacked, AllCut, VolumeHolds, Settled;
  }

  lemma ModifyLeaves(m: Market, s: State, cmd: Command, k: nat, j: nat)
    requires Numbered(s.orders) && BookValid(s) && cmd.Modify? && k < |s.positions| && cmd.position != s.positions[k].id
    requires j < |Step(m, s, cmd).positions| && Step(m, s, cmd).positions[j].id == s.positions[k].id
    ensures Step(m, s, cmd).positions[j] == s.positions[k]
  {
    hide PositionsBacked, AllCut, VolumeHolds, ValidProtection;
  }

  lemma PlaceLeaves(m: Market, s: State, cmd: Command, k: nat, j: nat)
    requires Numbered(s.orders) && BookValid(s) && cmd.Place? && k < |s.positions|
    requires j < |Step(m, s, cmd).positions| && Step(m, s, cmd).positions[j].id == s.positions[k].id
    ensures Step(m, s, cmd).positions[j] == s.positions[k]
  {
    StepKeeps(m, s, cmd);
    PlaceClosesNothing(m, s, cmd.request, cmd.quote, cmd.now);
    hide PlaceOrder, PositionsBacked, AllCut, VolumeHolds;
    var t := Step(m, s, cmd);
    assert UniqueIds(t.positions);
    assert t.positions[k] == s.positions[k];
  }

  lemma StepLeaves(m: Market, s: State, cmd: Command, k: nat, j: nat)
    requires Numbered(s.orders) && BookValid(s) && k < |s.positions| && NeverModifies([cmd], s.positions[k].id)
    requires j < |Step(m, s, cmd).positions| && Step(m, s, cmd).positions[j].id == s.positions[k].id
    ensures Remains(TrailedBy(s.positions[k], cmd), Step(m, s, cmd).positions[j])
  {
    StepKeeps(m, s, cmd);
    var t := Step(m, s, cmd);
    assert OpenedBy(t.positions[j], t.orders[t.positions[j].id]);
    assert t.positions[j].volume > 0;
    assert !([cmd][0].Modify? && [cmd][0].position == s.positions[k].id);
    hide OnQuote, ClosePosition, ModifyPosition, PlaceOrder, Trailed, PositionsBacked, AllCut, VolumeHolds;
    match cmd
    case Refresh(symbol, q, now) =>
      SurvivorIsTrailed(m, s, symbol, q, now, k, j);
      TrailedKeeps(s.positions[k], Reach(s.positions[k].side, q));
    case Close(_, _, _, _, _) => CloseLeaves(m, s, cmd, k, j);
    case Modify(_, _, _, _, _) => ModifyLeaves(m, s, cmd, k, j);
    case Place(_, _, _) => PlaceLeaves(m, s, cmd, k, j);
    case _ =>
  }

  /** The order of an open position stays filled. */
  lemma StillFilled(m: Market, s: State, cmds: seq<Command>, k: nat)
    requires Numbered(s.orders) && BookValid(s) && k < |s.positions|
    ensures var t := Run(m, s, cmds);
            var id := s.positions[k].id;
            id < |t.orders| && t.orders[id].state.Filled?
  {
    PaperOrdersAbsorb(m, s, cmds);
    var id := s.positions[k].id;
    assert OpenedBy(s.positions[k], s.orders[id]);
    assert Advances(s.orders[id], Run(m, s, cmds).orders[id]);
  }

  lemma OpenUnique(s: State, k: nat, j: nat)
    requires BookValid(s) && k < |s.positions| && j < |s.positions| && s.positions[j].id == s.positions[k].id
    ensures Remains(TrailOver(s.positions[k], []), s.positions[j])
  {
    assert OpenedBy(s.positions[k], s.orders[s.positions[k].id]);
  }

  lemma LastStep(m: Market, s: State, cmds: seq<Command>)
    requires Numbered(s.orders) && cmds != []
    ensures var n := |cmds| - 1;
            && Run(m, s, cmds) == Step(m, Run(m, s, cmds[..n]), cmds[n])
            && Run(m, Run(m, s, cmds[..n]), [cmds[n]]) == Run(m, s, cmds)
  {
    hide Step;
    var t := Run(m, s, cmds[..|cmds|-1]);
    var last := [cmds[|cmds|-1]];
    assert last[..0] == [] && Run(m, t, last[..0]) == t;
  }

  /**
    Over any run in which its protections are not modified, a position that is still open
    at the end is what partial closes left of it, with exactly the stop and extreme that
    the ratchet gives over the quotes of its symbol.
   */
  lemma {:induction false} OpenPositionsTrail(m: Market, s: State, cmds: seq<Command>, k: nat, j: nat)
    requires Numbered(s.orders) && BookValid(s) && k < |s.positions| && NeverModifies(cmds, s.positions[k].id)
    requires j < |Run(m, s, cmds).positions| && Run(m, s, cmds).positions[j].id == s.positions[k].id
    ensures var p := s.positions[k];
            Remains(TrailOver(p, PricesSeen(p.side, p.symbol, cmds)), Run(m, s, cmds).positions[j])
  {
    var p := s.positions[k];
    if cmds == [] {
      OpenUnique(s, k, j);
    } else {
      var n := |cmds| - 1;
      var t := Run(m, s, cmds[..n]);
      var prices := PricesSeen(p.side, p.symbol, cmds[..n]);
      RunBook(m, s, cmds[..n]);
      StillFilled(m, s, cmds[..n], k);
      LastStep(m, s, cmds);
      hide BookValid, Step, Run, TrailOver, Remains, Trailed;
      if Find(t.positions, p.id).None? { ClosedStaysClosed(m, t, [cmds[n]], p.id); }
      var i := Find(t.positions, p.id).value;
      OpenPositionsTrail(m, s, cmds[..n], k, i);
      RemainsKeeps(p, prices, t.positions[i]);
      StepLeaves(m, t, cmds[n], i, j);
      RemainsNext(p, prices, t.positions[i], Seen(p.side, p.symbol, cmds[n]), Run(m, s, cmds).positions[j]);
    }
  }

  /** So its stop is the better of the old one and the level of the most favourable price the run has quoted. */
  lemma SurvivorsStop(m: Market, s: State, cmds: seq<Command>, k: nat, j: nat)
    requires Numbered(s.orders) && BookValid(s) && k < |s.positions| && NeverModifies(cmds, s.positions[k].id)
    requires j < |Run(m, s, cmds).positions| && Run(m, s, cmds).positions[j].id == s.positions[k].id
    requires s.positions[k].trail.Some? && s.positions[k].openPrice > 0.0 && BaseExtreme(s.positions[k]) > 0.0
    ensures var p := s.positions[k];
            var prices := PricesSeen(p.side, p.symbol, cmds);
            prices != [] && NonNegative(prices) ==>
              Run(m, s, cmds).positions[j].sl ==
              Some(Ratchet(p.side, p.sl, TrailLevel(p.side, Favourable(p.side, prices, BaseExtreme(p)), p.trail.value)))
  {
    hide BookValid, Run, TrailOver, Remains, TrailLevel, Ratchet, Favourable, BaseExtreme, PricesSeen;
    var p := s.positions[k];
    var prices := PricesSeen(p.side, p.symbol, cmds);
    OpenPositionsTrail(m, s, cmds, k, j);
    if prices != [] && NonNegative(prices) { RemainderClosedForm(p, prices, Run(m, s, cmds).positions[j]); }
  }
}
