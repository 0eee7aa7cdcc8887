/**
  Trailing stops of the replay broker: whatever else is commanded in between, a position that
  is still open carries exactly the ratcheted stop, and one that is gone stays gone.
 */
module BacktestTrailing {
  import opened Wrappers
  import opened Rounding
  import opened Orders
  import opened Candles
  import opened Books
  import opened Backtest
  import opened BacktestLedger
  import opened BacktestLifecycle
  import opened BacktestProtection
  import opened Trailing

  // ----- what is gone stays gone

  /** No command takes a closed trade back. */
  lemma StepCloses(cfg: Config, s: State, cmd: Command)
    ensures s.closed <= Step(cfg, s, cmd).closed
  {
    hide AfterPending, CloseRequest, NewOrder, ModifyRequest, Find, Outcomes;
    if cmd.Bar? { FillsCloseNothing(cfg, s, cmd.candle); }
  }

  lemma {:induction false} RunCloses(cfg: Config, s: State, cmds: seq<Command>)
    ensures s.closed <= Run(cfg, s, cmds).closed
  {
    hide Step;
    if cmds != [] {
      RunCloses(cfg, s, cmds[..|cmds|-1]);
      StepCloses(cfg, Run(cfg, s, cmds[..|cmds|-1]), cmds[|cmds|-1]);
    }
  }

  /** A filled order whose position is gone never has one again, whatever is commanded. */
  lemma ClosedStaysClosed(cfg: Config, s: State, cmds: seq<Command>, id: nat)
    requires BookValid(s)
    requires id < |s.orders| && s.orders[id].state.Filled?
    requires Find(s.positions, id).None?
    ensures Find(Run(cfg, s, cmds).positions, id).None?
  {
    hide Consistent, Run, Find;
    var t := Run(cfg, s, cmds);
    RunBook(cfg, s, cmds);
    OrdersAbsorb(cfg, s, cmds);
    assert Advances(s.orders[id], t.orders[id]);
    RunCloses(cfg, s, cmds);
    GoneStaysGone(BooksOf(s), BooksOf(t), id);
  }

  // ----- survivors of a run carry exactly the ratcheted stop

  /** The bars of a symbol among the commands of a run. */
  function BarsSeen(cmds: seq<Command>, symbol: string): seq<Candle> {
    if cmds == [] then []
    else
      var last := cmds[|cmds|-1];
      BarsSeen(cmds[..|cmds|-1], symbol) + if last.Bar? && last.candle.symbol == symbol then [last.candle] else []
  }

  /** The price of a bar that a side trails on, and those of several bars. */
  function Reach(side: Side, c: Candle): real {
    if side.Buy? then c.h else c.low
  }

  function Reaches(side: Side, bars: seq<Candle>): seq<real> {
    seq(|bars|, i requires 0 <= i < |bars| => Reach(side, bars[i]))
  }

  predicate NeverModifies(cmds: seq<Command>, id: nat) {
    forall i :: 0 <= i < |cmds| ==> !(cmds[i].Modify? && cmds[i].position == id)
  }

  /** A position that a bar leaves open is the old one with its stop trailed, if the bar is of its symbol. */
  lemma SurvivorIsTrailed(cfg: Config, s: State, c: Candle, k: nat, j: nat)
    requires BookValid(s) && k < |s.positions|
    requires j < |OnBar(cfg, s, c).positions| && OnBar(cfg, s, c).positions[j].id == s.positions[k].id
    ensures OnBar(cfg, s, c).positions[j] ==
            if s.positions[k].symbol == c.symbol then ApplyTrailing(s.positions[k], c) else s.positions[k]
  {
    hide AfterPending, Kept, Left, ApplyTrailing, Fits;
    var u := AfterPending(cfg, s, c);
    FillsCloseNothing(cfg, s, c);
    OnBarBook(cfg, s, c);
    ProtectIsSweep(cfg, u, c);
    var outcomes := Outcomes(cfg, u.positions, c);
    KeptOrigin(outcomes, j);
    var i :| 0 <= i < |outcomes| && outcomes[i] == Stays(OnBar(cfg, s, c).positions[j]);
    assert u.positions[k] == s.positions[k];
    StaysTrailed(cfg, u.positions[i], c);
    assert u.positions[i].id == u.positions[k].id;
  }

  lemma StaysTrailed(cfg: Config, p: Position, c: Candle)
    ensures OutcomeOf(cfg, p, c).Stays? ==> OutcomeOf(cfg, p, c).position.id == p.id
    ensures OutcomeOf(cfg, p, c).Stays? ==>
              OutcomeOf(cfg, p, c).position == if p.symbol == c.symbol then ApplyTrailing(p, c) else p
  {
  }

  lemma CloseLeaves(cfg: Config, s: State, cmd: Command, k: nat, j: nat)
    requires BookValid(s) && cmd.Close? && k < |s.positions|
    requires j < |Step(cfg, s, cmd).positions| && Step(cfg, s, cmd).positions[j].id == s.positions[k].id
    ensures Step(cfg, s, cmd).positions[j] == s.positions[k].(volume := Step(cfg, s, cmd).positions[j].volume)
    ensures Step(cfg, s, cmd).positions[j].volume <= s.positions[k].volume
  {
    hide MakeTrade, Tick, Quoted, PositionsBacked, AllCut, VolumeHolds;
  }

  lemma ModifyLeaves(cfg: Config, s: State, cmd: Command, k: nat, j: nat)
    requires BookValid(s) && cmd.Modify? && k < |s.positions| && cmd.position != s.positions[k].id
    requires j < |Step(cfg, s, cmd).positions| && Step(cfg, s, cmd).positions[j].id == s.positions[k].id
    ensures Step(cfg, s, cmd).positions[j] == s.positions[k]
  {
    hide Tick, Quoted, PositionsBacked, AllCut, VolumeHolds, ValidProtection;
  }

  lemma StepLeaves(cfg: Config, s: State, cmd: Command, k: nat, j: nat)
    requires BookValid(s) && k < |s.positions| && NeverModifies([cmd], s.positions[k].id)
    requires j < |Step(cfg, s, cmd).positions| && Step(cfg, s, cmd).positions[j].id == s.positions[k].id
    ensures var p := s.positions[k];
            Remains(if cmd.Bar? && cmd.candle.symbol == p.symbol then ApplyTrailing(p, cmd.candle) else p,
                    Step(cfg, s, cmd).positions[j])
  {
    StepBook(cfg, s, cmd);
    var t := Step(cfg, s, cmd);
    assert OpenedBy(t.positions[j], t.orders[t.positions[j].id]);
    assert t.positions[j].volume > 0;
    assert !([cmd][0].Modify? && [cmd][0].position == s.positions[k].id);
    hide OnBar, ClosePosition, ModifyPosition, ApplyTrailing, PositionsBacked, AllCut, VolumeHolds;
    match cmd
    case Bar(c) =>
      SurvivorIsTrailed(cfg, s, c, k, j);
      TrailKeeps(s.positions[k], c);
    case Close(_, _, _, _) => CloseLeaves(cfg, s, cmd, k, j);
    case Modify(_, _, _, _) => ModifyLeaves(cfg, s, cmd, k, j);
    case _ =>
  }

  lemma TrailKeeps(p: Position, c: Candle)
    ensures ApplyTrailing(p, c) == Trailed(p, Reach(p.side, c)) && ApplyTrailing(p, c).volume == p.volume
  {
  }

  /** The order of an open position stays filled. */
  lemma StillFilled(cfg: Config, s: State, cmds: seq<Command>, k: nat)
    requires BookValid(s) && k < |s.positions|
    ensures var t := Run(cfg, s, cmds);
            var id := s.positions[k].id;
            id < |t.orders| && t.orders[id].state.Filled?
  {
    OrdersAbsorb(cfg, s, cmds);
    var id := s.positions[k].id;
    assert OpenedBy(s.positions[k], s.orders[id]);
    assert Advances(s.orders[id], Run(cfg, s, cmds).orders[id]);
  }

  /** What one command adds to the prices of a symbol that a side trails on. */
  function Seen(side: Side, symbol: string, cmd: Command): (r: seq<real>)
    ensures |r| <= 1
  {
    if cmd.Bar? && cmd.candle.symbol == symbol then [Reach(side, cmd.candle)] else []
  }

  lemma SeenNext(side: Side, symbol: string, cmds: seq<Command>)
    requires cmds != []
    ensures Reaches(side, BarsSeen(cmds, symbol)) ==
            Reaches(side, BarsSeen(cmds[..|cmds|-1], symbol)) + Seen(side, symbol, cmds[|cmds|-1])
  {
  }

  /**
    Over any run in which its protections are not modified, a position that is still open
    at the end is what partial closes left of it, with exactly the stop and extreme that
    the ratchet gives over the bars of its symbol.
   */
  lemma {:induction false} OpenPositionsTrail(cfg: Config, s: State, cmds: seq<Command>, k: nat, j: nat)
    requires BookValid(s) && k < |s.positions| && NeverModifies(cmds, s.positions[k].id)
    requires j < |Run(cfg, s, cmds).positions| && Run(cfg, s, cmds).positions[j].id == s.positions[k].id
    ensures var p := s.positions[k];
            Remains(TrailOver(p, Reaches(p.side, BarsSeen(cmds, p.symbol))), Run(cfg, s, cmds).positions[j])
  {
    var p := s.positions[k];
    if cmds == [] {
      OpenUnique(s, k, j);
    } else {
      var n := |cmds| - 1;
      var t := Run(cfg, s, cmds[..n]);
      var prices := Reaches(p.side, BarsSeen(cmds[..n], p.symbol));
      RunBook(cfg, s, cmds[..n]);
      StillFilled(cfg, s, cmds[..n], k);
      LastStep(cfg, s, cmds);
      SeenNext(p.side, p.symbol, cmds);
      hide BookValid, Step, Run, TrailOver, Remains, BarsSeen, Reaches;
      if Find(t.positions, p.id).None? { ClosedStaysClosed(cfg, t, [cmds[n]], p.id); }
      var m := Find(t.positions, p.id).value;
      OpenPositionsTrail(cfg, s, cmds[..n], k, m);
      RemainsKeeps(p, prices, t.positions[m]);
      StepLeaves(cfg, t, cmds[n], m, j);
      TrailingIs(t.positions[m], cmds[n]);
      RemainsNext(p, prices, t.positions[m], Seen(p.side, p.symbol, cmds[n]), Run(cfg, s, cmds).positions[j]);
    }
  }

  lemma TrailingIs(p: Position, cmd: Command)
    ensures (if cmd.Bar? && cmd.candle.symbol == p.symbol then ApplyTrailing(p, cmd.candle) else p) ==
            (if Seen(p.side, p.symbol, cmd) == [] then p else Trailed(p, Seen(p.side, p.symbol, cmd)[0]))
  {
    hide Trailed;
    if cmd.Bar? { TrailKeeps(p, cmd.candle); }
  }

  /** So its stop is the better of the old one and the level of the most favourable price the run has reached. */
  lemma SurvivorsStop(cfg: Config, s: State, cmds: seq<Command>, k: nat, j: nat)
    requires BookValid(s) && k < |s.positions| && NeverModifies(cmds, s.positions[k].id)
    requires j < |Run(cfg, s, cmds).positions| && Run(cfg, s, cmds).positions[j].id == s.positions[k].id
    requires s.positions[k].trail.Some? && s.positions[k].openPrice > 0.0 && BaseExtreme(s.positions[k]) > 0.0
    ensures var p := s.positions[k];
            var prices := Reaches(p.side, BarsSeen(cmds, p.symbol));
            prices != [] && NonNegative(prices) ==>
              Run(cfg, s, cmds).positions[j].sl ==
              Some(Ratchet(p.side, p.sl, TrailLevel(p.side, Favourable(p.side, prices, BaseExtreme(p)), p.trail.value)))
  {
    hide BookValid, Run, TrailOver, Remains, TrailLevel, Ratchet, Favourable, BaseExtreme;
    var p := s.positions[k];
    var prices := Reaches(p.side, BarsSeen(cmds, p.symbol));
    OpenPositionsTrail(cfg, s, cmds, k, j);
    if prices != [] && NonNegative(prices) { RemainderClosedForm(p, prices, Run(cfg, s, cmds).positions[j]); }
  }

  lemma OpenUnique(s: State, k: nat, j: nat)
    requires BookValid(s) && k < |s.positions| && j < |s.positions| && s.positions[j].id == s.positions[k].id
    ensures j == k && Remains(TrailOver(s.positions[k], []), s.positions[j])
  {
    assert OpenedBy(s.positions[k], s.orders[s.positions[k].id]);
  }

  lemma LastStep(cfg: Config, s: State, cmds: seq<Command>)
    requires cmds != []
    ensures var n := |cmds| - 1;
            && Run(cfg, s, cmds) == Step(cfg, Run(cfg, s, cmds[..n]), cmds[n])
            && Run(cfg, Run(cfg, s, cmds[..n]), [cmds[n]]) == Run(cfg, s, cmds)
  {
    hide Step;
    var t := Run(cfg, s, cmds[..|cmds|-1]);
    var last := [cmds[|cmds|-1]];
    assert last[..0] == [] && Run(cfg, t, last[..0]) == t;
  }
}
