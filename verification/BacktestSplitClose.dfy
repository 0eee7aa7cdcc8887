/**
  Closing a position in parts: at one price and instant, any split of the volume leaves the
  same open positions as one close, and the balance differs by rounding alone.
 */
module BacktestSplitClose {
  import opened Wrappers
  import opened Rounding
  import opened Orders
  import opened Backtest

  /** What one unit of volume earns, pays and is charged at the close, before any rounding. */
  function UnitGross(cfg: Config, p: Position, price: real): real {
    (price - p.openPrice) * Direction(p.side) * cfg.unitValue
  }

  function UnitFee(cfg: Config, price: real): real {
    price * cfg.unitValue * cfg.commissionRate
  }

  function UnitSwap(cfg: Config, p: Position, at: int): real {
    if cfg.swapEnabled then PointsFor(cfg, p.symbol) * cfg.swapValue * DaysHeld(p.openedAt, at) as real else 0.0
  }

  function UnitPnl(cfg: Config, p: Position, price: real, at: int): real {
    UnitGross(cfg, p, price) - UnitFee(cfg, price) - UnitSwap(cfg, p, at)
  }

  /** The value of a volume at a value per unit. */
  function Times(unit: real, volume: int): real {
    unit * volume as real
  }

  predicate Within(x: real, y: real, bound: real) {
    -bound <= x - y <= bound
  }

  lemma WithinChain(a: real, b: real, c: real, earned: real, more: real, k: nat)
    requires Within(b, a + earned, 1.5 * k as real) && Within(c, b + more, 1.5)
    ensures Within(c, a + (earned + more), 1.5 * (k + 1) as real)
  {
  }

  lemma WithinBoth(b: real, c: real, target: real, k: nat)
    requires Within(b, target, 1.5 * k as real) && Within(c, target, 1.5)
    ensures Within(b, c, 1.5 * (k + 1) as real)
  {
  }

  lemma FactorsCommute(x: real, y: real, z: real, v: real)
    ensures x * y * v * z == x * y * z * v
  {
    assert x * y * v * z == (x * y) * (v * z);
    assert x * y * z * v == (x * y) * (z * v);
  }

  lemma FeeLinear(cfg: Config, price: real, volume: int)
    ensures Within(Commission(cfg, price, volume) as real, Times(UnitFee(cfg, price), volume), 0.5)
  {
    FactorsCommute(price, cfg.unitValue, cfg.commissionRate, volume as real);
  }

  lemma SwapLinear(cfg: Config, p: Position, volume: int, at: int)
    ensures Within(SwapFor(cfg, p, volume, at) as real, Times(UnitSwap(cfg, p, at), volume), 0.5)
  {
    FactorsCommute(PointsFor(cfg, p.symbol), cfg.swapValue, DaysHeld(p.openedAt, at) as real, volume as real);
  }

  lemma GrossLinear(cfg: Config, p: Position, price: real, volume: int)
    ensures Gross(cfg, p, price, volume) == Times(UnitGross(cfg, p, price), volume)
  {
  }

  lemma Distribute(unit: real, gross: real, fee: real, swap: real, volume: int)
    requires unit == gross - fee - swap
    ensures Times(unit, volume) == Times(gross, volume) - Times(fee, volume) - Times(swap, volume)
  {
    assert (gross - fee - swap) * volume as real == gross * volume as real - fee * volume as real - swap * volume as real;
  }

  lemma RoundedSum(gross: real, fee: real, swap: real, fee': int, swap': int)
    requires Within(fee' as real, fee, 0.5) && Within(swap' as real, swap, 0.5)
    ensures Within(Round(gross - fee' as real - swap' as real) as real, gross - fee - swap, 1.5)
  {
  }

  /** Three roundings of half a cent each separate a trade's net from its exact value. */
  lemma NetWithin(cfg: Config, p: Position, price: real, volume: int, at: int)
    ensures Within(MakeTrade(cfg, p, price, volume, at).net as real, Times(UnitPnl(cfg, p, price, at), volume), 1.5)
  {
    hide Commission, SwapFor, UnitGross, UnitFee, UnitSwap, Gross, Round, Times;
    FeeLinear(cfg, price, volume);
    SwapLinear(cfg, p, volume, at);
    GrossLinear(cfg, p, price, volume);
    Distribute(UnitPnl(cfg, p, price, at), UnitGross(cfg, p, price), UnitFee(cfg, price), UnitSwap(cfg, p, at), volume);
    RoundedSum(Gross(cfg, p, price, volume), Times(UnitFee(cfg, price), volume), Times(UnitSwap(cfg, p, at), volume),
               Commission(cfg, price, volume), SwapFor(cfg, p, volume, at));
  }

  /** Closing the given volumes of one position, one after the other. */
  function ClosingParts(id: nat, price: real, volumes: seq<int>, at: int): seq<Command> {
    seq(|volumes|, i requires 0 <= i < |volumes| => Close(id, Some(price), Some(volumes[i] as real), Some(at)))
  }

  lemma ClosesVolume(cfg: Config, s: State, i: nat, price: real, volume: int, at: int)
    requires UniqueIds(s.positions) && i < |s.positions|
    requires 0 < volume <= s.positions[i].volume
    ensures ClosePosition(cfg, s, s.positions[i].id, Some(price), Some(volume as real), Some(at)) ==
            Settle(s, i, MakeTrade(cfg, s.positions[i], Tick(price), volume, at))
    ensures MakeTrade(cfg, s.positions[i], Tick(price), volume, at).volume == volume
  {
    OpenVolumeUnique(s.positions, i);
    RoundInt(volume);
    hide Gross, Commission, SwapFor;
  }

  /** One part closed: its volume leaves the position, its value up to rounding enters the balance. */
  lemma OnePart(cfg: Config, s: State, i: nat, price: real, volume: int, at: int, unit: real)
    requires UniqueIds(s.positions) && i < |s.positions|
    requires 0 < volume <= s.positions[i].volume
    requires unit == UnitPnl(cfg, s.positions[i], Tick(price), at)
    ensures var t := ClosePosition(cfg, s, s.positions[i].id, Some(price), Some(volume as real), Some(at));
            && t.positions == Shrink(s.positions, i, volume)
            && |t.closed| == |s.closed| + 1
            && Within(t.balance as real, s.balance as real + Times(unit, volume), 1.5)
  {
    hide MakeTrade, UnitPnl, ClosePosition, Tick, Times;
    ClosesVolume(cfg, s, i, price, volume, at);
    NetWithin(cfg, s.positions[i], Tick(price), volume, at);
  }

  lemma TimesSum(unit: real, a: int, b: int)
    ensures Times(unit, a + b) == Times(unit, a) + Times(unit, b)
  {
    assert (a + b) as real == a as real + b as real;
    assert unit * (a as real + b as real) == unit * a as real + unit * b as real;
  }

  /** What closing the given volumes out of position `i` makes of the state. */
  predicate ClosedParts(s: State, i: nat, volumes: seq<int>, unit: real, t: State)
    requires i < |s.positions|
  {
    && t.positions == Shrink(s.positions, i, Total(volumes))
    && |t.closed| == |s.closed| + |volumes|
    && Within(t.balance as real, s.balance as real + Times(unit, Total(volumes)), 1.5 * |volumes| as real)
  }

  lemma NextPart(s: State, i: nat, volumes: seq<int>, unit: real, t: State, v: int, u: State)
    requires i < |s.positions| && AllPositive(volumes) && volumes != [] && 0 < v
    requires Total(volumes) + v <= s.positions[i].volume
    requires ClosedParts(s, i, volumes, unit, t)
    requires i < |t.positions| && u.positions == Shrink(t.positions, i, v)
    requires |u.closed| == |t.closed| + 1
    requires Within(u.balance as real, t.balance as real + Times(unit, v), 1.5)
    ensures ClosedParts(s, i, volumes + [v], unit, u)
  {
    var more := volumes + [v];
    assert more[..|more|-1] == volumes;
    TotalSplit(volumes);
    TimesSum(unit, Total(volumes), v);
    ShrinkTwice(s.positions, i, Total(volumes), v);
    WithinChain(s.balance as real, t.balance as real, u.balance as real,
                Times(unit, Total(volumes)), Times(unit, v), |volumes|);
    hide Times, Shrink;
  }

  /** Closing any part of the position in pieces: the remainder, and the balance up to rounding. */
  lemma {:induction false} PartsClosed(cfg: Config, s: State, i: nat, price: real, volumes: seq<int>, at: int, unit: real)
    requires UniqueIds(s.positions) && i < |s.positions|
    requires volumes != [] && AllPositive(volumes) && Total(volumes) <= s.positions[i].volume
    requires unit == UnitPnl(cfg, s.positions[i], Tick(price), at)
    ensures ClosedParts(s, i, volumes, unit, Run(cfg, s, ClosingParts(s.positions[i].id, price, volumes, at)))
  {
    hide UnitPnl, ClosePosition, Tick, Run, ClosingParts, Times;
    var n := |volumes| - 1;
    var p := s.positions[i];
    var before, v := volumes[..n], volumes[n];
    LastPart(cfg, s, p.id, price, volumes, at);
    if n == 0 {
      assert Total(volumes) == v;
      OnePart(cfg, s, i, price, v, at, unit);
    } else {
      TotalSplit(before);
      PartsClosed(cfg, s, i, price, before, at, unit);
      var t := Run(cfg, s, ClosingParts(p.id, price, before, at));
      PartLeft(s, i, before, unit, t);
      UnitPnlKeeps(cfg, p, p.volume - Total(before), Tick(price), at);
      OnePart(cfg, t, i, price, v, at, unit);
      NextPart(s, i, before, unit, t, v, Run(cfg, s, ClosingParts(p.id, price, volumes, at)));
      assert before + [v] == volumes;
    }
  }

  lemma LastPart(cfg: Config, s: State, id: nat, price: real, volumes: seq<int>, at: int)
    requires volumes != []
    ensures var n := |volumes| - 1;
            var t := Run(cfg, s, ClosingParts(id, price, volumes[..n], at));
            && Run(cfg, s, ClosingParts(id, price, volumes, at)) ==
               ClosePosition(cfg, t, id, Some(price), Some(volumes[n] as real), Some(at))
            && (n == 0 ==> t == s)
  {
    hide ClosePosition;
    var cmds := ClosingParts(id, price, volumes, at);
    assert cmds[..|cmds|-1] == ClosingParts(id, price, volumes[..|volumes|-1], at);
  }

  /** A proper part leaves the position in its place with the remaining volume. */
  lemma PartLeft(s: State, i: nat, volumes: seq<int>, unit: real, t: State)
    requires UniqueIds(s.positions) && i < |s.positions| && Total(volumes) < s.positions[i].volume
    requires ClosedParts(s, i, volumes, unit, t)
    ensures UniqueIds(t.positions) && |t.positions| == |s.positions|
    ensures t.positions[i] == s.positions[i].(volume := s.positions[i].volume - Total(volumes))
  {
  }

  lemma UnitPnlKeeps(cfg: Config, p: Position, volume: int, price: real, at: int)
    ensures UnitPnl(cfg, p.(volume := volume), price, at) == UnitPnl(cfg, p, price, at)
  {
  }

  /**
    Split-close independence: closing a position in k parts leaves the same positions as
    closing it at once, and a balance at most 1.5 * (k + 1) cents away.
   */
  lemma SplitCloseIndependent(cfg: Config, s: State, i: nat, price: real, volumes: seq<int>, at: int)
    requires UniqueIds(s.positions) && i < |s.positions|
    requires volumes != [] && AllPositive(volumes) && Total(volumes) == s.positions[i].volume
    ensures var id := s.positions[i].id;
            var parts := Run(cfg, s, ClosingParts(id, price, volumes, at));
            var whole := ClosePosition(cfg, s, id, Some(price), None, Some(at));
            && parts.positions == whole.positions == s.positions[..i] + s.positions[i+1..]
            && Within(parts.balance as real, whole.balance as real, 1.5 * (|volumes| + 1) as real)
  {
    hide UnitPnl, ClosePosition, Tick, Run, ClosingParts, Times;
    var p := s.positions[i];
    var unit := UnitPnl(cfg, p, Tick(price), at);
    TotalSplit(volumes);
    PartsClosed(cfg, s, i, price, volumes, at, unit);
    WholeIsOnePart(cfg, s, i, price, at);
    OnePart(cfg, s, i, price, p.volume, at, unit);
    var parts := Run(cfg, s, ClosingParts(p.id, price, volumes, at));
    var whole := ClosePosition(cfg, s, p.id, Some(price), None, Some(at));
    WithinBoth(parts.balance as real, whole.balance as real, s.balance as real + Times(unit, p.volume), |volumes|);
  }

  lemma WholeIsOnePart(cfg: Config, s: State, i: nat, price: real, at: int)
    requires UniqueIds(s.positions) && i < |s.positions|
    ensures ClosePosition(cfg, s, s.positions[i].id, Some(price), None, Some(at)) ==
            ClosePosition(cfg, s, s.positions[i].id, Some(price), Some(s.positions[i].volume as real), Some(at))
  {
    OpenVolumeUnique(s.positions, i);
    RoundInt(s.positions[i].volume);
  }
}
