/**
  The trailing ratchet that both brokers share: over any sequence of prices the stop is the
  one that the most favourable of them alone dictates, and it never moves back.
 */
module Trailing {
  import opened Wrappers
  import opened Rounding
  import opened Orders

  /** The position after its stop has been ratcheted against each price in turn. */
  function TrailOver(p: Position, prices: seq<real>): Position {
    if prices == [] then p else Trailed(TrailOver(p, prices[..|prices|-1]), prices[|prices|-1])
  }

  function Highest(prices: seq<real>, floor: real): real {
    if prices == [] then floor else Max(Highest(prices[..|prices|-1], floor), prices[|prices|-1])
  }

  function Lowest(prices: seq<real>, ceiling: real): real {
    if prices == [] then ceiling else Min(Lowest(prices[..|prices|-1], ceiling), prices[|prices|-1])
  }

  /** The most favourable price since trailing started. */
  function Favourable(side: Side, prices: seq<real>, start: real): real {
    if side.Buy? then Highest(prices, start) else Lowest(prices, start)
  }

  lemma LevelMonotone(side: Side, from: real, to: real, trail: real)
    requires if side.Buy? then from <= to else to <= from
    ensures if side.Buy? then TrailLevel(side, from, trail) <= TrailLevel(side, to, trail)
            else TrailLevel(side, to, trail) <= TrailLevel(side, from, trail)
  {
    if side.Buy? {
      TickMonotone(from - Tick(trail), to - Tick(trail));
    } else {
      TickMonotone(to + Tick(trail), from + Tick(trail));
    }
  }

  predicate NonNegative(prices: seq<real>) {
    forall i :: 0 <= i < |prices| ==> prices[i] >= 0.0
  }

  /** Whether the extreme recorded after the prices is the most favourable price of all. */
  predicate ExtremeRemembered(p: Position, prices: seq<real>)
    requires prices != []
  {
    p.side.Buy? || Favourable(p.side, prices, BaseExtreme(p)) > 0.0 || prices[|prices|-1] == 0.0
  }

  /**
    Closed form of the ratchet: after any positive number of prices the stop is the better of
    the initial stop and the level that the most favourable price of all of them dictates.
    The recorded extreme is that price exactly when it is not a zero that an earlier price
    was; the stop remembers it all the same.
   */
  lemma {:induction false} RatchetClosedForm(p: Position, prices: seq<real>)
    requires prices != [] && p.trail.Some?
    requires NonNegative(prices) && p.openPrice > 0.0 && BaseExtreme(p) > 0.0
    ensures var best := Favourable(p.side, prices, BaseExtreme(p));
            var q := TrailOver(p, prices);
            && q == p.(sl := Some(Ratchet(p.side, p.sl, TrailLevel(p.side, best, p.trail.value))), extreme := q.extreme)
            && q.extreme.Some? && NotBetter(p.side, q.extreme.value, best) && q.extreme.value >= 0.0
            && (q.extreme == Some(best) <==> ExtremeRemembered(p, prices))
  {
    hide TrailLevel, Tick;
    var n := |prices| - 1;
    if n == 0 {
      assert prices[..n] == [];
      assert Favourable(p.side, prices[..n], BaseExtreme(p)) == BaseExtreme(p);
      assert TrailOver(p, prices[..n]) == p;
    } else {
      RatchetClosedForm(p, prices[..n]);
      var q := TrailOver(p, prices[..n]);
      var best := Favourable(p.side, prices[..n], BaseExtreme(p));
      var next := Extend(p.side, BaseExtreme(q), prices[n]);
      FavourablePositive(p, prices[..n]);
      LevelMonotone(p.side, best, Favourable(p.side, prices, BaseExtreme(p)), p.trail.value);
      if p.side.Buy? {
        assert next == Favourable(p.side, prices, BaseExtreme(p));
      } else {
        LevelMonotone(p.side, next, Favourable(p.side, prices, BaseExtreme(p)), p.trail.value);
      }
    }
  }

  lemma {:induction false} FavourablePositive(p: Position, prices: seq<real>)
    requires NonNegative(prices) && BaseExtreme(p) > 0.0
    ensures Favourable(p.side, prices, BaseExtreme(p)) >= 0.0
    ensures p.side.Buy? ==> Favourable(p.side, prices, BaseExtreme(p)) > 0.0
  {
    if prices != [] { FavourablePositive(p, prices[..|prices|-1]); }
  }

  /**
    At prices of any sign, the closed form holds as long as no running extreme is exactly
    zero, which the broker takes for a missing one.
   */
  lemma {:induction false} RatchetAwayFromZero(p: Position, prices: seq<real>)
    requires prices != [] && p.trail.Some?
    requires forall m :: 0 <= m < |prices| ==> Favourable(p.side, prices[..m], BaseExtreme(p)) != 0.0
    ensures var extreme := Favourable(p.side, prices, BaseExtreme(p));
            TrailOver(p, prices) ==
            p.(extreme := Some(extreme), sl := Some(Ratchet(p.side, p.sl, TrailLevel(p.side, extreme, p.trail.value))))
  {
    hide TrailLevel, Tick;
    var n := |prices| - 1;
    if n == 0 {
      assert prices[..n] == [];
      assert Favourable(p.side, prices[..n], BaseExtreme(p)) == BaseExtreme(p);
    } else {
      assert forall m :: 0 <= m < n ==> prices[..n][..m] == prices[..m];
      RatchetAwayFromZero(p, prices[..n]);
      LevelMonotone(p.side, Favourable(p.side, prices[..n], BaseExtreme(p)), Favourable(p.side, prices, BaseExtreme(p)), p.trail.value);
    }
  }

  /** An extreme of exactly zero is taken for a missing one: the next price restarts from the open price. */
  lemma ZeroExtremeIsForgotten()
    ensures var p := Position(0, "X", Sell, 1, 3.0, None, None, 0, 0, 0, Some(1.0), None);
            TrailOver(p, [0.0, 2.0]).extreme == Some(2.0) && Favourable(Sell, [0.0, 2.0], BaseExtreme(p)) == 0.0
  {
    var p := Position(0, "X", Sell, 1, 3.0, None, None, 0, 0, 0, Some(1.0), None);
    assert [0.0, 2.0][..1] == [0.0] && [0.0][..0] == [];
    assert TrailOver(p, [0.0]) == Trailed(p, 0.0);
    assert Lowest([0.0], 3.0) == 0.0;
  }

  lemma TrailedStop(p: Position, price: real)
    requires p.sl.Some?
    ensures Trailed(p, price).sl.Some? && Trailed(p, price).side == p.side
    ensures NotBetter(p.side, p.sl.value, Trailed(p, price).sl.value)
  {
  }

  /** The stop never moves back, over any number of prices. */
  lemma {:induction false} StopNeverMovesBack(p: Position, prices: seq<real>)
    requires p.sl.Some?
    ensures TrailOver(p, prices).sl.Some? && TrailOver(p, prices).side == p.side
    ensures NotBetter(p.side, p.sl.value, TrailOver(p, prices).sl.value)
  {
    if prices != [] {
      StopNeverMovesBack(p, prices[..|prices|-1]);
      var q := TrailOver(p, prices[..|prices|-1]);
      TrailedStop(q, prices[|prices|-1]);
    }
  }

  lemma TrailedKeeps(p: Position, price: real)
    ensures Trailed(p, price) == p.(sl := Trailed(p, price).sl, extreme := Trailed(p, price).extreme)
    ensures forall v :: Trailed(p.(volume := v), price) == Trailed(p, price).(volume := v)
  {
  }

  lemma {:induction false} TrailOverKeeps(p: Position, prices: seq<real>)
    ensures var q := TrailOver(p, prices); q == p.(sl := q.sl, extreme := q.extreme)
  {
    hide Trailed;
    if prices != [] {
      TrailOverKeeps(p, prices[..|prices|-1]);
      TrailedKeeps(TrailOver(p, prices[..|prices|-1]), prices[|prices|-1]);
    }
  }

  /** What is left of a position after partial closes: some of its volume, and all else of it. */
  predicate Remains(p: Position, q: Position) {
    q == p.(volume := q.volume) && 0 < q.volume <= p.volume
  }

  lemma RemainsKeeps(p: Position, prices: seq<real>, q: Position)
    requires Remains(TrailOver(p, prices), q)
    ensures q.id == p.id && q.symbol == p.symbol && q.side == p.side
  {
    TrailOverKeeps(p, prices);
  }

  /** One more step of a run: the remainder is trailed over the prices it adds, if any, and perhaps cut again. */
  lemma RemainsNext(p: Position, prices: seq<real>, q: Position, more: seq<real>, r: Position)
    requires |more| <= 1
    requires Remains(TrailOver(p, prices), q)
    requires Remains(if more == [] then q else Trailed(q, more[0]), r)
    ensures Remains(TrailOver(p, prices + more), r)
  {
    hide Trailed;
    if more == [] {
      assert prices + more == prices;
    } else {
      assert (prices + more)[..|prices|] == prices;
      TrailedKeeps(TrailOver(p, prices), more[0]);
    }
  }

  /** A remainder carries the closed form of the ratchet of what it was cut from. */
  lemma RemainderClosedForm(p: Position, prices: seq<real>, q: Position)
    requires prices != [] && p.trail.Some? && Remains(TrailOver(p, prices), q)
    requires NonNegative(prices) && p.openPrice > 0.0 && BaseExtreme(p) > 0.0
    ensures q.sl == Some(Ratchet(p.side, p.sl, TrailLevel(p.side, Favourable(p.side, prices, BaseExtreme(p)), p.trail.value)))
    ensures q.extreme == Some(Favourable(p.side, prices, BaseExtreme(p))) <==> ExtremeRemembered(p, prices)
  {
    hide TrailLevel, Ratchet, TrailOver, ExtremeRemembered, NotBetter;
    RatchetClosedForm(p, prices);
  }
}
