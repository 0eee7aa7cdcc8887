/**
  The three books both brokers keep (orders, open positions, closed trades), and what makes
  them consistent: every position and trade belongs to a filled order, and every filled
  volume is closed or still open, in one position.
 */
module Books {
  import opened Wrappers
  import opened Orders

  datatype Books = Books(orders: seq<Order>, positions: seq<Position>, closed: seq<Trade>)

  predicate OrdersNumbered(orders: seq<Order>) {
    forall i :: 0 <= i < |orders| ==> orders[i].id == i && orders[i].volume > 0
  }

  /** An open position is what its filled order opened. */
  predicate OpenedBy(p: Position, o: Order) {
    && o.state == Filled(p.openPrice)
    && p.symbol == o.symbol && p.side == o.side && p.magic == o.magic
    && 0 < p.volume <= o.volume
  }

  predicate PositionsBacked(b: Books) {
    forall j :: 0 <= j < |b.positions| ==>
      b.positions[j].id < |b.orders| && OpenedBy(b.positions[j], b.orders[b.positions[j].id])
  }

  /** A closed trade was cut from the position of the order that filled at its open price. */
  predicate CutFrom(t: Trade, o: Order) {
    && o.state == Filled(t.openPrice)
    && t.symbol == o.symbol && t.side == o.side
    && 0 < t.volume <= o.volume
  }

  predicate AllCut(ts: seq<Trade>, orders: seq<Order>) {
    forall j :: 0 <= j < |ts| ==> ts[j].position < |orders| && CutFrom(ts[j], orders[ts[j].position])
  }

  function FilledVolume(orders: seq<Order>, id: nat): int {
    if id < |orders| && orders[id].state.Filled? then orders[id].volume else 0
  }

  ghost predicate VolumeHolds(b: Books) {
    forall id: nat :: FilledVolume(b.orders, id) == OpenVolume(b.positions, id) + ClosedVolume(b.closed, id)
  }

  ghost predicate Consistent(b: Books) {
    && OrdersNumbered(b.orders)
    && UniqueIds(b.positions)
    && PositionsBacked(b)
    && AllCut(b.closed, b.orders)
    && VolumeHolds(b)
  }

  // ----- what happens to the books

  function AddOrder(b: Books, o: Order): Books {
    b.(orders := b.orders + [o])
  }

  function SetOrder(b: Books, id: nat, o: Order): Books
    requires id < |b.orders|
  {
    b.(orders := b.orders[id := o])
  }

  function Open(b: Books, id: nat, o: Order, p: Position): Books
    requires id < |b.orders|
  {
    b.(orders := b.orders[id := o], positions := b.positions + [p])
  }

  function Cut(b: Books, i: nat, t: Trade): Books
    requires i < |b.positions|
  {
    b.(positions := Shrink(b.positions, i, t.volume), closed := b.closed + [t])
  }

  function Replace(b: Books, i: nat, p: Position): Books
    requires i < |b.positions|
  {
    b.(positions := b.positions[i := p])
  }

  lemma AddKeeps(b: Books, o: Order)
    requires Consistent(b) && o.id == |b.orders| && o.volume > 0 && !o.state.Filled?
    ensures Consistent(AddOrder(b, o))
  {
    var c := AddOrder(b, o);
    assert forall k: nat :: FilledVolume(c.orders, k) == FilledVolume(b.orders, k);
  }

  /** An order that neither was nor becomes filled has no position and no trade. */
  lemma UnfilledKeeps(b: Books, id: nat, o: Order)
    requires Consistent(b) && id < |b.orders| && !b.orders[id].state.Filled?
    requires o.id == id && o.volume > 0 && !o.state.Filled?
    ensures Consistent(SetOrder(b, id, o))
  {
    var c := SetOrder(b, id, o);
    assert forall k: nat :: FilledVolume(c.orders, k) == FilledVolume(b.orders, k);
  }

  /** Filling an order opens its one position with its whole volume. */
  lemma OpenKeeps(b: Books, id: nat, o: Order, p: Position)
    requires Consistent(b) && id < |b.orders| && !b.orders[id].state.Filled?
    requires o.id == id && p.id == id && p.volume == o.volume > 0 && OpenedBy(p, o)
    ensures Consistent(Open(b, id, o, p))
  {
    var c := Open(b, id, o, p);
    assert forall j :: 0 <= j < |b.positions| ==> b.positions[j].id != id;
    forall k: nat ensures FilledVolume(c.orders, k) == OpenVolume(c.positions, k) + ClosedVolume(c.closed, k) {
      OpenVolumeConcat(b.positions, [p], k);
      assert FilledVolume(b.orders, k) == OpenVolume(b.positions, k) + ClosedVolume(b.closed, k);
      assert OpenVolume([p], k) == if p.id == k then p.volume else 0;
    }
  }

  lemma ShrinkUnique(ps: seq<Position>, i: nat, volume: int)
    requires i < |ps| && UniqueIds(ps)
    ensures UniqueIds(Shrink(ps, i, volume))
  {
  }

  lemma CutBacked(b: Books, i: nat, t: Trade)
    requires PositionsBacked(b) && AllCut(b.closed, b.orders) && i < |b.positions|
    requires t.position == b.positions[i].id && 0 < t.volume <= b.positions[i].volume
    requires t.openPrice == b.positions[i].openPrice && t.symbol == b.positions[i].symbol && t.side == b.positions[i].side
    ensures PositionsBacked(Cut(b, i, t)) && AllCut(Cut(b, i, t).closed, b.orders)
  {
    assert OpenedBy(b.positions[i], b.orders[t.position]);
  }

  /** A trade takes its volume out of the position it is cut from. */
  lemma CutKeeps(b: Books, i: nat, t: Trade)
    requires Consistent(b) && i < |b.positions|
    requires t.position == b.positions[i].id && 0 < t.volume <= b.positions[i].volume
    requires t.openPrice == b.positions[i].openPrice && t.symbol == b.positions[i].symbol && t.side == b.positions[i].side
    ensures Consistent(Cut(b, i, t))
  {
    var c := Cut(b, i, t);
    assert OpenedBy(b.positions[i], b.orders[t.position]);
    CutBacked(b, i, t);
    ShrinkUnique(b.positions, i, t.volume);
    hide Shrink, PositionsBacked, AllCut, UniqueIds;
    forall k: nat ensures FilledVolume(c.orders, k) == OpenVolume(c.positions, k) + ClosedVolume(c.closed, k) {
      ShrinkVolume(b.positions, i, t.volume, k);
      TradeSumsConcat(b.closed, [t]);
      assert FilledVolume(b.orders, k) == OpenVolume(b.positions, k) + ClosedVolume(b.closed, k);
    }
  }

  /** The same position but for its protections. */
  predicate SamePosition(p: Position, q: Position) {
    q == p.(sl := q.sl, tp := q.tp, trail := q.trail, extreme := q.extreme)
  }

  lemma ReplaceKeeps(b: Books, i: nat, p: Position)
    requires Consistent(b) && i < |b.positions| && SamePosition(b.positions[i], p)
    ensures Consistent(Replace(b, i, p))
  {
    var c := Replace(b, i, p);
    forall k: nat ensures FilledVolume(c.orders, k) == OpenVolume(c.positions, k) + ClosedVolume(c.closed, k) {
      OpenVolumeAt(b.positions, i, k);
      OpenVolumeAt(c.positions, i, k);
      assert c.positions[..i] == b.positions[..i] && c.positions[i+1..] == b.positions[i+1..];
      assert FilledVolume(b.orders, k) == OpenVolume(b.positions, k) + ClosedVolume(b.closed, k);
    }
  }

  // ----- a sweep over all positions

  /** What becomes of a position: it stays, with other protections perhaps, or is closed whole. */
  datatype Outcome = Stays(position: Position) | Leaves(trade: Trade)

  predicate Fits(p: Position, o: Outcome) {
    match o
    case Stays(q) => SamePosition(p, q)
    case Leaves(t) => t.position == p.id && t.volume == p.volume && t.openPrice == p.openPrice && t.symbol == p.symbol && t.side == p.side
  }

  predicate AllFit(ps: seq<Position>, outcomes: seq<Outcome>) {
    |ps| == |outcomes| && forall j :: 0 <= j < |ps| ==> Fits(ps[j], outcomes[j])
  }

  function Kept(outcomes: seq<Outcome>): seq<Position> {
    if outcomes == [] then []
    else
      var last := outcomes[|outcomes|-1];
      Kept(outcomes[..|outcomes|-1]) + if last.Stays? then [last.position] else []
  }

  function Left(outcomes: seq<Outcome>): seq<Trade> {
    if outcomes == [] then []
    else
      var last := outcomes[|outcomes|-1];
      Left(outcomes[..|outcomes|-1]) + if last.Leaves? then [last.trade] else []
  }

  function Sweep(b: Books, outcomes: seq<Outcome>): Books {
    b.(positions := Kept(outcomes), closed := b.closed + Left(outcomes))
  }

  /** Every kept position is the outcome of one of the positions. */
  lemma {:induction false} KeptOrigin(outcomes: seq<Outcome>, j: nat)
    requires j < |Kept(outcomes)|
    ensures exists k :: 0 <= k < |outcomes| && outcomes[k] == Stays(Kept(outcomes)[j])
  {
    var n := |outcomes| - 1;
    if j < |Kept(outcomes[..n])| {
      KeptOrigin(outcomes[..n], j);
      var k :| 0 <= k < n && outcomes[..n][k] == Stays(Kept(outcomes[..n])[j]);
      assert outcomes[k] == outcomes[..n][k];
    } else {
      assert outcomes[n] == Stays(Kept(outcomes)[j]);
    }
  }

  lemma {:induction false} LeftOrigin(outcomes: seq<Outcome>, j: nat)
    requires j < |Left(outcomes)|
    ensures exists k :: 0 <= k < |outcomes| && outcomes[k] == Leaves(Left(outcomes)[j])
  {
    var n := |outcomes| - 1;
    if j < |Left(outcomes[..n])| {
      LeftOrigin(outcomes[..n], j);
      var k :| 0 <= k < n && outcomes[..n][k] == Leaves(Left(outcomes[..n])[j]);
      assert outcomes[k] == outcomes[..n][k];
    } else {
      assert outcomes[n] == Leaves(Left(outcomes)[j]);
    }
  }

  lemma {:induction false} KeptCount(outcomes: seq<Outcome>)
    ensures |Kept(outcomes)| + |Left(outcomes)| == |outcomes|
  {
    if outcomes != [] { KeptCount(outcomes[..|outcomes|-1]); }
  }

  lemma {:induction false} KeptUnique(ps: seq<Position>, outcomes: seq<Outcome>)
    requires UniqueIds(ps) && AllFit(ps, outcomes)
    ensures UniqueIds(Kept(outcomes))
  {
    if outcomes != [] {
      var n := |outcomes| - 1;
      KeptUnique(ps[..n], outcomes[..n]);
      forall j | 0 <= j < |Kept(outcomes[..n])| ensures Kept(outcomes[..n])[j].id != ps[n].id {
        KeptOrigin(outcomes[..n], j);
        var k :| 0 <= k < n && outcomes[..n][k] == Stays(Kept(outcomes[..n])[j]);
        assert Fits(ps[k], outcomes[k]);
      }
      assert Fits(ps[n], outcomes[n]);
    }
  }

  /** A sweep moves volume from positions to trades and loses none. */
  lemma {:induction false} SweepVolume(ps: seq<Position>, outcomes: seq<Outcome>, id: nat)
    requires AllFit(ps, outcomes)
    ensures OpenVolume(Kept(outcomes), id) + ClosedVolume(Left(outcomes), id) == OpenVolume(ps, id)
  {
    if outcomes != [] {
      var n := |outcomes| - 1;
      SweepVolume(ps[..n], outcomes[..n], id);
      assert Fits(ps[n], outcomes[n]);
      if outcomes[n].Stays? {
        OpenVolumeConcat(Kept(outcomes[..n]), [outcomes[n].position], id);
        assert Left(outcomes) == Left(outcomes[..n]);
        assert OpenVolume([outcomes[n].position], id) == if ps[n].id == id then ps[n].volume else 0;
      } else {
        TradeSumsConcat(Left(outcomes[..n]), [outcomes[n].trade]);
        assert Kept(outcomes) == Kept(outcomes[..n]);
        assert ClosedVolume([outcomes[n].trade], id) == if ps[n].id == id then ps[n].volume else 0;
      }
    }
  }

  lemma KeptBacked(b: Books, outcomes: seq<Outcome>)
    requires PositionsBacked(b) && AllFit(b.positions, outcomes)
    ensures PositionsBacked(Sweep(b, outcomes))
  {
    var kept := Kept(outcomes);
    forall j | 0 <= j < |kept| ensures kept[j].id < |b.orders| && OpenedBy(kept[j], b.orders[kept[j].id]) {
      KeptOrigin(outcomes, j);
      var k :| 0 <= k < |outcomes| && outcomes[k] == Stays(kept[j]);
      assert Fits(b.positions[k], outcomes[k]) && OpenedBy(b.positions[k], b.orders[b.positions[k].id]);
    }
  }

  lemma LeftCut(b: Books, outcomes: seq<Outcome>)
    requires PositionsBacked(b) && AllFit(b.positions, outcomes)
    ensures AllCut(Left(outcomes), b.orders)
  {
    var left := Left(outcomes);
    forall j | 0 <= j < |left| ensures left[j].position < |b.orders| && CutFrom(left[j], b.orders[left[j].position]) {
      LeftOrigin(outcomes, j);
      var k :| 0 <= k < |outcomes| && outcomes[k] == Leaves(left[j]);
      assert Fits(b.positions[k], outcomes[k]) && OpenedBy(b.positions[k], b.orders[b.positions[k].id]);
    }
  }

  lemma AllCutConcat(a: seq<Trade>, b: seq<Trade>, orders: seq<Order>)
    requires AllCut(a, orders) && AllCut(b, orders)
    ensures AllCut(a + b, orders)
  {
    hide CutFrom;
  }

  lemma SweepKeeps(b: Books, outcomes: seq<Outcome>)
    requires Consistent(b) && AllFit(b.positions, outcomes)
    ensures Consistent(Sweep(b, outcomes))
  {
    hide Kept, Left, PositionsBacked, AllCut, UniqueIds, AllFit, OrdersNumbered;
    KeptUnique(b.positions, outcomes);
    KeptBacked(b, outcomes);
    LeftCut(b, outcomes);
    AllCutConcat(b.closed, Left(outcomes), b.orders);
    var c := Sweep(b, outcomes);
    forall k: nat ensures FilledVolume(c.orders, k) == OpenVolume(c.positions, k) + ClosedVolume(c.closed, k) {
      SweepVolume(b.positions, outcomes, k);
      TradeSumsConcat(b.closed, Left(outcomes));
      assert FilledVolume(b.orders, k) == OpenVolume(b.positions, k) + ClosedVolume(b.closed, k);
    }
  }

  // ----- what consistent books say

  /**
    What is left of a filled order after its closed trades is never negative, and is the
    volume of the one open position bearing its id, which is there exactly when it is positive.
   */
  predicate VolumeAccounted(b: Books, id: nat) {
    var remainder := FilledVolume(b.orders, id) - ClosedVolume(b.closed, id);
    && remainder >= 0
    && (remainder > 0 <==> Find(b.positions, id).Some?)
    && (forall j :: 0 <= j < |b.positions| && b.positions[j].id == id ==>
          b.positions[j].volume == remainder && Find(b.positions, id) == Some(j))
  }

  lemma ConsistentAccounts(b: Books, id: nat)
    requires Consistent(b)
    ensures VolumeAccounted(b, id)
  {
    assert FilledVolume(b.orders, id) == OpenVolume(b.positions, id) + ClosedVolume(b.closed, id);
    forall j | 0 <= j < |b.positions| && b.positions[j].id == id
      ensures b.positions[j].volume == OpenVolume(b.positions, id) && Find(b.positions, id) == Some(j)
    {
      OpenVolumeUnique(b.positions, j);
    }
    if Find(b.positions, id).None? {
      NoOpenVolume(b.positions, id);
    }
  }

  /** Looking up an id behind other positions finds the one that bears it. */
  lemma FindBehind(kept: seq<Position>, rest: seq<Position>, p: Position)
    requires UniqueIds(kept + [p] + rest)
    ensures Find(kept + [p] + rest, p.id) == Some(|kept|)
  {
    assert (kept + [p] + rest)[|kept|] == p;
    OpenVolumeUnique(kept + [p] + rest, |kept|);
  }

  /** In consistent books a position amid others is found by its id, and has volume to close. */
  lemma Middle(b: Books, kept: seq<Position>, p: Position, rest: seq<Position>)
    requires Consistent(b) && b.positions == kept + [p] + rest
    ensures p.volume > 0 && Find(b.positions, p.id) == Some(|kept|)
  {
    assert b.positions[|kept|] == p && OpenedBy(p, b.orders[p.id]);
    FindBehind(kept, rest, p);
  }

  lemma {:induction false} BackedVolume(ts: seq<Trade>, id: nat)
    requires forall j :: 0 <= j < |ts| ==> ts[j].volume > 0
    ensures ClosedVolume(ts, id) >= 0
  {
    if ts != [] { BackedVolume(ts[..|ts|-1], id); }
  }

  lemma ClosedVolumeGrows(a: Books, b: Books, id: nat)
    requires a.closed <= b.closed && Consistent(b)
    ensures ClosedVolume(a.closed, id) <= ClosedVolume(b.closed, id)
  {
    var more := b.closed[|a.closed|..];
    assert b.closed == a.closed + more;
    forall j | 0 <= j < |more| ensures more[j].volume > 0 {
      var trade := b.closed[|a.closed| + j];
      assert CutFrom(trade, b.orders[trade.position]);
    }
    hide Consistent;
    TradeSumsConcat(a.closed, more);
    BackedVolume(more, id);
  }

  /** A filled order that has no position left never has one again, as no trade is taken back. */
  lemma GoneStaysGone(a: Books, b: Books, id: nat)
    requires Consistent(a) && Consistent(b) && a.closed <= b.closed
    requires FilledVolume(a.orders, id) == FilledVolume(b.orders, id)
    requires Find(a.positions, id).None?
    ensures Find(b.positions, id).None?
  {
    hide Consistent, Find;
    ConsistentAccounts(a, id);
    ConsistentAccounts(b, id);
    ClosedVolumeGrows(a, b, id);
  }
}
