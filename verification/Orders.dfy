/**
  The records shared by both brokers: order requests, orders, positions, closed trades,
  and the validators that guard them.
 */
module Orders {
  import opened Wrappers
  import opened Rounding

  datatype Side = Buy | Sell

  datatype OrderKind =
    | Market
    | Limit(price: real)
    | Stop(price: real)
    | StopLimit(price: real, limit: real)

  /** A filled order carries its fill price. */
  datatype OrderState = Pending | Filled(price: real) | Cancelled | Rejected | Expired

  datatype Order = Order(
    id: nat,
    symbol: string,
    side: Side,
    kind: OrderKind,
    volume: int,
    state: OrderState,
    sl: Option<real>,
    tp: Option<real>,
    magic: int,
    expiry: Option<int>,
    triggered: bool)

  /** A position bears the id of the order that opened it. */
  datatype Position = Position(
    id: nat,
    symbol: string,
    side: Side,
    volume: int,
    openPrice: real,
    sl: Option<real>,
    tp: Option<real>,
    openedAt: int,
    commission: int,
    magic: int,
    trail: Option<real>,
    extreme: Option<real>)

  /** A closed trade; `position` is the position it was cut from. */
  datatype Trade = Trade(
    position: nat,
    symbol: string,
    side: Side,
    volume: int,
    openPrice: real,
    closePrice: real,
    gross: int,
    net: int,
    commission: int,
    swap: int,
    openedAt: int,
    closedAt: int)

  datatype OrderRequest = OrderRequest(
    symbol: string,
    side: string,
    kind: string,
    volume: real,
    price: Option<real>,
    limitPrice: Option<real>,
    sl: Option<real>,
    tp: Option<real>,
    magic: int,
    expiry: Option<int>)

  datatype BrokerError = InvalidOrder | UnknownRef | InsufficientMargin | NotPending

  /** Argument of a position change: leave the protection alone, or set (or clear) it. */
  datatype Change = Keep | Set(value: Option<real>) {
    function Apply(current: Option<real>): Option<real> {
      if Keep? then current else value
    }
  }

  function Opposite(side: Side): Side {
    if side.Buy? then Sell else Buy
  }

  function Direction(side: Side): real {
    if side.Buy? then 1.0 else -1.0
  }

  function Max(a: real, b: real): real {
    if a >= b then a else b
  }

  function Min(a: real, b: real): real {
    if a <= b then a else b
  }

  /** Stop below and target above the entry for a buy, mirrored for a sell. */
  predicate ValidSlTp(side: Side, price: real, sl: Option<real>, tp: Option<real>) {
    && (sl.Some? ==> if side.Buy? then sl.value < price else sl.value > price)
    && (tp.Some? ==> if side.Buy? then tp.value > price else tp.value < price)
    && (sl.Some? && tp.Some? ==> if side.Buy? then sl.value < tp.value else sl.value > tp.value)
  }

  predicate ValidStopLimit(side: Side, stop: real, limit: real) {
    if side.Buy? then stop <= limit else limit <= stop
  }

  function ParseSide(side: string): Result<Side, BrokerError> {
    if side == "buy" then Ok(Buy)
    else if side == "sell" then Ok(Sell)
    else Err(InvalidOrder)
  }

  /** The order kind with its rounded prices, or the error for a missing or crossed price. */
  function ParseKind(req: OrderRequest, side: Side): Result<OrderKind, BrokerError> {
    if req.kind == "market" then Ok(Market)
    else if req.kind !in {"limit", "stop", "stop_limit"} || req.price.None? then Err(InvalidOrder)
    else
      var price := Tick(req.price.value);
      if req.kind == "stop_limit" then
        if req.limitPrice.None? || !ValidStopLimit(side, price, Tick(req.limitPrice.value)) then Err(InvalidOrder)
        else Ok(StopLimit(price, Tick(req.limitPrice.value)))
      else if req.kind == "limit" then Ok(Limit(price))
      else Ok(Stop(price))
  }

  /** Trailing level from an extreme, and the ratchet that never moves a stop back. */
  function TrailLevel(side: Side, extreme: real, trail: real): real {
    if side.Buy? then Tick(extreme - Tick(trail)) else Tick(extreme + Tick(trail))
  }

  function Ratchet(side: Side, sl: Option<real>, level: real): real {
    if sl.None? then level
    else if side.Buy? then Max(sl.value, level)
    else Min(sl.value, level)
  }

  /** The running extreme; a recorded extreme of exactly zero counts as not recorded. */
  function BaseExtreme(p: Position): real {
    if p.extreme.Some? && p.extreme.value != 0.0 then p.extreme.value else p.openPrice
  }

  function Extend(side: Side, extreme: real, price: real): real {
    if side.Buy? then Max(extreme, price) else Min(extreme, price)
  }

  /** A price no better than a level for the holder of a side. */
  predicate NotBetter(side: Side, price: real, level: real) {
    if side.Buy? then price <= level else price >= level
  }

  /** Ratchets the trailing stop of a position against a new most favourable price. */
  function Trailed(p: Position, price: real): Position {
    if p.trail.None? then p
    else
      var extreme := Extend(p.side, BaseExtreme(p), price);
      p.(sl := Some(Ratchet(p.side, p.sl, TrailLevel(p.side, extreme, p.trail.value))),
         extreme := Some(extreme))
  }

  /** Index of the position with the given id. */
  function Find(ps: seq<Position>, id: nat): (r: Option<nat>)
    ensures r.Some? ==> r.value < |ps| && ps[r.value].id == id
    ensures r.None? ==> forall i :: 0 <= i < |ps| ==> ps[i].id != id
  {
    if ps == [] then None
    else if ps[|ps|-1].id == id then Some(|ps|-1)
    else Find(ps[..|ps|-1], id)
  }

  predicate UniqueIds(ps: seq<Position>) {
    forall i, j :: 0 <= i < j < |ps| ==> ps[i].id != ps[j].id
  }

  /** Open and closed volume of one position. */
  function OpenVolume(ps: seq<Position>, id: nat): int {
    if ps == [] then 0
    else OpenVolume(ps[..|ps|-1], id) + if ps[|ps|-1].id == id then ps[|ps|-1].volume else 0
  }

  function ClosedVolume(ts: seq<Trade>, id: nat): int {
    if ts == [] then 0
    else ClosedVolume(ts[..|ts|-1], id) + if ts[|ts|-1].position == id then ts[|ts|-1].volume else 0
  }

  function NetPnl(ts: seq<Trade>): int {
    if ts == [] then 0 else NetPnl(ts[..|ts|-1]) + ts[|ts|-1].net
  }

  function ExitFees(ts: seq<Trade>): int {
    if ts == [] then 0 else ExitFees(ts[..|ts|-1]) + ts[|ts|-1].commission
  }

  /** Removing or shrinking one position, the effect of closing a volume of it. */
  function Shrink(ps: seq<Position>, i: nat, volume: int): seq<Position>
    requires i < |ps|
  {
    if volume >= ps[i].volume then ps[..i] + ps[i+1..]
    else ps[i := ps[i].(volume := ps[i].volume - volume)]
  }

  // ----- sums over positions and trades

  lemma {:induction false} OpenVolumeConcat(a: seq<Position>, b: seq<Position>, id: nat)
    ensures OpenVolume(a + b, id) == OpenVolume(a, id) + OpenVolume(b, id)
  {
    if b == [] {
      assert a + b == a;
    } else {
      assert (a + b)[..|a+b|-1] == a + b[..|b|-1];
      OpenVolumeConcat(a, b[..|b|-1], id);
    }
  }

  lemma {:induction false} TradeSumsConcat(a: seq<Trade>, b: seq<Trade>)
    ensures NetPnl(a + b) == NetPnl(a) + NetPnl(b)
    ensures ExitFees(a + b) == ExitFees(a) + ExitFees(b)
    ensures forall id :: ClosedVolume(a + b, id) == ClosedVolume(a, id) + ClosedVolume(b, id)
  {
    if b == [] {
      assert a + b == a;
    } else {
      assert (a + b)[..|a+b|-1] == a + b[..|b|-1];
      TradeSumsConcat(a, b[..|b|-1]);
    }
  }

  lemma {:induction false} NoOpenVolume(ps: seq<Position>, id: nat)
    requires forall i :: 0 <= i < |ps| ==> ps[i].id != id
    ensures OpenVolume(ps, id) == 0
  {
    if ps != [] {
      NoOpenVolume(ps[..|ps|-1], id);
    }
  }

  lemma OpenVolumeAt(ps: seq<Position>, i: nat, id: nat)
    requires i < |ps|
    ensures OpenVolume(ps, id) ==
            OpenVolume(ps[..i], id) + (if ps[i].id == id then ps[i].volume else 0) + OpenVolume(ps[i+1..], id)
  {
    assert ps == ps[..i] + [ps[i]] + ps[i+1..];
    OpenVolumeConcat(ps[..i] + [ps[i]], ps[i+1..], id);
    OpenVolumeConcat(ps[..i], [ps[i]], id);
  }

  /** Closing a volume takes exactly that volume from the position, and from no other. */
  lemma ShrinkVolume(ps: seq<Position>, i: nat, volume: int, id: nat)
    requires i < |ps| && volume <= ps[i].volume
    ensures OpenVolume(Shrink(ps, i, volume), id) ==
            OpenVolume(ps, id) - if ps[i].id == id then volume else 0
  {
    OpenVolumeAt(ps, i, id);
    if volume >= ps[i].volume {
      OpenVolumeConcat(ps[..i], ps[i+1..], id);
    } else {
      var q := Shrink(ps, i, volume);
      OpenVolumeAt(q, i, id);
      assert q[..i] == ps[..i] && q[i+1..] == ps[i+1..];
    }
  }

  /** With unique ids, the open volume of an id is that of the one position bearing it. */
  lemma OpenVolumeUnique(ps: seq<Position>, i: nat)
    requires i < |ps| && UniqueIds(ps)
    ensures OpenVolume(ps, ps[i].id) == ps[i].volume
    ensures Find(ps, ps[i].id) == Some(i)
  {
    OpenVolumeAt(ps, i, ps[i].id);
    NoOpenVolume(ps[..i], ps[i].id);
    NoOpenVolume(ps[i+1..], ps[i].id);
  }

  // ----- closing a position in parts

  function Total(volumes: seq<int>): int {
    if volumes == [] then 0 else Total(volumes[..|volumes|-1]) + volumes[|volumes|-1]
  }

  predicate AllPositive(volumes: seq<int>) {
    forall k :: 0 <= k < |volumes| ==> volumes[k] > 0
  }

  lemma {:induction false} TotalSplit(volumes: seq<int>)
    requires AllPositive(volumes)
    ensures Total(volumes) >= |volumes|
  {
    if volumes != [] { TotalSplit(volumes[..|volumes|-1]); }
  }

  lemma ShrinkTwice(ps: seq<Position>, i: nat, a: int, b: int)
    requires i < |ps| && 0 < a && 0 < b && a + b <= ps[i].volume
    ensures Shrink(Shrink(ps, i, a), i, b) == Shrink(ps, i, a + b)
  {
  }
}
