/**
  What the trades of the paper broker report: their nets against what they put into the
  balance. A position closed in parts is charged its entry commission once only if every
  part but the last is small enough for its share to round to nothing.
 */
module PaperReports {
  import opened Wrappers
  import opened Reals
  import opened Rounding
  import opened Orders
  import opened Paper
  import opened PaperLedger

  /** The first value misses the second by at most the given number of cents. */
  predicate Near(x: int, y: int, cents: int) {
    -cents <= x - y <= cents
  }

  // ----- one trade

  /** A trade reports its settled amount less its share of the entry commission, to within a cent. */
  lemma CloseReports(m: Market, p: Position, price: real, volume: int, at: int)
    requires p.volume > 0
    ensures var t := MakeTrade(m, p, price, volume, at);
            Near(t.net, Settled(m, t) - OpenShare(p, volume), 1)
  {
    hide Gross, Commission, SwapFor, OpenShare, Round;
    RoundShifted(Gross(m, p.symbol, p.side, p.openPrice, price, volume)
                 - Commission(m, p.symbol, price, volume) as real - SwapFor(m, p, volume, at) as real, OpenShare(p, volume));
  }

  lemma RoundShifted(x: real, n: int)
    ensures -1 <= Round(x - n as real) - (Round(x) - n) <= 1
  {
  }

  /** A position closed in one piece reports its settled amount less its entry commission, to within a cent. */
  lemma WholeCloseReports(m: Market, p: Position, price: real, at: int)
    requires p.volume > 0
    ensures var t := MakeTrade(m, p, price, p.volume, at);
            Near(t.net, Settled(m, t) - p.commission, 1)
  {
    hide MakeTrade, Settled, OpenShare;
    CloseReports(m, p, price, p.volume, at);
    WholeShare(p.commission, p.volume);
    ShareOf(p, p.volume);
  }

  lemma ShareOf(p: Position, volume: int)
    requires p.volume > 0
    ensures OpenShare(p, volume) == RoundedShare(p.commission, volume, p.volume)
  {
  }

  // ----- shares of the entry commission

  function RoundedShare(amount: int, part: int, whole: int): int
    requires whole != 0
  {
    Round(Share(amount, part, whole))
  }

  lemma ShareOfAll(amount: int, whole: int)
    requires whole != 0
    ensures Share(amount, whole, whole) == amount as real
  {
    var a, w := amount as real, whole as real;
    assert Share(amount, whole, whole) == a * w / w;
    ProductOverFactor(a, w);
  }

  lemma WholeShare(amount: int, whole: int)
    requires whole != 0
    ensures RoundedShare(amount, whole, whole) == amount
  {
    hide Round;
    ShareOfAll(amount, whole);
    RoundInt(amount);
  }

  lemma RoundsToNothingIff(x: real)
    requires x >= 0.0
    ensures Round(x) >= 0 && (Round(x) == 0 <==> x <= 0.5)
  {
    RoundInt(0);
    RoundMonotone(0.0, x);
  }

  /** A quotient is at most a half exactly when the dividend is at most half the divisor. */
  lemma HalfQuotientIff(a: real, c: real)
    requires a >= 0.0 && c > 0.0
    ensures a / c >= 0.0 && (a / c <= 0.5 <==> 2.0 * a <= c)
  {
    TimesQuotient(a, c);
    CancelFactor(c, 0.0, a / c);
    if a / c < 0.5 {
      ProductMonotone(c, a / c, 0.5);
    } else if a / c > 0.5 {
      ProductMonotone(c, 0.5, a / c);
    }
  }

  lemma RealProduct(a: int, b: int)
    ensures (a * b) as real == a as real * b as real
    ensures 2 * a * b == 2 * (a * b)
  {
  }

  /** A share rounds to nothing exactly when it is at most half a cent. */
  lemma ShareNothingIff(amount: int, part: int, whole: int)
    requires amount >= 0 && part > 0 && whole > 0
    ensures RoundedShare(amount, part, whole) >= 0
    ensures RoundedShare(amount, part, whole) == 0 <==> 2 * amount * part <= whole
  {
    hide Round;
    RealProduct(amount, part);
    ProductNonnegative(amount as real, part as real);
    HalfQuotientIff(amount as real * part as real, whole as real);
    RoundsToNothingIff(Share(amount, part, whole));
    var product := amount * part;
    assert 2.0 * product as real <= whole as real <==> 2 * product <= whole;
  }

  /** What the trades that close the given volumes, one after the other, charge of the entry commission. */
  function Charged(commission: int, whole: int, volumes: seq<int>): int
    requires AllPositive(volumes) && Total(volumes) <= whole
  {
    if volumes == [] then 0
    else
      var n := |volumes| - 1;
      Charged(commission, whole, volumes[..n]) + RoundedShare(commission, volumes[n], whole - Total(volumes[..n]))
  }

  /** The first `n` parts are each so small that their share of the entry commission rounds to nothing. */
  predicate Negligible(commission: int, whole: int, volumes: seq<int>, n: nat)
    requires n <= |volumes|
  {
    forall k :: 0 <= k < n ==> 2 * commission * volumes[k] <= whole - Total(volumes[..k])
  }

  lemma {:induction false} ChargedNothingIff(commission: int, whole: int, volumes: seq<int>)
    requires commission >= 0 && AllPositive(volumes) && Total(volumes) <= whole
    ensures Charged(commission, whole, volumes) >= 0
    ensures Charged(commission, whole, volumes) == 0 <==> Negligible(commission, whole, volumes, |volumes|)
  {
    hide RoundedShare;
    if volumes != [] {
      var n := |volumes| - 1;
      ChargedNothingIff(commission, whole, volumes[..n]);
      ShareNothingIff(commission, volumes[n], whole - Total(volumes[..n]));
      NegligibleNext(commission, whole, volumes);
    }
  }

  lemma NegligibleNext(commission: int, whole: int, volumes: seq<int>)
    requires volumes != []
    ensures var n := |volumes| - 1;
            Negligible(commission, whole, volumes, n) == Negligible(commission, whole, volumes[..n], n)
    ensures var n := |volumes| - 1;
            Negligible(commission, whole, volumes, n + 1) <==>
            Negligible(commission, whole, volumes, n) && 2 * commission * volumes[n] <= whole - Total(volumes[..n])
  {
    var n := |volumes| - 1;
    assert forall k :: 0 <= k < n ==> volumes[..n][k] == volumes[k] && volumes[..n][..k] == volumes[..k];
    hide Total;
  }

  /**
    Closing a whole position in parts charges at least its entry commission, and exactly
    that if and only if the share of every part before the last rounds to nothing.
   */
  lemma ChargedOnceIff(commission: int, whole: int, volumes: seq<int>)
    requires commission >= 0 && volumes != [] && AllPositive(volumes) && Total(volumes) == whole
    ensures Charged(commission, whole, volumes) >= commission
    ensures Charged(commission, whole, volumes) == commission <==> Negligible(commission, whole, volumes, |volumes| - 1)
  {
    hide RoundedShare;
    var n := |volumes| - 1;
    ChargedNothingIff(commission, whole, volumes[..n]);
    WholeShare(commission, volumes[n]);
    NegligibleNext(commission, whole, volumes);
  }

  // ----- a position closed in parts

  /** One close: how much, at what price if not the quoted one, against which quote and when. */
  datatype Part = Part(volume: int, price: Option<real>, quote: Quote, at: int)

  function Volumes(parts: seq<Part>): (r: seq<int>)
    ensures |r| == |parts| && forall k :: 0 <= k < |r| ==> r[k] == parts[k].volume
  {
    seq(|parts|, k requires 0 <= k < |parts| => parts[k].volume)
  }

  function ClosingParts(id: nat, parts: seq<Part>): (r: seq<Command>)
    ensures |r| == |parts|
    ensures forall k :: 0 <= k < |r| ==> r[k] == Close(id, parts[k].price, Some(parts[k].volume as real), parts[k].quote, parts[k].at)
  {
    seq(|parts|, k requires 0 <= k < |parts| =>
      Close(id, parts[k].price, Some(parts[k].volume as real), parts[k].quote, parts[k].at))
  }

  /** What closing some parts of position `i` makes of the state, `charged` being what they charge of its commission. */
  predicate ClosedInParts(m: Market, s: State, i: nat, volume: int, charged: int, count: nat, t: State)
    requires i < |s.positions|
  {
    && t.positions == Shrink(s.positions, i, volume)
    && s.closed <= t.closed && |t.closed| == |s.closed| + count
    && t.balance - s.balance == SettledSum(m, t.closed) - SettledSum(m, s.closed)
    && Near(NetPnl(t.closed) - NetPnl(s.closed), t.balance - s.balance - charged, count)
  }

  lemma OnePart(m: Market, s: State, i: nat, part: Part)
    requires UniqueIds(s.positions) && i < |s.positions| && 0 < part.volume <= s.positions[i].volume
    ensures ClosedInParts(m, s, i, part.volume, RoundedShare(s.positions[i].commission, part.volume, s.positions[i].volume), 1,
                          ClosePosition(m, s, s.positions[i].id, part.price, Some(part.volume as real), part.quote, part.at))
  {
    hide Gross, Commission, SwapFor, OpenShare, Settled, Tick, Quoted;
    var p := s.positions[i];
    OpenVolumeUnique(s.positions, i);
    RoundInt(part.volume);
    var price := Tick(part.price.GetOr(Quoted(Opposite(p.side), part.quote)));
    var trade := MakeTrade(m, p, price, part.volume, part.at);
    CloseReports(m, p, price, part.volume, part.at);
    ShareOf(p, part.volume);
    hide Round, MakeTrade, RoundedShare;
    assert CloseRequest(m, s, p.id, part.price, Some(part.volume as real), part.quote, part.at) == Ok(trade);
    SettledConcat(m, s.closed, [trade]);
    SettledOne(m, trade);
    TradeSumsConcat(s.closed, [trade]);
    assert [trade][..0] == [];
  }

  lemma LastPart(m: Market, s: State, id: nat, parts: seq<Part>)
    requires Numbered(s.orders) && parts != []
    ensures var n := |parts| - 1;
            var t := Run(m, s, ClosingParts(id, parts[..n]));
            && Run(m, s, ClosingParts(id, parts)) ==
               ClosePosition(m, t, id, parts[n].price, Some(parts[n].volume as real), parts[n].quote, parts[n].at)
            && (n == 0 ==> t == s)
  {
    hide ClosePosition;
    var cmds := ClosingParts(id, parts);
    assert cmds[..|cmds|-1] == ClosingParts(id, parts[..|parts|-1]);
  }

  lemma VolumesNext(parts: seq<Part>)
    requires parts != [] && AllPositive(Volumes(parts))
    ensures var n := |parts| - 1;
            && Volumes(parts)[..n] == Volumes(parts[..n]) && AllPositive(Volumes(parts[..n]))
            && Total(Volumes(parts)) == Total(Volumes(parts[..n])) + parts[n].volume
            && Total(Volumes(parts[..n])) >= n
  {
    var n := |parts| - 1;
    assert Volumes(parts)[..n] == Volumes(parts[..n]);
    TotalSplit(Volumes(parts[..n]));
  }

  lemma Joined(m: Market, s: State, i: nat, a: int, charged: int, count: nat, t: State, b: int, more: int, u: State)
    requires i < |s.positions| && 0 < a && 0 < b && a + b <= s.positions[i].volume
    requires ClosedInParts(m, s, i, a, charged, count, t)
    requires i < |t.positions| && ClosedInParts(m, t, i, b, more, 1, u)
    ensures ClosedInParts(m, s, i, a + b, charged + more, count + 1, u)
  {
    ShrinkTwice(s.positions, i, a, b);
    hide Shrink, SettledSum, NetPnl;
  }

  lemma {:induction false} PartsClosed(m: Market, s: State, i: nat, parts: seq<Part>)
    requires Numbered(s.orders) && UniqueIds(s.positions) && i < |s.positions| && parts != []
    requires AllPositive(Volumes(parts)) && Total(Volumes(parts)) <= s.positions[i].volume
    ensures var p := s.positions[i];
            ClosedInParts(m, s, i, Total(Volumes(parts)), Charged(p.commission, p.volume, Volumes(parts)), |parts|,
                          Run(m, s, ClosingParts(p.id, parts)))
  {
    hide ClosePosition, Run, RoundedShare, Total, AllPositive, ClosedInParts;
    var n := |parts| - 1;
    var p := s.positions[i];
    VolumesNext(parts);
    LastPart(m, s, p.id, parts);
    PartVolume(parts);
    if n == 0 {
      assert Volumes(parts[..0]) == [];
      NoTotal();
      OnePart(m, s, i, parts[0]);
    } else {
      var before := Volumes(parts[..n]);
      PartsClosed(m, s, i, parts[..n]);
      var t := Run(m, s, ClosingParts(p.id, parts[..n]));
      PartLeft(m, s, i, Total(before), Charged(p.commission, p.volume, before), n, t);
      OnePart(m, t, i, parts[n]);
      Joined(m, s, i, Total(before), Charged(p.commission, p.volume, before), n, t, parts[n].volume,
             RoundedShare(p.commission, parts[n].volume, p.volume - Total(before)), Run(m, s, ClosingParts(p.id, parts)));
    }
  }

  lemma NoTotal()
    ensures Total([]) == 0
  {
  }

  lemma PartVolume(parts: seq<Part>)
    requires parts != [] && AllPositive(Volumes(parts))
    ensures parts[|parts|-1].volume > 0
  {
    assert Volumes(parts)[|parts|-1] > 0;
  }

  /** A proper part leaves the position in its place with the remaining volume and its whole commission. */
  lemma PartLeft(m: Market, s: State, i: nat, volume: int, charged: int, count: nat, t: State)
    requires UniqueIds(s.positions) && i < |s.positions| && volume < s.positions[i].volume
    requires ClosedInParts(m, s, i, volume, charged, count, t)
    ensures UniqueIds(t.positions) && |t.positions| == |s.positions|
    ensures t.positions[i] == s.positions[i].(volume := s.positions[i].volume - volume)
  {
  }

  /**
    A position closed in k parts, at any prices and instants, reports what the parts put into
    the balance less what they charge of the entry commission, to within k cents. They charge
    it once exactly when the share of every part before the last rounds to nothing, and more
    than once otherwise.
   */
  lemma SplitCloseReports(m: Market, s: State, i: nat, parts: seq<Part>) returns (charged: int)
    requires Numbered(s.orders) && UniqueIds(s.positions) && i < |s.positions| && s.positions[i].commission >= 0
    requires parts != [] && AllPositive(Volumes(parts)) && Total(Volumes(parts)) == s.positions[i].volume
    ensures var p := s.positions[i];
            var t := Run(m, s, ClosingParts(p.id, parts));
            && t.positions == s.positions[..i] + s.positions[i+1..]
            && Near(NetPnl(t.closed) - NetPnl(s.closed), t.balance - s.balance - charged, |parts|)
            && charged == Charged(p.commission, p.volume, Volumes(parts)) >= p.commission
            && (charged == p.commission <==> Negligible(p.commission, p.volume, Volumes(parts), |parts| - 1))
  {
    hide Run, RoundedShare, Total, AllPositive, ClosingParts;
    var p := s.positions[i];
    charged := Charged(p.commission, p.volume, Volumes(parts));
    PartsClosed(m, s, i, parts);
    ChargedOnceIff(p.commission, p.volume, Volumes(parts));
    hide NetPnl, SettledSum;
  }

  // ----- two halves

  /** Euro against dollar: a tick on a unit of volume is worth a hundredth of a cent, and a day two hundredths. */
  predicate QuotesEuro(m: Market) {
    m("EURUSD") == SymbolInfo(0.01, 0.02)
  }

  /** One lot. */
  function BuyLot(): OrderRequest {
    OrderRequest("EURUSD", "buy", "market", 10000.0, None, None, None, None, 0, None)
  }

  function AtPar(): Quote {
    Quote(100000.0, 100000.0)
  }

  function CloseHalf(): Command {
    Close(0, None, Some(5000.0), AtPar(), 0)
  }

  function Bought(volume: int): Position {
    Position(0, "EURUSD", Buy, volume, 100000.0, None, None, 0, 200, 0, None, None)
  }

  function Filled(): Order {
    Order(0, "EURUSD", Buy, OrderKind.Market, 10000, OrderState.Filled(100000.0), None, None, 0, None, false)
  }

  function Half(net: int): Trade {
    Trade(0, "EURUSD", Buy, 5000, 100000.0, 100000.0, 0, net, 100, 0, 0, 0)
  }

  function AfterBuying(): State {
    State(999800, 200, [Filled()], [Bought(10000)], [])
  }

  lemma EuroFigures(m: Market)
    requires QuotesEuro(m)
    ensures Notional(m, "EURUSD", 100000.0, 10000) * COMMISSION_RATE == 200.0
    ensures Notional(m, "EURUSD", 100000.0, 5000) * COMMISSION_RATE == 100.0
    ensures Margin(m, "EURUSD", 100000.0, 10000) == 100000.0
  {
  }

  lemma BoughtLot(m: Market)
    requires QuotesEuro(m)
    ensures Paper.PlaceOrder(m, Initial(1000000), BuyLot(), AtPar(), 0).0 == AfterBuying()
  {
    hide Round, Notional, Margin;
    EuroFigures(m);
    RoundInt(10000);
    RoundInt(100000);
    RoundInt(200);
  }

  lemma HalfClosed(m: Market, volume: int, share: int)
    requires QuotesEuro(m) && volume != 0 && RoundedShare(200, 5000, volume) == share
    ensures MakeTrade(m, Bought(volume), 100000.0, 5000, 0) == Half(-100 - share)
    ensures Settled(m, Half(-100 - share)) == -100
  {
    hide Round, Notional, Share;
    EuroFigures(m);
    RoundInt(0);
    RoundInt(100);
    RoundInt(-100);
    RoundInt(-100 - share);
  }

  lemma HalfTaken(m: Market, s: State, volume: int, share: int)
    requires QuotesEuro(m) && volume in {5000, 10000} && RoundedShare(200, 5000, volume) == share
    requires s.positions == [Bought(volume)]
    ensures ClosePosition(m, s, 0, None, Some(5000.0), AtPar(), 0) ==
            s.(balance := s.balance - 100, commissionTotal := s.commissionTotal + 100,
               positions := if volume == 5000 then [] else [Bought(5000)], closed := s.closed + [Half(-100 - share)])
  {
    hide MakeTrade, Settled, Round, RoundedShare;
    HalfClosed(m, volume, share);
    RoundInt(5000);
    RoundInt(100000);
    assert [Bought(volume)][..0] == [];
    assert Find(s.positions, 0) == Some(0);
  }

  lemma HalfShare()
    ensures RoundedShare(200, 5000, 10000) == 100
  {
    assert Share(200, 5000, 10000) == 100.0;
    RoundInt(100);
  }

  lemma RunOfThree(m: Market, s: State, a: Command, b: Command, c: Command)
    requires Numbered(s.orders)
    ensures Run(m, s, [a, b, c]) == Step(m, Step(m, Step(m, s, a), b), c)
  {
    hide Step;
    assert [a][..0] == [] && [a, b][..1] == [a] && [a, b, c][..2] == [a, b];
    assert Run(m, s, []) == s;
    assert Run(m, s, [a]) == Step(m, s, a);
    assert Run(m, s, [a, b]) == Step(m, Step(m, s, a), b);
  }

  lemma NetOfTwo(a: Trade, b: Trade)
    ensures NetPnl([] + [a] + [b]) == a.net + b.net
  {
    assert ([] + [a] + [b])[..1] == [a] && [a][..0] == [];
    assert NetPnl([a]) == a.net;
  }

  /**
    One lot bought and closed in two halves at the same price: the account is down by 400 cents
    in all, of which 200 are the entry commission, and the nets that the trades report say 500.
   */
  lemma PartialClosesOvercharge(m: Market)
    requires QuotesEuro(m)
    ensures var s := Run(m, Initial(1000000), [Place(BuyLot(), AtPar(), 0), CloseHalf(), CloseHalf()]);
            s.positions == [] && s.balance - 1000000 == -400 && NetPnl(s.closed) == -500
  {
    hide Run, NetPnl, OnQuote, CancelOrder, ModifyPosition, ClosePosition, PlaceOrder, RoundedShare;
    RunOfThree(m, Initial(1000000), Place(BuyLot(), AtPar(), 0), CloseHalf(), CloseHalf());
    BoughtLot(m);
    HalfShare();
    HalfTaken(m, AfterBuying(), 10000, 100);
    WholeShare(200, 5000);
    HalfTaken(m, Step(m, AfterBuying(), CloseHalf()), 5000, 200);
    NetOfTwo(Half(-200), Half(-300));
  }
}
