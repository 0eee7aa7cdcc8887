/**
  What the detectors' events mean: the confirmation pointer against its simple definition,
  when a level can break again, what a retest says, and how the regime is read back.
 */
module StructureProperties {
  import opened Wrappers
  import opened Candles
  import opened MarketStructure
  import opened StructureCausality

  // ----- the pointer refines the simple definition

  predicate Sorted(levels: seq<Level>) {
    forall i, j :: 0 <= i < j < |levels| ==> levels[i].bar <= levels[j].bar
  }

  /** The index of the last label satisfying the test among those confirmed by bar `i`. */
  predicate LastConfirmed(levels: seq<Level>, high: bool, lag: int, i: int, j: int) {
    && 0 <= j < |levels| && levels[j].bar + lag <= i && OfKind(levels[j], high)
    && forall m :: j < m < |levels| && levels[m].bar + lag <= i ==> !OfKind(levels[m], high)
  }

  predicate OfKind(level: Level, high: bool) {
    if high then HighKind(level.kind) else LowKind(level.kind)
  }

  predicate NoneConfirmed(levels: seq<Level>, high: bool, lag: int, i: int) {
    forall m :: 0 <= m < |levels| && levels[m].bar + lag <= i ==> !OfKind(levels[m], high)
  }

  predicate Simple(levels: seq<Level>, high: bool, lag: int, i: int, latest: Option<Level>) {
    match latest
    case None => NoneConfirmed(levels, high, lag, i)
    case Some(level) => exists j :: 0 <= j < |levels| && levels[j] == level && LastConfirmed(levels, high, lag, i, j)
  }

  lemma {:induction false} LatestIsLast(levels: seq<Level>)
    ensures LatestHigh(levels).None? ==> forall m :: 0 <= m < |levels| ==> !HighKind(levels[m].kind)
    ensures LatestLow(levels).None? ==> forall m :: 0 <= m < |levels| ==> !LowKind(levels[m].kind)
    ensures LatestHigh(levels).Some? ==>
              (exists j :: 0 <= j < |levels| && levels[j] == LatestHigh(levels).value && HighKind(levels[j].kind)
                           && forall m :: j < m < |levels| ==> !HighKind(levels[m].kind))
    ensures LatestLow(levels).Some? ==>
              (exists j :: 0 <= j < |levels| && levels[j] == LatestLow(levels).value && LowKind(levels[j].kind)
                           && forall m :: j < m < |levels| ==> !LowKind(levels[m].kind))
  {
    if levels != [] {
      var n := |levels| - 1;
      LatestIsLast(levels[..n]);
      assert forall m :: 0 <= m < n ==> levels[..n][m] == levels[m];
    }
  }

  /** In a sorted list, exactly the labels before the pointer are confirmed. */
  lemma ConfirmedIff(levels: seq<Level>, lag: int, i: int, j: nat)
    requires Sorted(levels) && j < |levels|
    ensures j < Confirmed(levels, lag, i) <==> levels[j].bar + lag <= i
  {
  }

  /** The running last high and low are the last labels of their polarity confirmed by the bar. */
  lemma PointerIsSimple(levels: seq<Level>, lag: int, i: int)
    requires Sorted(levels)
    ensures Simple(levels, true, lag, i, HighAt(levels, lag, i))
    ensures Simple(levels, false, lag, i, LowAt(levels, lag, i))
  {
    var n := Confirmed(levels, lag, i);
    LatestIsLast(levels[..n]);
    forall m | 0 <= m < |levels| ensures m < n <==> levels[m].bar + lag <= i { ConfirmedIff(levels, lag, i, m); }
    assert forall m :: 0 <= m < n ==> levels[..n][m] == levels[m];
    hide Confirmed, LatestHigh, LatestLow, Sorted;
    if HighAt(levels, lag, i).Some? {
      var j :| 0 <= j < n && levels[..n][j] == HighAt(levels, lag, i).value &&
               HighKind(levels[..n][j].kind) && forall m :: j < m < n ==> !HighKind(levels[..n][m].kind);
      assert LastConfirmed(levels, true, lag, i, j);
    }
    if LowAt(levels, lag, i).Some? {
      var j :| 0 <= j < n && levels[..n][j] == LowAt(levels, lag, i).value &&
               LowKind(levels[..n][j].kind) && forall m :: j < m < n ==> !LowKind(levels[..n][m].kind);
      assert LastConfirmed(levels, false, lag, i, j);
    }
  }

  /** The labels of a series come sorted by bar. */
  lemma {:induction false} SwingsSorted(cs: seq<Candle>, left: nat, right: nat, n: nat)
    ensures Sorted(Levels(SwingsUpTo(cs, left, right, n)))
    ensures forall j :: 0 <= j < |SwingsUpTo(cs, left, right, n)| ==> SwingsUpTo(cs, left, right, n)[j].bar < n
  {
    hide SwingsUpTo, SwingsAt;
    if n == 0 {
      NoSwings(cs, left, right);
    } else {
      SwingsSorted(cs, left, right, n - 1);
      SwingsNext(cs, left, right, n - 1);
    }
  }

  lemma StructureSorted(cs: seq<Candle>, left: nat, right: nat)
    ensures Sorted(Levels(Structure(cs, left, right)))
  {
    var swings := Swings(cs, left, right);
    SwingsSorted(cs, left, right, |cs|);
    SwingsRaw(cs, left, right, |cs|);
    ClassifyGrows(swings, |swings|);
    hide SwingsUpTo, Classify, AllRaw;
    forall i, j | 0 <= i < j < |swings| ensures Levels(Classify(swings))[i].bar <= Levels(Classify(swings))[j].bar {
      assert Levels(swings)[i].bar <= Levels(swings)[j].bar;
    }
  }

  // ----- breaks of structure

  /** No bar continues and reverses the trend at once. */
  lemma NeverBosAndChoch(cs: seq<Candle>, levels: seq<Level>, lag: int, i: nat)
    ensures BosAt(cs, levels, lag, i) == [] || ChochAt(cs, levels, lag, i) == []
  {
    hide BreakStrength, HighAt, LowAt;
  }

  predicate FiresUp(cs: seq<Candle>, levels: seq<Level>, lag: int, i: nat, price: real) {
    BosAt(cs, levels, lag, i) != [] && BosAt(cs, levels, lag, i)[0].heading == Bullish &&
    BosAt(cs, levels, lag, i)[0].invalidation == Some(price)
  }

  predicate FiresDown(cs: seq<Candle>, levels: seq<Level>, lag: int, i: nat, price: real) {
    BosAt(cs, levels, lag, i) != [] && BosAt(cs, levels, lag, i)[0].heading == Bearish &&
    BosAt(cs, levels, lag, i)[0].invalidation == Some(price)
  }

  lemma FiringCrosses(cs: seq<Candle>, levels: seq<Level>, lag: int, i: nat, price: real)
    ensures FiresUp(cs, levels, lag, i, price) ==> CrossesUp(cs, i, price)
    ensures FiresDown(cs, levels, lag, i, price) ==> CrossesDown(cs, i, price)
  {
    hide BreakStrength, HighAt, LowAt;
  }

  /** Two breaks of one level are at least two bars apart, the close back at or inside it just before the second. */
  lemma RefiresAfterCloseBack(cs: seq<Candle>, levels: seq<Level>, lag: int, i: nat, j: nat, price: real)
    requires i < j
    ensures FiresUp(cs, levels, lag, i, price) && FiresUp(cs, levels, lag, j, price) ==> i + 2 <= j && cs[j-1].c <= price
    ensures FiresDown(cs, levels, lag, i, price) && FiresDown(cs, levels, lag, j, price) ==> i + 2 <= j && cs[j-1].c >= price
  {
    hide FiresUp, FiresDown;
    FiringCrosses(cs, levels, lag, i, price);
    FiringCrosses(cs, levels, lag, j, price);
  }

  /** Whether the bar breaks the price in the trend, upwards or downwards. */
  predicate Fires(cs: seq<Candle>, levels: seq<Level>, lag: int, i: nat, up: bool, price: real) {
    if up then FiresUp(cs, levels, lag, i, price) else FiresDown(cs, levels, lag, i, price)
  }

  /** The close lies strictly beyond a price. */
  predicate Beyond(bar: Candle, up: bool, price: real) {
    if up then bar.c > price else bar.c < price
  }

  /** At the bar the price is that of the trend's own level: the high of an uptrend, the low of a downtrend. */
  predicate Stands(levels: seq<Level>, lag: int, i: nat, up: bool, price: real) {
    var high, low := HighAt(levels, lag, i), LowAt(levels, lag, i);
    if up then RegimeFrom(high, low).Uptrend? && high.value.price == price
    else RegimeFrom(high, low).Downtrend? && low.value.price == price
  }

  lemma FiresIff(cs: seq<Candle>, levels: seq<Level>, lag: int, i: nat, up: bool, price: real)
    requires i < |cs|
    ensures Fires(cs, levels, lag, i, up, price) <==>
            0 < i && !Beyond(cs[i-1], up, price) && Beyond(cs[i], up, price) && Stands(levels, lag, i, up, price)
  {
    hide BreakStrength, HighAt, LowAt;
  }

  /** The close comes back at bar `p`, and `q` is the first bar after it whose close is beyond the price again. */
  predicate Returns(cs: seq<Candle>, p: nat, q: nat, up: bool, price: real) {
    && p < q < |cs| && !Beyond(cs[p], up, price) && Beyond(cs[q], up, price)
    && forall r :: p < r < q ==> !Beyond(cs[r], up, price)
  }

  /**
    A level that a bar has broken fires again exactly when some later close comes back to or
    inside it and, at the first close beyond it after that, it is the trend's own level
    (whatever it was in between).
   */
  lemma LevelFiresAgainIff(cs: seq<Candle>, levels: seq<Level>, lag: int, a: nat, b: nat, up: bool, price: real)
    requires a < b <= |cs| && Fires(cs, levels, lag, a, up, price)
    ensures (exists j :: a < j < b && Fires(cs, levels, lag, j, up, price)) <==>
            (exists p, q :: a < p < q < b && Returns(cs, p, q, up, price) && Stands(levels, lag, q, up, price))
  {
    hide Fires, Stands;
    FiresIff(cs, levels, lag, a, up, price);
    if exists j :: a < j < b && Fires(cs, levels, lag, j, up, price) {
      var j :| a < j < b && Fires(cs, levels, lag, j, up, price);
      FiresIff(cs, levels, lag, j, up, price);
      assert a < j - 1 < j < b && Returns(cs, j - 1, j, up, price);
    }
    if exists p, q :: a < p < q < b && Returns(cs, p, q, up, price) && Stands(levels, lag, q, up, price) {
      var p, q :| a < p < q < b && Returns(cs, p, q, up, price) && Stands(levels, lag, q, up, price);
      FiresIff(cs, levels, lag, q, up, price);
    }
  }

  /** From a close at or inside a price to a later one beyond it, some bar is the first to be beyond. */
  lemma SomeBarReturns(cs: seq<Candle>, p: nat, q: nat, up: bool, price: real) returns (j: nat)
    requires p < q < |cs| && !Beyond(cs[p], up, price) && Beyond(cs[q], up, price)
    ensures p < j <= q && Returns(cs, p, j, up, price)
  {
    if exists r :: p < r < q && Beyond(cs[r], up, price) {
      var r :| p < r < q && Beyond(cs[r], up, price);
      j := SomeBarReturns(cs, p, r, up, price);
    } else {
      j := q;
    }
  }

  /**
    While a broken level stays the trend's own, it fires again exactly when some later close
    comes back to or inside it and a still later one is beyond it.
   */
  lemma StandingLevelFiresAgainIff(cs: seq<Candle>, levels: seq<Level>, lag: int, a: nat, b: nat, up: bool, price: real)
    requires a < b <= |cs| && Fires(cs, levels, lag, a, up, price)
    requires forall i :: a <= i < b ==> Stands(levels, lag, i, up, price)
    ensures (exists j :: a < j < b && Fires(cs, levels, lag, j, up, price)) <==>
            (exists p, q :: a < p < q < b && !Beyond(cs[p], up, price) && Beyond(cs[q], up, price))
  {
    hide Fires, Stands, Beyond;
    LevelFiresAgainIff(cs, levels, lag, a, b, up, price);
    if exists p, q :: a < p < q < b && !Beyond(cs[p], up, price) && Beyond(cs[q], up, price) {
      var p, q :| a < p < q < b && !Beyond(cs[p], up, price) && Beyond(cs[q], up, price);
      var j := SomeBarReturns(cs, p, q, up, price);
      assert a < p < j < b && Returns(cs, p, j, up, price) && Stands(levels, lag, j, up, price);
    }
  }

  // ----- a series whose level fires twice

  function Zig(h: real, low: real, c: real): Candle {
    Candle("X", "H1", 0, low, h, low, c)
  }

  /** Two rising highs and two rising lows, then closes that cross the second high twice. */
  function ZigZag(): seq<Candle> {
    [Zig(10.0, 5.0, 7.0), Zig(12.0, 6.0, 7.0), Zig(11.0, 4.0, 7.0), Zig(14.0, 6.0, 7.0), Zig(13.0, 5.0, 7.0),
     Zig(16.0, 6.0, 10.0), Zig(16.0, 6.0, 15.0), Zig(16.0, 6.0, 10.0), Zig(16.0, 6.0, 15.0)]
  }

  /** With one bar on either side, a bar is a swing exactly if it is more extreme than both its neighbours. */
  lemma SwingBetween(cs: seq<Candle>, i: nat)
    requires 0 < i && i + 1 < |cs|
    ensures IsSwingHigh(cs, 1, 1, i) <==> cs[i].h > cs[i-1].h && cs[i].h > cs[i+1].h
    ensures IsSwingLow(cs, 1, 1, i) <==> cs[i].low < cs[i-1].low && cs[i].low < cs[i+1].low
  {
  }

  lemma ZigZagSwingsAt(i: nat)
    ensures var cs := ZigZag();
            SwingsAt(cs, 1, 1, i) == if i == 1 || i == 3 then [SwingObject(cs, i, true)]
                                     else if i == 2 || i == 4 then [SwingObject(cs, i, false)]
                                     else []
  {
    if 0 < i < 8 { SwingBetween(ZigZag(), i); }
    hide SwingObject;
  }

  lemma ZigZagSwings()
    ensures var cs := ZigZag();
            Swings(cs, 1, 1) == [SwingObject(cs, 1, true), SwingObject(cs, 2, false), SwingObject(cs, 3, true), SwingObject(cs, 4, false)]
  {
    var cs := ZigZag();
    hide SwingsUpTo, SwingsAt, SwingObject, ZigZag;
    ZigZagLength();
    forall i: nat ensures SwingsAt(cs, 1, 1, i) == if i == 1 || i == 3 then [SwingObject(cs, i, true)]
                                                   else if i == 2 || i == 4 then [SwingObject(cs, i, false)]
                                                   else []
    {
      ZigZagSwingsAt(i);
    }
    NoSwings(cs, 1, 1);
    SwingsNext(cs, 1, 1, 0);
    SwingsNext(cs, 1, 1, 1);
    SwingsNext(cs, 1, 1, 2);
    SwingsNext(cs, 1, 1, 3);
    SwingsNext(cs, 1, 1, 4);
    NoSwingSince(cs, 1, 1, 5, 9);
  }

  lemma ZigZagLength()
    ensures |ZigZag()| == 9
  {
  }

  /** One more raw swing is one more label. */
  lemma OneMoreLabel(before: seq<StructureObject>, swing: StructureObject)
    requires swing.kind in {SwingHigh, SwingLow}
    ensures Classify(before + [swing]) == Classify(before) + [Label(swing, LastRaw(before, swing.kind))]
  {
    hide Label, LastRaw;
    assert (before + [swing])[..|before|] == before;
  }

  lemma OneMoreLast(before: seq<StructureObject>, swing: StructureObject, kind: Kind)
    ensures LastRaw(before + [swing], kind) == if swing.kind == kind then Some(swing) else LastRaw(before, kind)
  {
    assert (before + [swing])[..|before|] == before;
  }

  lemma NothingLabelled(kind: Kind)
    ensures Classify([]) == [] && LastRaw([], kind) == None
  {
  }

  lemma HigherLabel(swing: StructureObject, previous: StructureObject)
    requires swing.kind in {SwingHigh, SwingLow} && swing.price > previous.price
    ensures LevelOf(Label(swing, Some(previous))) == Level(if swing.kind.SwingHigh? then HH else HL, swing.price, swing.bar)
  {
  }

  lemma FirstLabel(swing: StructureObject)
    ensures Label(swing, None) == swing
  {
  }

  lemma FourLabels(a: StructureObject, b: StructureObject, c: StructureObject, d: StructureObject)
    requires a.kind.SwingHigh? && b.kind.SwingLow? && c.kind.SwingHigh? && d.kind.SwingLow?
    requires c.price > a.price && d.price > b.price
    ensures Levels(Classify([a] + [b] + [c] + [d])) ==
            [LevelOf(a), LevelOf(b), Level(HH, c.price, c.bar), Level(HL, d.price, d.bar)]
  {
    hide Classify, LastRaw, Label, LevelOf;
    NothingLabelled(SwingHigh);
    NothingLabelled(SwingLow);
    assert [] + [a] == [a];
    OneMoreLabel([], a);
    OneMoreLast([], a, SwingLow);
    OneMoreLast([], a, SwingHigh);
    FirstLabel(a);
    OneMoreLabel([a], b);
    OneMoreLast([a], b, SwingHigh);
    OneMoreLast([a], b, SwingLow);
    FirstLabel(b);
    var two := [a] + [b];
    OneMoreLabel(two, c);
    OneMoreLast(two, c, SwingLow);
    HigherLabel(c, a);
    var three := two + [c];
    OneMoreLabel(three, d);
    HigherLabel(d, b);
  }

  lemma ZigZagLevels()
    ensures Levels(Structure(ZigZag(), 1, 1)) ==
            [Level(SwingHigh, 12.0, 1), Level(SwingLow, 4.0, 2), Level(HH, 14.0, 3), Level(HL, 5.0, 4)]
  {
    var cs := ZigZag();
    ZigZagSwings();
    hide Swings, SwingStrength, Classify;
    var a, b, c, d := SwingObject(cs, 1, true), SwingObject(cs, 2, false), SwingObject(cs, 3, true), SwingObject(cs, 4, false);
    FourLabels(a, b, c, d);
    hide SwingObject, ZigZag;
    assert [a] + [b] + [c] + [d] == [a, b, c, d];
  }

  /** A high and a low confirmed last stand as the trend's levels. */
  lemma UptrendStands(levels: seq<Level>, lag: int, i: nat)
    requires |levels| >= 2 && levels[|levels|-2].kind.HH? && levels[|levels|-1].kind.HL?
    requires Confirmed(levels, lag, i) == |levels|
    ensures Stands(levels, lag, i, true, levels[|levels|-2].price)
  {
    var n := |levels|;
    assert levels[..n] == levels;
    assert LatestLow(levels) == Some(levels[n-1]);
    assert levels[..n-1][n-2] == levels[n-2];
    assert LatestHigh(levels) == LatestHigh(levels[..n-1]) == Some(levels[n-2]);
  }

  /** So a level does not fire at most once: the higher high of the series fires at bars 6 and 8. */
  lemma LevelFiresTwice()
    ensures var cs := ZigZag();
            var levels := Levels(Structure(cs, 1, 1));
            FiresUp(cs, levels, 1, 6, 14.0) && FiresUp(cs, levels, 1, 8, 14.0)
  {
    hide Structure, FiresUp;
    var cs := ZigZag();
    var levels := Levels(Structure(cs, 1, 1));
    ZigZagLevels();
    hide ZigZag, Levels;
    ZigZagCloses();
    UptrendStands(levels, 1, 6);
    UptrendStands(levels, 1, 8);
    FiresIff(cs, levels, 1, 6, true, 14.0);
    FiresIff(cs, levels, 1, 8, true, 14.0);
  }

  lemma ZigZagCloses()
    ensures var cs := ZigZag();
            |cs| == 9 && cs[5].c == 10.0 && cs[6].c == 15.0 && cs[7].c == 10.0 && cs[8].c == 15.0
  {
  }

  // ----- retests

  predicate IsBreakout(cs: seq<Candle>, levels: seq<Level>, lag: int, b: nat) {
    0 < b < |cs| && BreakoutLevel(cs, levels, lag, b).Some?
  }

  /** The latest breakout before bar `i`. */
  predicate LatestBreakout(cs: seq<Candle>, levels: seq<Level>, lag: int, i: nat, b: nat) {
    b < i && IsBreakout(cs, levels, lag, b) && forall j :: b < j < i ==> !IsBreakout(cs, levels, lag, j)
  }

  function LiveOf(cs: seq<Candle>, levels: seq<Level>, lag: int, b: nat): Live
    requires IsBreakout(cs, levels, lag, b)
  {
    var x := BreakoutLevel(cs, levels, lag, b).value;
    Live(x.0, x.1.price, b)
  }

  /** Still unbroken: no close back through the level on any bar after the breakout and before `i`. */
  predicate Unbroken(cs: seq<Candle>, levels: seq<Level>, lag: int, b: nat, i: nat)
    requires IsBreakout(cs, levels, lag, b) && i <= |cs|
  {
    forall j :: b < j < i ==> !ClosesBack(LiveOf(cs, levels, lag, b), cs[j])
  }

  /** The state machine's live breakout, after the first `n` bars, is the latest one as long as it is unbroken. */
  lemma {:induction false} LiveIsLatest(cs: seq<Candle>, levels: seq<Level>, lag: int, n: nat)
    requires 0 < n <= |cs|
    ensures match LiveAfter(cs, levels, lag, n - 1)
            case None => forall b :: LatestBreakout(cs, levels, lag, n, b) ==> !Unbroken(cs, levels, lag, b, n)
            case Some(live) => && LatestBreakout(cs, levels, lag, n, live.bar)
                               && live == LiveOf(cs, levels, lag, live.bar)
                               && Unbroken(cs, levels, lag, live.bar, n)
  {
    hide BreakoutLevel;
    if n > 1 {
      var i := n - 1;
      LiveIsLatest(cs, levels, lag, i);
      if BreakoutLevel(cs, levels, lag, i).Some? {
        assert IsBreakout(cs, levels, lag, i);
      } else {
        forall b | LatestBreakout(cs, levels, lag, n, b) ensures LatestBreakout(cs, levels, lag, i, b) {}
        if LiveAfter(cs, levels, lag, i - 1).Some? {
          var live := LiveAfter(cs, levels, lag, i - 1).value;
          assert LatestBreakout(cs, levels, lag, n, live.bar);
          forall b | LatestBreakout(cs, levels, lag, n, b) ensures b == live.bar {
            OneLatest(cs, levels, lag, n, b, live.bar);
          }
        }
      }
    }
  }

  lemma OneLatest(cs: seq<Candle>, levels: seq<Level>, lag: int, i: nat, a: nat, b: nat)
    requires LatestBreakout(cs, levels, lag, i, a) && LatestBreakout(cs, levels, lag, i, b)
    ensures a == b
  {
    hide IsBreakout;
    if a < b { assert false; }
    if b < a { assert false; }
  }

  /**
    A retest is emitted at a bar exactly when the latest breakout before it has had no
    close back through its level on any bar between, and the bar wicks to the level and
    closes strictly on the breakout's side of it.
   */
  lemma RetestIff(cs: seq<Candle>, levels: seq<Level>, lag: int, i: nat)
    requires i < |cs|
    ensures RetestAt(cs, levels, lag, i) != [] <==>
            exists b :: LatestBreakout(cs, levels, lag, i, b) && Unbroken(cs, levels, lag, b, i)
                        && Retests(LiveOf(cs, levels, lag, b), cs[i])
    ensures forall b :: LatestBreakout(cs, levels, lag, i, b) && RetestAt(cs, levels, lag, i) != [] ==>
            && RetestAt(cs, levels, lag, i)[0].price == LiveOf(cs, levels, lag, b).level
            && RetestAt(cs, levels, lag, i)[0].meta == BreakoutBar(b)
  {
    hide BreakStrength, BreakoutLevel, LiveAfter, Unbroken, LatestBreakout, IsBreakout;
    if i == 0 {
      NoBreakoutBefore(cs, levels, lag);
    } else {
      LiveIsLatest(cs, levels, lag, i);
      var live := LiveAfter(cs, levels, lag, i - 1);
      forall b | LatestBreakout(cs, levels, lag, i, b) && live.Some? ensures b == live.value.bar {
        OneLatest(cs, levels, lag, i, b, live.value.bar);
      }
    }
  }

  lemma NoBreakoutBefore(cs: seq<Candle>, levels: seq<Level>, lag: int)
    ensures forall b :: !LatestBreakout(cs, levels, lag, 0, b)
  {
  }

  // ----- reading the regime back

  /** The regime of the last change at or before a bar, ranging if there is none. */
  function Decode(changes: seq<StructureObject>, i: int): Regime {
    if changes == [] then Range
    else if changes[|changes|-1].bar <= i && changes[|changes|-1].heading.Trend? then changes[|changes|-1].heading.regime
    else Decode(changes[..|changes|-1], i)
  }

  lemma {:induction false} DecodeEarlier(changes: seq<StructureObject>, i: int, j: int)
    requires forall m :: 0 <= m < |changes| ==> changes[m].bar <= i
    requires i <= j
    ensures Decode(changes, i) == Decode(changes, j)
  {
    if changes != [] { DecodeEarlier(changes[..|changes|-1], i, j); }
  }

  /** What one more bar adds to the changes, and what is read back at it and at the bars before. */
  lemma DecodeNext(before: seq<StructureObject>, at: seq<StructureObject>, i: nat, n: nat)
    requires |at| <= 1 && i <= n
    requires forall m :: 0 <= m < |at| ==> at[m].bar == n && at[m].heading.Trend?
    ensures i < n || at == [] ==> Decode(before + at, i) == Decode(before, i)
    ensures i == n && at != [] ==> Decode(before + at, i) == at[0].heading.regime
  {
    if at == [] { assert before + at == before; } else { assert (before + at)[..|before|] == before; }
  }

  /** The list of changes says the voted regime at every bar. */
  lemma {:induction false} ChangesDecodeUpTo(cs: seq<Candle>, levels: seq<Level>, window: int, lag: int, n: nat, i: nat)
    requires i < n <= |cs|
    ensures var changes := EventsUpTo(RegimeDetector(window), cs, levels, lag, n);
            && (forall m :: 0 <= m < |changes| ==> changes[m].bar < n)
            && Decode(changes, i) == RegimeAt(levels, window, lag, i)
  {
    hide RegimeAt, EventsUpTo, Decode;
    var d := RegimeDetector(window);
    var last: nat := n - 1;
    var before := EventsUpTo(d, cs, levels, lag, last);
    var at := EventsAt(d, cs, levels, lag, last);
    EventsNext(d, cs, levels, lag, last);
    DecodeNext(before, at, i, last);
    if n == 1 {
      EventsNone(d, cs, levels, lag);
      NoChanges(i);
    } else {
      ChangesDecodeUpTo(cs, levels, window, lag, last, if i < last then i else n - 2);
      if i == last { DecodeEarlier(before, n - 2, last); }
    }
  }

  lemma NoChanges(i: int)
    ensures Decode([], i) == Range
  {
  }

  lemma ChangesDecode(cs: seq<Candle>, levels: seq<Level>, window: int, right: int, i: nat)
    requires i < |cs|
    ensures Decode(Events(RegimeDetector(window), cs, levels, right), i) == RegimeAt(levels, window, right, i)
  {
    hide EventsUpTo, Decode, RegimeAt;
    ChangesDecodeUpTo(cs, levels, window, right, |cs|, i);
  }
}
