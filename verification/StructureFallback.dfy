/**
  The silent fallback of the detectors: an empty structure list is replaced by the labels of
  the default parameters. This module says exactly when that repaints.
 */
module StructureFallback {
  import opened Wrappers
  import opened Candles
  import opened MarketStructure
  import opened StructureCausality
  import opened StructureProperties

  function DefaultLevels(cs: seq<Candle>): seq<Level> {
    Levels(Structure(cs, SWING_LEFT, SWING_RIGHT))
  }

  // ----- when a detector says nothing at all

  /**
    What makes a detector speak, read off the closes and the labels confirmed by bar `i`: a
    crossing in (or against) the trend, a vote for a trend, a crossing of a last level, or a
    touch of the latest breakout's level that no close has come back through.
   */
  ghost predicate Calls(d: Detector, cs: seq<Candle>, levels: seq<Level>, right: int, i: nat)
    requires i < |cs|
  {
    match d
    case BosDetector => CrossesWith(cs, i, HighAt(levels, right, i), LowAt(levels, right, i))
    case ChochDetector => CrossesAgainst(cs, i, HighAt(levels, right, i), LowAt(levels, right, i))
    case RegimeDetector(window) => RegimeAt(levels, window, right, i) != Range
    case BreakoutDetector(minBars) => CrossesEither(cs, i, HighAt(levels, right + minBars, i), LowAt(levels, right + minBars, i))
    case RetestDetector(minBars) => TouchesBack(cs, levels, right + minBars, i)
  }

  ghost predicate TouchesBack(cs: seq<Candle>, levels: seq<Level>, lag: int, i: nat)
    requires i < |cs|
  {
    exists b: nat :: LatestBreakout(cs, levels, lag, i, b) && Unbroken(cs, levels, lag, b, i) && Retests(LiveOf(cs, levels, lag, b), cs[i])
  }

  predicate CrossesWith(cs: seq<Candle>, i: nat, high: Option<Level>, low: Option<Level>) {
    match RegimeFrom(high, low)
    case Uptrend => CrossesUp(cs, i, high.value.price)
    case Downtrend => CrossesDown(cs, i, low.value.price)
    case Range => false
  }

  predicate CrossesAgainst(cs: seq<Candle>, i: nat, high: Option<Level>, low: Option<Level>) {
    match RegimeFrom(high, low)
    case Uptrend => CrossesDown(cs, i, low.value.price)
    case Downtrend => CrossesUp(cs, i, high.value.price)
    case Range => false
  }

  predicate CrossesEither(cs: seq<Candle>, i: nat, high: Option<Level>, low: Option<Level>) {
    (high.Some? && CrossesUp(cs, i, high.value.price)) || (low.Some? && CrossesDown(cs, i, low.value.price))
  }

  lemma {:induction false} GatherNothing<T>(f: nat -> seq<T>, n: nat)
    ensures Gather(f, n) == [] <==> forall i: nat :: i < n ==> f(i) == []
  {
    if n != 0 { GatherNothing(f, n - 1); }
  }

  lemma EventsNothing(d: Detector, cs: seq<Candle>, levels: seq<Level>, right: int)
    ensures Events(d, cs, levels, right) == [] <==> forall i: nat :: i < |cs| ==> EventsAt(d, cs, levels, right, i) == []
  {
    hide EventsAt;
    var f := (i: nat) => EventsAt(d, cs, levels, right, i);
    GatherNothing(f, |cs|);
    assert Events(d, cs, levels, right) == Gather(f, |cs|);
    assert forall i: nat :: f(i) == EventsAt(d, cs, levels, right, i);
  }

  /** Any detector but that of regime changes speaks at just the bars that call for it. */
  lemma SpeaksIff(d: Detector, cs: seq<Candle>, levels: seq<Level>, right: int, i: nat)
    requires i < |cs| && !d.RegimeDetector?
    ensures EventsAt(d, cs, levels, right, i) != [] <==> Calls(d, cs, levels, right, i)
  {
    hide HighAt, LowAt, BreakStrength, RetestAt, LatestBreakout, Unbroken, LiveOf;
    if d.RetestDetector? { RetestIff(cs, levels, right + d.minBars, i); }
  }

  /** There is no regime change exactly when every vote is for a range, the regime before the first bar. */
  lemma {:induction false} NoChangeIff(cs: seq<Candle>, levels: seq<Level>, window: int, right: int, n: nat)
    requires n <= |cs|
    ensures (forall i: nat :: i < n ==> RegimeChangeAt(cs, levels, window, right, i) == []) <==>
            (forall i: nat :: i < n ==> RegimeAt(levels, window, right, i) == Range)
  {
    hide RegimeAt;
    if n != 0 {
      NoChangeIff(cs, levels, window, right, n - 1);
      var last := n - 1;
      assert RegimeChangeAt(cs, levels, window, right, last) == [] <==>
             RegimeAt(levels, window, right, last) == PreviousRegime(levels, window, right, last);
      if n > 1 {
        var before: nat := n - 2;
        assert before < last && PreviousRegime(levels, window, right, last) == RegimeAt(levels, window, right, before);
      }
      hide RegimeChangeAt, PreviousRegime;
    }
  }

  /** A detector is silent exactly when no bar calls for an event. */
  lemma SilentIff(d: Detector, cs: seq<Candle>, levels: seq<Level>, right: int)
    ensures Events(d, cs, levels, right) == [] <==> forall i: nat :: i < |cs| ==> !Calls(d, cs, levels, right, i)
  {
    hide Events, BosAt, ChochAt, RegimeChangeAt, BreakoutAt, RetestAt, RegimeAt, CrossesWith, CrossesAgainst, CrossesEither,
         HighAt, LowAt, LatestBreakout, Unbroken;
    EventsNothing(d, cs, levels, right);
    if d.RegimeDetector? {
      NoChangeIff(cs, levels, d.window, right, |cs|);
      assert forall i: nat :: EventsAt(d, cs, levels, right, i) == RegimeChangeAt(cs, levels, d.window, right, i);
      assert forall i: nat :: i < |cs| ==> (Calls(d, cs, levels, right, i) <==> RegimeAt(levels, d.window, right, i) != Range);
    } else {
      hide Calls, EventsAt;
      forall i: nat | i < |cs| ensures EventsAt(d, cs, levels, right, i) != [] <==> Calls(d, cs, levels, right, i) {
        SpeaksIff(d, cs, levels, right, i);
      }
    }
  }

  /** Without labels nothing is emitted. */
  lemma NoLevelsNoEvents(d: Detector, cs: seq<Candle>, right: int)
    ensures Events(d, cs, [], right) == []
  {
    NothingUpTo(d, cs, right, |cs|);
  }

  lemma {:induction false} NothingLive(cs: seq<Candle>, lag: int, i: nat)
    requires i < |cs|
    ensures LiveAfter(cs, [], lag, i) == None
  {
    if i != 0 { NothingLive(cs, lag, i - 1); }
  }

  lemma NothingAt(d: Detector, cs: seq<Candle>, right: int, i: nat)
    ensures EventsAt(d, cs, [], right, i) == []
  {
    if d.RetestDetector? && 0 < i < |cs| { NothingLive(cs, right + d.minBars, i - 1); }
  }

  lemma {:induction false} NothingUpTo(d: Detector, cs: seq<Candle>, right: int, n: nat)
    ensures EventsUpTo(d, cs, [], right, n) == []
  {
    hide EventsUpTo, EventsAt;
    if n == 0 {
      EventsNone(d, cs, [], right);
    } else {
      NothingUpTo(d, cs, right, n - 1);
      NothingAt(d, cs, right, n - 1);
      EventsNext(d, cs, [], right, n - 1);
    }
  }

  // ----- the fallback on the prefix only

  /**
    Where only the prefix has no label of its own, the code keeps its promise exactly when no
    bar of the prefix calls for an event under the default labels: all they call for is repainted.
   */
  lemma FallbackRepaintsIff(d: Detector, cs: seq<Candle>, left: nat, right: nat, k: nat)
    requires k <= |cs| && Patient(d)
    requires Structure(cs[..k], left, right) == [] && Structure(cs, left, right) != []
    ensures Pipeline(d, cs[..k], left, right) == Before(Pipeline(d, cs, left, right), k) <==>
            forall i: nat :: i < k ==> !Calls(d, cs[..k], DefaultLevels(cs[..k]), right, i)
  {
    hide Calls, Structure, Events, Before;
    NonRepainting(d, cs, left, right, k);
    NoLevelsNoEvents(d, cs[..k], right);
    assert Levels(Structure(cs[..k], left, right)) == [];
    SilentIff(d, cs[..k], DefaultLevels(cs[..k]), right);
  }

  // ----- the fallback on both sides

  /** What a detector is called to say at a bar. */
  datatype Signal = Quiet | Breaks(up: bool, level: Level) | Leans(regime: Regime) | Touches(live: Live)

  function SignalAt(d: Detector, cs: seq<Candle>, levels: seq<Level>, right: int, i: nat): Signal
    requires i < |cs|
  {
    match d
    case BosDetector =>
      var high, low := HighAt(levels, right, i), LowAt(levels, right, i);
      if !CrossesWith(cs, i, high, low) then Quiet
      else if RegimeFrom(high, low).Uptrend? then Breaks(true, high.value) else Breaks(false, low.value)
    case ChochDetector =>
      var high, low := HighAt(levels, right, i), LowAt(levels, right, i);
      if !CrossesAgainst(cs, i, high, low) then Quiet
      else if RegimeFrom(high, low).Uptrend? then Breaks(false, low.value) else Breaks(true, high.value)
    case RegimeDetector(window) =>
      var regime := RegimeAt(levels, window, right, i);
      if regime.Range? then Quiet else Leans(regime)
    case BreakoutDetector(minBars) =>
      var b := BreakoutLevel(cs, levels, right + minBars, i);
      if b.None? then Quiet else Breaks(b.value.0, b.value.1)
    case RetestDetector(minBars) =>
      if i == 0 then Quiet
      else
        var live := LiveAfter(cs, levels, right + minBars, i - 1);
        if live.None? || ClosesBack(live.value, cs[i]) || !Retests(live.value, cs[i]) then Quiet else Touches(live.value)
  }

  lemma BreakTells(kind: Kind, cs: seq<Candle>, i: nat, a: Level, b: Level)
    requires i < |cs|
    ensures BreakObject(kind, cs, i, Bullish, a) == BreakObject(kind, cs, i, Bullish, b) <==> a == b
    ensures BreakObject(kind, cs, i, Bearish, a) == BreakObject(kind, cs, i, Bearish, b) <==> a == b
    ensures BreakObject(kind, cs, i, Bullish, a) != BreakObject(kind, cs, i, Bearish, b)
  {
    hide BreakStrength;
  }

  lemma BreaksTell(kind: Kind, cs: seq<Candle>, i: nat)
    requires i < |cs|
    ensures forall a, b :: BreakObject(kind, cs, i, Bullish, a) == BreakObject(kind, cs, i, Bullish, b) <==> a == b
    ensures forall a, b :: BreakObject(kind, cs, i, Bearish, a) == BreakObject(kind, cs, i, Bearish, b) <==> a == b
    ensures forall a, b :: BreakObject(kind, cs, i, Bullish, a) != BreakObject(kind, cs, i, Bearish, b)
  {
    hide BreakObject;
    forall a, b
      ensures BreakObject(kind, cs, i, Bullish, a) == BreakObject(kind, cs, i, Bullish, b) <==> a == b
      ensures BreakObject(kind, cs, i, Bearish, a) == BreakObject(kind, cs, i, Bearish, b) <==> a == b
      ensures BreakObject(kind, cs, i, Bullish, a) != BreakObject(kind, cs, i, Bearish, b)
    {
      BreakTells(kind, cs, i, a, b);
    }
  }

  /** Two label lists make a break detector emit the same at a bar exactly when it is called to say the same. */
  lemma BreakSaysIff(d: Detector, cs: seq<Candle>, k: nat, a: seq<Level>, b: seq<Level>, right: int, i: nat)
    requires i < k <= |cs| && (d.BosDetector? || d.ChochDetector? || d.BreakoutDetector?)
    ensures EventsAt(d, cs[..k], a, right, i) == EventsAt(d, cs, b, right, i) <==>
            SignalAt(d, cs[..k], a, right, i) == SignalAt(d, cs, b, right, i)
  {
    hide HighAt, LowAt, BreakObject, RegimeAt, LiveAfter;
    var kind := if d.BosDetector? then Bos else if d.ChochDetector? then Choch else Breakout;
    BreaksPrefix(kind, cs, k, i);
    BreaksTell(kind, cs, i);
  }

  lemma RetestSaysIff(d: Detector, cs: seq<Candle>, k: nat, a: seq<Level>, b: seq<Level>, right: int, i: nat)
    requires i < k <= |cs| && d.RetestDetector?
    ensures EventsAt(d, cs[..k], a, right, i) == EventsAt(d, cs, b, right, i) <==>
            SignalAt(d, cs[..k], a, right, i) == SignalAt(d, cs, b, right, i)
  {
    hide LiveAfter, BreakStrength;
    if i > 0 {
      var live := LiveAfter(cs, b, right + d.minBars, i - 1);
      if live.Some? { StrengthPrefix(cs, k, i, live.value.level); }
    }
  }

  lemma {:induction false} GatherAgreeIff(f: nat -> seq<StructureObject>, g: nat -> seq<StructureObject>, n: nat)
    requires forall i: nat, j :: i < n && 0 <= j < |f(i)| ==> f(i)[j].bar == i
    requires forall i: nat, j :: i < n && 0 <= j < |g(i)| ==> g(i)[j].bar == i
    ensures Gather(f, n) == Gather(g, n) <==> forall i: nat :: i < n ==> f(i) == g(i)
  {
    if n != 0 {
      GatherAgreeIff(f, g, n - 1);
      if Gather(f, n) == Gather(g, n) {
        BeforeGather(f, n, n - 1);
        BeforeGather(g, n, n - 1);
        assert Gather(f, n)[|Gather(f, n - 1)|..] == f(n - 1);
        assert Gather(g, n)[|Gather(g, n - 1)|..] == g(n - 1);
      }
    }
  }

  /** The events of a prefix and the early events of the whole agree exactly when they do bar by bar. */
  lemma EventsAgreeIff(d: Detector, cs: seq<Candle>, k: nat, a: seq<Level>, b: seq<Level>, right: int)
    requires k <= |cs|
    ensures Events(d, cs[..k], a, right) == Before(Events(d, cs, b, right), k) <==>
            forall i: nat :: i < k ==> EventsAt(d, cs[..k], a, right, i) == EventsAt(d, cs, b, right, i)
    ensures Before(Events(d, cs, b, right), k) == EventsUpTo(d, cs, b, right, k)
  {
    hide EventsAt, Before;
    var f := (i: nat) => EventsAt(d, cs[..k], a, right, i);
    var g := (i: nat) => EventsAt(d, cs, b, right, i);
    forall i: nat, j | i < |cs| && 0 <= j < |g(i)| ensures g(i)[j].bar == i { EventsAtBar(d, cs, b, right, i); }
    forall i: nat, j | i < k && 0 <= j < |f(i)| ensures f(i)[j].bar == i { EventsAtBar(d, cs[..k], a, right, i); }
    GatherAgreeIff(f, g, k);
    BeforeGather(g, |cs|, k);
    assert EventsUpTo(d, cs[..k], a, right, k) == Gather(f, k);
    assert EventsUpTo(d, cs, b, right, |cs|) == Gather(g, |cs|);
    assert EventsUpTo(d, cs, b, right, k) == Gather(g, k);
    assert Events(d, cs[..k], a, right) == Gather(f, k) && Before(Events(d, cs, b, right), k) == Gather(g, k);
    assert forall i: nat :: f(i) == EventsAt(d, cs[..k], a, right, i) && g(i) == EventsAt(d, cs, b, right, i);
  }

  /** The lists of regime changes agree exactly when the votes do at every bar. */
  lemma ChangesAgreeIff(cs: seq<Candle>, k: nat, a: seq<Level>, b: seq<Level>, window: int, right: int)
    requires k <= |cs|
    ensures Events(RegimeDetector(window), cs[..k], a, right) == Before(Events(RegimeDetector(window), cs, b, right), k) <==>
            forall i: nat :: i < k ==> RegimeAt(a, window, right, i) == RegimeAt(b, window, right, i)
  {
    hide RegimeAt, EventsUpTo, Before;
    var d := RegimeDetector(window);
    EventsAgreeIff(d, cs, k, a, b, right);
    if Events(d, cs[..k], a, right) == Before(Events(d, cs, b, right), k) {
      forall i: nat | i < k ensures RegimeAt(a, window, right, i) == RegimeAt(b, window, right, i) {
        ChangesDecodeUpTo(cs[..k], a, window, right, k, i);
        ChangesDecodeUpTo(cs, b, window, right, k, i);
      }
    }
  }

  lemma SlightlyExtends(a: seq<Level>, b: seq<Level>, right: nat, k: int)
    requires Extends(a, b, SWING_RIGHT, k)
    ensures Extends(a, b, right, k - SWING_RIGHT)
  {
  }

  /** Before the last two bars of the prefix, the labels of the whole that it has not yet are out of sight. */
  lemma EarlyBarsAgree(d: Detector, cs: seq<Candle>, k: nat, a: seq<Level>, b: seq<Level>, right: nat, i: nat)
    requires k <= |cs| && Extends(a, b, SWING_RIGHT, k) && Patient(d) && i < k - SWING_RIGHT
    ensures EventsAt(d, cs[..k], a, right, i) == EventsAt(d, cs, b, right, i)
    ensures d.RegimeDetector? ==> RegimeAt(a, d.window, right, i) == RegimeAt(b, d.window, right, i)
  {
    var early := k - SWING_RIGHT;
    SlightlyExtends(a, b, right, k);
    assert Extends(a, a, right, early);
    assert cs[..k][..early] == cs[..early];
    if d.RegimeDetector? { KnownExtends(a, b, right, early, i); }
    hide Extends, EventsAt;
    EventsAtPrefix(d, cs, early, a, b, right, i);
    EventsAtPrefix(d, cs[..k], early, a, a, right, i);
  }

  lemma LateBarsIff(d: Detector, cs: seq<Candle>, k: nat, a: seq<Level>, b: seq<Level>, right: nat)
    requires k <= |cs| && Extends(a, b, SWING_RIGHT, k) && Patient(d)
    ensures Events(d, cs[..k], a, right) == Before(Events(d, cs, b, right), k) <==>
            forall i: nat :: k - SWING_RIGHT <= i < k ==> SignalAt(d, cs[..k], a, right, i) == SignalAt(d, cs, b, right, i)
  {
    hide Extends, Events, Before, RegimeAt;
    forall i: nat | i < k - SWING_RIGHT
      ensures EventsAt(d, cs[..k], a, right, i) == EventsAt(d, cs, b, right, i)
      ensures d.RegimeDetector? ==> RegimeAt(a, d.window, right, i) == RegimeAt(b, d.window, right, i)
    {
      EarlyBarsAgree(d, cs, k, a, b, right, i);
    }
    hide EventsAt;
    if d.RegimeDetector? {
      ChangesAgreeIff(cs, k, a, b, d.window, right);
      assert forall i: nat :: i < k ==>
        (SignalAt(d, cs[..k], a, right, i) == SignalAt(d, cs, b, right, i) <==>
         RegimeAt(a, d.window, right, i) == RegimeAt(b, d.window, right, i));
    } else {
      hide SignalAt;
      EventsAgreeIff(d, cs, k, a, b, right);
      forall i: nat | i < k
        ensures EventsAt(d, cs[..k], a, right, i) == EventsAt(d, cs, b, right, i) <==>
                SignalAt(d, cs[..k], a, right, i) == SignalAt(d, cs, b, right, i)
      {
        if d.RetestDetector? { RetestSaysIff(d, cs, k, a, b, right, i); } else { BreakSaysIff(d, cs, k, a, b, right, i); }
      }
    }
  }

  /**
    Where the whole series has no label of its own either, both sides take the default labels.
    Nothing is repainted if `right` is not below theirs; in any case the code keeps its promise
    exactly when, at the last two bars of the prefix, the default labels of the prefix and of
    the whole series that count as confirmed there call for the same.
   */
  lemma FallbackOnBothSides(d: Detector, cs: seq<Candle>, left: nat, right: nat, k: nat)
    requires Patient(d)
    requires k <= |cs|
    requires |Structure(cs, left, right)| == 0
    ensures right >= SWING_RIGHT ==> Pipeline(d, cs[..k], left, right) == Before(Pipeline(d, cs, left, right), k)
    ensures Pipeline(d, cs[..k], left, right) == Before(Pipeline(d, cs, left, right), k) <==>
            forall i: nat :: k - SWING_RIGHT <= i < k ==>
              SignalAt(d, cs[..k], DefaultLevels(cs[..k]), right, i) == SignalAt(d, cs, DefaultLevels(cs), right, i)
  {
    hide Structure, Events, Before, SignalAt, Extends;
    NoPrefixLabels(cs, left, right, k);
    StructurePrefix(cs, SWING_LEFT, SWING_RIGHT, k);
    var a, b := DefaultLevels(cs[..k]), DefaultLevels(cs);
    LateBarsIff(d, cs, k, a, b, right);
    if right >= SWING_RIGHT {
      ExtendsLater(a, b, SWING_RIGHT, right, k);
      EventsPrefix(d, cs, k, a, b, right);
    }
  }

  lemma NoPrefixLabels(cs: seq<Candle>, left: nat, right: nat, k: nat)
    requires k <= |cs| && Structure(cs, left, right) == []
    ensures Structure(cs[..k], left, right) == []
  {
    StructurePrefix(cs, left, right, k);
    assert |Levels(Structure(cs[..k], left, right))| <= |Levels(Structure(cs, left, right))| == 0;
  }

  // ----- what the fallback on both sides costs a breakout

  lemma {:induction false} LatestLater(levels: seq<Level>, m: nat)
    requires m <= |levels|
    ensures LatestHigh(levels) == LatestHigh(levels[..m]) ||
            exists j :: m <= j < |levels| && LatestHigh(levels) == Some(levels[j]) && HighKind(levels[j].kind)
    ensures LatestLow(levels) == LatestLow(levels[..m]) ||
            exists j :: m <= j < |levels| && LatestLow(levels) == Some(levels[j]) && LowKind(levels[j].kind)
  {
    if m < |levels| {
      var n := |levels| - 1;
      LatestLater(levels[..n], m);
      assert levels[..n][..m] == levels[..m];
      assert forall j :: m <= j < n ==> levels[..n][j] == levels[j];
    } else {
      assert levels[..m] == levels;
    }
  }

  /** A label that the prefix does not have yet although it counts as confirmed at the bar. */
  predicate Late(b: seq<Level>, m: nat, lag: int, k: int, i: int, j: int) {
    m <= j < |b| && b[j].bar + lag <= i && b[j].bar + SWING_RIGHT >= k
  }

  lemma LastOrLate(a: seq<Level>, b: seq<Level>, lag: int, k: int, i: int)
    requires Extends(a, b, SWING_RIGHT, k)
    ensures HighAt(b, lag, i) == HighAt(a, lag, i) ||
            exists j :: Late(b, |a|, lag, k, i, j) && HighAt(b, lag, i) == Some(b[j]) && HighKind(b[j].kind)
    ensures LowAt(b, lag, i) == LowAt(a, lag, i) ||
            exists j :: Late(b, |a|, lag, k, i, j) && LowAt(b, lag, i) == Some(b[j]) && LowKind(b[j].kind)
  {
    var n := Confirmed(b, lag, i);
    ConfirmedUpTo(a, b, lag, i);
    hide Confirmed, LatestHigh, LatestLow;
    if n >= |a| {
      assert b[..n][..|a|] == a && a[..|a|] == a;
      LatestLater(b[..n], |a|);
      assert forall j :: |a| <= j < n ==> b[..n][j] == b[j] && Late(b, |a|, lag, k, i, j);
    } else {
      assert b[..n] == a[..n];
    }
  }

  lemma {:induction false} ConfirmedUpTo(a: seq<Level>, b: seq<Level>, lag: int, i: int)
    requires |a| <= |b| && b[..|a|] == a
    ensures Confirmed(a, lag, i) == if Confirmed(b, lag, i) < |a| then Confirmed(b, lag, i) else |a|
    ensures forall j :: 0 <= j < Confirmed(b, lag, i) ==> b[j].bar + lag <= i
  {
    if |a| < |b| {
      ConfirmedUpTo(a, b[..|b|-1], lag, i);
    } else {
      assert a == b;
    }
  }

  /** The level is that of a swing of its polarity at its bar. */
  predicate AtSwing(cs: seq<Candle>, left: nat, right: nat, level: Level) {
    && (HighKind(level.kind) ==> IsSwingHigh(cs, left, right, level.bar) && level.price == cs[level.bar].h)
    && (LowKind(level.kind) ==> IsSwingLow(cs, left, right, level.bar) && level.price == cs[level.bar].low)
  }

  lemma {:induction false} SwingsAreSwings(cs: seq<Candle>, left: nat, right: nat, n: nat)
    ensures forall s :: s in SwingsUpTo(cs, left, right, n) ==> AtSwing(cs, left, right, LevelOf(s))
  {
    hide SwingsUpTo, IsSwingHigh, IsSwingLow, SwingStrength;
    if n == 0 {
      NoSwings(cs, left, right);
    } else {
      SwingsAreSwings(cs, left, right, n - 1);
      SwingsNext(cs, left, right, n - 1);
    }
  }

  lemma {:induction false} ClassifyKinds(swings: seq<StructureObject>, j: nat)
    requires AllRaw(swings) && j < |swings|
    ensures |Classify(swings)| == |swings|
    ensures HighKind(Classify(swings)[j].kind) <==> HighKind(swings[j].kind)
    ensures LowKind(Classify(swings)[j].kind) <==> LowKind(swings[j].kind)
  {
    hide LastRaw;
    var n := |swings| - 1;
    ClassifyGrows(swings[..n], n);
    if j < n { ClassifyKinds(swings[..n], j); }
  }

  lemma LabelsAreSwings(cs: seq<Candle>, left: nat, right: nat, j: nat)
    requires j < |Levels(Structure(cs, left, right))|
    ensures AtSwing(cs, left, right, Levels(Structure(cs, left, right))[j])
  {
    hide SwingsUpTo, Classify, AllRaw, HighKind, LowKind, IsSwingHigh, IsSwingLow;
    var swings := Swings(cs, left, right);
    SwingsRaw(cs, left, right, |cs|);
    SwingsAreSwings(cs, left, right, |cs|);
    ClassifyGrows(swings, |swings|);
    ClassifyKinds(swings, j);
    assert swings[j] in SwingsUpTo(cs, left, right, |cs|);
  }

  /** No bar that a swing towers over, or the swing's own, closes beyond it. */
  lemma LateUncrossed(cs: seq<Candle>, level: Level, i: nat)
    requires WellFormedSeries(cs) && AtSwing(cs, SWING_LEFT, SWING_RIGHT, level)
    requires level.bar <= i <= level.bar + SWING_RIGHT && i < |cs|
    ensures HighKind(level.kind) ==> !CrossesUp(cs, i, level.price)
    ensures LowKind(level.kind) ==> !CrossesDown(cs, i, level.price)
  {
    assert WellFormedBar(cs[i]);
  }

  /** The breakout that the prefix sees at the bar is of a level that is no longer the last of its polarity. */
  predicate Hidden(cs: seq<Candle>, k: nat, a: seq<Level>, b: seq<Level>, right: nat, minBars: nat, i: nat)
    requires k <= |cs|
  {
    var lag := right + minBars;
    var breakout := BreakoutLevel(cs[..k], a, lag, i);
    breakout.Some? && Some(breakout.value.1) != if breakout.value.0 then HighAt(b, lag, i) else LowAt(b, lag, i)
  }

  lemma HiddenIff(cs: seq<Candle>, k: nat, a: seq<Level>, b: seq<Level>, right: nat, minBars: nat, i: nat)
    requires WellFormedSeries(cs) && i < k <= |cs| && Extends(a, b, SWING_RIGHT, k)
    requires forall j :: 0 <= j < |b| ==> AtSwing(cs, SWING_LEFT, SWING_RIGHT, b[j])
    ensures BreakoutLevel(cs[..k], a, right + minBars, i) == BreakoutLevel(cs, b, right + minBars, i) <==>
            !Hidden(cs, k, a, b, right, minBars, i)
    ensures Hidden(cs, k, a, b, right, minBars, i) ==> BreakoutLevel(cs, b, right + minBars, i) == None
  {
    hide Extends, HighAt, LowAt, AtSwing, WellFormedSeries, HighKind, LowKind;
    LateNeverCrossed(cs, k, a, b, right + minBars, i);
  }

  /** At a bar of the prefix, a last level of the whole that the prefix does not have is not crossed its own way. */
  lemma LateNeverCrossed(cs: seq<Candle>, k: nat, a: seq<Level>, b: seq<Level>, lag: nat, i: nat)
    requires WellFormedSeries(cs) && i < k <= |cs| && Extends(a, b, SWING_RIGHT, k)
    requires forall j :: 0 <= j < |b| ==> AtSwing(cs, SWING_LEFT, SWING_RIGHT, b[j])
    ensures HighAt(b, lag, i) == HighAt(a, lag, i) || (HighAt(b, lag, i).Some? && !CrossesUp(cs, i, HighAt(b, lag, i).value.price))
    ensures LowAt(b, lag, i) == LowAt(a, lag, i) || (LowAt(b, lag, i).Some? && !CrossesDown(cs, i, LowAt(b, lag, i).value.price))
  {
    hide Extends, HighAt, LowAt, AtSwing, WellFormedSeries, HighKind, LowKind, CrossesUp, CrossesDown;
    LastOrLate(a, b, lag, k, i);
    if HighAt(b, lag, i) != HighAt(a, lag, i) {
      var j :| Late(b, |a|, lag, k, i, j) && HighAt(b, lag, i) == Some(b[j]) && HighKind(b[j].kind);
      LateUncrossed(cs, b[j], i);
    }
    if LowAt(b, lag, i) != LowAt(a, lag, i) {
      var j :| Late(b, |a|, lag, k, i, j) && LowAt(b, lag, i) == Some(b[j]) && LowKind(b[j].kind);
      LateUncrossed(cs, b[j], i);
    }
  }

  /**
    For breakouts on well-formed candles: the code keeps its promise exactly when no breakout
    that the prefix sees at its last two bars is of a level that a label to come supersedes.
   */
  lemma BreakoutFallbackIff(cs: seq<Candle>, left: nat, right: nat, minBars: nat, k: nat)
    requires k <= |cs| && WellFormedSeries(cs)
    requires Structure(cs, left, right) == []
    ensures var d := BreakoutDetector(minBars);
            Pipeline(d, cs[..k], left, right) == Before(Pipeline(d, cs, left, right), k) <==>
            forall i: nat :: k - SWING_RIGHT <= i < k ==>
              !Hidden(cs, k, DefaultLevels(cs[..k]), DefaultLevels(cs), right, minBars, i)
  {
    hide Structure, Before, Pipeline, Extends, BreakoutLevel, AtSwing, Hidden;
    var d := BreakoutDetector(minBars);
    FallbackOnBothSides(d, cs, left, right, k);
    DefaultExtends(cs, k);
    var a, b := DefaultLevels(cs[..k]), DefaultLevels(cs);
    forall i: nat | k - SWING_RIGHT <= i < k
      ensures SignalAt(d, cs[..k], a, right, i) == SignalAt(d, cs, b, right, i) <==> !Hidden(cs, k, a, b, right, minBars, i)
    {
      HiddenIff(cs, k, a, b, right, minBars, i);
    }
  }

  lemma DefaultExtends(cs: seq<Candle>, k: nat)
    requires k <= |cs|
    ensures Extends(DefaultLevels(cs[..k]), DefaultLevels(cs), SWING_RIGHT, k)
    ensures forall j :: 0 <= j < |DefaultLevels(cs)| ==> AtSwing(cs, SWING_LEFT, SWING_RIGHT, DefaultLevels(cs)[j])
  {
    hide Structure, Extends, AtSwing;
    StructurePrefix(cs, SWING_LEFT, SWING_RIGHT, k);
    forall j | 0 <= j < |DefaultLevels(cs)| ensures AtSwing(cs, SWING_LEFT, SWING_RIGHT, DefaultLevels(cs)[j]) {
      LabelsAreSwings(cs, SWING_LEFT, SWING_RIGHT, j);
    }
  }

  // ----- what it costs a break in or against the trend

  /** The regime of the last labels confirmed at a bar. */
  function RegimeKnown(levels: seq<Level>, lag: int, i: int): Regime {
    RegimeFrom(HighAt(levels, lag, i), LowAt(levels, lag, i))
  }

  /** The prefix sees a break of a level that a label to come supersedes, or in a regime that one changes. */
  predicate Overruled(d: Detector, cs: seq<Candle>, k: nat, a: seq<Level>, b: seq<Level>, right: nat, i: nat)
    requires i < k <= |cs|
  {
    var s := SignalAt(d, cs[..k], a, right, i);
    s.Breaks? && (Some(s.level) != (if s.up then HighAt(b, right, i) else LowAt(b, right, i))
                  || RegimeKnown(a, right, i) != RegimeKnown(b, right, i))
  }

  /** A label to come changes the regime into one in which the bar breaks a level of the prefix. */
  predicate Licensed(d: Detector, cs: seq<Candle>, a: seq<Level>, b: seq<Level>, right: nat, i: nat)
    requires i < |cs|
  {
    var s := SignalAt(d, cs, b, right, i);
    s.Breaks? && Some(s.level) == (if s.up then HighAt(a, right, i) else LowAt(a, right, i))
    && RegimeKnown(a, right, i) != RegimeKnown(b, right, i)
  }

  lemma OverruledIff(d: Detector, cs: seq<Candle>, k: nat, a: seq<Level>, b: seq<Level>, right: nat, i: nat)
    requires WellFormedSeries(cs) && i < k <= |cs| && Extends(a, b, SWING_RIGHT, k) && (d.BosDetector? || d.ChochDetector?)
    requires forall j :: 0 <= j < |b| ==> AtSwing(cs, SWING_LEFT, SWING_RIGHT, b[j])
    ensures SignalAt(d, cs[..k], a, right, i) == SignalAt(d, cs, b, right, i) <==>
            !Overruled(d, cs, k, a, b, right, i) && !Licensed(d, cs, a, b, right, i)
  {
    hide Extends, HighAt, LowAt, AtSwing, WellFormedSeries, HighKind, LowKind, RegimeAt, BreakoutLevel, LiveAfter;
    LateNeverCrossed(cs, k, a, b, right, i);
  }

  /**
    For breaks of structure and changes of character on well-formed candles: the code keeps
    its promise exactly when, at the last two bars of the prefix, no label to come supersedes
    the broken level, nor makes or unmakes the regime of a break.
   */
  lemma BreakFallbackIff(d: Detector, cs: seq<Candle>, left: nat, right: nat, k: nat)
    requires k <= |cs| && WellFormedSeries(cs) && (d.BosDetector? || d.ChochDetector?)
    requires Structure(cs, left, right) == []
    ensures Pipeline(d, cs[..k], left, right) == Before(Pipeline(d, cs, left, right), k) <==>
            forall i: nat :: k - SWING_RIGHT <= i < k ==>
              && !Overruled(d, cs, k, DefaultLevels(cs[..k]), DefaultLevels(cs), right, i)
              && !Licensed(d, cs, DefaultLevels(cs[..k]), DefaultLevels(cs), right, i)
  {
    hide Structure, Before, Pipeline, Extends, AtSwing, SignalAt, Overruled, Licensed, DefaultLevels;
    FallbackOnBothSides(d, cs, left, right, k);
    DefaultExtends(cs, k);
    var a, b := DefaultLevels(cs[..k]), DefaultLevels(cs);
    forall i: nat | k - SWING_RIGHT <= i < k
      ensures SignalAt(d, cs[..k], a, right, i) == SignalAt(d, cs, b, right, i) <==>
              !Overruled(d, cs, k, a, b, right, i) && !Licensed(d, cs, a, b, right, i)
    {
      OverruledIff(d, cs, k, a, b, right, i);
    }
  }

  // ----- what it costs a regime

  /** The labels of the whole that the prefix does not have. */
  function ToCome(a: seq<Level>, b: seq<Level>): seq<Level> {
    if |a| <= |b| then b[|a|..] else []
  }

  lemma {:induction false} KnownConcat(a: seq<Level>, b: seq<Level>, lag: int, i: int)
    ensures KnownBy(a + b, lag, i) == KnownBy(a, lag, i) + KnownBy(b, lag, i)
  {
    if b == [] {
      assert a + b == a;
    } else {
      assert (a + b)[..|a+b|-1] == a + b[..|b|-1];
      KnownConcat(a, b[..|b|-1], lag, i);
    }
  }

  /** The vote at a bar is the same without the labels to come that count as confirmed there as with them. */
  predicate VoteStands(a: seq<Level>, b: seq<Level>, window: int, right: nat, i: nat) {
    Vote(KnownBy(a, right, i) + KnownBy(ToCome(a, b), right, i), window) == Vote(KnownBy(a, right, i), window)
  }

  lemma VoteStandsIff(cs: seq<Candle>, k: nat, a: seq<Level>, b: seq<Level>, window: int, right: nat, i: nat)
    requires i < k <= |cs| && Extends(a, b, SWING_RIGHT, k)
    ensures SignalAt(RegimeDetector(window), cs[..k], a, right, i) == SignalAt(RegimeDetector(window), cs, b, right, i) <==>
            VoteStands(a, b, window, right, i)
  {
    assert b == a + ToCome(a, b);
    KnownConcat(a, ToCome(a, b), right, i);
    hide Vote, KnownBy;
  }

  /**
    For regime changes: the code keeps its promise exactly when, at the last two bars of the
    prefix, the labels to come that count as confirmed there do not turn the vote.
   */
  lemma RegimeFallbackIff(cs: seq<Candle>, left: nat, right: nat, window: int, k: nat)
    requires k <= |cs|
    requires Structure(cs, left, right) == []
    ensures var d := RegimeDetector(window);
            Pipeline(d, cs[..k], left, right) == Before(Pipeline(d, cs, left, right), k) <==>
            forall i: nat :: k - SWING_RIGHT <= i < k ==> VoteStands(DefaultLevels(cs[..k]), DefaultLevels(cs), window, right, i)
  {
    hide Structure, Before, Pipeline, Extends, SignalAt, VoteStands, DefaultLevels;
    var d := RegimeDetector(window);
    FallbackOnBothSides(d, cs, left, right, k);
    DefaultExtends(cs, k);
    var a, b := DefaultLevels(cs[..k]), DefaultLevels(cs);
    forall i: nat | k - SWING_RIGHT <= i < k
      ensures SignalAt(d, cs[..k], a, right, i) == SignalAt(d, cs, b, right, i) <==> VoteStands(a, b, window, right, i)
    {
      VoteStandsIff(cs, k, a, b, window, right, i);
    }
  }

  // ----- what it costs a retest

  lemma {:induction false} LiveBar(cs: seq<Candle>, levels: seq<Level>, lag: int, i: nat)
    requires i < |cs|
    ensures LiveAfter(cs, levels, lag, i).Some? ==> LiveAfter(cs, levels, lag, i).value.bar <= i
  {
    hide BreakoutLevel;
    if i != 0 { LiveBar(cs, levels, lag, i - 1); }
  }

  /** Before the last two bars of the prefix the live breakout is that of the whole. */
  lemma LiveAgrees(cs: seq<Candle>, k: nat, a: seq<Level>, b: seq<Level>, lag: nat, i: nat)
    requires k <= |cs| && Extends(a, b, SWING_RIGHT, k) && i < k - SWING_RIGHT
    ensures LiveAfter(cs[..k], a, lag, i) == LiveAfter(cs, b, lag, i)
  {
    var early := k - SWING_RIGHT;
    SlightlyExtends(a, b, lag, k);
    assert Extends(a, a, lag, early);
    assert cs[..k][..early] == cs[..early];
    hide Extends, LiveAfter;
    LivePrefix(cs, early, a, b, lag, i);
    LivePrefix(cs[..k], early, a, a, lag, i);
  }

  lemma NextLive(cs: seq<Candle>, levels: seq<Level>, lag: int, i: nat)
    requires 0 < i < |cs|
    ensures LiveAfter(cs, levels, lag, i) ==
            var b, live := BreakoutLevel(cs, levels, lag, i), LiveAfter(cs, levels, lag, i - 1);
            if b.Some? then Some(Live(b.value.0, b.value.1.price, i))
            else if live.Some? && ClosesBack(live.value, cs[i]) then None
            else live
  {
  }

  /** The live breakouts of prefix and whole part exactly where a hidden breakout took over; they are then never the same. */
  lemma LivePartsIff(cs: seq<Candle>, k: nat, a: seq<Level>, b: seq<Level>, right: nat, minBars: nat)
    requires SWING_RIGHT <= k && WellFormedSeries(cs) && k <= |cs| && Extends(a, b, SWING_RIGHT, k)
    requires forall j :: 0 <= j < |b| ==> AtSwing(cs, SWING_LEFT, SWING_RIGHT, b[j])
    ensures var i := k - SWING_RIGHT;
            var early, late := LiveAfter(cs[..k], a, right + minBars, i), LiveAfter(cs, b, right + minBars, i);
            && (early == late <==> !Hidden(cs, k, a, b, right, minBars, i))
            && (Hidden(cs, k, a, b, right, minBars, i) ==> early.Some? && (late.Some? ==> late.value != early.value))
  {
    var i := k - SWING_RIGHT;
    hide Extends, AtSwing, WellFormedSeries, HighAt, LowAt;
    if i > 0 {
      HiddenIff(cs, k, a, b, right, minBars, i);
      LiveAgrees(cs, k, a, b, right + minBars, i - 1);
      LiveBar(cs, b, right + minBars, i - 1);
      hide LiveAfter, BreakoutLevel;
      NextLive(cs, b, right + minBars, i);
      NextLive(cs[..k], a, right + minBars, i);
    }
  }

  /** A hidden breakout at the last bar but one changes what is retested at the last. */
  predicate RetestChanged(cs: seq<Candle>, k: nat, a: seq<Level>, b: seq<Level>, right: nat, minBars: nat)
    requires k <= |cs|
  {
    k >= SWING_RIGHT && Hidden(cs, k, a, b, right, minBars, k - SWING_RIGHT) &&
    (SignalAt(RetestDetector(minBars), cs[..k], a, right, k - 1) != Quiet || SignalAt(RetestDetector(minBars), cs, b, right, k - 1) != Quiet)
  }

  lemma RetestChangedIff(cs: seq<Candle>, k: nat, a: seq<Level>, b: seq<Level>, right: nat, minBars: nat)
    requires WellFormedSeries(cs) && k <= |cs| && Extends(a, b, SWING_RIGHT, k)
    requires forall j :: 0 <= j < |b| ==> AtSwing(cs, SWING_LEFT, SWING_RIGHT, b[j])
    ensures var d := RetestDetector(minBars);
            (forall i: nat :: k - SWING_RIGHT <= i < k ==> SignalAt(d, cs[..k], a, right, i) == SignalAt(d, cs, b, right, i)) <==>
            !RetestChanged(cs, k, a, b, right, minBars)
  {
    hide Extends, AtSwing, WellFormedSeries, LiveAfter, Hidden;
    var d := RetestDetector(minBars);
    if k >= SWING_RIGHT {
      LivePartsIff(cs, k, a, b, right, minBars);
      if k > SWING_RIGHT { LiveAgrees(cs, k, a, b, right + minBars, k - SWING_RIGHT - 1); }
      var before: nat, last: nat := k - SWING_RIGHT, k - 1;
      assert SignalAt(d, cs[..k], a, right, before) == SignalAt(d, cs, b, right, before);
    }
  }

  /**
    For retests on well-formed candles: the code keeps its promise exactly when the prefix's
    last bar but one makes no breakout of a level that a label to come supersedes, or else the
    last bar retests neither that breakout nor the one that was live before it.
   */
  lemma RetestFallbackIff(cs: seq<Candle>, left: nat, right: nat, minBars: nat, k: nat)
    requires k <= |cs| && WellFormedSeries(cs)
    requires Structure(cs, left, right) == []
    ensures var d := RetestDetector(minBars);
            Pipeline(d, cs[..k], left, right) == Before(Pipeline(d, cs, left, right), k) <==>
            !RetestChanged(cs, k, DefaultLevels(cs[..k]), DefaultLevels(cs), right, minBars)
  {
    hide Structure, Before, Pipeline, Extends, AtSwing, SignalAt, RetestChanged, DefaultLevels;
    FallbackOnBothSides(RetestDetector(minBars), cs, left, right, k);
    DefaultExtends(cs, k);
    RetestChangedIff(cs, k, DefaultLevels(cs[..k]), DefaultLevels(cs), right, minBars);
  }

  // ----- the fallback does repaint

  function Spike(h: real, c: real): Candle {
    Candle("X", "H1", 0, 1.0, h, 1.0, c)
  }

  /** Nine bars with one spike at bar 5 that bar 8 closes above, and two bars more. */
  function SpikeSeries(): seq<Candle> {
    [Spike(10.0, 2.0), Spike(10.0, 2.0), Spike(10.0, 2.0), Spike(10.0, 2.0), Spike(10.0, 2.0), Spike(20.0, 2.0),
     Spike(10.0, 2.0), Spike(10.0, 2.0), Spike(30.0, 25.0), Spike(10.0, 2.0), Spike(10.0, 2.0)]
  }

  /** A swing needs its whole window in the series, and a strict extreme in it. */
  lemma NoSwingHere(cs: seq<Candle>, left: nat, right: nat, i: nat)
    requires !(left <= i && i + right < |cs|) ||
             (exists j, k :: && i - left <= j <= i + right && j != i && cs[j].h >= cs[i].h
                             && i - left <= k <= i + right && k != i && cs[k].low <= cs[i].low)
    ensures SwingsAt(cs, left, right, i) == []
  {
  }

  /** Seen through six bars to the left, the nine-bar prefix has no swing; through five it has its spike. */
  lemma SpikeSwings()
    ensures Swings(SpikeSeries()[..9], 6, 2) == []
    ensures IsSwingHigh(SpikeSeries(), 6, 2, 8)
    ensures SwingsAt(SpikeSeries()[..9], 5, 2, 5) == [SwingObject(SpikeSeries()[..9], 5, true)]
    ensures forall i: nat :: i < 9 && i != 5 ==> SwingsAt(SpikeSeries()[..9], 5, 2, i) == []
  {
    hide SpikeSeries, SwingObject;
    var cs := SpikeSeries();
    SpikeBars();
    var prefix := cs[..9];
    forall i: nat | i < 9 ensures SwingsAt(prefix, 6, 2, i) == [] {
      if i == 6 { assert prefix[5].h >= prefix[6].h && prefix[5].low <= prefix[6].low; }
      NoSwingHere(prefix, 6, 2, i);
    }
    NoSwingAnywhere(prefix, 6, 2, 9);
    forall i: nat | i < 9 && i != 5 ensures SwingsAt(prefix, 5, 2, i) == [] {
      if i == 6 { assert prefix[5].h >= prefix[6].h && prefix[5].low <= prefix[6].low; }
      NoSwingHere(prefix, 5, 2, i);
    }
    assert prefix[4].low == prefix[5].low;
    assert IsSwingHigh(prefix, 5, 2, 5) && !IsSwingLow(prefix, 5, 2, 5);
  }

  lemma SpikeBars()
    ensures var cs := SpikeSeries();
            && |cs| == 11 && cs[5] == Spike(20.0, 2.0) && cs[8] == Spike(30.0, 25.0)
            && forall i :: 0 <= i < 11 && i != 5 && i != 8 ==> cs[i].h == 10.0 && cs[i].low == 1.0
  {
  }

  lemma SpikeStructure()
    ensures Levels(Structure(SpikeSeries()[..9], SWING_LEFT, SWING_RIGHT)) == [Level(SwingHigh, 20.0, 5)]
  {
    hide SwingsUpTo, SwingsAt, SwingStrength;
    var prefix := SpikeSeries()[..9];
    SpikeSwings();
    NoSwingAnywhere(prefix, 5, 2, 5);
    SwingsNext(prefix, 5, 2, 5);
    NoSwingSince(prefix, 5, 2, 6, 9);
    OneSwing(SwingObject(prefix, 5, true));
  }

  lemma OneSwing(swing: StructureObject)
    requires swing.kind.SwingHigh?
    ensures Classify([swing]) == [swing]
  {
  }

  /**
    With other parameters than the default the fallback repaints: the breakout that the nine
    bars call for vanishes two bars later, when the series has a label of its own.
   */
  lemma SpikeRepaints()
    ensures var cs := SpikeSeries();
            Pipeline(BreakoutDetector(0), cs[..9], 6, 2) != Before(Pipeline(BreakoutDetector(0), cs, 6, 2), 9)
  {
    hide Structure, Pipeline, Before, CrossesEither, HighAt, LowAt;
    var cs := SpikeSeries();
    var d := BreakoutDetector(0);
    SpikeLater();
    SpikeStructure();
    FallbackRepaintsIff(d, cs, 6, 2, 9);
    SpikeCalls(2);
    assert Calls(d, cs[..9], DefaultLevels(cs[..9]), 2, 8);
  }

  lemma SpikeLater()
    ensures Structure(SpikeSeries()[..9], 6, 2) == []
    ensures Structure(SpikeSeries(), 6, 2) != []
  {
    var cs := SpikeSeries();
    SpikeSwings();
    hide IsSwingLow, SwingStrength, Classify, IsSwingHigh, SwingsUpTo;
    ClassifyGrows([], 0);
    SwingsRaw(cs, 6, 2, 11);
    SwingsNext(cs, 6, 2, 8);
    SwingsUpToGrow(cs, 6, 2, 9, 11);
    ClassifyGrows(Swings(cs, 6, 2), 0);
  }

  /** The close of bar 8 crosses the first spike. */
  lemma SpikeCalls(lag: nat)
    requires lag <= 2
    ensures var prefix, level := SpikeSeries()[..9], Level(SwingHigh, 20.0, 5);
            && HighAt([level], lag, 8) == Some(level) && CrossesUp(prefix, 8, 20.0)
            && CrossesEither(prefix, 8, HighAt([level], lag, 8), LowAt([level], lag, 8))
            && BreakoutLevel(prefix, [level], lag, 8) == Some((true, level))
  {
    var level := Level(SwingHigh, 20.0, 5);
    assert [level][..1] == [level];
    assert Confirmed([level], lag, 8) == 1;
  }

  /** With the two last bars, the bar that breaks the first spike is itself a spike, and a higher high. */
  lemma SpikeWholeSwings()
    ensures var cs := SpikeSeries();
            Swings(cs, 5, 2) == [SwingObject(cs, 5, true), SwingObject(cs, 8, true)]
  {
    hide SwingsUpTo, SwingsAt, SwingObject, SpikeSeries;
    var cs := SpikeSeries();
    SpikeBars();
    forall i: nat | i < 11 ensures SwingsAt(cs, 5, 2, i) == if i == 5 || i == 8 then [SwingObject(cs, i, true)] else [] {
      SpikeWholeAt(i);
    }
    NoSwingAnywhere(cs, 5, 2, 5);
    SwingsNext(cs, 5, 2, 5);
    NoSwingSince(cs, 5, 2, 6, 8);
    SwingsNext(cs, 5, 2, 8);
    NoSwingSince(cs, 5, 2, 9, 11);
  }

  lemma SpikeWholeAt(i: nat)
    requires i < 11
    ensures var cs := SpikeSeries();
            i < |cs| && SwingsAt(cs, 5, 2, i) == if i == 5 || i == 8 then [SwingObject(cs, i, true)] else []
  {
    hide SpikeSeries, SwingObject;
    var cs := SpikeSeries();
    SpikeBars();
    if i == 5 || i == 8 {
      assert cs[i-1].low == cs[i].low;
      assert IsSwingHigh(cs, 5, 2, i) && !IsSwingLow(cs, 5, 2, i);
    } else {
      if i == 6 || i == 7 { assert cs[5].h >= cs[i].h && cs[5].low <= cs[i].low; }
      NoSwingHere(cs, 5, 2, i);
    }
  }

  lemma TwoHighs(a: StructureObject, b: StructureObject)
    requires a.kind.SwingHigh? && b.kind.SwingHigh? && b.price > a.price
    ensures Levels(Classify([a, b])) == [LevelOf(a), Level(HH, b.price, b.bar)]
  {
    assert [a][..0] == [] && [a, b][..1] == [a];
    assert Classify([a]) == [a];
    assert LastRaw([a], SwingHigh) == Some(a);
    assert Classify([a, b]) == [a, Label(b, Some(a))];
  }

  lemma SpikeWholeStructure()
    ensures DefaultLevels(SpikeSeries()) == [Level(SwingHigh, 20.0, 5), Level(HH, 30.0, 8)]
  {
    var cs := SpikeSeries();
    SpikeWholeSwings();
    hide Swings, SwingStrength, Classify;
    TwoHighs(SwingObject(cs, 5, true), SwingObject(cs, 8, true));
  }

  lemma NoLabelAtAll(cs: seq<Candle>, left: nat, right: nat)
    requires |cs| <= left
    ensures Structure(cs, left, right) == []
  {
    forall i: nat | i < |cs| ensures SwingsAt(cs, left, right, i) == [] { NoSwingHere(cs, left, right, i); }
    NoSwingAnywhere(cs, left, right, |cs|);
    hide SwingsAt, SwingsUpTo;
  }

  /** Seen without waiting, bar 8 is the last high of the whole series at bar 8, and its own close does not cross it. */
  lemma SpikeHidden()
    ensures var levels := [Level(SwingHigh, 20.0, 5), Level(HH, 30.0, 8)];
            HighAt(levels, 0, 8) == Some(levels[1]) && LowAt(levels, 0, 8) == None
            && BreakoutLevel(SpikeSeries(), levels, 0, 8) == None
  {
    var levels := [Level(SwingHigh, 20.0, 5), Level(HH, 30.0, 8)];
    assert levels[..2] == levels && levels[..1] == [levels[0]] && [levels[0]][..0] == [];
    assert Confirmed(levels, 0, 8) == 2;
    assert LatestLow(levels) == LatestLow(levels[..1]) == None;
  }

  /**
    A detector that does not wait for confirmation repaints on default labels: no bar of this
    series has eleven before it, so the default labels stand in on both sides, and the
    breakout that nine bars call for is hidden by the label that its own bar gets later.
   */
  lemma EarlyBreakRepaints()
    ensures var cs := SpikeSeries();
            Pipeline(BreakoutDetector(0), cs[..9], 11, 0) != Before(Pipeline(BreakoutDetector(0), cs, 11, 0), 9)
  {
    hide Structure, Pipeline, Before, BreakoutLevel;
    var cs := SpikeSeries();
    var d := BreakoutDetector(0);
    NoLabelAtAll(cs, 11, 0);
    FallbackOnBothSides(d, cs, 11, 0, 9);
    SpikeStructure();
    SpikeWholeStructure();
    SpikeCalls(0);
    SpikeHidden();
    assert SignalAt(d, cs[..9], DefaultLevels(cs[..9]), 0, 8) == Breaks(true, Level(SwingHigh, 20.0, 5));
    assert SignalAt(d, cs, DefaultLevels(cs), 0, 8) == Quiet;
  }
}
