/**
  Non-repainting: appending candles never changes an event that was already emitted. The
  run on the first `k` candles gives exactly the events before bar `k` of the run on the
  whole series, through the composition of swings, labels and detector.
 */
module StructureCausality {
  import opened Candles
  import opened MarketStructure

  // ----- the swings and labels of a prefix

  /** `b` only adds to `a` labels that are not confirmed before bar `k`. */
  predicate Extends(a: seq<Level>, b: seq<Level>, lag: int, k: int) {
    |a| <= |b| && b[..|a|] == a && forall j :: |a| <= j < |b| ==> b[j].bar + lag >= k
  }

  lemma LevelsConcat(a: seq<StructureObject>, b: seq<StructureObject>)
    ensures Levels(a + b) == Levels(a) + Levels(b)
  {
  }

  /** Past the confirmation window, the swings at a bar are the same on the longer series. */
  lemma SwingsAtPrefix(cs: seq<Candle>, left: nat, right: nat, k: nat, i: nat)
    requires k <= |cs|
    ensures i + right < k ==> Levels(SwingsAt(cs[..k], left, right, i)) == Levels(SwingsAt(cs, left, right, i))
    ensures i + right < k && right >= SWING_RIGHT ==> SwingsAt(cs[..k], left, right, i) == SwingsAt(cs, left, right, i)
    ensures i + right >= k ==> SwingsAt(cs[..k], left, right, i) == []
  {
    hide IsSwingHigh, IsSwingLow, SwingStrength;
    SwingTestsPrefix(cs, left, right, k, i);
    if i + SWING_RIGHT < k { SwingStrengthPrefix(cs, k, i); }
  }

  lemma SwingTestsPrefix(cs: seq<Candle>, left: nat, right: nat, k: nat, i: nat)
    requires k <= |cs|
    ensures IsSwingHigh(cs[..k], left, right, i) <==> i + right < k && IsSwingHigh(cs, left, right, i)
    ensures IsSwingLow(cs[..k], left, right, i) <==> i + right < k && IsSwingLow(cs, left, right, i)
  {
  }

  lemma SwingStrengthPrefix(cs: seq<Candle>, k: nat, i: nat)
    requires i + SWING_RIGHT < k <= |cs|
    ensures forall high :: SwingStrength(cs[..k], i, high) == SwingStrength(cs, i, high)
  {
    hide MaxHigh, MinLow, Clamp;
    assert SwingWindow(cs[..k], i) == SwingWindow(cs, i);
  }

  lemma SwingsNext(cs: seq<Candle>, left: nat, right: nat, n: nat)
    ensures SwingsUpTo(cs, left, right, n + 1) == SwingsUpTo(cs, left, right, n) + SwingsAt(cs, left, right, n)
    ensures Levels(SwingsUpTo(cs, left, right, n + 1)) ==
            Levels(SwingsUpTo(cs, left, right, n)) + Levels(SwingsAt(cs, left, right, n))
    ensures forall j :: 0 <= j < |SwingsAt(cs, left, right, n)| ==> SwingsAt(cs, left, right, n)[j].bar == n
  {
    LevelsConcat(SwingsUpTo(cs, left, right, n), SwingsAt(cs, left, right, n));
  }

  lemma {:induction false} SwingsUpToPrefix(cs: seq<Candle>, left: nat, right: nat, k: nat, n: nat)
    requires n <= k <= |cs|
    ensures Extends(Levels(SwingsUpTo(cs[..k], left, right, n)), Levels(SwingsUpTo(cs, left, right, n)), right, k)
    ensures right >= SWING_RIGHT ==> SwingsUpTo(cs[..k], left, right, n) <= SwingsUpTo(cs, left, right, n)
    ensures n + right <= k ==> |SwingsUpTo(cs[..k], left, right, n)| == |SwingsUpTo(cs, left, right, n)|
  {
    hide SwingsUpTo, SwingsAt;
    if n == 0 {
      NoSwings(cs, left, right);
      NoSwings(cs[..k], left, right);
    } else {
      SwingsUpToPrefix(cs, left, right, k, n - 1);
      SwingsAtPrefix(cs, left, right, k, n - 1);
      SwingsNext(cs, left, right, n - 1);
      SwingsNext(cs[..k], left, right, n - 1);
    }
  }

  lemma NoSwings(cs: seq<Candle>, left: nat, right: nat)
    ensures SwingsUpTo(cs, left, right, 0) == []
  {
  }

  lemma {:induction false} NoSwingAnywhere(cs: seq<Candle>, left: nat, right: nat, n: nat)
    requires forall i: nat :: i < n ==> SwingsAt(cs, left, right, i) == []
    ensures SwingsUpTo(cs, left, right, n) == []
  {
    if n != 0 { NoSwingAnywhere(cs, left, right, n - 1); }
  }

  lemma {:induction false} NoSwingSince(cs: seq<Candle>, left: nat, right: nat, m: nat, n: nat)
    requires m <= n && forall i: nat :: m <= i < n ==> SwingsAt(cs, left, right, i) == []
    ensures SwingsUpTo(cs, left, right, n) == SwingsUpTo(cs, left, right, m)
  {
    hide SwingsUpTo, SwingsAt;
    if m < n {
      NoSwingSince(cs, left, right, m, n - 1);
      SwingsNext(cs, left, right, n - 1);
    }
  }

  /** Later bars add swings of their own only. */
  lemma {:induction false} SwingsUpToGrow(cs: seq<Candle>, left: nat, right: nat, k: nat, n: nat)
    requires k <= n
    ensures SwingsUpTo(cs, left, right, k) <= SwingsUpTo(cs, left, right, n)
    ensures forall j :: |SwingsUpTo(cs, left, right, k)| <= j < |SwingsUpTo(cs, left, right, n)| ==>
              SwingsUpTo(cs, left, right, n)[j].bar >= k
  {
    hide SwingsUpTo, SwingsAt;
    if k < n {
      SwingsUpToGrow(cs, left, right, k, n - 1);
      SwingsNext(cs, left, right, n - 1);
    }
  }

  lemma SwingsPrefix(cs: seq<Candle>, left: nat, right: nat, k: nat)
    requires k <= |cs|
    ensures Extends(Levels(Swings(cs[..k], left, right)), Levels(Swings(cs, left, right)), right, k)
    ensures right >= SWING_RIGHT ==> Swings(cs[..k], left, right) <= Swings(cs, left, right)
  {
    SwingsUpToPrefix(cs, left, right, k, k);
    SwingsUpToGrow(cs, left, right, k, |cs|);
  }

  // ----- labels depend on levels only, and earlier labels on earlier swings only

  predicate AllRaw(swings: seq<StructureObject>) {
    forall j :: 0 <= j < |swings| ==> swings[j].kind in {SwingHigh, SwingLow}
  }

  lemma {:induction false} SwingsRaw(cs: seq<Candle>, left: nat, right: nat, n: nat)
    ensures AllRaw(SwingsUpTo(cs, left, right, n))
  {
    if n != 0 { SwingsRaw(cs, left, right, n - 1); }
  }

  lemma {:induction false} LastRawLevels(a: seq<StructureObject>, b: seq<StructureObject>, kind: Kind)
    requires Levels(a) == Levels(b)
    ensures LastRaw(a, kind).Some? == LastRaw(b, kind).Some?
    ensures LastRaw(a, kind).Some? ==> LastRaw(a, kind).value.price == LastRaw(b, kind).value.price
  {
    if a != [] {
      var n := |a| - 1;
      assert LevelOf(a[n]) == Levels(a)[n] == Levels(b)[n] == LevelOf(b[n]);
      assert Levels(a[..n]) == Levels(a)[..n] == Levels(b)[..n] == Levels(b[..n]);
      LastRawLevels(a[..n], b[..n], kind);
    }
  }

  lemma {:induction false} ClassifyLevels(a: seq<StructureObject>, b: seq<StructureObject>)
    requires Levels(a) == Levels(b)
    ensures Levels(Classify(a)) == Levels(Classify(b))
  {
    if a != [] {
      var n := |a| - 1;
      assert LevelOf(a[n]) == Levels(a)[n] == Levels(b)[n] == LevelOf(b[n]);
      assert Levels(a[..n]) == Levels(a)[..n] == Levels(b)[..n] == Levels(b[..n]);
      ClassifyLevels(a[..n], b[..n]);
      LastRawLevels(a[..n], b[..n], a[n].kind);
      if a[n].kind in {SwingHigh, SwingLow} {
        LevelsConcat(Classify(a[..n]), [Label(a[n], LastRaw(a[..n], a[n].kind))]);
        LevelsConcat(Classify(b[..n]), [Label(b[n], LastRaw(b[..n], b[n].kind))]);
      }
    }
  }

  /** Labelling more swings leaves the earlier labels, and adds labels at the bars of the added swings. */
  lemma {:induction false} ClassifyGrows(swings: seq<StructureObject>, m: nat)
    requires m <= |swings| && AllRaw(swings)
    ensures |Classify(swings)| == |swings|
    ensures Classify(swings)[..m] == Classify(swings[..m])
    ensures forall j :: 0 <= j < |swings| ==> Classify(swings)[j].bar == swings[j].bar && Classify(swings)[j].price == swings[j].price
  {
    hide LastRaw;
    if swings != [] {
      var n := |swings| - 1;
      if m <= n {
        ClassifyGrows(swings[..n], m);
        assert swings[..n][..m] == swings[..m];
      } else {
        ClassifyGrows(swings[..n], n);
        assert swings[..m] == swings;
      }
    }
  }

  /** The labels of a prefix are labels of the whole series; all others are confirmed later. */
  lemma StructurePrefix(cs: seq<Candle>, left: nat, right: nat, k: nat)
    requires k <= |cs|
    ensures Extends(Levels(Structure(cs[..k], left, right)), Levels(Structure(cs, left, right)), right, k)
    ensures right >= SWING_RIGHT ==> Structure(cs[..k], left, right) <= Structure(cs, left, right)
  {
    hide Swings, Classify, Extends;
    SwingsPrefix(cs, left, right, k);
    SwingsRaw(cs[..k], left, right, |cs[..k]|);
    SwingsRaw(cs, left, right, |cs|);
    AllSwings(cs, left, right);
    AllSwings(cs[..k], left, right);
    ClassifyExtends(Swings(cs[..k], left, right), Swings(cs, left, right), right, k);
  }

  lemma AllSwings(cs: seq<Candle>, left: nat, right: nat)
    ensures Swings(cs, left, right) == SwingsUpTo(cs, left, right, |cs|)
  {
  }

  /** Labelling keeps the extension of one list of swings by another. */
  lemma ClassifyExtends(a: seq<StructureObject>, b: seq<StructureObject>, lag: int, k: int)
    requires AllRaw(a) && AllRaw(b) && Extends(Levels(a), Levels(b), lag, k)
    ensures Extends(Levels(Classify(a)), Levels(Classify(b)), lag, k)
    ensures a <= b ==> Classify(a) <= Classify(b)
  {
    hide Classify, AllRaw, Extends, LevelOf;
    var m := |a|;
    PrefixLevels(a, b, lag, k);
    ClassifyLevels(a, b[..m]);
    ClassifyGrows(a, m);
    ClassifyGrows(b, m);
    ExtendsObjects(a, b, Classify(a), Classify(b), lag, k);
    if a <= b { assert b[..m] == a; }
  }

  lemma PrefixLevels(a: seq<StructureObject>, b: seq<StructureObject>, lag: int, k: int)
    requires Extends(Levels(a), Levels(b), lag, k)
    ensures |a| <= |b| && Levels(b[..|a|]) == Levels(a)
  {
    assert Levels(b[..|a|]) == Levels(b)[..|a|];
  }

  lemma ExtendsObjects(a: seq<StructureObject>, b: seq<StructureObject>, x: seq<StructureObject>, y: seq<StructureObject>, lag: int, k: int)
    requires Extends(Levels(a), Levels(b), lag, k)
    requires |x| == |a| && |y| == |b| && |a| <= |b| && Levels(y[..|x|]) == Levels(x)
    requires forall j :: 0 <= j < |y| ==> y[j].bar == b[j].bar
    ensures Extends(Levels(x), Levels(y), lag, k)
  {
    assert Levels(y)[..|x|] == Levels(y[..|x|]);
    forall j | |x| <= j < |y| ensures Levels(y)[j].bar + lag >= k {
      assert Levels(b)[j].bar == b[j].bar;
    }
  }

  // ----- detectors see only the confirmed labels

  lemma {:induction false} ConfirmedPrefix(a: seq<Level>, b: seq<Level>, lag: int, i: int)
    requires |a| <= |b| && b[..|a|] == a && forall j :: |a| <= j < |b| ==> b[j].bar + lag > i
    ensures Confirmed(a, lag, i) == Confirmed(b, lag, i)
  {
    if |a| < |b| {
      ConfirmedPrefix(a, b[..|b|-1], lag, i);
    } else {
      assert a == b;
    }
  }

  lemma LatestPrefix(a: seq<Level>, b: seq<Level>, lag: int, k: int, i: int)
    requires Extends(a, b, lag, k) && i < k
    ensures HighAt(a, lag, i) == HighAt(b, lag, i) && LowAt(a, lag, i) == LowAt(b, lag, i)
  {
    ConfirmedPrefix(a, b, lag, i);
    var m := Confirmed(a, lag, i);
    assert a[..m] == b[..m];
  }

  lemma {:induction false} KnownPrefix(a: seq<Level>, b: seq<Level>, lag: int, i: int)
    requires |a| <= |b| && b[..|a|] == a && forall j :: |a| <= j < |b| ==> b[j].bar + lag > i
    ensures KnownBy(a, lag, i) == KnownBy(b, lag, i)
  {
    if |a| < |b| {
      KnownPrefix(a, b[..|b|-1], lag, i);
    } else {
      assert a == b;
    }
  }

  lemma StrengthPrefix(cs: seq<Candle>, k: nat, i: nat, level: real)
    requires i < k <= |cs|
    ensures BreakStrength(cs[..k], i, level) == BreakStrength(cs, i, level)
  {
    var lo := if i < LOOKBACK then 0 else i - LOOKBACK;
    assert cs[..k][lo..i] == cs[lo..i];
  }

  lemma BreakPrefix(kind: Kind, cs: seq<Candle>, k: nat, i: nat, heading: Heading, level: Level)
    requires i < k <= |cs|
    ensures BreakObject(kind, cs[..k], i, heading, level) == BreakObject(kind, cs, i, heading, level)
  {
    StrengthPrefix(cs, k, i, level.price);
  }

  lemma BreaksPrefix(kind: Kind, cs: seq<Candle>, k: nat, i: nat)
    requires i < k <= |cs|
    ensures forall heading, level :: BreakObject(kind, cs[..k], i, heading, level) == BreakObject(kind, cs, i, heading, level)
  {
    forall heading, level ensures BreakObject(kind, cs[..k], i, heading, level) == BreakObject(kind, cs, i, heading, level) {
      BreakPrefix(kind, cs, k, i, heading, level);
    }
  }

  lemma {:induction false} LivePrefix(cs: seq<Candle>, k: nat, a: seq<Level>, b: seq<Level>, lag: int, i: nat)
    requires k <= |cs| && Extends(a, b, lag, k) && i < k
    ensures BreakoutLevel(cs[..k], a, lag, i) == BreakoutLevel(cs, b, lag, i)
    ensures LiveAfter(cs[..k], a, lag, i) == LiveAfter(cs, b, lag, i)
  {
    hide HighAt, LowAt, Extends;
    LatestPrefix(a, b, lag, k, i);
    if i != 0 { LivePrefix(cs, k, a, b, lag, i - 1); }
  }

  /** Waiting longer than the confirmation keeps later labels out of sight even more. */
  lemma ExtendsLater(a: seq<Level>, b: seq<Level>, lag: int, more: int, k: int)
    requires Extends(a, b, lag, k) && lag <= more
    ensures Extends(a, b, more, k)
  {
  }

  /** No detector looks ahead of its labels' confirmation. */
  predicate Patient(d: Detector) {
    match d
    case BreakoutDetector(minBars) => minBars >= 0
    case RetestDetector(minBars) => minBars >= 0
    case _ => true
  }

  /** What is emitted at a bar before `k` is the same on the first `k` candles. */
  lemma EventsAtPrefix(d: Detector, cs: seq<Candle>, k: nat, a: seq<Level>, b: seq<Level>, right: int, i: nat)
    requires k <= |cs| && Extends(a, b, right, k) && i < k && Patient(d)
    ensures EventsAt(d, cs[..k], a, right, i) == EventsAt(d, cs, b, right, i)
  {
    hide Extends, BosAt, ChochAt, RegimeChangeAt, BreakoutAt, RetestAt;
    match d
    case BosDetector => BreakEventsPrefix(cs, k, a, b, right, i);
    case ChochDetector => BreakEventsPrefix(cs, k, a, b, right, i);
    case RegimeDetector(window) => RegimePrefix(cs, k, a, b, window, right, i);
    case BreakoutDetector(minBars) =>
      ExtendsLater(a, b, right, right + minBars, k);
      BreakoutPrefix(cs, k, a, b, right + minBars, i);
    case RetestDetector(minBars) =>
      ExtendsLater(a, b, right, right + minBars, k);
      RetestPrefix(cs, k, a, b, right + minBars, i);
  }

  lemma BreakEventsPrefix(cs: seq<Candle>, k: nat, a: seq<Level>, b: seq<Level>, lag: int, i: nat)
    requires k <= |cs| && Extends(a, b, lag, k) && i < k
    ensures BosAt(cs[..k], a, lag, i) == BosAt(cs, b, lag, i)
    ensures ChochAt(cs[..k], a, lag, i) == ChochAt(cs, b, lag, i)
  {
    hide HighAt, LowAt, BreakObject, Extends;
    LatestPrefix(a, b, lag, k, i);
    BreaksPrefix(Bos, cs, k, i);
    BreaksPrefix(Choch, cs, k, i);
  }

  lemma RegimePrefix(cs: seq<Candle>, k: nat, a: seq<Level>, b: seq<Level>, window: int, lag: int, i: nat)
    requires k <= |cs| && Extends(a, b, lag, k) && i < k
    ensures RegimeChangeAt(cs[..k], a, window, lag, i) == RegimeChangeAt(cs, b, window, lag, i)
  {
    hide KnownBy, LastOf, Votes, Extends;
    KnownExtends(a, b, lag, k, i);
    KnownExtends(a, b, lag, k, i - 1);
  }

  lemma BreakoutPrefix(cs: seq<Candle>, k: nat, a: seq<Level>, b: seq<Level>, lag: int, i: nat)
    requires k <= |cs| && Extends(a, b, lag, k) && i < k
    ensures BreakoutAt(cs[..k], a, lag, i) == BreakoutAt(cs, b, lag, i)
  {
    hide BreakoutLevel, BreakObject, Extends;
    LivePrefix(cs, k, a, b, lag, i);
    BreaksPrefix(Breakout, cs, k, i);
  }

  lemma RetestPrefix(cs: seq<Candle>, k: nat, a: seq<Level>, b: seq<Level>, lag: int, i: nat)
    requires k <= |cs| && Extends(a, b, lag, k) && i < k
    ensures RetestAt(cs[..k], a, lag, i) == RetestAt(cs, b, lag, i)
  {
    hide LiveAfter, BreakStrength, Extends;
    if i > 0 {
      LivePrefix(cs, k, a, b, lag, i - 1);
      var live := LiveAfter(cs, b, lag, i - 1);
      if live.Some? { StrengthPrefix(cs, k, i, live.value.level); }
    }
  }

  lemma KnownExtends(a: seq<Level>, b: seq<Level>, lag: int, k: int, i: int)
    requires Extends(a, b, lag, k) && i < k
    ensures KnownBy(a, lag, i) == KnownBy(b, lag, i)
  {
    KnownPrefix(a, b, lag, i);
  }

  lemma EventsAtBar(d: Detector, cs: seq<Candle>, levels: seq<Level>, right: int, i: nat)
    ensures forall j :: 0 <= j < |EventsAt(d, cs, levels, right, i)| ==> EventsAt(d, cs, levels, right, i)[j].bar == i
  {
    hide HighAt, LowAt, BreakStrength, RegimeAt, LiveAfter;
  }

  /** With structure lists of which one extends the other, the events of the prefix are the early events of the whole. */
  lemma EventsPrefix(d: Detector, cs: seq<Candle>, k: nat, a: seq<Level>, b: seq<Level>, right: int)
    requires k <= |cs| && Extends(a, b, right, k) && Patient(d)
    ensures Events(d, cs[..k], a, right) == Before(Events(d, cs, b, right), k)
  {
    var f := (i: nat) => EventsAt(d, cs[..k], a, right, i);
    var g := (i: nat) => EventsAt(d, cs, b, right, i);
    forall i: nat | i < k ensures f(i) == g(i) { EventsAtPrefix(d, cs, k, a, b, right, i); }
    GatherSame(f, g, k);
    forall i: nat, j | i < |cs| && 0 <= j < |g(i)| ensures g(i)[j].bar == i { EventsAtBar(d, cs, b, right, i); }
    BeforeGather(g, |cs|, k);
    assert EventsUpTo(d, cs[..k], a, right, k) == Gather(f, k);
    assert EventsUpTo(d, cs, b, right, |cs|) == Gather(g, |cs|);
  }

  // ----- the theorems

  /** The whole pipeline without the fallback: for every series, prefix and parameters, no event is repainted. */
  lemma NonRepainting(d: Detector, cs: seq<Candle>, left: nat, right: nat, k: nat)
    requires k <= |cs| && Patient(d)
    ensures Events(d, cs[..k], Levels(Structure(cs[..k], left, right)), right) ==
            Before(Events(d, cs, Levels(Structure(cs, left, right)), right), k)
  {
    StructurePrefix(cs, left, right, k);
    EventsPrefix(d, cs, k, Levels(Structure(cs[..k], left, right)), Levels(Structure(cs, left, right)), right);
  }

  /** The pipeline as the code runs it, the empty structure list replaced by the default one. */
  function Pipeline(d: Detector, cs: seq<Candle>, left: nat, right: nat): seq<StructureObject> {
    Detect(d, cs, Structure(cs, left, right), right)
  }

  /** With the default parameters, the code never repaints. */
  lemma DefaultNonRepainting(d: Detector, cs: seq<Candle>, k: nat)
    requires k <= |cs| && Patient(d)
    ensures Pipeline(d, cs[..k], SWING_LEFT, SWING_RIGHT) == Before(Pipeline(d, cs, SWING_LEFT, SWING_RIGHT), k)
  {
    NonRepainting(d, cs, SWING_LEFT, SWING_RIGHT, k);
  }

  /** With any parameters, the code does not repaint once the prefix has a label of its own. */
  lemma LabelledNonRepainting(d: Detector, cs: seq<Candle>, left: nat, right: nat, k: nat)
    requires k <= |cs| && Patient(d)
    requires Structure(cs[..k], left, right) != []
    ensures Pipeline(d, cs[..k], left, right) == Before(Pipeline(d, cs, left, right), k)
  {
    NonRepainting(d, cs, left, right, k);
    StructurePrefix(cs, left, right, k);
    assert |Levels(Structure(cs[..k], left, right))| > 0;
  }
}
