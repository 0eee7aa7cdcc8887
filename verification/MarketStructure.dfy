/**
  Market structure on a candle series: what each detector emits at each bar, as a function
  of the candles and of the structure labels. The detectors themselves (loops with a
  confirmation pointer) are in module StructureDetectors.
 */
module MarketStructure {
  import opened Wrappers
  import opened Orders
  import opened Candles

  const SWING_LEFT: nat := 5
  const SWING_RIGHT: nat := 2
  const LOOKBACK: nat := 20

  datatype Kind =
    | SwingHigh | SwingLow | HH | HL | LH | LL
    | Bos | Choch | RegimeChange | Breakout | Retest

  datatype Regime = Uptrend | Downtrend | Range

  datatype Heading = Bullish | Bearish | Neutral | Trend(regime: Regime)

  datatype Meta =
    | NoMeta
    | Broken(kind: Kind, price: real, bar: nat)
    | From(regime: Regime)
    | BreakoutBar(bar: nat)

  datatype StructureObject = StructureObject(
    kind: Kind,
    bar: nat,
    ts: int,
    price: real,
    timeframe: string,
    heading: Heading,
    active: bool,
    strength: real,
    invalidation: Option<real>,
    meta: Meta)

  /** What the detectors read of a swing label. */
  datatype Level = Level(kind: Kind, price: real, bar: nat)

  function LevelOf(o: StructureObject): Level {
    Level(o.kind, o.price, o.bar)
  }

  function Levels(objects: seq<StructureObject>): (r: seq<Level>)
    ensures |r| == |objects| && forall i :: 0 <= i < |r| ==> r[i] == LevelOf(objects[i])
  {
    seq(|objects|, i requires 0 <= i < |objects| => LevelOf(objects[i]))
  }

  // ----- collecting what is emitted bar by bar

  function Gather<T>(at: nat -> seq<T>, n: nat): seq<T> {
    if n == 0 then [] else Gather(at, n - 1) + at(n - 1)
  }

  function Before(objects: seq<StructureObject>, k: nat): seq<StructureObject> {
    if objects == [] then []
    else Before(objects[..|objects|-1], k) + if objects[|objects|-1].bar < k then [objects[|objects|-1]] else []
  }

  lemma {:induction false} GatherSame<T>(f: nat -> seq<T>, g: nat -> seq<T>, n: nat)
    requires forall i: nat :: i < n ==> f(i) == g(i)
    ensures Gather(f, n) == Gather(g, n)
  {
    if n != 0 { GatherSame(f, g, n - 1); }
  }

  lemma {:induction false} BeforeConcat(a: seq<StructureObject>, b: seq<StructureObject>, k: nat)
    ensures Before(a + b, k) == Before(a, k) + Before(b, k)
  {
    if b == [] {
      assert a + b == a;
    } else {
      assert (a + b)[..|a+b|-1] == a + b[..|b|-1];
      BeforeConcat(a, b[..|b|-1], k);
    }
  }

  lemma {:induction false} BeforeAll(objects: seq<StructureObject>, k: nat)
    ensures (forall j :: 0 <= j < |objects| ==> objects[j].bar < k) ==> Before(objects, k) == objects
    ensures (forall j :: 0 <= j < |objects| ==> objects[j].bar >= k) ==> Before(objects, k) == []
  {
    if objects != [] { BeforeAll(objects[..|objects|-1], k); }
  }

  /** Keeping the events before a bar is the same as stopping at that bar. */
  lemma {:induction false} BeforeGather(at: nat -> seq<StructureObject>, n: nat, k: nat)
    requires forall i: nat, j :: i < n && 0 <= j < |at(i)| ==> at(i)[j].bar == i
    ensures Before(Gather(at, n), k) == Gather(at, if k <= n then k else n)
  {
    hide Before;
    if n == 0 {
      BeforeAll([], k);
    } else {
      BeforeGather(at, n - 1, k);
      BeforeConcat(Gather(at, n - 1), at(n - 1), k);
      BeforeAll(at(n - 1), k);
    }
  }

  // ----- swings

  function MaxHigh(window: seq<Candle>): real
    requires window != []
  {
    if |window| == 1 then window[0].h else Max(MaxHigh(window[..|window|-1]), window[|window|-1].h)
  }

  function MinLow(window: seq<Candle>): real
    requires window != []
  {
    if |window| == 1 then window[0].low else Min(MinLow(window[..|window|-1]), window[|window|-1].low)
  }

  predicate IsSwingHigh(cs: seq<Candle>, left: nat, right: nat, i: nat) {
    left <= i && i + right < |cs| &&
    forall j :: i - left <= j <= i + right && j != i ==> cs[i].h > cs[j].h
  }

  predicate IsSwingLow(cs: seq<Candle>, left: nat, right: nat, i: nat) {
    left <= i && i + right < |cs| &&
    forall j :: i - left <= j <= i + right && j != i ==> cs[i].low < cs[j].low
  }

  function Clamp(x: real): real {
    Max(0.0, Min(1.0, x))
  }

  /** The bars around a swing that its strength is measured against. */
  function SwingWindow(cs: seq<Candle>, i: nat): (r: seq<Candle>)
    requires i < |cs|
    ensures r != []
  {
    cs[(if i < SWING_LEFT then 0 else i - SWING_LEFT)..(if i + SWING_RIGHT + 1 <= |cs| then i + SWING_RIGHT + 1 else |cs|)]
  }

  function SwingStrength(cs: seq<Candle>, i: nat, high: bool): real
    requires i < |cs|
  {
    var window := SwingWindow(cs, i);
    var span := MaxHigh(window) - MinLow(window);
    if span <= 0.0 then 1.0
    else Clamp(if high then (cs[i].h - MinLow(window)) / span else (MaxHigh(window) - cs[i].low) / span)
  }

  function SwingObject(cs: seq<Candle>, i: nat, high: bool): StructureObject
    requires i < |cs|
  {
    StructureObject(if high then SwingHigh else SwingLow, i, cs[i].ts, if high then cs[i].h else cs[i].low,
                    cs[i].timeframe, if high then Bullish else Bearish, false, SwingStrength(cs, i, high), None, NoMeta)
  }

  function SwingsAt(cs: seq<Candle>, left: nat, right: nat, i: nat): seq<StructureObject> {
    (if IsSwingHigh(cs, left, right, i) then [SwingObject(cs, i, true)] else []) +
    (if IsSwingLow(cs, left, right, i) then [SwingObject(cs, i, false)] else [])
  }

  function SwingsUpTo(cs: seq<Candle>, left: nat, right: nat, n: nat): seq<StructureObject> {
    Gather((i: nat) => SwingsAt(cs, left, right, i), n)
  }

  function Swings(cs: seq<Candle>, left: nat, right: nat): seq<StructureObject> {
    SwingsUpTo(cs, left, right, |cs|)
  }

  // ----- labels

  predicate HighKind(kind: Kind) {
    kind in {SwingHigh, HH, LH}
  }

  predicate LowKind(kind: Kind) {
    kind in {SwingLow, HL, LL}
  }

  /** The last raw swing of a kind. */
  function LastRaw(swings: seq<StructureObject>, kind: Kind): Option<StructureObject> {
    if swings == [] then None
    else if swings[|swings|-1].kind == kind then Some(swings[|swings|-1])
    else LastRaw(swings[..|swings|-1], kind)
  }

  /** A swing labelled against the last one of its polarity: higher, lower, or (equal) left raw. */
  function Label(swing: StructureObject, previous: Option<StructureObject>): StructureObject {
    if previous.None? || swing.price == previous.value.price then swing
    else if swing.price > previous.value.price then
      swing.(kind := if swing.kind.SwingHigh? then HH else HL, heading := Bullish)
    else
      swing.(kind := if swing.kind.SwingHigh? then LH else LL, heading := Bearish)
  }

  /** Every raw swing labelled against the last earlier one of its polarity; anything else is dropped. */
  function Classify(swings: seq<StructureObject>): seq<StructureObject> {
    if swings == [] then []
    else
      var before, swing := swings[..|swings|-1], swings[|swings|-1];
      Classify(before) + if swing.kind in {SwingHigh, SwingLow} then [Label(swing, LastRaw(before, swing.kind))] else []
  }

  function Structure(cs: seq<Candle>, left: nat, right: nat): seq<StructureObject> {
    Classify(Swings(cs, left, right))
  }

  // ----- the confirmed part of the labels

  /** How many leading labels are confirmed, `lag` bars after their own, by bar `i`. */
  function Confirmed(levels: seq<Level>, lag: int, i: int): (r: nat)
    ensures r <= |levels| && forall j :: 0 <= j < r ==> levels[j].bar + lag <= i
    ensures r < |levels| ==> levels[r].bar + lag > i
  {
    if levels == [] then 0
    else if Confirmed(levels[..|levels|-1], lag, i) == |levels| - 1 && levels[|levels|-1].bar + lag <= i then |levels|
    else Confirmed(levels[..|levels|-1], lag, i)
  }

  function LatestHigh(levels: seq<Level>): Option<Level> {
    if levels == [] then None
    else if HighKind(levels[|levels|-1].kind) then Some(levels[|levels|-1])
    else LatestHigh(levels[..|levels|-1])
  }

  function LatestLow(levels: seq<Level>): Option<Level> {
    if levels == [] then None
    else if LowKind(levels[|levels|-1].kind) then Some(levels[|levels|-1])
    else LatestLow(levels[..|levels|-1])
  }

  /** The last high-kind and low-kind labels known at a bar. */
  function HighAt(levels: seq<Level>, lag: int, i: int): Option<Level> {
    LatestHigh(levels[..Confirmed(levels, lag, i)])
  }

  function LowAt(levels: seq<Level>, lag: int, i: int): Option<Level> {
    LatestLow(levels[..Confirmed(levels, lag, i)])
  }

  function RegimeFrom(high: Option<Level>, low: Option<Level>): Regime {
    if high.None? || low.None? then Range
    else if high.value.kind == HH && low.value.kind == HL then Uptrend
    else if high.value.kind == LH && low.value.kind == LL then Downtrend
    else Range
  }

  // ----- breaks

  /** The close crosses a price upwards (downwards) at bar `i`. */
  predicate CrossesUp(cs: seq<Candle>, i: nat, price: real) {
    0 < i < |cs| && cs[i-1].c <= price < cs[i].c
  }

  predicate CrossesDown(cs: seq<Candle>, i: nat, price: real) {
    0 < i < |cs| && cs[i-1].c >= price > cs[i].c
  }

  function RangeSum(window: seq<Candle>): (r: real)
    ensures window != [] ==> r > 0.0
  {
    if window == [] then 0.0
    else
      var bar := window[|window|-1];
      RangeSum(window[..|window|-1]) + Max(bar.h - bar.low, 0.000000001)
  }

  function BreakStrength(cs: seq<Candle>, i: nat, level: real): real
    requires i < |cs|
  {
    var window := cs[(if i < LOOKBACK then 0 else i - LOOKBACK)..i];
    if window == [] then 1.0
    else
      var avg := RangeSum(window) / |window| as real;
      var distance := if cs[i].c >= level then cs[i].c - level else level - cs[i].c;
      Min(1.0, distance / avg)
  }

  function BreakObject(kind: Kind, cs: seq<Candle>, i: nat, heading: Heading, level: Level): StructureObject
    requires i < |cs|
  {
    StructureObject(kind, i, cs[i].ts, cs[i].c, cs[i].timeframe, heading, false,
                    BreakStrength(cs, i, level.price), Some(level.price), Broken(level.kind, level.price, level.bar))
  }

  /** A crossing of `high` upwards in one regime, or of `low` downwards in the other. */
  function BosAt(cs: seq<Candle>, levels: seq<Level>, lag: int, i: nat): seq<StructureObject> {
    var high, low := HighAt(levels, lag, i), LowAt(levels, lag, i);
    match RegimeFrom(high, low)
    case Uptrend => if CrossesUp(cs, i, high.value.price) then [BreakObject(Bos, cs, i, Bullish, high.value)] else []
    case Downtrend => if CrossesDown(cs, i, low.value.price) then [BreakObject(Bos, cs, i, Bearish, low.value)] else []
    case Range => []
  }

  function ChochAt(cs: seq<Candle>, levels: seq<Level>, lag: int, i: nat): seq<StructureObject> {
    var high, low := HighAt(levels, lag, i), LowAt(levels, lag, i);
    match RegimeFrom(high, low)
    case Uptrend => if CrossesDown(cs, i, low.value.price) then [BreakObject(Choch, cs, i, Bearish, low.value)] else []
    case Downtrend => if CrossesUp(cs, i, high.value.price) then [BreakObject(Choch, cs, i, Bullish, high.value)] else []
    case Range => []
  }

  // ----- regime by vote

  function KnownBy(levels: seq<Level>, lag: int, i: int): seq<Level> {
    if levels == [] then []
    else KnownBy(levels[..|levels|-1], lag, i) + if levels[|levels|-1].bar + lag <= i then [levels[|levels|-1]] else []
  }

  /** The last `window` elements, with the meaning Python gives to a slice from `-window`. */
  function LastOf(levels: seq<Level>, window: int): seq<Level> {
    if window > 0 then levels[(if |levels| <= window then 0 else |levels| - window)..]
    else levels[(if |levels| <= -window then |levels| else -window)..]
  }

  function Votes(levels: seq<Level>, kinds: set<Kind>): nat {
    if levels == [] then 0
    else Votes(levels[..|levels|-1], kinds) + if levels[|levels|-1].kind in kinds then 1 else 0
  }

  /** The regime that the last labels vote for. */
  function Vote(known: seq<Level>, window: int): Regime {
    var recent := LastOf(known, window);
    var bull, bear := Votes(recent, {HH, HL}), Votes(recent, {LH, LL});
    if bull >= 2 && bull > bear then Uptrend
    else if bear >= 2 && bear > bull then Downtrend
    else Range
  }

  function RegimeAt(levels: seq<Level>, window: int, lag: int, i: int): Regime {
    Vote(KnownBy(levels, lag, i), window)
  }

  function PreviousRegime(levels: seq<Level>, window: int, lag: int, i: nat): Regime {
    if i == 0 then Range else RegimeAt(levels, window, lag, i - 1)
  }

  function RegimeChangeAt(cs: seq<Candle>, levels: seq<Level>, window: int, lag: int, i: nat): seq<StructureObject> {
    var regime, previous := RegimeAt(levels, window, lag, i), PreviousRegime(levels, window, lag, i);
    if i >= |cs| || regime == previous then []
    else [StructureObject(RegimeChange, i, cs[i].ts, cs[i].c, cs[i].timeframe, Trend(regime), true, 1.0, None, From(previous))]
  }

  // ----- breakouts and retests

  /** A live breakout: which way, through which level, at which bar. */
  datatype Live = Live(up: bool, level: real, bar: nat)

  /** The breakout that bar `i` makes, if any; an upward one goes first. */
  function BreakoutLevel(cs: seq<Candle>, levels: seq<Level>, lag: int, i: nat): Option<(bool, Level)> {
    var high, low := HighAt(levels, lag, i), LowAt(levels, lag, i);
    if high.Some? && CrossesUp(cs, i, high.value.price) then Some((true, high.value))
    else if low.Some? && CrossesDown(cs, i, low.value.price) then Some((false, low.value))
    else None
  }

  function BreakoutAt(cs: seq<Candle>, levels: seq<Level>, lag: int, i: nat): seq<StructureObject> {
    var b := BreakoutLevel(cs, levels, lag, i);
    if b.None? || i >= |cs| then []
    else [BreakObject(Breakout, cs, i, if b.value.0 then Bullish else Bearish, b.value.1)]
  }

  predicate ClosesBack(live: Live, bar: Candle) {
    if live.up then bar.c < live.level else bar.c > live.level
  }

  predicate Retests(live: Live, bar: Candle) {
    if live.up then bar.low <= live.level < bar.c else bar.h >= live.level > bar.c
  }

  /** The live breakout after bar `i` has been processed. */
  function LiveAfter(cs: seq<Candle>, levels: seq<Level>, lag: int, i: nat): Option<Live>
    requires i < |cs|
  {
    if i == 0 then None
    else
      var b := BreakoutLevel(cs, levels, lag, i);
      if b.Some? then Some(Live(b.value.0, b.value.1.price, i))
      else
        var live := LiveAfter(cs, levels, lag, i - 1);
        if live.Some? && ClosesBack(live.value, cs[i]) then None else live
  }

  function RetestObject(cs: seq<Candle>, i: nat, live: Live): StructureObject
    requires i < |cs|
  {
    StructureObject(Retest, i, cs[i].ts, live.level, cs[i].timeframe, if live.up then Bullish else Bearish, false,
                    BreakStrength(cs, i, live.level), Some(live.level), BreakoutBar(live.bar))
  }

  function RetestAt(cs: seq<Candle>, levels: seq<Level>, lag: int, i: nat): seq<StructureObject> {
    if i == 0 || i >= |cs| then []
    else
      var live := LiveAfter(cs, levels, lag, i - 1);
      if live.None? || ClosesBack(live.value, cs[i]) || !Retests(live.value, cs[i]) then []
      else [RetestObject(cs, i, live.value)]
  }

  // ----- all detectors alike

  datatype Detector =
    | BosDetector
    | ChochDetector
    | RegimeDetector(window: int)
    | BreakoutDetector(minBars: int)
    | RetestDetector(minBars: int)

  function EventsAt(d: Detector, cs: seq<Candle>, levels: seq<Level>, right: int, i: nat): seq<StructureObject> {
    match d
    case BosDetector => BosAt(cs, levels, right, i)
    case ChochDetector => ChochAt(cs, levels, right, i)
    case RegimeDetector(window) => RegimeChangeAt(cs, levels, window, right, i)
    case BreakoutDetector(minBars) => BreakoutAt(cs, levels, right + minBars, i)
    case RetestDetector(minBars) => RetestAt(cs, levels, right + minBars, i)
  }

  function EventsUpTo(d: Detector, cs: seq<Candle>, levels: seq<Level>, right: int, n: nat): seq<StructureObject> {
    Gather((i: nat) => EventsAt(d, cs, levels, right, i), n)
  }

  lemma EventsNone(d: Detector, cs: seq<Candle>, levels: seq<Level>, right: int)
    ensures EventsUpTo(d, cs, levels, right, 0) == []
  {
  }

  lemma EventsNext(d: Detector, cs: seq<Candle>, levels: seq<Level>, right: int, i: nat)
    ensures EventsUpTo(d, cs, levels, right, i + 1) == EventsUpTo(d, cs, levels, right, i) + EventsAt(d, cs, levels, right, i)
  {
    hide EventsAt;
  }

  function Events(d: Detector, cs: seq<Candle>, levels: seq<Level>, right: int): seq<StructureObject> {
    EventsUpTo(d, cs, levels, right, |cs|)
  }

  /** An empty structure list is silently replaced by the default one. */
  function Effective(cs: seq<Candle>, structure: seq<StructureObject>): seq<StructureObject> {
    if structure == [] then Structure(cs, SWING_LEFT, SWING_RIGHT) else structure
  }

  /** What a detector returns for a series and a structure list. */
  function Detect(d: Detector, cs: seq<Candle>, structure: seq<StructureObject>, right: int): seq<StructureObject> {
    Events(d, cs, Levels(Effective(cs, structure)), right)
  }
}
