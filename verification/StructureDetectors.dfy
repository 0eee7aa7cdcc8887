/**
  The detectors as they run: single passes over the candles with a confirmation pointer and
  a few running variables, each proved to emit exactly the events of module MarketStructure.
 */
module StructureDetectors {
  import opened Wrappers
  import opened Candles
  import opened MarketStructure

  /** Labels a pointer has passed, at a bar that confirms all of them and not the next. */
  lemma ConfirmedUnique(levels: seq<Level>, lag: int, i: int, ptr: nat)
    requires ptr <= |levels| && forall j :: 0 <= j < ptr ==> levels[j].bar + lag <= i
    requires ptr < |levels| ==> levels[ptr].bar + lag > i
    ensures Confirmed(levels, lag, i) == ptr
  {
  }

  /** One more label passed: it is the latest of its polarity. */
  lemma LatestNext(levels: seq<Level>, ptr: nat)
    requires ptr < |levels|
    ensures LatestHigh(levels[..ptr+1]) == if HighKind(levels[ptr].kind) then Some(levels[ptr]) else LatestHigh(levels[..ptr])
    ensures LatestLow(levels[..ptr+1]) == if LowKind(levels[ptr].kind) then Some(levels[ptr]) else LatestLow(levels[..ptr])
  {
    assert levels[..ptr+1][..ptr] == levels[..ptr];
  }

  datatype Pointer = Pointer(at: nat, high: Option<Level>, low: Option<Level>)

  /** The pointer and its running last high and low stand for the labels it has passed. */
  predicate Points(levels: seq<Level>, p: Pointer) {
    p.at <= |levels| && p.high == LatestHigh(levels[..p.at]) && p.low == LatestLow(levels[..p.at])
  }

  predicate Passed(levels: seq<Level>, p: Pointer, lag: int, i: int) {
    Points(levels, p) && forall j :: 0 <= j < p.at ==> levels[j].bar + lag <= i
  }

  /** Moves the pointer over every label that bar `i` confirms. */
  method Advance(structure: seq<StructureObject>, p: Pointer, lag: int, i: int) returns (r: Pointer)
    requires Passed(Levels(structure), p, lag, i)
    ensures Passed(Levels(structure), r, lag, i + 1)
    ensures r.at == Confirmed(Levels(structure), lag, i)
    ensures r.high == HighAt(Levels(structure), lag, i) && r.low == LowAt(Levels(structure), lag, i)
  {
    ghost var levels := Levels(structure);
    var ptr, high, low := p.at, p.high, p.low;
    while ptr < |structure| && structure[ptr].bar + lag <= i
      invariant Passed(levels, Pointer(ptr, high, low), lag, i)
    {
      LatestNext(levels, ptr);
      var swing := structure[ptr];
      if HighKind(swing.kind) {
        high := Some(LevelOf(swing));
      } else if LowKind(swing.kind) {
        low := Some(LevelOf(swing));
      }
      ptr := ptr + 1;
    }
    ConfirmedUnique(levels, lag, i, ptr);
    return Pointer(ptr, high, low);
  }

  method DetectSwings(cs: seq<Candle>, left: int, right: int) returns (r: Result<seq<StructureObject>, string>)
    ensures r.Err? <==> left < 1 || right < 0
    ensures r.Ok? ==> r.value == Swings(cs, left, right)
  {
    if left < 1 || right < 0 { return Err("left must be >= 1 and right must be >= 0"); }
    var out := [];
    NoSwingsBefore(cs, left, right, if left <= |cs| then left else |cs|);
    var i := left;
    while i < |cs| - right
      invariant left <= i && (i <= |cs| - right || i == left)
      invariant out == SwingsUpTo(cs, left, right, if i <= |cs| then i else |cs|)
      decreases |cs| - right - i
    {
      var high := forall j :: i - left <= j < i + right + 1 && j != i ==> cs[i].h > cs[j].h;
      var low := forall j :: i - left <= j < i + right + 1 && j != i ==> cs[i].low < cs[j].low;
      if high { out := out + [SwingObject(cs, i, true)]; }
      if low { out := out + [SwingObject(cs, i, false)]; }
      i := i + 1;
    }
    NoSwingsAfter(cs, left, right, if i <= |cs| then i else |cs|);
    return Ok(out);
  }

  lemma {:induction false} NoSwingsBefore(cs: seq<Candle>, left: nat, right: nat, n: nat)
    requires n <= left
    ensures SwingsUpTo(cs, left, right, n) == []
  {
    if n != 0 { NoSwingsBefore(cs, left, right, n - 1); }
  }

  lemma {:induction false} NoSwingsAfter(cs: seq<Candle>, left: nat, right: nat, n: nat)
    requires n <= |cs| <= n + right
    ensures SwingsUpTo(cs, left, right, |cs|) == SwingsUpTo(cs, left, right, n)
    decreases |cs| - n
  {
    if n < |cs| { NoSwingsAfter(cs, left, right, n + 1); }
  }

  method ClassifyStructure(cs: seq<Candle>, swings: Option<seq<StructureObject>>) returns (out: seq<StructureObject>)
    ensures out == Classify(swings.GetOr(Swings(cs, SWING_LEFT, SWING_RIGHT)))
  {
    var input;
    if swings.None? {
      var detected := DetectSwings(cs, SWING_LEFT, SWING_RIGHT);
      input := detected.value;
    } else {
      input := swings.value;
    }
    out := [];
    var prevHigh: Option<StructureObject>, prevLow: Option<StructureObject> := None, None;
    for i := 0 to |input|
      invariant out == Classify(input[..i])
      invariant SamePrice(prevHigh, LastRaw(input[..i], SwingHigh))
      invariant SamePrice(prevLow, LastRaw(input[..i], SwingLow))
    {
      assert input[..i+1][..i] == input[..i];
      var swing := input[i];
      if swing.kind.SwingHigh? {
        var labeled := swing;
        if prevHigh.Some? && swing.price > prevHigh.value.price {
          labeled := swing.(kind := HH, heading := Bullish);
        } else if prevHigh.Some? && swing.price < prevHigh.value.price {
          labeled := swing.(kind := LH, heading := Bearish);
        }
        prevHigh := Some(labeled);
        out := out + [labeled];
      } else if swing.kind.SwingLow? {
        var labeled := swing;
        if prevLow.Some? && swing.price < prevLow.value.price {
          labeled := swing.(kind := LL, heading := Bearish);
        } else if prevLow.Some? && swing.price > prevLow.value.price {
          labeled := swing.(kind := HL, heading := Bullish);
        }
        prevLow := Some(labeled);
        out := out + [labeled];
      }
    }
    assert input[..|input|] == input;
  }

  predicate SamePrice(a: Option<StructureObject>, b: Option<StructureObject>) {
    a.Some? == b.Some? && (a.Some? ==> a.value.price == b.value.price)
  }

  method OrDefault(cs: seq<Candle>, structure: seq<StructureObject>) returns (r: seq<StructureObject>)
    ensures r == Effective(cs, structure)
  {
    if structure == [] {
      r := ClassifyStructure(cs, None);
    } else {
      r := structure;
    }
  }

  lemma NothingYet(levels: seq<Level>, lag: int, i: int)
    ensures Passed(levels, Pointer(0, None, None), lag, i)
  {
  }

  /** On an empty series, or at bar 0, only the regime vote can speak. */
  lemma NothingAtZero(d: Detector, cs: seq<Candle>, levels: seq<Level>, right: int)
    requires !d.RegimeDetector?
    ensures EventsUpTo(d, cs, levels, right, if |cs| == 0 then 0 else 1) == []
  {
    assert EventsAt(d, cs, levels, right, 0) == [];
    assert EventsUpTo(d, cs, levels, right, 0) == [];
  }

  method DetectBos(cs: seq<Candle>, structure: seq<StructureObject>, right: int) returns (out: seq<StructureObject>)
    ensures out == Detect(BosDetector, cs, structure, right)
  {
    hide Passed, EventsUpTo, HighAt, LowAt, BreakObject, Effective;
    var labels := OrDefault(cs, structure);
    ghost var levels := Levels(labels);
    out := [];
    var p := Pointer(0, None, None);
    NothingYet(levels, right, 1);
    NothingAtZero(BosDetector, cs, levels, right);
    var i := 1;
    while i < |cs|
      invariant 1 <= i && (i <= |cs| || i == 1)
      invariant Passed(levels, p, right, i)
      invariant out == EventsUpTo(BosDetector, cs, levels, right, if i <= |cs| then i else |cs|)
    {
      EventsNext(BosDetector, cs, levels, right, i);
      p := Advance(labels, p, right, i);
      var context := RegimeFrom(p.high, p.low);
      var bar := cs[i];
      if context.Uptrend? {
        var level := p.high.value;
        if cs[i-1].c <= level.price < bar.c { out := out + [BreakObject(Bos, cs, i, Bullish, level)]; }
      } else if context.Downtrend? {
        var level := p.low.value;
        if cs[i-1].c >= level.price > bar.c { out := out + [BreakObject(Bos, cs, i, Bearish, level)]; }
      }
      i := i + 1;
    }
  }

  method DetectChoch(cs: seq<Candle>, structure: seq<StructureObject>, right: int) returns (out: seq<StructureObject>)
    ensures out == Detect(ChochDetector, cs, structure, right)
  {
    hide Passed, EventsUpTo, HighAt, LowAt, BreakObject, Effective;
    var labels := OrDefault(cs, structure);
    ghost var levels := Levels(labels);
    out := [];
    var p := Pointer(0, None, None);
    NothingYet(levels, right, 1);
    NothingAtZero(ChochDetector, cs, levels, right);
    var i := 1;
    while i < |cs|
      invariant 1 <= i && (i <= |cs| || i == 1)
      invariant Passed(levels, p, right, i)
      invariant out == EventsUpTo(ChochDetector, cs, levels, right, if i <= |cs| then i else |cs|)
    {
      EventsNext(ChochDetector, cs, levels, right, i);
      p := Advance(labels, p, right, i);
      var context := RegimeFrom(p.high, p.low);
      var bar := cs[i];
      if context.Uptrend? {
        var level := p.low.value;
        if cs[i-1].c >= level.price > bar.c { out := out + [BreakObject(Choch, cs, i, Bearish, level)]; }
      } else if context.Downtrend? {
        var level := p.high.value;
        if cs[i-1].c <= level.price < bar.c { out := out + [BreakObject(Choch, cs, i, Bullish, level)]; }
      }
      i := i + 1;
    }
  }

  method DetectRegimeChanges(cs: seq<Candle>, structure: seq<StructureObject>, window: int, right: int)
    returns (out: seq<StructureObject>)
    ensures out == Detect(RegimeDetector(window), cs, structure, right)
  {
    hide EventsUpTo, RegimeAt, Effective;
    var labels := OrDefault(cs, structure);
    ghost var levels := Levels(labels);
    out := [];
    var previous := Range;
    EventsNone(RegimeDetector(window), cs, levels, right);
    for i := 0 to |cs|
      invariant out == EventsUpTo(RegimeDetector(window), cs, levels, right, i)
      invariant previous == PreviousRegime(levels, window, right, i)
    {
      EventsNext(RegimeDetector(window), cs, levels, right, i);
      var regime := RegimeAt(Levels(labels), window, right, i);
      if regime != previous {
        var bar := cs[i];
        out := out + [StructureObject(RegimeChange, i, bar.ts, bar.c, bar.timeframe, Trend(regime), true, 1.0, None, From(previous))];
        previous := regime;
      }
    }
  }

  /** What a bar does to the live breakout: a close back ends it, a wick to its level retests it. */
  method CheckLive(cs: seq<Candle>, i: nat, active: Option<Live>) returns (retest: seq<StructureObject>, still: Option<Live>)
    requires 0 < i < |cs| && (active.Some? ==> active.value.bar < i)
    ensures still == if active.Some? && ClosesBack(active.value, cs[i]) then None else active
    ensures retest == if still.None? || !Retests(still.value, cs[i]) then [] else [RetestObject(cs, i, still.value)]
  {
    hide BreakStrength;
    retest, still := [], active;
    if active.Some? {
      var live, bar := active.value, cs[i];
      if live.up {
        if bar.c < live.level {
          still := None;
        } else if bar.low <= live.level < bar.c && i > live.bar {
          retest := [RetestObject(cs, i, live)];
        }
      } else {
        if bar.c > live.level {
          still := None;
        } else if bar.h >= live.level > bar.c && i > live.bar {
          retest := [RetestObject(cs, i, live)];
        }
      }
    }
  }

  method DetectBreakoutsAndRetests(cs: seq<Candle>, structure: seq<StructureObject>, minBars: int, right: int)
    returns (breakouts: seq<StructureObject>, retests: seq<StructureObject>)
    ensures breakouts == Detect(BreakoutDetector(minBars), cs, structure, right)
    ensures retests == Detect(RetestDetector(minBars), cs, structure, right)
  {
    hide Passed, EventsUpTo, HighAt, LowAt, BreakObject, BreakStrength, Effective, BosAt, ChochAt, RegimeChangeAt, RegimeFrom, Levels, RetestObject, ClosesBack, Retests;
    var labels := OrDefault(cs, structure);
    ghost var levels := Levels(labels);
    breakouts, retests := [], [];
    var active: Option<Live> := None;
    var p := Pointer(0, None, None);
    NothingYet(levels, right + minBars, 1);
    NothingAtZero(BreakoutDetector(minBars), cs, levels, right);
    NothingAtZero(RetestDetector(minBars), cs, levels, right);
    var i := 1;
    while i < |cs|
      invariant 1 <= i && (i <= |cs| || i == 1)
      invariant Passed(levels, p, right + minBars, i)
      invariant breakouts == EventsUpTo(BreakoutDetector(minBars), cs, levels, right, if i <= |cs| then i else |cs|)
      invariant retests == EventsUpTo(RetestDetector(minBars), cs, levels, right, if i <= |cs| then i else |cs|)
      invariant i <= |cs| ==> active == LiveAfter(cs, levels, right + minBars, i - 1)
      invariant active.Some? ==> active.value.bar < i
    {
      EventsNext(BreakoutDetector(minBars), cs, levels, right, i);
      EventsNext(RetestDetector(minBars), cs, levels, right, i);
      p := Advance(labels, p, right + minBars, i);
      var bar := cs[i];
      var retest, still := CheckLive(cs, i, active);
      retests := retests + retest;
      active := still;
      if p.high.Some? && cs[i-1].c <= p.high.value.price < bar.c {
        breakouts := breakouts + [BreakObject(Breakout, cs, i, Bullish, p.high.value)];
        active := Some(Live(true, p.high.value.price, i));
      } else if p.low.Some? && cs[i-1].c >= p.low.value.price > bar.c {
        breakouts := breakouts + [BreakObject(Breakout, cs, i, Bearish, p.low.value)];
        active := Some(Live(false, p.low.value.price, i));
      }
      i := i + 1;
    }
  }
}
