/**
  Price objects on a candle series: fair value gaps, displacement candles, order blocks and
  breaker blocks, each found by loops that are proved to return what the functions here say.
 */
module SmcObjects {
  import opened Wrappers
  import opened Orders
  import opened Candles

  const ATR_LOOKBACK: nat := 20
  const DISPLACEMENT_MULT: real := 2.0
  const BLOCK_LOOKBACK: nat := 5

  datatype SmcKind = Fvg | Displacement | OrderBlock | BreakerBlock

  datatype SmcStatus = Active | Filled | Invalidated

  datatype SmcMeta =
    | GapMeta(body: real)
    | ImpulseMeta(range: real, body: real)
    | BlockMeta(displacementBar: nat, body: real, invalidatedBar: Option<nat>)
    | BreakerMeta(source: nat, sweptAt: nat)

  /** `up` is the bullish direction. */
  datatype SmcObject = SmcObject(
    kind: SmcKind,
    bar: nat,
    ts: int,
    timeframe: string,
    up: bool,
    low: real,
    high: real,
    strength: real,
    status: SmcStatus,
    invalidation: Option<real>,
    meta: SmcMeta)

  // ----- average range

  function SpanSum(window: seq<Candle>): real {
    if window == [] then 0.0
    else SpanSum(window[..|window|-1]) + (window[|window|-1].h - window[|window|-1].low)
  }

  function AvgRange(cs: seq<Candle>, i: nat, lookback: nat): real
    requires i <= |cs|
  {
    var window := cs[(if i < lookback then 0 else i - lookback)..i];
    if window == [] then 0.0 else SpanSum(window) / |window| as real
  }

  function StrengthVsRange(cs: seq<Candle>, i: nat, size: real, lookback: nat): real
    requires i <= |cs|
  {
    var avg := AvgRange(cs, i, lookback);
    if avg <= 0.0 then 1.0 else Min(1.0, size / avg)
  }

  // ----- the first bar that passes a test

  datatype Test = CloseBelow(price: real) | CloseAbove(price: real) | LowAtMost(price: real) | HighAtLeast(price: real) {
    predicate Passes(bar: Candle) {
      match this
      case CloseBelow(price) => bar.c < price
      case CloseAbove(price) => bar.c > price
      case LowAtMost(price) => bar.low <= price
      case HighAtLeast(price) => bar.h >= price
    }
  }

  function First(cs: seq<Candle>, test: Test, from: nat): (r: Option<nat>)
    ensures r.None? ==> forall j :: from <= j < |cs| ==> !test.Passes(cs[j])
    ensures r.Some? ==> from <= r.value < |cs| && test.Passes(cs[r.value]) && forall j :: from <= j < r.value ==> !test.Passes(cs[j])
    decreases |cs| - from
  {
    if from >= |cs| then None
    else if test.Passes(cs[from]) then Some(from)
    else First(cs, test, from + 1)
  }

  // ----- fair value gaps

  function GapObject(cs: seq<Candle>, i: nat, lookback: nat, up: bool): SmcObject
    requires 2 <= i < |cs|
  {
    var low, high := if up then cs[i-2].h else cs[i].h, if up then cs[i].low else cs[i-2].low;
    SmcObject(Fvg, i, cs[i].ts, cs[i].timeframe, up, low, high, StrengthVsRange(cs, i, high - low, lookback), Active,
              Some(if up then low else high), GapMeta(cs[i-1].c - cs[i-1].o))
  }

  function GapAt(cs: seq<Candle>, i: nat, lookback: nat): seq<SmcObject>
    requires 2 <= i < |cs|
  {
    if cs[i-2].h < cs[i].low then [GapObject(cs, i, lookback, true)]
    else if cs[i-2].low > cs[i].h then [GapObject(cs, i, lookback, false)]
    else []
  }

  function Gaps(cs: seq<Candle>, lookback: nat, n: nat): seq<SmcObject>
    requires n <= |cs|
  {
    if n <= 2 then [] else Gaps(cs, lookback, n - 1) + GapAt(cs, n - 1, lookback)
  }

  function FillTest(gap: SmcObject): Test {
    if gap.up then LowAtMost(gap.low) else HighAtLeast(gap.high)
  }

  function MarkFilled(cs: seq<Candle>, gap: SmcObject): SmcObject {
    if First(cs, FillTest(gap), gap.bar + 1).Some? then gap.(status := SmcStatus.Filled) else gap
  }

  function MarkAllFilled(cs: seq<Candle>, gaps: seq<SmcObject>): (r: seq<SmcObject>)
    ensures |r| == |gaps| && forall j :: 0 <= j < |r| ==> r[j] == MarkFilled(cs, gaps[j])
  {
    seq(|gaps|, j requires 0 <= j < |gaps| => MarkFilled(cs, gaps[j]))
  }

  function Fvgs(cs: seq<Candle>, lookback: nat): seq<SmcObject> {
    MarkAllFilled(cs, Gaps(cs, lookback, |cs|))
  }

  method DetectFvg(cs: seq<Candle>, lookback: nat) returns (out: seq<SmcObject>)
    ensures out == Fvgs(cs, lookback)
  {
    hide StrengthVsRange, First;
    var candidates := [];
    var i := 2;
    while i < |cs|
      invariant 2 <= i && (i <= |cs| || i == 2)
      invariant candidates == Gaps(cs, lookback, if i <= |cs| then i else |cs|)
    {
      if cs[i-2].h < cs[i].low {
        candidates := candidates + [GapObject(cs, i, lookback, true)];
      } else if cs[i-2].low > cs[i].h {
        candidates := candidates + [GapObject(cs, i, lookback, false)];
      }
      i := i + 1;
    }
    out := [];
    for j := 0 to |candidates|
      invariant |out| == j && forall k :: 0 <= k < j ==> out[k] == MarkFilled(cs, candidates[k])
    {
      var filled := FvgFilled(cs, candidates[j]);
      out := out + [if filled then candidates[j].(status := SmcStatus.Filled) else candidates[j]];
    }
  }

  method FvgFilled(cs: seq<Candle>, gap: SmcObject) returns (filled: bool)
    ensures filled <==> First(cs, FillTest(gap), gap.bar + 1).Some?
  {
    var i := gap.bar + 1;
    while i < |cs|
      invariant gap.bar < i
      invariant First(cs, FillTest(gap), gap.bar + 1) == First(cs, FillTest(gap), i)
    {
      if gap.up {
        if cs[i].low <= gap.low { return true; }
      } else if cs[i].h >= gap.high {
        return true;
      }
      i := i + 1;
    }
    return false;
  }

  // ----- displacement

  function Body(bar: Candle): real {
    if bar.c >= bar.o then bar.c - bar.o else bar.o - bar.c
  }

  predicate IsDisplacement(cs: seq<Candle>, i: nat, lookback: nat, mult: real)
    requires i < |cs|
  {
    var span, avg := cs[i].h - cs[i].low, AvgRange(cs, i, lookback);
    avg > 0.0 && span >= mult * avg && Body(cs[i]) >= span * 0.6
  }

  function DisplacementAt(cs: seq<Candle>, i: nat, lookback: nat, mult: real): seq<SmcObject>
    requires i < |cs| && mult != 0.0
  {
    if i < lookback || !IsDisplacement(cs, i, lookback, mult) then []
    else
      var span := cs[i].h - cs[i].low;
      [SmcObject(Displacement, i, cs[i].ts, cs[i].timeframe, cs[i].c > cs[i].o, cs[i].low, cs[i].h,
                 Impulse(span, mult, AvgRange(cs, i, lookback)), Active, None, ImpulseMeta(span, Body(cs[i])))]
  }

  function Impulse(span: real, mult: real, avg: real): real
    requires mult != 0.0 && avg > 0.0
  {
    Min(1.0, span / (mult * avg))
  }

  function Displacements(cs: seq<Candle>, lookback: nat, mult: real, n: nat): seq<SmcObject>
    requires n <= |cs| && mult != 0.0
  {
    if n == 0 then [] else Displacements(cs, lookback, mult, n - 1) + DisplacementAt(cs, n - 1, lookback, mult)
  }

  method DetectDisplacement(cs: seq<Candle>, lookback: nat, mult: real) returns (out: seq<SmcObject>)
    requires mult != 0.0
    ensures out == Displacements(cs, lookback, mult, |cs|)
  {
    hide AvgRange, Impulse, Body, Displacements;
    out := [];
    var i := lookback;
    QuietStart(cs, lookback, mult, if lookback <= |cs| then lookback else |cs|);
    while i < |cs|
      invariant lookback <= i && (i <= |cs| || i == lookback)
      invariant out == Displacements(cs, lookback, mult, if i <= |cs| then i else |cs|)
    {
      NextDisplacement(cs, lookback, mult, i);
      var bar := cs[i];
      var avg := AvgRange(cs, i, lookback);
      var span := bar.h - bar.low;
      var body := Body(bar);
      if !(avg <= 0.0 || span < mult * avg || body < span * 0.6) {
        out := out + [SmcObject(Displacement, i, bar.ts, bar.timeframe, bar.c > bar.o, bar.low, bar.h,
                                Impulse(span, mult, avg), Active, None, ImpulseMeta(span, body))];
      }
      i := i + 1;
    }
  }

  lemma NextDisplacement(cs: seq<Candle>, lookback: nat, mult: real, i: nat)
    requires i < |cs| && mult != 0.0
    ensures Displacements(cs, lookback, mult, i + 1) == Displacements(cs, lookback, mult, i) + DisplacementAt(cs, i, lookback, mult)
  {
    hide DisplacementAt;
  }

  lemma {:induction false} QuietStart(cs: seq<Candle>, lookback: nat, mult: real, n: nat)
    requires n <= |cs| && n <= lookback && mult != 0.0
    ensures Displacements(cs, lookback, mult, n) == []
  {
    hide IsDisplacement, Impulse, AvgRange;
    if n != 0 { QuietStart(cs, lookback, mult, n - 1); }
  }

  // ----- order blocks

  predicate Opposite(bar: Candle, up: bool) {
    if up then bar.c < bar.o else bar.c > bar.o
  }

  /** The most recent opposite candle at or after `lo` and before `until`. */
  function LastOpposite(cs: seq<Candle>, lo: nat, until: nat, up: bool): (r: Option<nat>)
    requires until <= |cs|
    ensures r.None? ==> forall j :: lo <= j < until ==> !Opposite(cs[j], up)
    ensures r.Some? ==> lo <= r.value < until && Opposite(cs[r.value], up)
                        && forall j :: r.value < j < until ==> !Opposite(cs[j], up)
  {
    if until <= lo then None
    else if Opposite(cs[until-1], up) then Some(until - 1)
    else LastOpposite(cs, lo, until - 1, up)
  }

  function OriginOf(cs: seq<Candle>, d: SmcObject, back: nat): (r: Option<nat>)
    requires d.bar <= |cs|
    ensures r.Some? ==> r.value < d.bar
  {
    LastOpposite(cs, if d.bar < back then 0 else d.bar - back, d.bar, d.up)
  }

  function BlockOf(cs: seq<Candle>, origin: nat, d: SmcObject): SmcObject
    requires origin < |cs|
  {
    var bar := cs[origin];
    SmcObject(OrderBlock, origin, bar.ts, bar.timeframe, d.up, bar.low, bar.h, d.strength, Active,
              Some(if d.up then bar.low else bar.h), BlockMeta(d.bar, bar.c - bar.o, None))
  }

  function PlaceOf(blocks: seq<SmcObject>, bar: nat, up: bool): (r: Option<nat>)
    ensures r.Some? ==> r.value < |blocks| && blocks[r.value].bar == bar && blocks[r.value].up == up
    ensures r.None? ==> forall j :: 0 <= j < |blocks| ==> !(blocks[j].bar == bar && blocks[j].up == up)
  {
    if blocks == [] then None
    else if blocks[|blocks|-1].bar == bar && blocks[|blocks|-1].up == up then Some(|blocks| - 1)
    else PlaceOf(blocks[..|blocks|-1], bar, up)
  }

  /** One block per origin and direction; a stronger displacement replaces it. */
  function Upsert(blocks: seq<SmcObject>, block: SmcObject): seq<SmcObject> {
    var at := PlaceOf(blocks, block.bar, block.up);
    if at.None? then blocks + [block]
    else if block.strength > blocks[at.value].strength then blocks[at.value := block]
    else blocks
  }

  predicate BarsWithin(ds: seq<SmcObject>, n: nat) {
    forall j :: 0 <= j < |ds| ==> ds[j].bar < n
  }

  function Candidates(cs: seq<Candle>, ds: seq<SmcObject>, back: nat): seq<SmcObject>
    requires BarsWithin(ds, |cs|)
  {
    if ds == [] then []
    else
      var d := ds[|ds|-1];
      var origin := OriginOf(cs, d, back);
      var before := Candidates(cs, ds[..|ds|-1], back);
      if origin.None? then before else Upsert(before, BlockOf(cs, origin.value, d))
  }

  function InsertByBar(xs: seq<SmcObject>, x: SmcObject): (r: seq<SmcObject>)
    ensures forall y :: y in r <==> y in xs || y == x
  {
    if xs == [] || xs[|xs|-1].bar <= x.bar then xs + [x]
    else
      var last := xs[|xs|-1];
      assert forall y :: y in xs <==> y in xs[..|xs|-1] || y == last;
      InsertByBar(xs[..|xs|-1], x) + [last]
  }

  /** A stable sort by bar. */
  function SortByBar(xs: seq<SmcObject>): (r: seq<SmcObject>)
    ensures forall y :: y in r <==> y in xs
  {
    if xs == [] then []
    else
      assert forall y :: y in xs <==> y in xs[..|xs|-1] || y == xs[|xs|-1];
      InsertByBar(SortByBar(xs[..|xs|-1]), xs[|xs|-1])
  }

  function BreachTest(block: SmcObject): Test
    requires block.invalidation.Some?
  {
    if block.up then CloseBelow(block.invalidation.value) else CloseAbove(block.invalidation.value)
  }

  function MarkBlock(cs: seq<Candle>, block: SmcObject): SmcObject {
    if block.invalidation.None? || !block.meta.BlockMeta? then block
    else
      var breach := First(cs, BreachTest(block), block.bar + 1);
      if breach.None? then block
      else block.(status := Invalidated, meta := block.meta.(invalidatedBar := breach))
  }

  function MarkAll(cs: seq<Candle>, blocks: seq<SmcObject>): (r: seq<SmcObject>)
    ensures |r| == |blocks| && forall j :: 0 <= j < |r| ==> r[j] == MarkBlock(cs, blocks[j])
  {
    seq(|blocks|, j requires 0 <= j < |blocks| => MarkBlock(cs, blocks[j]))
  }

  function OrderBlocks(cs: seq<Candle>, ds: seq<SmcObject>, back: nat): seq<SmcObject>
    requires BarsWithin(ds, |cs|)
  {
    MarkAll(cs, SortByBar(Candidates(cs, ds, back)))
  }

  /** An empty displacement list is replaced by the default one. */
  function EffectiveDisplacement(cs: seq<Candle>, ds: seq<SmcObject>): seq<SmcObject> {
    if ds == [] then Displacements(cs, ATR_LOOKBACK, DISPLACEMENT_MULT, |cs|) else ds
  }

  lemma {:induction false} DisplacementBars(cs: seq<Candle>, lookback: nat, mult: real, n: nat)
    requires n <= |cs| && mult != 0.0
    ensures BarsWithin(Displacements(cs, lookback, mult, n), n)
    ensures forall j :: 0 <= j < |Displacements(cs, lookback, mult, n)| ==> Displacements(cs, lookback, mult, n)[j].kind.Displacement?
  {
    hide IsDisplacement, Impulse, AvgRange;
    if n != 0 { DisplacementBars(cs, lookback, mult, n - 1); }
  }

  method DetectOrderBlocks(cs: seq<Candle>, displacement: seq<SmcObject>, back: nat) returns (out: seq<SmcObject>)
    requires BarsWithin(displacement, |cs|)
    ensures BarsWithin(EffectiveDisplacement(cs, displacement), |cs|)
    ensures out == OrderBlocks(cs, EffectiveDisplacement(cs, displacement), back)
  {
    hide Upsert, BlockOf, MarkBlock, SortByBar, Displacements, OriginOf;
    DisplacementBars(cs, ATR_LOOKBACK, DISPLACEMENT_MULT, |cs|);
    var ds := displacement;
    if ds == [] { ds := DetectDisplacement(cs, ATR_LOOKBACK, DISPLACEMENT_MULT); }
    var candidates := [];
    for j := 0 to |ds|
      invariant candidates == Candidates(cs, ds[..j], back)
    {
      assert ds[..j+1][..j] == ds[..j];
      var origin := LastOppositeCandle(cs, ds[j].bar, ds[j].up, back);
      OriginIs(cs, ds[j], back);
      if origin.Some? {
        candidates := Upsert(candidates, BlockOf(cs, origin.value, ds[j]));
      }
    }
    assert ds[..|ds|] == ds;
    var sorted := SortByBar(candidates);
    out := [];
    for j := 0 to |sorted|
      invariant |out| == j && forall k :: 0 <= k < j ==> out[k] == MarkBlock(cs, sorted[k])
    {
      var marked := MarkOrderBlockStatus(cs, sorted[j]);
      out := out + [marked];
    }
  }

  lemma OriginIs(cs: seq<Candle>, d: SmcObject, back: nat)
    requires d.bar <= |cs|
    ensures OriginOf(cs, d, back) == LastOpposite(cs, if d.bar < back then 0 else d.bar - back, d.bar, d.up)
  {
  }

  method LastOppositeCandle(cs: seq<Candle>, until: nat, up: bool, back: nat) returns (r: Option<nat>)
    requires until <= |cs|
    ensures r == LastOpposite(cs, if until < back then 0 else until - back, until, up)
  {
    var lo := if until < back then 0 else until - back;
    var i: int := until - 1;
    while i >= lo
      invariant lo - 1 <= i < until || (i == until - 1 && until <= lo)
      invariant i + 1 >= 0 && LastOpposite(cs, lo, until, up) == LastOpposite(cs, lo, i + 1, up)
    {
      if Opposite(cs[i], up) { return Some(i); }
      i := i - 1;
    }
    return None;
  }

  method MarkOrderBlockStatus(cs: seq<Candle>, block: SmcObject) returns (r: SmcObject)
    ensures r == MarkBlock(cs, block)
  {
    if block.invalidation.None? || !block.meta.BlockMeta? { return block; }
    var i := block.bar + 1;
    while i < |cs|
      invariant block.bar < i
      invariant First(cs, BreachTest(block), block.bar + 1) == First(cs, BreachTest(block), i)
    {
      var bar := cs[i];
      if (block.up && bar.c < block.invalidation.value) || (!block.up && bar.c > block.invalidation.value) {
        return block.(status := Invalidated, meta := block.meta.(invalidatedBar := Some(i)));
      }
      i := i + 1;
    }
    return block;
  }

  // ----- breaker blocks

  predicate Swept(block: SmcObject) {
    block.status.Invalidated? && block.meta.BlockMeta? && block.meta.invalidatedBar.Some?
  }

  function ReclaimTest(block: SmcObject): Test {
    if block.up then CloseAbove(block.high) else CloseBelow(block.low)
  }

  function BreakerAt(cs: seq<Candle>, block: SmcObject, i: nat): SmcObject
    requires i < |cs| && Swept(block)
  {
    SmcObject(BreakerBlock, i, cs[i].ts, cs[i].timeframe, block.up, block.low, block.high, block.strength, Active,
              block.invalidation, BreakerMeta(block.bar, block.meta.invalidatedBar.value))
  }

  function BreakerOf(cs: seq<Candle>, block: SmcObject): seq<SmcObject> {
    if !Swept(block) then []
    else
      var reclaim := First(cs, ReclaimTest(block), block.meta.invalidatedBar.value + 1);
      if reclaim.None? then [] else [BreakerAt(cs, block, reclaim.value)]
  }

  function BreakersOf(cs: seq<Candle>, blocks: seq<SmcObject>): seq<SmcObject> {
    if blocks == [] then [] else BreakersOf(cs, blocks[..|blocks|-1]) + BreakerOf(cs, blocks[|blocks|-1])
  }

  function Breakers(cs: seq<Candle>, blocks: seq<SmcObject>): seq<SmcObject> {
    SortByBar(BreakersOf(cs, blocks))
  }

  /** An empty block list is replaced by the default one. */
  function EffectiveBlocks(cs: seq<Candle>, blocks: seq<SmcObject>): seq<SmcObject> {
    if blocks != [] then blocks
    else
      DisplacementBars(cs, ATR_LOOKBACK, DISPLACEMENT_MULT, |cs|);
      OrderBlocks(cs, EffectiveDisplacement(cs, []), BLOCK_LOOKBACK)
  }

  method DetectBreakerBlocks(cs: seq<Candle>, blocks: seq<SmcObject>) returns (out: seq<SmcObject>)
    ensures out == Breakers(cs, EffectiveBlocks(cs, blocks))
  {
    hide SortByBar, BreakerOf, OrderBlocks, Displacements;
    DisplacementBars(cs, ATR_LOOKBACK, DISPLACEMENT_MULT, |cs|);
    var input := blocks;
    if input == [] { input := DetectOrderBlocks(cs, [], BLOCK_LOOKBACK); }
    out := [];
    for j := 0 to |input|
      invariant out == BreakersOf(cs, input[..j])
    {
      assert input[..j+1][..j] == input[..j];
      var breaker := FindBreaker(cs, input[j]);
      out := out + breaker;
    }
    assert input[..|input|] == input;
    out := SortByBar(out);
  }

  method FindBreaker(cs: seq<Candle>, block: SmcObject) returns (r: seq<SmcObject>)
    ensures r == BreakerOf(cs, block)
  {
    if !Swept(block) { return []; }
    var invalidated := block.meta.invalidatedBar.value;
    var i := invalidated + 1;
    while i < |cs|
      invariant invalidated < i
      invariant First(cs, ReclaimTest(block), invalidated + 1) == First(cs, ReclaimTest(block), i)
    {
      if (block.up && cs[i].c > block.high) || (!block.up && cs[i].c < block.low) {
        return [BreakerAt(cs, block, i)];
      }
      i := i + 1;
    }
    return [];
  }
}
