/**
  Price objects only grow: appending candles never removes a gap, an order block or a
  breaker, never takes back a fill or an invalidation, and never moves the bar of either.
 */
module SmcGrowth {
  import opened Wrappers
  import opened Candles
  import opened Reals
  import opened SmcObjects

  // ----- prefixes

  /** The first passing bar of a prefix is the first of the whole, if it lies in the prefix. */
  lemma {:induction false} FirstPrefix(cs: seq<Candle>, k: nat, test: Test, start: nat)
    requires k <= |cs|
    ensures First(cs[..k], test, start) ==
            if First(cs, test, start).Some? && First(cs, test, start).value < k then First(cs, test, start) else None
    decreases |cs| - start
  {
    if start < k && !test.Passes(cs[start]) { FirstPrefix(cs, k, test, start + 1); }
  }

  lemma StrengthPrefix(cs: seq<Candle>, k: nat, i: nat, size: real, lookback: nat)
    requires i <= k <= |cs|
    ensures AvgRange(cs[..k], i, lookback) == AvgRange(cs, i, lookback)
    ensures StrengthVsRange(cs[..k], i, size, lookback) == StrengthVsRange(cs, i, size, lookback)
  {
    var lo := if i < lookback then 0 else i - lookback;
    assert cs[..k][lo..i] == cs[lo..i];
  }

  lemma {:induction false} GapsPrefix(cs: seq<Candle>, k: nat, lookback: nat, n: nat)
    requires n <= k <= |cs|
    ensures Gaps(cs[..k], lookback, n) == Gaps(cs, lookback, n)
  {
    if n > 2 {
      GapsPrefix(cs, k, lookback, n - 1);
      var i := n - 1;
      StrengthPrefix(cs, k, i, cs[i].low - cs[i-2].h, lookback);
      StrengthPrefix(cs, k, i, cs[i-2].low - cs[i].h, lookback);
      hide StrengthVsRange;
      assert GapAt(cs[..k], i, lookback) == GapAt(cs, i, lookback);
    }
  }

  lemma {:induction false} GapsExtend(cs: seq<Candle>, lookback: nat, m: nat, n: nat)
    requires m <= n <= |cs|
    ensures Gaps(cs, lookback, m) <= Gaps(cs, lookback, n)
  {
    hide GapAt;
    if m < n { GapsExtend(cs, lookback, m, n - 1); }
  }

  /** Gaps stay where they are, and a fill is never taken back. */
  lemma GapsOnlyFill(cs: seq<Candle>, k: nat, lookback: nat)
    requires k <= |cs|
    ensures var a, b := Fvgs(cs[..k], lookback), Fvgs(cs, lookback);
            |a| <= |b| && forall j :: 0 <= j < |a| ==> b[j] == a[j] || b[j] == a[j].(status := SmcStatus.Filled)
  {
    hide Gaps;
    GapsPrefix(cs, k, lookback, k);
    GapsExtend(cs, lookback, k, |cs|);
    var gaps := Gaps(cs, lookback, |cs|);
    var early := Gaps(cs, lookback, k);
    forall j | 0 <= j < |early| ensures MarkFilled(cs, gaps[j]) in [MarkFilled(cs[..k], gaps[j]), gaps[j].(status := SmcStatus.Filled)] {
      FirstPrefix(cs, k, FillTest(gaps[j]), gaps[j].bar + 1);
    }
  }

  lemma DisplacementAtPrefix(cs: seq<Candle>, k: nat, lookback: nat, mult: real, i: nat)
    requires i < k <= |cs| && mult != 0.0
    ensures DisplacementAt(cs[..k], i, lookback, mult) == DisplacementAt(cs, i, lookback, mult)
  {
    hide AvgRange, StrengthVsRange, Impulse;
    StrengthPrefix(cs, k, i, 0.0, lookback);
  }

  lemma {:induction false} DisplacementsPrefix(cs: seq<Candle>, k: nat, lookback: nat, mult: real, n: nat)
    requires n <= k <= |cs| && mult != 0.0
    ensures Displacements(cs[..k], lookback, mult, n) == Displacements(cs, lookback, mult, n)
  {
    hide DisplacementAt;
    if n > 0 {
      DisplacementsPrefix(cs, k, lookback, mult, n - 1);
      DisplacementAtPrefix(cs, k, lookback, mult, n - 1);
    }
  }

  lemma {:induction false} DisplacementsExtend(cs: seq<Candle>, lookback: nat, mult: real, m: nat, n: nat)
    requires m <= n <= |cs| && mult != 0.0
    ensures Displacements(cs, lookback, mult, m) <= Displacements(cs, lookback, mult, n)
  {
    hide DisplacementAt;
    if m < n { DisplacementsExtend(cs, lookback, mult, m, n - 1); }
  }

  /** Every displacement of the list has the full strength of one. */
  predicate Full(ds: seq<SmcObject>) {
    forall j :: 0 <= j < |ds| ==> ds[j].strength == 1.0
  }

  lemma FullImpulse(span: real, mult: real, avg: real)
    requires mult > 0.0 && avg > 0.0 && span >= mult * avg
    ensures mult * avg > 0.0 && Impulse(span, mult, avg) == 1.0
  {
    ProductPositive(mult, avg);
    TimesQuotient(span, mult * avg);
    CancelFactor(mult * avg, 1.0, span / (mult * avg));
  }

  /** A displacement reaches its own threshold, so its capped strength is always one. */
  lemma {:induction false} DisplacementsFull(cs: seq<Candle>, lookback: nat, mult: real, n: nat)
    requires n <= |cs| && mult > 0.0
    ensures Full(Displacements(cs, lookback, mult, n))
  {
    hide AvgRange, Impulse;
    if n != 0 {
      DisplacementsFull(cs, lookback, mult, n - 1);
      var i := n - 1;
      if IsDisplacement(cs, i, lookback, mult) {
        FullImpulse(cs[i].h - cs[i].low, mult, AvgRange(cs, i, lookback));
      }
    }
  }

  // ----- candidate blocks

  /** The same block, perhaps by now of a stronger displacement. */
  predicate SameBlock(a: SmcObject, b: SmcObject) {
    && a.kind == b.kind && a.bar == b.bar && a.ts == b.ts && a.timeframe == b.timeframe
    && a.up == b.up && a.low == b.low && a.high == b.high && a.invalidation == b.invalidation
    && a.strength <= b.strength
    && (a.meta.BlockMeta? <==> b.meta.BlockMeta?)
  }

  /** A candidate is the block of its origin candle for some displacement of the list. */
  predicate MadeBy(cs: seq<Candle>, back: nat, b: SmcObject, d: SmcObject) {
    d.bar <= |cs| && OriginOf(cs, d, back) == Some(b.bar) && b.bar < |cs| && b == BlockOf(cs, b.bar, d)
  }

  predicate Made(cs: seq<Candle>, ds: seq<SmcObject>, back: nat, b: SmcObject) {
    exists m :: 0 <= m < |ds| && MadeBy(cs, back, b, ds[m])
  }

  lemma UpsertKeeps(blocks: seq<SmcObject>, block: SmcObject)
    ensures var r := Upsert(blocks, block);
            |blocks| <= |r| && forall j :: 0 <= j < |r| ==>
              r[j] == block || (j < |blocks| && r[j] == blocks[j])
    ensures forall j :: 0 <= j < |blocks| && Upsert(blocks, block)[j] != blocks[j] ==>
              blocks[j].bar == block.bar && blocks[j].up == block.up && blocks[j].strength < block.strength
  {
  }

  lemma {:induction false} CandidatesMade(cs: seq<Candle>, ds: seq<SmcObject>, back: nat)
    requires BarsWithin(ds, |cs|)
    ensures forall j :: 0 <= j < |Candidates(cs, ds, back)| ==> Made(cs, ds, back, Candidates(cs, ds, back)[j])
  {
    hide Upsert, BlockOf, OriginOf;
    if ds != [] {
      var n := |ds| - 1;
      var before, r := Candidates(cs, ds[..n], back), Candidates(cs, ds, back);
      CandidatesMade(cs, ds[..n], back);
      forall j | 0 <= j < |before| ensures Made(cs, ds, back, before[j]) {
        var m :| 0 <= m < n && MadeBy(cs, back, before[j], ds[..n][m]);
        assert MadeBy(cs, back, before[j], ds[m]);
      }
      var origin := OriginOf(cs, ds[n], back);
      if origin.Some? {
        var block := BlockOf(cs, origin.value, ds[n]);
        BlockFields(cs, origin.value, ds[n]);
        assert MadeBy(cs, back, block, ds[n]);
        UpsertKeeps(before, block);
      }
    }
  }

  lemma BlockFields(cs: seq<Candle>, origin: nat, d: SmcObject)
    requires origin < |cs|
    ensures var b := BlockOf(cs, origin, d);
            b.bar == origin && b.up == d.up && b.strength == d.strength && b.kind.OrderBlock? && b.status.Active?
            && b.meta == BlockMeta(d.bar, cs[origin].c - cs[origin].o, None) && b.invalidation.Some?
  {
  }

  /** Two displacements make the same block of one origin and direction, but for the strength. */
  lemma MadeAlike(cs: seq<Candle>, back: nat, a: SmcObject, b: SmcObject, ds: seq<SmcObject>)
    requires Made(cs, ds, back, a) && Made(cs, ds, back, b)
    requires a.bar == b.bar && a.up == b.up && a.strength <= b.strength
    ensures SameBlock(a, b)
  {
  }

  /** A candidate has the strength of a displacement, so none is ever replaced by a stronger one. */
  lemma MadeFull(cs: seq<Candle>, ds: seq<SmcObject>, back: nat, b: SmcObject)
    requires Full(ds) && Made(cs, ds, back, b)
    ensures b.strength == 1.0
  {
    var m :| 0 <= m < |ds| && MadeBy(cs, back, b, ds[m]);
    BlockFields(cs, b.bar, ds[m]);
  }

  /** One more displacement keeps every candidate in its place, unchanged if all have full strength. */
  lemma {:induction false} CandidatesGrow(cs: seq<Candle>, ds: seq<SmcObject>, back: nat, m: nat)
    requires BarsWithin(ds, |cs|) && m <= |ds|
    ensures var a, b := Candidates(cs, ds[..m], back), Candidates(cs, ds, back);
            |a| <= |b| && forall j :: 0 <= j < |a| ==> SameBlock(a[j], b[j]) && (Full(ds) ==> a[j] == b[j])
  {
    hide Upsert, BlockOf, OriginOf, SameBlock, Made;
    CandidatesMade(cs, ds, back);
    if m == |ds| {
      assert ds[..m] == ds;
      forall j | 0 <= j < |Candidates(cs, ds, back)| ensures SameBlock(Candidates(cs, ds, back)[j], Candidates(cs, ds, back)[j]) {
        Itself(Candidates(cs, ds, back)[j]);
      }
    } else {
      var n := |ds| - 1;
      var a, c, b := Candidates(cs, ds[..m], back), Candidates(cs, ds[..n], back), Candidates(cs, ds, back);
      assert ds[..n][..m] == ds[..m];
      CandidatesGrow(cs, ds[..n], back, m);
      CandidateCount(cs, ds, back);
      forall j | 0 <= j < |c| ensures SameBlock(c[j], b[j]) && (Full(ds) ==> c[j] == b[j]) { CandidateStep(cs, ds, back, j); }
      forall j | 0 <= j < |a| ensures SameBlock(a[j], b[j]) { Chain(a[j], c[j], b[j]); }
    }
  }

  lemma Itself(a: SmcObject)
    ensures SameBlock(a, a)
  {
  }

  lemma Chain(a: SmcObject, b: SmcObject, c: SmcObject)
    requires SameBlock(a, b) && SameBlock(b, c)
    ensures SameBlock(a, c)
  {
  }

  lemma CandidateCount(cs: seq<Candle>, ds: seq<SmcObject>, back: nat)
    requires ds != [] && BarsWithin(ds, |cs|)
    ensures |Candidates(cs, ds[..|ds|-1], back)| <= |Candidates(cs, ds, back)|
  {
    hide BlockOf, OriginOf, PlaceOf;
  }

  lemma CandidateStep(cs: seq<Candle>, ds: seq<SmcObject>, back: nat, j: nat)
    requires ds != [] && BarsWithin(ds, |cs|)
    requires j < |Candidates(cs, ds[..|ds|-1], back)|
    ensures j < |Candidates(cs, ds, back)|
    ensures SameBlock(Candidates(cs, ds[..|ds|-1], back)[j], Candidates(cs, ds, back)[j])
    ensures Full(ds) ==> Candidates(cs, ds[..|ds|-1], back)[j] == Candidates(cs, ds, back)[j]
  {
    hide Upsert, BlockOf, OriginOf, SameBlock, Made;
    var n := |ds| - 1;
    var before := Candidates(cs, ds[..n], back);
    var origin := OriginOf(cs, ds[n], back);
    Itself(before[j]);
    if origin.Some? {
      var block := BlockOf(cs, origin.value, ds[n]);
      UpsertKeeps(before, block);
      if Upsert(before, block)[j] != before[j] {
        BlockFields(cs, origin.value, ds[n]);
        CandidatesMade(cs, ds[..n], back);
        MadeLast(cs, ds, back, origin.value);
        StillMade(cs, ds, back, before[j]);
        MadeAlike(cs, back, before[j], block, ds);
        if Full(ds) { MadeFull(cs, ds, back, before[j]); }
      }
    }
  }

  lemma MadeLast(cs: seq<Candle>, ds: seq<SmcObject>, back: nat, origin: nat)
    requires ds != [] && origin < |cs|
    requires ds[|ds|-1].bar <= |cs| && OriginOf(cs, ds[|ds|-1], back) == Some(origin)
    ensures Made(cs, ds, back, BlockOf(cs, origin, ds[|ds|-1]))
  {
    assert MadeBy(cs, back, BlockOf(cs, origin, ds[|ds|-1]), ds[|ds|-1]);
  }

  lemma StillMade(cs: seq<Candle>, ds: seq<SmcObject>, back: nat, b: SmcObject)
    requires ds != [] && Made(cs, ds[..|ds|-1], back, b)
    ensures Made(cs, ds, back, b)
  {
    var m :| 0 <= m < |ds| - 1 && MadeBy(cs, back, b, ds[..|ds|-1][m]);
    assert MadeBy(cs, back, b, ds[m]);
  }

  lemma {:induction false} OppositePrefix(cs: seq<Candle>, k: nat, lo: nat, until: nat, up: bool)
    requires until <= k <= |cs|
    ensures LastOpposite(cs[..k], lo, until, up) == LastOpposite(cs, lo, until, up)
  {
    if lo < until { OppositePrefix(cs, k, lo, until - 1, up); }
  }

  lemma BlockPrefix(cs: seq<Candle>, k: nat, origin: nat, d: SmcObject)
    requires origin < k <= |cs|
    ensures BlockOf(cs[..k], origin, d) == BlockOf(cs, origin, d)
  {
  }

  lemma {:induction false} CandidatesPrefix(cs: seq<Candle>, k: nat, ds: seq<SmcObject>, back: nat)
    requires k <= |cs| && BarsWithin(ds, k)
    ensures Candidates(cs[..k], ds, back) == Candidates(cs, ds, back)
  {
    hide Upsert, BlockOf;
    if ds != [] {
      var d := ds[|ds|-1];
      CandidatesPrefix(cs, k, ds[..|ds|-1], back);
      OppositePrefix(cs, k, if d.bar < back then 0 else d.bar - back, d.bar, d.up);
      if OriginOf(cs, d, back).Some? { BlockPrefix(cs, k, OriginOf(cs, d, back).value, d); }
    }
  }

  // ----- blocks and breakers

  function BlocksOn(cs: seq<Candle>, lookback: nat, mult: real, back: nat): seq<SmcObject>
    requires mult != 0.0
  {
    DisplacementBars(cs, lookback, mult, |cs|);
    OrderBlocks(cs, Displacements(cs, lookback, mult, |cs|), back)
  }

  /** The later state of a block: once invalidated, invalidated at the same bar for ever. */
  predicate BlockGrows(a: SmcObject, b: SmcObject) {
    && SameBlock(a, b)
    && (a.status.Invalidated? ==> b.status.Invalidated?)
    && (Swept(a) ==> Swept(b) && a.meta.invalidatedBar == b.meta.invalidatedBar)
  }

  /** The later block is the earlier one, or the earlier one invalidated at a bar from `k` on. */
  predicate OnlyInvalidated(a: SmcObject, b: SmcObject, k: nat) {
    b == a ||
    (&& a.status.Active? && a.meta.BlockMeta? && a.meta.invalidatedBar.None? && Swept(b) && b.meta.invalidatedBar.value >= k
     && b == a.(status := Invalidated, meta := a.meta.(invalidatedBar := b.meta.invalidatedBar)))
  }

  lemma MarkGrows(cs: seq<Candle>, k: nat, a: SmcObject, b: SmcObject)
    requires k <= |cs| && SameBlock(a, b) && a.status.Active?
    requires a.invalidation.Some? && a.meta.BlockMeta? && a.meta.invalidatedBar.None?
    ensures BlockGrows(MarkBlock(cs[..k], a), MarkBlock(cs, b))
    ensures a == b ==> OnlyInvalidated(MarkBlock(cs[..k], a), MarkBlock(cs, b), k)
  {
    hide First;
    if a.invalidation.Some? { FirstPrefix(cs, k, BreachTest(a), a.bar + 1); }
  }

  lemma CandidatesOfPrefix(cs: seq<Candle>, k: nat, lookback: nat, mult: real, back: nat)
    requires k <= |cs| && mult != 0.0
    ensures var ds, es := Displacements(cs[..k], lookback, mult, k), Displacements(cs, lookback, mult, |cs|);
            && BarsWithin(ds, k) && BarsWithin(es, |cs|)
            && |ds| <= |es| && ds == es[..|ds|]
            && Candidates(cs[..k], ds, back) == Candidates(cs, es[..|ds|], back)
  {
    hide Displacements, Candidates;
    DisplacementsPrefix(cs, k, lookback, mult, k);
    DisplacementsExtend(cs, lookback, mult, k, |cs|);
    DisplacementBars(cs[..k], lookback, mult, k);
    DisplacementBars(cs, lookback, mult, |cs|);
    CandidatesPrefix(cs, k, Displacements(cs[..k], lookback, mult, k), back);
  }

  /**
    Every order block of a prefix is still there, never un-invalidated nor invalidated
    elsewhere. With a positive multiplier nothing else about it changes either.
   */
  lemma OrderBlocksGrow(cs: seq<Candle>, k: nat, lookback: nat, mult: real, back: nat, a: SmcObject)
    returns (b: SmcObject)
    requires k <= |cs| && mult != 0.0
    requires a in BlocksOn(cs[..k], lookback, mult, back)
    ensures b in BlocksOn(cs, lookback, mult, back) && BlockGrows(a, b)
    ensures mult > 0.0 ==> OnlyInvalidated(a, b, k)
  {
    hide Displacements, Candidates, SortByBar, MarkBlock, BlockGrows, OnlyInvalidated, SameBlock, Made, Full;
    if mult > 0.0 { DisplacementsFull(cs, lookback, mult, |cs|); }
    CandidatesOfPrefix(cs, k, lookback, mult, back);
    var ds, es := Displacements(cs[..k], lookback, mult, k), Displacements(cs, lookback, mult, |cs|);
    var before, after := Candidates(cs[..k], ds, back), Candidates(cs, es, back);
    CandidatesGrow(cs, es, back, |ds|);
    var sorted := SortByBar(before);
    var i :| 0 <= i < |sorted| && MarkBlock(cs[..k], sorted[i]) == a;
    assert sorted[i] in sorted;
    var j :| 0 <= j < |before| && before[j] == sorted[i];
    CandidatesMade(cs[..k], ds, back);
    MadeActive(cs[..k], ds, back, before[j]);
    MarkGrows(cs, k, before[j], after[j]);
    b := MarkBlock(cs, after[j]);
    assert after[j] in SortByBar(after);
    MarkedIn(cs, SortByBar(after), after[j]);
  }

  lemma MadeActive(cs: seq<Candle>, ds: seq<SmcObject>, back: nat, b: SmcObject)
    requires Made(cs, ds, back, b)
    ensures b.status.Active? && b.invalidation.Some? && b.meta.BlockMeta? && b.meta.invalidatedBar.None?
  {
  }

  lemma MarkedIn(cs: seq<Candle>, blocks: seq<SmcObject>, b: SmcObject)
    requires b in blocks
    ensures MarkBlock(cs, b) in MarkAll(cs, blocks)
  {
    var j :| 0 <= j < |blocks| && blocks[j] == b;
    assert MarkAll(cs, blocks)[j] == MarkBlock(cs, b);
  }

  /** The displacement makes a block of the given origin and direction. */
  predicate Hits(cs: seq<Candle>, back: nat, d: SmcObject, bar: nat, up: bool) {
    d.bar <= |cs| && OriginOf(cs, d, back) == Some(bar) && d.up == up
  }

  /** The first displacement of the list that makes a block of this origin and direction made this one. */
  predicate MadeFirst(cs: seq<Candle>, ds: seq<SmcObject>, back: nat, b: SmcObject) {
    exists m :: 0 <= m < |ds| && MadeBy(cs, back, b, ds[m]) && forall l :: 0 <= l < m ==> !Hits(cs, back, ds[l], b.bar, b.up)
  }

  /** Every displacement with an origin has a candidate of that origin and direction. */
  lemma {:induction false} CandidatesCover(cs: seq<Candle>, ds: seq<SmcObject>, back: nat, l: nat, bar: nat, up: bool)
    requires BarsWithin(ds, |cs|) && l < |ds| && Hits(cs, back, ds[l], bar, up)
    ensures PlaceOf(Candidates(cs, ds, back), bar, up).Some?
  {
    hide OriginOf, PlaceOf;
    var n := |ds| - 1;
    var before := Candidates(cs, ds[..n], back);
    if l < n { CandidatesCover(cs, ds[..n], back, l, bar, up); }
    if OriginOf(cs, ds[n], back).Some? {
      var block := BlockOf(cs, OriginOf(cs, ds[n], back).value, ds[n]);
      PlaceKept(before, block, bar, up);
    }
  }

  lemma PlaceKept(blocks: seq<SmcObject>, block: SmcObject, bar: nat, up: bool)
    ensures PlaceOf(blocks, bar, up).Some? || (block.bar == bar && block.up == up) ==> PlaceOf(Upsert(blocks, block), bar, up).Some?
  {
    var r := Upsert(blocks, block);
    var at, mine := PlaceOf(blocks, bar, up), PlaceOf(blocks, block.bar, block.up);
    hide PlaceOf;
    if at.Some? { assert r[at.value].bar == bar && r[at.value].up == up; }
    if mine.None? { assert r[|blocks|] == block; }
  }

  /** With displacements of full strength, the first of an origin and direction makes its block for good. */
  lemma {:induction false} FirstWins(cs: seq<Candle>, ds: seq<SmcObject>, back: nat)
    requires BarsWithin(ds, |cs|) && Full(ds)
    ensures forall j :: 0 <= j < |Candidates(cs, ds, back)| ==> MadeFirst(cs, ds, back, Candidates(cs, ds, back)[j])
  {
    hide PlaceOf, BlockOf, OriginOf, MadeFirst;
    if ds != [] {
      var n := |ds| - 1;
      var before, r := Candidates(cs, ds[..n], back), Candidates(cs, ds, back);
      FirstWins(cs, ds[..n], back);
      forall j | 0 <= j < |r| ensures MadeFirst(cs, ds, back, r[j]) {
        if j < |before| {
          CandidateStep(cs, ds, back, j);
          MadeFirstStill(cs, ds, back, before[j]);
        } else {
          var origin := OriginOf(cs, ds[n], back).value;
          BlockFields(cs, origin, ds[n]);
          assert ds == ds[..n] + [ds[n]];
          NewestIsFirst(cs, ds[..n], ds[n], back, origin);
        }
      }
    }
  }

  lemma MadeFirstStill(cs: seq<Candle>, ds: seq<SmcObject>, back: nat, b: SmcObject)
    requires ds != [] && MadeFirst(cs, ds[..|ds|-1], back, b)
    ensures MadeFirst(cs, ds, back, b)
  {
    hide BlockOf, OriginOf, Hits, MadeBy;
    var before := ds[..|ds|-1];
    var m :| 0 <= m < |before| && MadeBy(cs, back, b, before[m]) && forall l :: 0 <= l < m ==> !Hits(cs, back, before[l], b.bar, b.up);
    assert MadeBy(cs, back, b, ds[m]);
    forall l | 0 <= l < m ensures !Hits(cs, back, ds[l], b.bar, b.up) { assert before[l] == ds[l]; }
  }

  lemma NewestIsFirst(cs: seq<Candle>, ds: seq<SmcObject>, d: SmcObject, back: nat, origin: nat)
    requires BarsWithin(ds, |cs|) && d.bar < |cs|
    requires OriginOf(cs, d, back) == Some(origin)
    requires PlaceOf(Candidates(cs, ds, back), origin, d.up).None?
    ensures MadeFirst(cs, ds + [d], back, BlockOf(cs, origin, d))
  {
    hide PlaceOf, OriginOf, BlockOf, Candidates;
    var b := BlockOf(cs, origin, d);
    BlockFields(cs, origin, d);
    assert MadeBy(cs, back, b, (ds + [d])[|ds|]);
    forall l | 0 <= l < |ds| ensures !Hits(cs, back, (ds + [d])[l], b.bar, b.up) {
      if Hits(cs, back, ds[l], b.bar, b.up) { CandidatesCover(cs, ds, back, l, b.bar, b.up); }
    }
  }

  /**
    A block's origin is the latest candle against its displacement within the lookback, and
    a block is invalidated at the first later close beyond its far boundary, if there is one.
    With displacements of full strength its displacement is the first with that origin.
   */
  lemma BlockChain(cs: seq<Candle>, ds: seq<SmcObject>, back: nat, b: SmcObject) returns (m: nat)
    requires BarsWithin(ds, |cs|) && b in OrderBlocks(cs, ds, back)
    ensures m < |ds| && OriginOf(cs, ds[m], back) == Some(b.bar) && ds[m].up == b.up
    ensures Full(ds) ==> forall l :: 0 <= l < m ==> !Hits(cs, back, ds[l], b.bar, b.up)
    ensures b.invalidation.Some? && b.meta.BlockMeta? && b.meta.displacementBar == ds[m].bar
    ensures b.bar < ds[m].bar
    ensures b.status.Invalidated? <==> Swept(b)
    ensures b.meta.invalidatedBar == First(cs, BreachTest(b), b.bar + 1)
    ensures Swept(b) <==> First(cs, BreachTest(b), b.bar + 1).Some?
  {
    hide Candidates, SortByBar, First, MarkBlock, OriginOf, BlockOf, BreachTest, Full, Hits;
    var candidates := Candidates(cs, ds, back);
    var sorted := SortByBar(candidates);
    var i :| 0 <= i < |sorted| && MarkBlock(cs, sorted[i]) == b;
    assert sorted[i] in sorted;
    var j :| 0 <= j < |candidates| && candidates[j] == sorted[i];
    CandidatesMade(cs, ds, back);
    if Full(ds) {
      FirstWins(cs, ds, back);
      m :| 0 <= m < |ds| && MadeBy(cs, back, candidates[j], ds[m])
           && forall l :: 0 <= l < m ==> !Hits(cs, back, ds[l], candidates[j].bar, candidates[j].up);
    } else {
      m :| 0 <= m < |ds| && MadeBy(cs, back, candidates[j], ds[m]);
    }
    BlockFields(cs, candidates[j].bar, ds[m]);
    MarkedBlock(cs, candidates[j]);
  }

  lemma MarkedBlock(cs: seq<Candle>, c: SmcObject)
    requires c.status.Active? && c.invalidation.Some? && c.meta.BlockMeta? && c.meta.invalidatedBar.None?
    ensures var b := MarkBlock(cs, c);
            && b.bar == c.bar && b.up == c.up && b.invalidation == c.invalidation && b.strength == c.strength
            && b.meta.BlockMeta? && b.meta.displacementBar == c.meta.displacementBar
            && b.meta.invalidatedBar == First(cs, BreachTest(b), b.bar + 1)
            && (b.status.Invalidated? <==> b.meta.invalidatedBar.Some?)
  {
    hide First;
  }

  lemma {:induction false} BreakersFrom(cs: seq<Candle>, blocks: seq<SmcObject>, x: SmcObject) returns (j: nat)
    requires x in BreakersOf(cs, blocks)
    ensures j < |blocks| && BreakerOf(cs, blocks[j]) == [x]
  {
    hide BreakerOf;
    var n := |blocks| - 1;
    if x in BreakersOf(cs, blocks[..n]) {
      j := BreakersFrom(cs, blocks[..n], x);
    } else {
      j := n;
      AtMostOne(cs, blocks[n]);
    }
  }

  lemma AtMostOne(cs: seq<Candle>, block: SmcObject)
    ensures |BreakerOf(cs, block)| <= 1
  {
  }

  lemma {:induction false} BreakersHave(cs: seq<Candle>, blocks: seq<SmcObject>, j: nat, x: SmcObject)
    requires j < |blocks| && BreakerOf(cs, blocks[j]) == [x]
    ensures x in BreakersOf(cs, blocks)
  {
    hide BreakerOf;
    var n := |blocks| - 1;
    if j < n { BreakersHave(cs, blocks[..n], j, x); }
  }

  /** Origin, sweep and reclaim follow one another, the latter two each the first such bar. */
  lemma BreakerChain(cs: seq<Candle>, ds: seq<SmcObject>, back: nat, x: SmcObject) returns (b: SmcObject)
    requires BarsWithin(ds, |cs|) && x in Breakers(cs, OrderBlocks(cs, ds, back))
    ensures b in OrderBlocks(cs, ds, back) && Swept(b) && b.invalidation.Some?
    ensures x.meta == BreakerMeta(b.bar, b.meta.invalidatedBar.value)
    ensures b.bar < b.meta.invalidatedBar.value < x.bar
    ensures First(cs, BreachTest(b), b.bar + 1) == b.meta.invalidatedBar
    ensures First(cs, ReclaimTest(b), b.meta.invalidatedBar.value + 1) == Some(x.bar)
  {
    hide OrderBlocks, SortByBar, First, BreachTest;
    var blocks := OrderBlocks(cs, ds, back);
    var j := BreakersFrom(cs, blocks, x);
    b := blocks[j];
    var m := BlockChain(cs, ds, back, b);
  }

  predicate SameBreaker(a: SmcObject, b: SmcObject) {
    a == b.(strength := a.strength) && a.strength <= b.strength
  }

  lemma BreakerGrows(cs: seq<Candle>, k: nat, a: SmcObject, b: SmcObject, x: SmcObject) returns (y: SmcObject)
    requires k <= |cs| && BlockGrows(a, b) && BreakerOf(cs[..k], a) == [x]
    ensures BreakerOf(cs, b) == [y] && SameBreaker(x, y)
    ensures OnlyInvalidated(a, b, k) ==> y == x
  {
    hide First;
    FirstPrefix(cs, k, ReclaimTest(a), a.meta.invalidatedBar.value + 1);
    y := BreakerAt(cs, b, x.bar);
  }

  /** Every breaker of a prefix is still there, at the same bar, swept at the same bar; unchanged with a positive multiplier. */
  lemma BreakersGrow(cs: seq<Candle>, k: nat, lookback: nat, mult: real, back: nat, x: SmcObject)
    returns (y: SmcObject)
    requires k <= |cs| && mult != 0.0
    requires x in Breakers(cs[..k], BlocksOn(cs[..k], lookback, mult, back))
    ensures y in Breakers(cs, BlocksOn(cs, lookback, mult, back)) && SameBreaker(x, y)
    ensures mult > 0.0 ==> y == x
  {
    hide BlocksOn, SortByBar, BreakerOf, BlockGrows, SameBreaker, OnlyInvalidated;
    var early, late := BlocksOn(cs[..k], lookback, mult, back), BlocksOn(cs, lookback, mult, back);
    var j := BreakersFrom(cs[..k], early, x);
    var b := OrderBlocksGrow(cs, k, lookback, mult, back, early[j]);
    y := BreakerGrows(cs, k, early[j], b, x);
    var i :| 0 <= i < |late| && late[i] == b;
    BreakersHave(cs, late, i, y);
  }

  // ----- the default pipeline, its fallbacks included

  /** The order blocks that the code finds from its own displacement candles, all parameters default. */
  function DefaultBlocks(cs: seq<Candle>): seq<SmcObject> {
    DisplacementBars(cs, ATR_LOOKBACK, DISPLACEMENT_MULT, |cs|);
    OrderBlocks(cs, EffectiveDisplacement(cs, Displacements(cs, ATR_LOOKBACK, DISPLACEMENT_MULT, |cs|)), BLOCK_LOOKBACK)
  }

  function DefaultBreakers(cs: seq<Candle>): seq<SmcObject> {
    Breakers(cs, EffectiveBlocks(cs, DefaultBlocks(cs)))
  }

  /** With the default parameters neither fallback to a default list changes anything. */
  lemma DefaultFallbacks(cs: seq<Candle>)
    ensures DefaultBlocks(cs) == BlocksOn(cs, ATR_LOOKBACK, DISPLACEMENT_MULT, BLOCK_LOOKBACK)
    ensures EffectiveBlocks(cs, DefaultBlocks(cs)) == DefaultBlocks(cs)
  {
    hide Displacements, OrderBlocks;
    DisplacementBars(cs, ATR_LOOKBACK, DISPLACEMENT_MULT, |cs|);
  }

  /** As the code runs by default, appending candles can only invalidate a block, at a bar that is new. */
  lemma DefaultBlocksGrow(cs: seq<Candle>, k: nat, a: SmcObject) returns (b: SmcObject)
    requires k <= |cs| && a in DefaultBlocks(cs[..k])
    ensures b in DefaultBlocks(cs) && OnlyInvalidated(a, b, k)
  {
    hide DefaultBlocks, BlocksOn, OnlyInvalidated, BlockGrows;
    DefaultFallbacks(cs[..k]);
    DefaultFallbacks(cs);
    b := OrderBlocksGrow(cs, k, ATR_LOOKBACK, DISPLACEMENT_MULT, BLOCK_LOOKBACK, a);
  }

  /** And every breaker of a prefix is a breaker of the whole, in every field. */
  lemma DefaultBreakersGrow(cs: seq<Candle>, k: nat, x: SmcObject)
    requires k <= |cs| && x in DefaultBreakers(cs[..k])
    ensures x in DefaultBreakers(cs)
  {
    hide DefaultBlocks, BlocksOn, EffectiveBlocks, Breakers, SameBreaker;
    DefaultFallbacks(cs[..k]);
    DefaultFallbacks(cs);
    var y := BreakersGrow(cs, k, ATR_LOOKBACK, DISPLACEMENT_MULT, BLOCK_LOOKBACK, x);
  }
}
