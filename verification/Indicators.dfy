/**
  Two indicators with running state over exact reals: the average directional index, whose
  oscillators stay in [0, 100], and the parabolic stop-and-reverse with its invariant.
 */
module Indicators {
  import opened Wrappers
  import opened Reals
  import opened Rounding
  import opened Orders
  import opened Candles
  import opened MovingAverage

  function Abs(x: real): real {
    if x < 0.0 then -x else x
  }

  // ----- directional movement

  function TrueRange(cs: seq<Candle>, i: nat): real
    requires i < |cs|
  {
    var span := cs[i].h - cs[i].low;
    if i == 0 then span
    else Max(span, Max(Abs(cs[i].h - cs[i-1].c), Abs(cs[i].low - cs[i-1].c)))
  }

  function PlusDm(cs: seq<Candle>, i: nat): real
    requires i < |cs|
  {
    if i == 0 then 0.0
    else
      var up, down := cs[i].h - cs[i-1].h, cs[i-1].low - cs[i].low;
      if up > down && up > 0.0 then up else 0.0
  }

  function MinusDm(cs: seq<Candle>, i: nat): real
    requires i < |cs|
  {
    if i == 0 then 0.0
    else
      var up, down := cs[i].h - cs[i-1].h, cs[i-1].low - cs[i].low;
      if down > up && down > 0.0 then down else 0.0
  }

  function TrueRanges(cs: seq<Candle>): (r: seq<real>)
    ensures |r| == |cs| && forall i :: 0 <= i < |cs| ==> r[i] == TrueRange(cs, i)
  {
    seq(|cs|, i requires 0 <= i < |cs| => TrueRange(cs, i))
  }

  function PlusDms(cs: seq<Candle>): (r: seq<real>)
    ensures |r| == |cs| && forall i :: 0 <= i < |cs| ==> r[i] == PlusDm(cs, i)
  {
    seq(|cs|, i requires 0 <= i < |cs| => PlusDm(cs, i))
  }

  function MinusDms(cs: seq<Candle>): (r: seq<real>)
    ensures |r| == |cs| && forall i :: 0 <= i < |cs| ==> r[i] == MinusDm(cs, i)
  {
    seq(|cs|, i requires 0 <= i < |cs| => MinusDm(cs, i))
  }

  function Blend(average: real, value: real, period: nat): real
    requires period > 0
  {
    (average * (period - 1) as real + value) / period as real
  }

  /** Wilder's smoothing: a plain mean of the first period, then a running blend. */
  function Wilder(values: seq<real>, period: nat, i: nat): real
    requires 0 < period <= i < |values|
  {
    if i == period then WindowSum(values, 1, period + 1) / period as real
    else Blend(Wilder(values, period, i - 1), values[i], period)
  }

  function RawDi(dm: real, range: real): real
    requires range != 0.0
  {
    100.0 * dm / range
  }

  function DiValue(dm: real, range: real): Option<real> {
    if range == 0.0 then None else Some(Round4(RawDi(dm, range)))
  }

  function PlusDi(cs: seq<Candle>, period: nat, i: nat): Option<real>
    requires 0 < period <= i < |cs|
  {
    DiValue(Wilder(PlusDms(cs), period, i), Wilder(TrueRanges(cs), period, i))
  }

  function MinusDi(cs: seq<Candle>, period: nat, i: nat): Option<real>
    requires 0 < period <= i < |cs|
  {
    DiValue(Wilder(MinusDms(cs), period, i), Wilder(TrueRanges(cs), period, i))
  }

  function DxOf(plus: Option<real>, minus: Option<real>): real {
    if plus.None? || minus.None? || plus.value + minus.value == 0.0 then 0.0
    else Round4(100.0 * Abs(plus.value - minus.value) / (plus.value + minus.value))
  }

  function Dx(cs: seq<Candle>, period: nat, i: nat): real
    requires 0 < period <= i < |cs|
  {
    DxOf(PlusDi(cs, period, i), MinusDi(cs, period, i))
  }

  /** The directional index at the bars after the first smoothed one. */
  function DxValues(cs: seq<Candle>, period: nat, n: nat): (r: seq<real>)
    requires 0 < period && n <= |cs|
    ensures |r| == if n <= period + 1 then 0 else n - period - 1
    ensures forall k :: 0 <= k < |r| ==> r[k] == Dx(cs, period, period + 1 + k)
  {
    if n <= period + 1 then [] else DxValues(cs, period, n - 1) + [Dx(cs, period, n - 1)]
  }

  function AdxValue(dx: seq<real>, period: nat, i: nat): real
    requires 0 < period && 2 * period <= i < |dx| + period + 1
  {
    if i == 2 * period then Round4(WindowSum(dx, 0, period) / period as real)
    else Round4(Blend(AdxValue(dx, period, i - 1), dx[i-period-1], period))
  }

  method Adx(cs: seq<Candle>, period: nat)
    returns (adx: seq<Option<real>>, plusDi: seq<Option<real>>, minusDi: seq<Option<real>>)
    requires period > 0
    ensures |adx| == |plusDi| == |minusDi| == |cs|
    ensures forall i :: 0 <= i < |cs| ==> plusDi[i] == if i < period then None else PlusDi(cs, period, i)
    ensures forall i :: 0 <= i < |cs| ==> minusDi[i] == if i < period then None else MinusDi(cs, period, i)
    ensures forall i :: 0 <= i < |cs| ==>
              adx[i] == if i < 2 * period then None else Some(AdxValue(DxValues(cs, period, |cs|), period, i))
  {
    hide AdxValue, DxValues, PlusDi, MinusDi;
    var n := |cs|;
    var adxOut := new Option<real>[n](_ => None);
    var plus := new Option<real>[n](_ => None);
    var minus := new Option<real>[n](_ => None);
    if n <= period { return adxOut[..], plus[..], minus[..]; }
    var dx := FillDirections(cs, period, plus, minus);
    FillAdx(adxOut, dx, period);
    return adxOut[..], plus[..], minus[..];
  }

  /** The directional indicators, smoothed as they go, and the directional index of every later bar. */
  method FillDirections(cs: seq<Candle>, period: nat, plus: array<Option<real>>, minus: array<Option<real>>) returns (dx: seq<real>)
    requires 0 < period < |cs| == plus.Length == minus.Length && plus != minus
    requires forall k :: 0 <= k < |cs| ==> plus[k] == None && minus[k] == None
    modifies plus, minus
    ensures dx == DxValues(cs, period, |cs|)
    ensures forall k :: 0 <= k < |cs| ==> plus[k] == if k < period then None else PlusDi(cs, period, k)
    ensures forall k :: 0 <= k < |cs| ==> minus[k] == if k < period then None else MinusDi(cs, period, k)
  {
    hide Blend, WindowSum, DiValue, DxOf, TrueRange, PlusDm, MinusDm, Wilder, PlusDi, MinusDi, Dx, DxValues;
    var trs, plusDm, minusDm := TrueRanges(cs), PlusDms(cs), MinusDms(cs);
    var range := WindowSum(trs, 1, period + 1) / period as real;
    var plusW := WindowSum(plusDm, 1, period + 1) / period as real;
    var minusW := WindowSum(minusDm, 1, period + 1) / period as real;
    plus[period] := DiValue(plusW, range);
    minus[period] := DiValue(minusW, range);
    SmoothedAt(cs, period, period);
    dx := [];
    DxSteps(cs, period, period + 1);
    for i := period + 1 to |cs|
      invariant range == Wilder(trs, period, i - 1)
      invariant plusW == Wilder(plusDm, period, i - 1)
      invariant minusW == Wilder(minusDm, period, i - 1)
      invariant dx == DxValues(cs, period, i)
      invariant forall k :: 0 <= k < i ==> plus[k] == if k < period then None else PlusDi(cs, period, k)
      invariant forall k :: 0 <= k < i ==> minus[k] == if k < period then None else MinusDi(cs, period, k)
    {
      SmoothedAt(cs, period, i);
      DxSteps(cs, period, i + 1);
      range := Blend(range, trs[i], period);
      plusW := Blend(plusW, plusDm[i], period);
      minusW := Blend(minusW, minusDm[i], period);
      plus[i] := DiValue(plusW, range);
      minus[i] := DiValue(minusW, range);
      dx := dx + [DxOf(plus[i], minus[i])];
    }
  }

  lemma DxSteps(cs: seq<Candle>, period: nat, n: nat)
    requires 0 < period < n <= |cs|
    ensures DxValues(cs, period, n) ==
            if n == period + 1 then []
            else DxValues(cs, period, n - 1) + [DxOf(PlusDi(cs, period, n - 1), MinusDi(cs, period, n - 1))]
  {
    hide PlusDi, MinusDi, DxOf;
  }

  /** What the smoothing and the indicators are at one bar, from what they were at the bar before. */
  lemma SmoothedAt(cs: seq<Candle>, period: nat, i: nat)
    requires 0 < period <= i < |cs|
    ensures PlusDi(cs, period, i) == DiValue(Wilder(PlusDms(cs), period, i), Wilder(TrueRanges(cs), period, i))
    ensures MinusDi(cs, period, i) == DiValue(Wilder(MinusDms(cs), period, i), Wilder(TrueRanges(cs), period, i))
    ensures forall values: seq<real> :: |values| == |cs| ==>
      Wilder(values, period, i) ==
      if i == period then WindowSum(values, 1, period + 1) / period as real
      else Blend(Wilder(values, period, i - 1), values[i], period)
  {
    hide Blend, WindowSum, DiValue;
  }

  /** The smoothed index, from twice the period on. */
  method FillAdx(out: array<Option<real>>, dx: seq<real>, period: nat)
    requires period > 0 && out.Length == |dx| + period + 1
    requires forall k :: 0 <= k < out.Length ==> out[k] == None
    modifies out
    ensures forall k :: 0 <= k < out.Length ==>
              out[k] == if k < 2 * period then None else Some(AdxValue(dx, period, k))
  {
    hide Blend, WindowSum, Round4;
    if |dx| < period { return; }
    out[2*period] := Some(Round4(WindowSum(dx, 0, period) / period as real));
    for j := period to |dx|
      invariant forall k :: 0 <= k < out.Length ==>
        out[k] == if 2 * period <= k <= period + j then Some(AdxValue(dx, period, k)) else None
    {
      var i := 2 * period + (j - period);
      out[i+1] := Some(Round4(Blend(out[i].value, dx[j], period)));
    }
  }

  // ----- bounds

  /** On well-formed bars the two movements together never exceed the true range. */
  lemma MovementWithinRange(cs: seq<Candle>, i: nat)
    requires WellFormedSeries(cs) && i < |cs|
    ensures 0.0 <= PlusDm(cs, i) && 0.0 <= MinusDm(cs, i)
    ensures PlusDm(cs, i) + MinusDm(cs, i) <= TrueRange(cs, i)
  {
    assert WellFormedBar(cs[i]);
    if i > 0 { assert WellFormedBar(cs[i-1]); }
  }

  lemma {:induction false} SumsOrdered(a: seq<real>, b: seq<real>, c: seq<real>, lo: nat, hi: nat)
    requires |a| == |b| == |c| && lo <= hi <= |a|
    requires forall k :: 0 <= k < |a| ==> 0.0 <= a[k] && 0.0 <= b[k] && a[k] + b[k] <= c[k]
    ensures 0.0 <= WindowSum(a, lo, hi) && 0.0 <= WindowSum(b, lo, hi)
    ensures WindowSum(a, lo, hi) + WindowSum(b, lo, hi) <= WindowSum(c, lo, hi)
  {
    if lo < hi { SumsOrdered(a, b, c, lo, hi - 1); }
  }

  lemma DivideOrdered(a: real, b: real, c: real, period: nat)
    requires period > 0 && 0.0 <= a && 0.0 <= b && a + b <= c
    ensures 0.0 <= a / period as real && 0.0 <= b / period as real
    ensures a / period as real + b / period as real <= c / period as real
  {
    var p := period as real;
    TimesQuotient(c, p);
    assert p * 0.0 == 0.0;
    TimesQuotient(a, p);
    TimesQuotient(b, p);
    CancelFactor(p, 0.0, a / p);
    CancelFactor(p, 0.0, b / p);
    QuotientsWithin(a, b, c / p, p);
  }

  lemma ScaledOrdered(a: real, b: real, c: real, q: real)
    requires 0.0 <= a && 0.0 <= b && a + b <= c && 0.0 <= q
    ensures 0.0 <= a * q && 0.0 <= b * q && a * q + b * q <= c * q
  {
    ProductNonnegative(a, q);
    ProductNonnegative(b, q);
    ProductNonnegative(c - a - b, q);
    assert (c - a - b) * q == c * q - a * q - b * q;
  }

  lemma BlendOrdered(a: real, b: real, c: real, x: real, y: real, z: real, period: nat)
    requires period > 0 && 0.0 <= a && 0.0 <= b && a + b <= c
    requires 0.0 <= x && 0.0 <= y && x + y <= z
    ensures 0.0 <= Blend(a, x, period) && 0.0 <= Blend(b, y, period)
    ensures Blend(a, x, period) + Blend(b, y, period) <= Blend(c, z, period)
  {
    var q := (period - 1) as real;
    ScaledOrdered(a, b, c, q);
    DivideOrdered(a * q + x, b * q + y, c * q + z, period);
  }

  /** Wilder's smoothing preserves the order between movements and range. */
  lemma {:induction false} WilderOrdered(a: seq<real>, b: seq<real>, c: seq<real>, period: nat, i: nat)
    requires |a| == |b| == |c| && 0 < period <= i < |a|
    requires forall k :: 0 <= k < |a| ==> 0.0 <= a[k] && 0.0 <= b[k] && a[k] + b[k] <= c[k]
    ensures 0.0 <= Wilder(a, period, i) && 0.0 <= Wilder(b, period, i)
    ensures Wilder(a, period, i) + Wilder(b, period, i) <= Wilder(c, period, i)
  {
    hide Blend, WindowSum;
    if i == period {
      SumsOrdered(a, b, c, 1, period + 1);
      DivideOrdered(WindowSum(a, 1, period + 1), WindowSum(b, 1, period + 1), WindowSum(c, 1, period + 1), period);
    } else {
      WilderOrdered(a, b, c, period, i - 1);
      BlendOrdered(Wilder(a, period, i - 1), Wilder(b, period, i - 1), Wilder(c, period, i - 1), a[i], b[i], c[i], period);
    }
  }

  lemma SharesOfRange(a: real, b: real, c: real)
    requires 0.0 <= a && 0.0 <= b && a + b <= c && c != 0.0
    ensures 0.0 <= RawDi(a, c) && 0.0 <= RawDi(b, c) && RawDi(a, c) + RawDi(b, c) <= 100.0
  {
    var x, y := 100.0 * a, 100.0 * b;
    TimesQuotient(x, c);
    TimesQuotient(y, c);
    CancelFactor(c, 0.0, x / c);
    CancelFactor(c, 0.0, y / c);
    QuotientsWithin(x, y, 100.0, c);
  }

  /** Both directional indicators lie in [0, 100], and before rounding even their sum does. */
  lemma DiBounds(cs: seq<Candle>, period: nat, i: nat)
    requires WellFormedSeries(cs) && 0 < period <= i < |cs|
    ensures var plus, minus := Wilder(PlusDms(cs), period, i), Wilder(MinusDms(cs), period, i);
            var range := Wilder(TrueRanges(cs), period, i);
            range != 0.0 ==> 0.0 <= RawDi(plus, range) && 0.0 <= RawDi(minus, range)
                             && RawDi(plus, range) + RawDi(minus, range) <= 100.0
    ensures PlusDi(cs, period, i).Some? <==> MinusDi(cs, period, i).Some?
    ensures PlusDi(cs, period, i).Some? ==> 0.0 <= PlusDi(cs, period, i).value <= 100.0
    ensures MinusDi(cs, period, i).Some? ==> 0.0 <= MinusDi(cs, period, i).value <= 100.0
  {
    hide Wilder, RawDi, Round4, TrueRange, PlusDm, MinusDm;
    forall k | 0 <= k < |cs|
      ensures 0.0 <= PlusDms(cs)[k] && 0.0 <= MinusDms(cs)[k] && PlusDms(cs)[k] + MinusDms(cs)[k] <= TrueRanges(cs)[k]
    {
      MovementWithinRange(cs, k);
    }
    WilderOrdered(PlusDms(cs), MinusDms(cs), TrueRanges(cs), period, i);
    var plus, minus := Wilder(PlusDms(cs), period, i), Wilder(MinusDms(cs), period, i);
    var range := Wilder(TrueRanges(cs), period, i);
    if range != 0.0 {
      SharesOfRange(plus, minus, range);
      Round4Within(RawDi(plus, range));
      Round4Within(RawDi(minus, range));
    }
  }

  lemma DxOfBounds(plus: real, minus: real)
    requires 0.0 <= plus && 0.0 <= minus
    ensures 0.0 <= DxOf(Some(plus), Some(minus)) <= 100.0
  {
    hide Round4;
    if plus + minus != 0.0 {
      var d := 100.0 * Abs(plus - minus);
      QuotientWithin(0.0, d, 100.0, plus + minus);
      Round4Within(d / (plus + minus));
    }
  }

  lemma DxBounds(cs: seq<Candle>, period: nat, i: nat)
    requires WellFormedSeries(cs) && 0 < period <= i < |cs|
    ensures 0.0 <= Dx(cs, period, i) <= 100.0
  {
    hide PlusDi, MinusDi, Round4;
    DiBounds(cs, period, i);
    var plus, minus := PlusDi(cs, period, i), MinusDi(cs, period, i);
    if plus.Some? { DxOfBounds(plus.value, minus.value); }
  }

  predicate AllWithin(values: seq<real>) {
    forall k :: 0 <= k < |values| ==> 0.0 <= values[k] <= 100.0
  }

  lemma {:induction false} SumWithin(values: seq<real>, n: nat)
    requires n <= |values| && AllWithin(values)
    ensures 0.0 <= WindowSum(values, 0, n) <= 100.0 * n as real
  {
    if n > 0 { SumWithin(values, n - 1); }
  }

  lemma MeanWithin(sum: real, n: nat)
    requires n > 0 && 0.0 <= sum <= 100.0 * n as real
    ensures 0.0 <= sum / n as real <= 100.0
  {
    QuotientWithin(0.0, sum, 100.0, n as real);
  }

  lemma BlendWithin(a: real, x: real, period: nat)
    requires period > 0 && 0.0 <= a <= 100.0 && 0.0 <= x <= 100.0
    ensures 0.0 <= Blend(a, x, period) <= 100.0
  {
    var q := (period - 1) as real;
    ProductNonnegative(a, q);
    ProductNonnegative(100.0 - a, q);
    assert (100.0 - a) * q == 100.0 * q - a * q;
    MeanWithin(a * q + x, period);
  }

  lemma {:induction false} AdxValueWithin(dx: seq<real>, period: nat, i: nat)
    requires 0 < period && 2 * period <= i < |dx| + period + 1 && AllWithin(dx)
    ensures 0.0 <= AdxValue(dx, period, i) <= 100.0
  {
    hide Blend, Round4, WindowSum;
    if i == 2 * period {
      SumWithin(dx, period);
      MeanWithin(WindowSum(dx, 0, period), period);
      Round4Within(WindowSum(dx, 0, period) / period as real);
    } else {
      AdxValueWithin(dx, period, i - 1);
      BlendWithin(AdxValue(dx, period, i - 1), dx[i-period-1], period);
      Round4Within(Blend(AdxValue(dx, period, i - 1), dx[i-period-1], period));
    }
  }

  /** On well-formed bars the average directional index lies in [0, 100] wherever it is defined. */
  lemma AdxBounds(cs: seq<Candle>, period: nat, i: nat)
    requires WellFormedSeries(cs) && 0 < period && 2 * period <= i < |cs|
    ensures 0.0 <= AdxValue(DxValues(cs, period, |cs|), period, i) <= 100.0
  {
    hide Dx, AdxValue;
    var dx := DxValues(cs, period, |cs|);
    forall k | 0 <= k < |dx| ensures 0.0 <= dx[k] <= 100.0 { DxBounds(cs, period, period + 1 + k); }
    AdxValueWithin(dx, period, i);
  }

  // ----- parabolic stop and reverse

  datatype Sar = Sar(up: bool, sar: real, ep: real, accel: real)

  function Toward(sar: real, ep: real, accel: real): real {
    sar + accel * (ep - sar)
  }

  /** The stop moved towards the extreme, held off by the last one or two bars. */
  function MovedSar(s: Sar, cs: seq<Candle>, i: nat): real
    requires 0 < i < |cs|
  {
    var moved := Toward(s.sar, s.ep, s.accel);
    if s.up then
      var held := Min(moved, cs[i-1].low);
      if i >= 2 then Min(held, cs[i-2].low) else held
    else
      var held := Max(moved, cs[i-1].h);
      if i >= 2 then Max(held, cs[i-2].h) else held
  }

  function NextSar(s: Sar, cs: seq<Candle>, step: real, maxStep: real, i: nat): Sar
    requires 0 < i < |cs|
  {
    var sar := MovedSar(s, cs, i);
    if s.up then
      if cs[i].low < sar then Sar(false, s.ep, cs[i].low, step)
      else if cs[i].h > s.ep then Sar(true, sar, cs[i].h, Min(s.accel + step, maxStep))
      else s.(sar := sar)
    else
      if cs[i].h > sar then Sar(true, s.ep, cs[i].h, step)
      else if cs[i].low < s.ep then Sar(false, sar, cs[i].low, Min(s.accel + step, maxStep))
      else s.(sar := sar)
  }

  function SarAt(cs: seq<Candle>, step: real, maxStep: real, i: nat): Sar
    requires i < |cs|
  {
    if i == 0 then Sar(true, cs[0].low, cs[0].h, step)
    else NextSar(SarAt(cs, step, maxStep, i - 1), cs, step, maxStep, i)
  }

  lemma SarSteps(cs: seq<Candle>, step: real, maxStep: real, i: nat)
    requires i < |cs|
    ensures SarAt(cs, step, maxStep, i) ==
            if i == 0 then Sar(true, cs[0].low, cs[0].h, step)
            else NextSar(SarAt(cs, step, maxStep, i - 1), cs, step, maxStep, i)
  {
  }

  method Psar(cs: seq<Candle>, step: real, maxStep: real) returns (out: seq<Option<real>>)
    ensures |out| == |cs|
    ensures forall i :: 0 <= i < |cs| ==> out[i] == if i == 0 then None else Some(Round8(SarAt(cs, step, maxStep, i).sar))
  {
    hide Round8, NextSar, SarAt;
    var n := |cs|;
    var values := new Option<real>[n](_ => None);
    if n < 2 { return values[..]; }
    SarSteps(cs, step, maxStep, 0);
    var up, sar, ep, accel := true, cs[0].low, cs[0].h, step;
    for i := 1 to n
      invariant Sar(up, sar, ep, accel) == SarAt(cs, step, maxStep, i - 1)
      invariant forall k :: 0 <= k < i ==> values[k] == if k == 0 then None else Some(Round8(SarAt(cs, step, maxStep, k).sar))
      invariant forall k :: i <= k < n ==> values[k] == None
    {
      SarSteps(cs, step, maxStep, i);
      up, sar, ep, accel := PsarBar(cs, i, up, sar, ep, accel, step, maxStep);
      values[i] := Some(Round8(sar));
    }
    return values[..];
  }

  /** The body of the loop: the stop moves, and the trend reverses if the bar crosses it. */
  method PsarBar(cs: seq<Candle>, i: nat, up0: bool, sar0: real, ep0: real, accel0: real, step: real, maxStep: real)
    returns (up: bool, sar: real, ep: real, accel: real)
    requires 0 < i < |cs|
    ensures Sar(up, sar, ep, accel) == NextSar(Sar(up0, sar0, ep0, accel0), cs, step, maxStep, i)
  {
    hide Toward;
    up, ep, accel := up0, ep0, accel0;
    var candle := cs[i];
    sar := Toward(sar0, ep, accel);
    if up {
      sar := if i >= 2 then Min(Min(sar, cs[i-1].low), cs[i-2].low) else Min(sar, cs[i-1].low);
      if candle.low < sar {
        up, sar, ep, accel := false, ep, candle.low, step;
      } else if candle.h > ep {
        ep, accel := candle.h, Min(accel + step, maxStep);
      }
    } else {
      sar := if i >= 2 then Max(Max(sar, cs[i-1].h), cs[i-2].h) else Max(sar, cs[i-1].h);
      if candle.h > sar {
        up, sar, ep, accel := true, ep, candle.h, step;
      } else if candle.low < ep {
        ep, accel := candle.low, Min(accel + step, maxStep);
      }
    }
  }

  /** The bar of the last reversal, or the first bar. */
  function LastFlip(cs: seq<Candle>, step: real, maxStep: real, i: nat): (b: nat)
    requires i < |cs|
    ensures b <= i
  {
    if i == 0 then 0
    else if SarAt(cs, step, maxStep, i).up != SarAt(cs, step, maxStep, i - 1).up then i
    else LastFlip(cs, step, maxStep, i - 1)
  }

  /** The extreme point is the highest high (lowest low) of the bars since the last reversal. */
  predicate ExtremeSince(cs: seq<Candle>, s: Sar, b: nat, i: nat)
    requires b <= i < |cs|
  {
    if s.up then (forall k :: b <= k <= i ==> cs[k].h <= s.ep) && exists k :: b <= k <= i && cs[k].h == s.ep
    else (forall k :: b <= k <= i ==> s.ep <= cs[k].low) && exists k :: b <= k <= i && cs[k].low == s.ep
  }

  predicate SarInvariant(cs: seq<Candle>, step: real, maxStep: real, i: nat)
    requires i < |cs|
  {
    var s := SarAt(cs, step, maxStep, i);
    && step <= s.accel <= maxStep
    && (if s.up then s.sar <= s.ep else s.ep <= s.sar)
    && ExtremeSince(cs, s, LastFlip(cs, step, maxStep, i), i)
    && (LastFlip(cs, step, maxStep, i) != i ==> if s.up then s.sar <= cs[i].low else cs[i].h <= s.sar)
  }

  /** One bar keeps the extreme point that of the bars since the last reversal. */
  lemma ExtremeNext(cs: seq<Candle>, s: Sar, step: real, maxStep: real, b: nat, i: nat)
    requires b < i < |cs| && ExtremeSince(cs, s, b, i - 1)
    ensures var t := NextSar(s, cs, step, maxStep, i);
            ExtremeSince(cs, t, if t.up == s.up then b else i, i)
  {
    hide MovedSar;
    var t := NextSar(s, cs, step, maxStep, i);
    if t.up == s.up && t.ep == s.ep {
      if s.up {
        var k :| b <= k <= i - 1 && cs[k].h == s.ep;
        assert cs[k].h == t.ep;
      } else {
        var k :| b <= k <= i - 1 && cs[k].low == s.ep;
        assert cs[k].low == t.ep;
      }
    } else {
      assert if t.up then cs[i].h == t.ep else cs[i].low == t.ep;
    }
  }

  /** One bar keeps the stop on its side of the extreme point, and of the bar unless it reverses. */
  lemma SideNext(cs: seq<Candle>, s: Sar, step: real, maxStep: real, i: nat)
    requires 0 < i < |cs| && 0.0 < step <= maxStep && step <= s.accel <= maxStep
    requires cs[i-1].low <= cs[i-1].h
    requires if s.up then cs[i-1].h <= s.ep && s.sar <= s.ep else s.ep <= cs[i-1].low && s.ep <= s.sar
    ensures var t := NextSar(s, cs, step, maxStep, i);
            && step <= t.accel <= maxStep
            && (if t.up then t.sar <= t.ep else t.ep <= t.sar)
            && (t.up == s.up ==> if t.up then t.sar <= cs[i].low else cs[i].h <= t.sar)
  {
    MovedBelow(s, cs, i);
    hide MovedSar;
  }

  /**
    At every bar of every series: the acceleration stays between its bounds; the stop is on
    the far side of the extreme point, through every reversal; the extreme point is that of
    the bars since the last reversal; and on bars that do not reverse, the stop is on the
    far side of the bar itself.
   */
  lemma {:induction false} SarInvariantHolds(cs: seq<Candle>, step: real, maxStep: real, i: nat)
    requires i < |cs| && 0.0 < step <= maxStep
    requires forall k :: 0 <= k < |cs| ==> cs[k].low <= cs[k].h
    ensures SarInvariant(cs, step, maxStep, i)
  {
    hide NextSar;
    if i == 0 {
      assert cs[0].h == SarAt(cs, step, maxStep, 0).ep;
    } else {
      SarInvariantHolds(cs, step, maxStep, i - 1);
      var s := SarAt(cs, step, maxStep, i - 1);
      ExtremeNext(cs, s, step, maxStep, LastFlip(cs, step, maxStep, i - 1), i);
      SideNext(cs, s, step, maxStep, i);
    }
  }

  lemma MovedBelow(s: Sar, cs: seq<Candle>, i: nat)
    requires 0 < i < |cs|
    ensures s.up ==> MovedSar(s, cs, i) <= cs[i-1].low
    ensures !s.up ==> cs[i-1].h <= MovedSar(s, cs, i)
  {
  }
}
