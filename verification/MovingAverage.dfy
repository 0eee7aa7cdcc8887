/** The simple moving average: a running window that is proved to be the window's mean. */
module MovingAverage {
  import opened Wrappers
  import opened Rounding

  function WindowSum(series: seq<real>, lo: nat, hi: nat): real
    requires lo <= hi <= |series|
  {
    if lo == hi then 0.0 else WindowSum(series, lo, hi - 1) + series[hi-1]
  }

  /** The mean of the last `period` values up to and including `i`, once there are that many. */
  function SmaAt(series: seq<real>, period: nat, i: nat): Option<real>
    requires period > 0 && i < |series|
  {
    if i + 1 < period then None
    else Some(Round8(WindowSum(series, i + 1 - period, i + 1) / period as real))
  }

  lemma {:induction false} DropFirst(series: seq<real>, lo: nat, hi: nat)
    requires lo < hi <= |series|
    ensures WindowSum(series, lo, hi) == series[lo] + WindowSum(series, lo + 1, hi)
  {
    if lo + 1 < hi { DropFirst(series, lo, hi - 1); }
  }

  method Sma(series: seq<real>, period: int) returns (r: Result<seq<Option<real>>, string>)
    ensures r.Err? <==> period <= 0
    ensures r.Ok? ==> |r.value| == |series| &&
                      forall i :: 0 <= i < |series| ==> r.value[i] == SmaAt(series, period, i)
  {
    if period <= 0 { return Err("period must be positive"); }
    var out := new Option<real>[|series|](_ => None);
    var window := 0.0;
    for i := 0 to |series|
      invariant window == WindowSum(series, if i < period then 0 else i - period, i)
      invariant forall k :: 0 <= k < i ==> out[k] == SmaAt(series, period, k)
      invariant forall k :: i <= k < |series| ==> out[k] == None
    {
      window := window + series[i];
      if i >= period {
        DropFirst(series, i - period, i + 1);
        window := window - series[i-period];
      }
      if i >= period - 1 {
        out[i] := Some(Round8(window / period as real));
      }
    }
    return Ok(out[..]);
  }
}
