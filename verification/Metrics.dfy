/** Performance figures: the split of results into profit and loss, and the one-pass drawdown. */
module Metrics {
  import opened Wrappers

  // ----- profit and loss

  function SumOf(xs: seq<int>): int {
    if xs == [] then 0 else SumOf(xs[..|xs|-1]) + xs[|xs|-1]
  }

  function GrossProfit(nets: seq<int>): int {
    if nets == [] then 0 else GrossProfit(nets[..|nets|-1]) + if nets[|nets|-1] > 0 then nets[|nets|-1] else 0
  }

  function GrossLoss(nets: seq<int>): int {
    if nets == [] then 0 else GrossLoss(nets[..|nets|-1]) + if nets[|nets|-1] < 0 then -nets[|nets|-1] else 0
  }

  lemma {:induction false} ProfitLessLoss(nets: seq<int>)
    ensures SumOf(nets) == GrossProfit(nets) - GrossLoss(nets)
    ensures GrossProfit(nets) >= 0 && GrossLoss(nets) >= 0
  {
    if nets != [] { ProfitLessLoss(nets[..|nets|-1]); }
  }

  // ----- maximum drawdown

  /** The decline from bar `i` to a later bar `j`; only positive equities count as a peak. */
  predicate Decline(curve: seq<real>, i: nat, j: nat) {
    i <= j < |curve| && curve[i] > 0.0
  }

  /** No earlier value is above the one at `i`. */
  predicate IsPeak(curve: seq<real>, i: nat, j: nat) {
    i <= j < |curve| && forall k :: 0 <= k <= j ==> curve[k] <= curve[i]
  }

  /**
    The largest decline over all pairs of bars, attained at a pair whose first bar is the
    running peak, with its percentage of that peak; zero when no decline is positive. This
    is the quadratic definition.
   */
  ghost predicate IsMaxDrawdown(curve: seq<real>, drawdown: real, pct: real) {
    && drawdown >= 0.0
    && (forall i: nat, j: nat :: Decline(curve, i, j) ==> curve[i] - curve[j] <= drawdown)
    && (drawdown == 0.0 ==> pct == 0.0)
    && (drawdown > 0.0 ==> exists i: nat, j: nat :: Decline(curve, i, j) && IsPeak(curve, i, j)
                             && drawdown == curve[i] - curve[j] && pct == drawdown / curve[i] * 100.0)
  }

  method MaxDrawdown(curve: seq<real>) returns (drawdown: real, pct: real)
    ensures IsMaxDrawdown(curve, drawdown, pct)
  {
    var peak: Option<real> := None;
    ghost var top := 0;
    drawdown, pct := 0.0, 0.0;
    ghost var from, to := 0, 0;
    for n := 0 to |curve|
      invariant n > 0 <==> peak.Some?
      invariant n > 0 ==> top < n && curve[top] == peak.value && forall k :: 0 <= k < n ==> curve[k] <= peak.value
      invariant drawdown >= 0.0 && (drawdown == 0.0 ==> pct == 0.0)
      invariant forall i: nat, j: nat :: Decline(curve, i, j) && j < n ==> curve[i] - curve[j] <= drawdown
      invariant drawdown > 0.0 ==> from <= to < n && Decline(curve, from, to) && IsPeak(curve, from, to)
                                   && drawdown == curve[from] - curve[to] && pct == drawdown / curve[from] * 100.0
    {
      if peak.None? || curve[n] > peak.value {
        peak := Some(curve[n]);
        top := n;
      }
      if peak.value > 0.0 {
        var decline := peak.value - curve[n];
        if decline > drawdown {
          drawdown := decline;
          pct := decline / peak.value * 100.0;
          from, to := top, n;
        }
      }
    }
  }

  /** The drawdown is the decline from the running peak `i` to bar `j`, the percentage that decline over that peak. */
  predicate AttainedBy(curve: seq<real>, i: nat, j: nat, drawdown: real, pct: real) {
    && IsPeak(curve, i, j) && curve[i] > 0.0
    && drawdown == curve[i] - curve[j] && pct == drawdown / curve[i] * 100.0
  }

  /** With a positive first equity the drawdown is the maximum over all pairs of bars in order, and is attained. */
  lemma PositiveStart(curve: seq<real>, drawdown: real, pct: real)
    requires curve != [] && curve[0] > 0.0 && IsMaxDrawdown(curve, drawdown, pct)
    ensures forall i: nat, j: nat :: i <= j < |curve| ==> curve[i] - curve[j] <= drawdown
    ensures exists i: nat, j: nat :: AttainedBy(curve, i, j, drawdown, pct)
  {
    forall i: nat, j: nat | i <= j < |curve| ensures curve[i] - curve[j] <= drawdown {
      if curve[i] > 0.0 { assert Decline(curve, i, j); } else { assert Decline(curve, 0, j); }
    }
    if drawdown == 0.0 {
      assert AttainedBy(curve, 0, 0, drawdown, pct);
    } else {
      var i: nat, j: nat :| Decline(curve, i, j) && IsPeak(curve, i, j)
                            && drawdown == curve[i] - curve[j] && pct == drawdown / curve[i] * 100.0;
      assert AttainedBy(curve, i, j, drawdown, pct);
    }
  }
}
