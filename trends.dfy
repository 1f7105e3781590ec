/**
 * The year-over-year revenue growth of the trend tab: for the selected
 * periods, most recent first, each period's change against the period before
 * it in percent, and 0 for the oldest period.
 */
module Trends {
  import opened Wrappers
  import opened Ratios

  /** Every value after the first (each one a growth denominator) is non-zero. */
  predicate NonZeroAfterFirst(v: seq<real>) {
    forall i | 1 <= i < |v| :: v[i] != 0.0
  }

  /** The revenue of the first `periods` periods, most recent first. */
  function RevenueValues(inc: Statement, periods: nat): (v: seq<real>)
    requires |inc| > 0 ==> RevenueItem in inc[0]
    ensures |v| == if periods <= |inc| then periods else |inc|
    ensures forall k | 0 <= k < |v| :: RevenueItem in inc[k] && v[k] == inc[k][RevenueItem]
  {
    var n := if periods <= |inc| then periods else |inc|;
    seq(n, k requires 0 <= k < n => inc[k][RevenueItem])
  }

  /**
   * The growth of each value over the next (older) one, in percent; the last
   * (oldest) value has no predecessor and gets 0.
   */
  function RevenueGrowth(v: seq<real>): (g: seq<real>)
    requires NonZeroAfterFirst(v)
    ensures |g| == |v|
    ensures |v| > 0 ==> g[|v| - 1] == 0.0
    ensures forall i | 0 <= i < |v| - 1 :: g[i] * v[i + 1] == (v[i] - v[i + 1]) * 100.0
  {
    seq(|v|, i requires 0 <= i < |v| =>
      if i < |v| - 1 then (v[i] - v[i + 1]) / v[i + 1] * 100.0 else 0.0)
  }

  /**
   * The growth chart of the trend tab: present when the income statement has
   * at least two periods and a revenue row.
   */
  function RevenueTrend(inc: Statement, periods: nat): (g: Option<seq<real>>)
    requires |inc| >= 2 && RevenueItem in inc[0] ==> NonZeroAfterFirst(RevenueValues(inc, periods))
    ensures g.Some? <==> |inc| >= 2 && RevenueItem in inc[0]
    ensures g.Some? ==> |g.value| == if periods <= |inc| then periods else |inc|
    ensures g.Some? ==> g.value == RevenueGrowth(RevenueValues(inc, periods))
  {
    if IsEmpty(inc) || |inc| < 2 || RevenueItem !in inc[0] then None
    else Some(RevenueGrowth(RevenueValues(inc, periods)))
  }

  /** A value rebuilt from the one before it and its growth in percent. */
  function Grow(previous: real, growth: real): real {
    previous * (1.0 + growth / 100.0)
  }

  /**
   * The series rebuilt from its oldest value and the growth rates, most recent
   * first: each value is the next older one grown by its rate.
   */
  function Rebuild(oldest: real, rates: seq<real>): (v: seq<real>)
    ensures |v| == |rates| + 1
  {
    if rates == [] then [oldest]
    else
      var older := Rebuild(oldest, rates[1..]);
      [Grow(older[0], rates[0])] + older
  }

  /** The growth at one index, as the quotient it is. */
  lemma GrowthAt(v: seq<real>, i: nat)
    requires NonZeroAfterFirst(v) && i < |v| - 1
    ensures RevenueGrowth(v)[i] == (v[i] - v[i + 1]) / v[i + 1] * 100.0
  {
  }

  lemma GrowthStep(now: real, before: real, g: real)
    requires before != 0.0
    requires g == (now - before) / before * 100.0
    ensures Grow(before, g) == now
  {
  }

  /** Rates that are the period-over-period growth of v rebuild v from its oldest value. */
  lemma {:induction false} RebuildFromRates(v: seq<real>, rates: seq<real>)
    requires |v| >= 1 && NonZeroAfterFirst(v) && |rates| == |v| - 1
    requires forall i | 0 <= i < |rates| :: rates[i] == (v[i] - v[i + 1]) / v[i + 1] * 100.0
    ensures Rebuild(v[|v| - 1], rates) == v
  {
    if |v| > 1 {
      var older := v[1..];
      assert forall i | 0 <= i < |rates| - 1 :: rates[1..][i] == (older[i] - older[i + 1]) / older[i + 1] * 100.0;
      RebuildFromRates(older, rates[1..]);
      GrowthStep(v[0], v[1], rates[0]);
      assert [v[0]] + older == v;
    }
  }

  /** The growth rates with the oldest value determine the whole series. */
  lemma RebuildRevenue(v: seq<real>)
    requires |v| >= 1 && NonZeroAfterFirst(v)
    ensures Rebuild(v[|v| - 1], RevenueGrowth(v)[..|v| - 1]) == v
  {
    var rates := RevenueGrowth(v)[..|v| - 1];
    forall i | 0 <= i < |rates| ensures rates[i] == (v[i] - v[i + 1]) / v[i + 1] * 100.0 {
      GrowthAt(v, i);
    }
    RebuildFromRates(v, rates);
  }

  /** Growth is positive (a green bar) exactly when revenue rose against a positive prior year. */
  lemma GrowthSign(v: seq<real>, i: nat)
    requires NonZeroAfterFirst(v) && i < |v| - 1 && v[i + 1] > 0.0
    ensures RevenueGrowth(v)[i] > 0.0 <==> v[i] > v[i + 1]
  {
  }

}
