/** The wall-clock rules of the analyzer. Time is seconds since the epoch as
    an exact real, standing for the float `time.time()` returns. */
module Timing {

  /** `update` analyses at most once every three seconds (automind.py:65). */
  const TickInterval: real := 3.0

  /** The yawn count is cleared once per ten-minute period (automind.py:117). */
  const ResetPeriod: real := 600.0

  /** Voice alerts are at least thirty seconds apart (automind.py:55). */
  const AlertInterval: real := 30.0

  /** Simulated yawns from the keyboard are more than two seconds apart (automind.py:378). */
  const YawnDebounce: real := 2.0

  /** Python's `t % 600` on floats: the remainder of flooring division, which is
      never negative. */
  function ResetPhase(t: real): (r: real)
    ensures 0.0 <= r < ResetPeriod
  {
    t - ResetPeriod * (t / ResetPeriod).Floor as real
  }

  /** `current_time % 600 < 3`: the time falls in the first three seconds of a
      ten-minute period. */
  predicate ResetDue(t: real)
  {
    ResetPhase(t) < TickInterval
  }

  /** Within period `k` (the times from `600 k` up to `600 (k + 1)`), the reset
      is due exactly during the first three seconds. */
  lemma ResetWindow(t: real, k: int)
    requires k as real * ResetPeriod <= t < (k + 1) as real * ResetPeriod
    ensures ResetPhase(t) == t - k as real * ResetPeriod
    ensures ResetDue(t) <==> t < k as real * ResetPeriod + TickInterval
  {
    assert (t / ResetPeriod).Floor == k;
  }

  /** The period a time falls in. */
  function PeriodOf(t: real): (k: int)
    ensures k as real * ResetPeriod <= t < (k + 1) as real * ResetPeriod
  {
    (t / ResetPeriod).Floor
  }

  /** Two resets at least one tick apart lie in different periods, so they are
      nearly a whole period apart: the reset fires at most once per period. */
  lemma ResetsNearlyAPeriodApart(t1: real, t2: real)
    requires ResetDue(t1) && ResetDue(t2)
    requires t2 - t1 >= TickInterval
    ensures t2 - t1 > ResetPeriod - TickInterval
  {
    var k1, k2 := PeriodOf(t1), PeriodOf(t2);
    ResetWindow(t1, k1);
    ResetWindow(t2, k2);
    assert k1 < k2;
  }

  /** The check can also miss a period: ticks at 599.99 s and 603.01 s are more
      than three seconds apart and neither falls in the window [600, 603). */
  lemma ResetWindowCanBeMissed()
    ensures 603.01 - 599.99 >= TickInterval
    ensures !ResetDue(599.99) && !ResetDue(603.01)
  {
  }
}
