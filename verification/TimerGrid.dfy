/** The time arithmetic of RepeatingTimer::RunTask, in its 64-bit widths. */
module TimerGrid {
  import opened MachineInts

  /** y is x plus a whole number of periods. */
  ghost predicate OnGrid(x: int, y: int, period: int)
  {
    exists k: int :: y == Instant(x, k, period)
  }

  /** The k-th instant of the grid that starts at x. */
  function Instant(x: int, k: int, period: int): int
  {
    x + k * period
  }

  lemma {:induction false} OnGridIntro(x: int, y: int, period: int, k: int)
    requires y == x + k * period
    ensures OnGrid(x, y, period)
  {
    assert y == Instant(x, k, period);
  }

  lemma {:induction false} OnGridTrans(x: int, y: int, z: int, period: int)
    requires OnGrid(x, y, period) && OnGrid(y, z, period)
    ensures OnGrid(x, z, period)
  {
    var k :| y == Instant(x, k, period);
    var m :| z == Instant(y, m, period);
    assert z == x + (k + m) * period;
    OnGridIntro(x, z, period, k + m);
  }

  /** Two different grid instants are at least one period apart. */
  lemma {:induction false} OnGridGap(x: int, y: int, z: int, period: int)
    requires period >= 1 && OnGrid(x, y, period) && OnGrid(x, z, period) && y < z
    ensures y + period <= z
  {
    var k :| y == Instant(x, k, period);
    var m :| z == Instant(x, m, period);
    if m <= k { StepsApart(m, k, period); } else { StepsApart(k, m, period); }
  }

  /** Multiplication by a period is monotone, and strictly so by at least a period. */
  lemma {:induction false} StepsApart(a: int, b: int, period: int)
    requires a <= b && period >= 1
    ensures a * period <= b * period
    ensures a < b ==> a * period + period <= b * period
    decreases b - a
  {
    if a < b {
      StepsApart(a + 1, b, period);
      assert (a + 1) * period == a * period + period;
    }
  }

  /** The delay handed to the message loop when a timer is first scheduled:
      an unsigned subtraction read as a signed duration. */
  function FirstDelay(first: int, now: int): int
  {
    I64(U64(first - now))
  }

  /** `expected_time_next_task_us_` after RunTask has advanced it. */
  function Advance(expected: int, period: int): int
  {
    U64(expected + period)
  }

  /** The delay RunTask computes for its next run. */
  function NextDelay(expected: int, period: int, now: int): int
    requires period >= 1
  {
    var remaining := I64(U64(Advance(expected, period) - now));
    if remaining < 0 then CRem(CRem(remaining, period) + period, period) else remaining
  }

  /** The doubled remainder of -(q * p + m). */
  lemma {:induction false} DoubledRemainder(r: int, p: int)
    requires r < 0 && p >= 1
    ensures var m := (-r) % p; CRem(CRem(r, p) + p, p) == if m == 0 then 0 else p - m
  {
    assert CRem(r, p) + p == p - (-r) % p;
  }

  lemma {:induction false} OneMore(q: int, p: int)
    ensures (q + 1) * p == q * p + p
  {
  }

  /** (r % p + p) % p with C++ remainders lifts a negative r onto [0, p)
      without leaving its residue class. */
  lemma {:induction false} NegativeRemainder(r: int, p: int)
    requires r < 0 && p >= 1
    ensures var d := CRem(CRem(r, p) + p, p);
            0 <= d < p && OnGrid(r, d, p)
  {
    var q, m, d := (-r) / p, (-r) % p, CRem(CRem(r, p) + p, p);
    DoubledRemainder(r, p);
    assert -r == q * p + m;
    OneMore(q, p);
    OnGridIntro(r, d, p, if m == 0 then q else q + 1);
  }

  /** Once started no earlier than expected, RunTask picks a delay of at most one
      period; on time it aims at the next expected instant, and late at the first
      grid instant that is not in the past. */
  lemma {:induction false} NextDelayOnGrid(expected: int, period: int, now: int)
    requires 0 <= expected <= now < TWO_63
    requires 1 <= period < TWO_63
    ensures Advance(expected, period) == expected + period
    ensures 0 <= NextDelay(expected, period, now) <= period
    ensures now <= expected + period ==> now + NextDelay(expected, period, now) == expected + period
    ensures expected + period < now ==> NextDelay(expected, period, now) < period
    ensures OnGrid(expected, now + NextDelay(expected, period, now), period)
    ensures expected + period <= now + NextDelay(expected, period, now)
  {
    var r := expected + period - now;
    SignedDifference(r);
    if r < 0 {
      NegativeRemainder(r, period);
      var d := NextDelay(expected, period, now);
      var k :| d == Instant(r, k, period);
      assert now + d == expected + (k + 1) * period;
      OnGridIntro(expected, now + d, period, k + 1);
    } else {
      OnGridIntro(expected, now + NextDelay(expected, period, now), period, 1);
    }
  }

  /** Seen from the first due time, one run moves the expected instant one period on. */
  lemma {:induction false} NextRunOnGrid(first: int, runs: nat, period: int, now: int)
    requires 0 <= first && first + runs * period <= now < TWO_63
    requires 1 <= period < TWO_63
    ensures var expected := first + runs * period; var due := now + NextDelay(expected, period, now);
            && 0 <= expected
            && Advance(expected, period) == first + (runs + 1) * period
            && first + (runs + 1) * period <= due && OnGrid(first, due, period)
  {
    var expected := first + runs * period;
    assert 0 <= expected by { StepsApart(0, runs, period); }
    NextDelayOnGrid(expected, period, now);
    assert OnGrid(first, expected, period) by { OnGridIntro(first, expected, period, runs); }
    OnGridTrans(first, expected, now + NextDelay(expected, period, now), period);
    assert (runs + 1) * period == runs * period + period;
  }

  /** A grid instant less than one period from now is the first one that is not in the past:
      a late timer misses nothing it could still reach. */
  lemma {:induction false} FirstReachable(x: int, due: int, now: int, y: int, period: int)
    requires period >= 1 && OnGrid(x, due, period) && due < now + period
    requires now <= y && OnGrid(x, y, period)
    ensures due <= y
  {
    if y < due { OnGridGap(x, y, due, period); }
  }
}
