/** A2dpSessionMetrics: reports of one audio session folded into a summary. */
module A2dpMetrics {

  /** A field of -1 (or any negative value) is not set. */
  datatype Metrics = Metrics(
    audioDuration: int,
    timerMin: int,
    timerMax: int,
    timerAvg: int,
    schedulingCount: int,
    overrunsMax: int,
    overrunsTotal: int,
    underrunsAvg: real,
    underrunsCount: int,
    codecIndex: int,
    offload: bool)

  const UNSET: Metrics := Metrics(-1, -1, -1, -1, -1, -1, -1, -1.0, -1, -1, false)

  function Max(a: int, b: int): int
  {
    if a < b then b else a
  }

  function Min(a: int, b: int): int
  {
    if b < a then b else a
  }

  /** combine_averages for integers: all operands are non-negative where it divides. */
  function CombineAverages(avgA: int, countA: int, avgB: int, countB: int): int
  {
    if countA > 0 && countB > 0 then (avgA * countA + avgB * countB) / (countA + countB)
    else if countB > 0 then avgB
    else avgA
  }

  /** combine_averages for floating point, without rounding. */
  function CombineRealAverages(avgA: real, countA: int, avgB: real, countB: int): real
  {
    if countA > 0 && countB > 0 then (avgA * countA as real + avgB * countB as real) / (countA + countB) as real
    else if countB > 0 then avgB
    else avgA
  }

  predicate HasAverage(x: Metrics)
  {
    x.timerAvg >= 0 && x.schedulingCount >= 0
  }

  function AddedUp(total: int, x: int): int
  {
    if x >= 0 then Max(0, total) + x else total
  }

  function Least(least: int, x: int): int
  {
    if x < 0 then least else if least < 0 then x else Min(least, x)
  }

  function Greatest(greatest: int, x: int): int
  {
    if x >= 0 then Max(greatest, x) else greatest
  }

  /** The average and its count, once a report's are taken in. */
  function Averaged(avg: int, count: int, x: int, n: int): (int, int)
  {
    if x < 0 || n < 0 then (avg, count)
    else if avg < 0 || count < 0 then (x, n)
    else (CombineAverages(avg, count, x, n), count + n)
  }

  function RealAveraged(avg: real, count: int, x: real, n: int): (real, int)
  {
    if x < 0.0 || n < 0 then (avg, count)
    else if avg < 0.0 || count < 0 then (x, n)
    else (CombineRealAverages(avg, count, x, n), count + n)
  }

  function Updated(m: Metrics, x: Metrics): Metrics
  {
    var timer := Averaged(m.timerAvg, m.schedulingCount, x.timerAvg, x.schedulingCount);
    var underruns := RealAveraged(m.underrunsAvg, m.underrunsCount, x.underrunsAvg, x.underrunsCount);
    Metrics(
      AddedUp(m.audioDuration, x.audioDuration),
      Least(m.timerMin, x.timerMin),
      Greatest(m.timerMax, x.timerMax),
      timer.0,
      timer.1,
      Greatest(m.overrunsMax, x.overrunsMax),
      AddedUp(m.overrunsTotal, x.overrunsTotal),
      underruns.0,
      underruns.1,
      if m.codecIndex < 0 then x.codecIndex else m.codecIndex,
      m.offload || x.offload)
  }

  class A2dpSessionMetrics {
    var audioDurationMs: int
    var mediaTimerMinMs: int
    var mediaTimerMaxMs: int
    var mediaTimerAvgMs: int
    var totalSchedulingCount: int
    var bufferOverrunsMaxCount: int
    var bufferOverrunsTotal: int
    var bufferUnderrunsAverage: real
    var bufferUnderrunsCount: int
    var codecIndex: int
    var isA2dpOffload: bool

    function Value(): Metrics
      reads this
    {
      Metrics(audioDurationMs, mediaTimerMinMs, mediaTimerMaxMs, mediaTimerAvgMs, totalSchedulingCount,
              bufferOverrunsMaxCount, bufferOverrunsTotal, bufferUnderrunsAverage, bufferUnderrunsCount,
              codecIndex, isA2dpOffload)
    }

    constructor ()
      ensures Value() == UNSET
    {
      audioDurationMs, mediaTimerMinMs, mediaTimerMaxMs, mediaTimerAvgMs := -1, -1, -1, -1;
      totalSchedulingCount, bufferOverrunsMaxCount, bufferOverrunsTotal := -1, -1, -1;
      bufferUnderrunsAverage, bufferUnderrunsCount, codecIndex, isA2dpOffload := -1.0, -1, -1, false;
    }

    method Update(metrics: Metrics)
      modifies this
      ensures Value() == Updated(old(Value()), metrics)
    {
      UpdateTimers(metrics);
      UpdateBuffers(metrics);
      if codecIndex < 0 {
        codecIndex := metrics.codecIndex;
      }
      if !isA2dpOffload {
        isA2dpOffload := metrics.offload;
      }
    }

    method UpdateTimers(metrics: Metrics)
      modifies `audioDurationMs, `mediaTimerMinMs, `mediaTimerMaxMs, `mediaTimerAvgMs, `totalSchedulingCount
      ensures audioDurationMs == AddedUp(old(audioDurationMs), metrics.audioDuration)
      ensures mediaTimerMinMs == Least(old(mediaTimerMinMs), metrics.timerMin)
      ensures mediaTimerMaxMs == Greatest(old(mediaTimerMaxMs), metrics.timerMax)
      ensures (mediaTimerAvgMs, totalSchedulingCount) ==
              Averaged(old(mediaTimerAvgMs), old(totalSchedulingCount), metrics.timerAvg, metrics.schedulingCount)
    {
      if metrics.audioDuration >= 0 {
        audioDurationMs := Max(0, audioDurationMs);
        audioDurationMs := audioDurationMs + metrics.audioDuration;
      }
      if metrics.timerMin >= 0 {
        if mediaTimerMinMs < 0 {
          mediaTimerMinMs := metrics.timerMin;
        } else {
          mediaTimerMinMs := Min(mediaTimerMinMs, metrics.timerMin);
        }
      }
      if metrics.timerMax >= 0 {
        mediaTimerMaxMs := Max(mediaTimerMaxMs, metrics.timerMax);
      }
      if metrics.timerAvg >= 0 && metrics.schedulingCount >= 0 {
        if mediaTimerAvgMs < 0 || totalSchedulingCount < 0 {
          mediaTimerAvgMs := metrics.timerAvg;
          totalSchedulingCount := metrics.schedulingCount;
        } else {
          mediaTimerAvgMs :=
            CombineAverages(mediaTimerAvgMs, totalSchedulingCount, metrics.timerAvg, metrics.schedulingCount);
          totalSchedulingCount := totalSchedulingCount + metrics.schedulingCount;
        }
      }
    }

    method UpdateBuffers(metrics: Metrics)
      modifies `bufferOverrunsMaxCount, `bufferOverrunsTotal, `bufferUnderrunsAverage, `bufferUnderrunsCount
      ensures bufferOverrunsMaxCount == Greatest(old(bufferOverrunsMaxCount), metrics.overrunsMax)
      ensures bufferOverrunsTotal == AddedUp(old(bufferOverrunsTotal), metrics.overrunsTotal)
      ensures (bufferUnderrunsAverage, bufferUnderrunsCount) ==
              RealAveraged(old(bufferUnderrunsAverage), old(bufferUnderrunsCount),
                           metrics.underrunsAvg, metrics.underrunsCount)
    {
      if metrics.overrunsMax >= 0 {
        bufferOverrunsMaxCount := Max(bufferOverrunsMaxCount, metrics.overrunsMax);
      }
      if metrics.overrunsTotal >= 0 {
        bufferOverrunsTotal := Max(0, bufferOverrunsTotal);
        bufferOverrunsTotal := bufferOverrunsTotal + metrics.overrunsTotal;
      }
      if metrics.underrunsAvg >= 0.0 && metrics.underrunsCount >= 0 {
        if bufferUnderrunsAverage < 0.0 || bufferUnderrunsCount < 0 {
          bufferUnderrunsAverage := metrics.underrunsAvg;
          bufferUnderrunsCount := metrics.underrunsCount;
        } else {
          bufferUnderrunsAverage :=
            CombineRealAverages(bufferUnderrunsAverage, bufferUnderrunsCount,
                                metrics.underrunsAvg, metrics.underrunsCount);
          bufferUnderrunsCount := bufferUnderrunsCount + metrics.underrunsCount;
        }
      }
    }
  }

  // ----- What the summary of a history of reports is

  function Summary(reports: seq<Metrics>): Metrics
  {
    if reports == [] then UNSET else
      var n := |reports| - 1;
      Updated(Summary(reports[..n]), reports[n])
  }

  lemma {:induction false} SummaryGrows(reports: seq<Metrics>, x: Metrics)
    ensures Summary(reports + [x]) == Updated(Summary(reports), x)
  {
    assert (reports + [x])[..|reports|] == reports;
  }

  /** The number of reports with an average, their total count and their weighted sum. */
  function Averages(reports: seq<Metrics>): (n: nat)
    ensures n <= |reports|
  {
    if reports == [] then 0 else
      var n := |reports| - 1;
      Averages(reports[..n]) + if HasAverage(reports[n]) then 1 else 0
  }

  function TotalCount(reports: seq<Metrics>): (c: nat)
  {
    if reports == [] then 0 else
      var n := |reports| - 1;
      TotalCount(reports[..n]) + if HasAverage(reports[n]) then reports[n].schedulingCount else 0
  }

  function Weighted(reports: seq<Metrics>): int
  {
    if reports == [] then 0 else
      var n := |reports| - 1;
      Weighted(reports[..n]) + if HasAverage(reports[n]) then reports[n].timerAvg * reports[n].schedulingCount else 0
  }

  /** Dividing a weighted sum drops less than one per unit of count. */
  lemma {:induction false} CombinedError(a: int, c: int, b: int, d: int)
    requires a >= 0 && c > 0 && b >= 0 && d > 0
    ensures var q := CombineAverages(a, c, b, d);
            var r := a * c + b * d - q * (c + d);
            q >= 0 && 0 <= r < c + d
  {
    assert a * c >= 0 && b * d >= 0;
    var s, t := a * c + b * d, c + d;
    assert s == (s / t) * t + s % t;
    QuotientNonNegative(s, t);
  }

  lemma {:induction false} QuotientNonNegative(s: int, t: int)
    requires s >= 0 && t > 0
    ensures s / t >= 0
  {
  }

  lemma {:induction false} ScaleBound(n: nat, c: int, c': int)
    requires 0 <= c <= c'
    ensures n * c <= n * c'
  {
    assert n * (c' - c) >= 0;
    assert n * c' == n * c + n * (c' - c);
  }

  /** After n reports with an average, the stored integer average falls short of the exact
      one by at most n - 1 per unit of count and never exceeds it; average and count become
      set together. */
  lemma {:induction false} AverageError(reports: seq<Metrics>)
    ensures var m := Summary(reports); var n := Averages(reports); var c := TotalCount(reports);
            if n == 0 then m.timerAvg == -1 && m.schedulingCount == -1 && c == 0 && Weighted(reports) == 0
            else && m.timerAvg >= 0 && m.schedulingCount == c
                 && 0 <= Weighted(reports) - m.timerAvg * c <= (n - 1) * c
  {
    if reports != [] {
      var k := |reports| - 1;
      AverageError(reports[..k]);
      var m, x := Summary(reports[..k]), reports[k];
      var n, c := Averages(reports[..k]), TotalCount(reports[..k]);
      if HasAverage(x) && n > 0 {
        AverageStep(Weighted(reports[..k]), m.timerAvg, c, n, x.timerAvg, x.schedulingCount);
      }
    }
  }

  lemma {:induction false} AverageStep(w: int, a: int, c: nat, n: nat, b: int, d: nat)
    requires a >= 0 && b >= 0 && n >= 1 && 0 <= w - a * c <= (n - 1) * c
    ensures var q := CombineAverages(a, c, b, d);
            q >= 0 && 0 <= w + b * d - q * (c + d) <= n * (c + d)
  {
    if c > 0 && d > 0 {
      CombinedError(a, c, b, d);
      ScaleBound(n - 1, c, c + d);
      assert (n - 1) * (c + d) + (c + d) == n * (c + d);
    } else if d == 0 {
      assert b * d == 0;
      ScaleBound(1, 0, c);
      assert (n - 1) * c + c == n * c;
    } else {
      assert a * c == 0 && (n - 1) * c == 0;
      ScaleBound(n, 0, d);
    }
  }

  /** The stored average lies between any bounds on the averages that count. */
  lemma {:induction false} AverageWithinBounds(reports: seq<Metrics>, lo: int, hi: int)
    requires forall i | 0 <= i < |reports| && HasAverage(reports[i]) && reports[i].schedulingCount > 0 ::
               lo <= reports[i].timerAvg <= hi
    ensures TotalCount(reports) > 0 ==> lo <= Summary(reports).timerAvg <= hi
  {
    if reports != [] {
      var k := |reports| - 1;
      AverageWithinBounds(reports[..k], lo, hi);
      AverageError(reports[..k]);
      var m, x := Summary(reports[..k]), reports[k];
      if HasAverage(x) && Averages(reports[..k]) > 0 && m.schedulingCount > 0 && x.schedulingCount > 0 {
        MeanWithinBounds(m.timerAvg, m.schedulingCount, x.timerAvg, x.schedulingCount, lo, hi);
      }
    }
  }

  lemma {:induction false} MeanWithinBounds(a: int, c: int, b: int, d: int, lo: int, hi: int)
    requires a >= 0 && b >= 0 && c > 0 && d > 0 && lo <= a <= hi && lo <= b <= hi
    ensures lo <= CombineAverages(a, c, b, d) <= hi
  {
    CombinedError(a, c, b, d);
    SumBounds(a, c, b, d, lo, hi);
    QuotientBounds(CombineAverages(a, c, b, d), a * c + b * d, c + d, lo, hi);
  }

  lemma {:induction false} SumBounds(a: int, c: int, b: int, d: int, lo: int, hi: int)
    requires c > 0 && d > 0 && lo <= a <= hi && lo <= b <= hi
    ensures lo * (c + d) <= a * c + b * d <= hi * (c + d)
  {
    WeightedBound(a, hi, c, b, hi, d);
    WeightedBound(lo, a, c, lo, b, d);
    Distribute(hi, c, d);
    Distribute(lo, c, d);
  }

  lemma {:induction false} QuotientBounds(q: int, s: int, t: int, lo: int, hi: int)
    requires t > 0 && q * t <= s < q * t + t && lo * t <= s <= hi * t
    ensures lo <= q <= hi
  {
    Distribute(t, hi, 1);
    Distribute(t, q, 1);
    FactorBound(q, hi + 1, t);
    FactorBound(lo, q + 1, t);
  }

  lemma {:induction false} WeightedBound(x: int, y: int, c: int, z: int, w: int, d: int)
    requires x <= y && z <= w && c >= 0 && d >= 0
    ensures x * c + z * d <= y * c + w * d
  {
    ProductBound(x, y, c);
    ProductBound(z, w, d);
  }

  lemma {:induction false} Distribute(x: int, c: int, d: int)
    ensures x * (c + d) == x * c + x * d
  {
  }

  /** A positive common factor can be left out. */
  lemma {:induction false} FactorBound(x: int, y: int, t: int)
    requires t > 0
    ensures x * t < y * t ==> x < y
  {
    if y <= x { ProductBound(y, x, t); }
  }

  lemma {:induction false} ProductBound(x: int, y: int, c: int)
    requires x <= y && c >= 0
    ensures x * c <= y * c
  {
    assert (y - x) * c >= 0;
    assert y * c == x * c + (y - x) * c;
  }

  /** The sum of the durations that are set. */
  function Durations(reports: seq<Metrics>): (d: nat)
  {
    if reports == [] then 0 else
      var n := |reports| - 1;
      Durations(reports[..n]) + Max(0, reports[n].audioDuration)
  }

  /** The duration is the sum of the durations reported, and is set once one is. */
  lemma {:induction false} DurationIsSum(reports: seq<Metrics>)
    ensures Max(0, Summary(reports).audioDuration) == Durations(reports)
    ensures Summary(reports).audioDuration >= 0 <==> exists i | 0 <= i < |reports| :: reports[i].audioDuration >= 0
    ensures Summary(reports).audioDuration >= -1
  {
    if reports != [] {
      var n := |reports| - 1;
      DurationIsSum(reports[..n]);
      if Summary(reports[..n]).audioDuration >= 0 {
        var i :| 0 <= i < n && reports[..n][i].audioDuration >= 0;
        assert reports[i].audioDuration >= 0;
      } else {
        assert forall i | 0 <= i < n :: reports[..n][i] == reports[i];
      }
    }
  }

  /** Least and greatest timer values, over the reports that have them. */
  lemma {:induction false} TimerExtremes(reports: seq<Metrics>)
    ensures var m := Summary(reports);
            && (forall i | 0 <= i < |reports| && reports[i].timerMin >= 0 :: 0 <= m.timerMin <= reports[i].timerMin)
            && (m.timerMin != -1 ==> exists i | 0 <= i < |reports| :: reports[i].timerMin == m.timerMin >= 0)
            && (forall i | 0 <= i < |reports| && reports[i].timerMax >= 0 :: reports[i].timerMax <= m.timerMax)
            && (m.timerMax != -1 ==> exists i | 0 <= i < |reports| :: reports[i].timerMax == m.timerMax >= 0)
  {
    if reports != [] {
      var n := |reports| - 1;
      TimerExtremes(reports[..n]);
      var before, m := Summary(reports[..n]), Summary(reports);
      forall i | 0 <= i < |reports|
        ensures reports[i].timerMin >= 0 ==> 0 <= m.timerMin <= reports[i].timerMin
        ensures reports[i].timerMax >= 0 ==> reports[i].timerMax <= m.timerMax
      {
        if i < n { assert reports[..n][i] == reports[i]; }
      }
      if m.timerMin == before.timerMin != -1 {
        var i :| 0 <= i < n && reports[..n][i].timerMin == before.timerMin;
        assert reports[i].timerMin == m.timerMin;
      }
      if m.timerMax == before.timerMax != -1 {
        var i :| 0 <= i < n && reports[..n][i].timerMax == before.timerMax;
        assert reports[i].timerMax == m.timerMax;
      }
    }
  }

  /** The sum of the overruns that are set. */
  function Overruns(reports: seq<Metrics>): (d: nat)
  {
    if reports == [] then 0 else
      var n := |reports| - 1;
      Overruns(reports[..n]) + Max(0, reports[n].overrunsTotal)
  }

  /** The overruns are the sum of the overruns reported, and the worst count is the greatest reported. */
  lemma {:induction false} OverrunTotals(reports: seq<Metrics>)
    ensures var m := Summary(reports);
            && Max(0, m.overrunsTotal) == Overruns(reports)
            && (forall i | 0 <= i < |reports| :: reports[i].overrunsMax <= Max(-1, m.overrunsMax))
            && (m.overrunsMax != -1 ==> exists i | 0 <= i < |reports| :: reports[i].overrunsMax == m.overrunsMax >= 0)
  {
    if reports != [] {
      var n := |reports| - 1;
      OverrunTotals(reports[..n]);
      var before, m := Summary(reports[..n]), Summary(reports);
      forall i | 0 <= i < |reports| ensures reports[i].overrunsMax <= Max(-1, m.overrunsMax) {
        if i < n { assert reports[..n][i] == reports[i]; }
      }
      if m.overrunsMax == before.overrunsMax != -1 {
        var i :| 0 <= i < n && reports[..n][i].overrunsMax == before.overrunsMax;
        assert reports[i].overrunsMax == m.overrunsMax;
      }
    }
  }

  predicate HasUnderruns(x: Metrics)
  {
    x.underrunsAvg >= 0.0 && x.underrunsCount >= 0
  }

  function UnderrunCount(reports: seq<Metrics>): (c: nat)
  {
    if reports == [] then 0 else
      var n := |reports| - 1;
      UnderrunCount(reports[..n]) + if HasUnderruns(reports[n]) then reports[n].underrunsCount else 0
  }

  function WeightedUnderruns(reports: seq<Metrics>): real
  {
    if reports == [] then 0.0 else
      var n := |reports| - 1;
      var x := reports[n];
      WeightedUnderruns(reports[..n]) + if HasUnderruns(x) then x.underrunsAvg * x.underrunsCount as real else 0.0
  }

  /** The mean of values with total count c and weighted sum w; unset without values. */
  predicate IsMean(avg: real, count: int, c: nat, w: real)
  {
    if avg < 0.0 || count < 0 then avg == -1.0 && count == -1 && c == 0 && w == 0.0
    else count == c && avg * c as real == w
  }

  lemma {:induction false} MeanKept(avg: real, count: int, c: nat, w: real, x: real, n: int, c': nat, w': real)
    requires IsMean(avg, count, c, w)
    requires c' == c + (if x >= 0.0 && n >= 0 then n else 0)
    requires w' == w + (if x >= 0.0 && n >= 0 then x * n as real else 0.0)
    ensures var r := RealAveraged(avg, count, x, n); IsMean(r.0, r.1, c', w')
  {
    if x >= 0.0 && n >= 0 && avg >= 0.0 && count >= 0 {
      MeanStep(avg, count, x, n);
    }
  }

  /** Without rounding, the underrun average is the exact mean of the reports that have one. */
  lemma {:induction false} UnderrunMean(reports: seq<Metrics>)
    ensures IsMean(Summary(reports).underrunsAvg, Summary(reports).underrunsCount,
                   UnderrunCount(reports), WeightedUnderruns(reports))
  {
    if reports != [] {
      var n := |reports| - 1;
      UnderrunMean(reports[..n]);
      var m, x := Summary(reports[..n]), reports[n];
      MeanKept(m.underrunsAvg, m.underrunsCount, UnderrunCount(reports[..n]), WeightedUnderruns(reports[..n]),
               x.underrunsAvg, x.underrunsCount, UnderrunCount(reports), WeightedUnderruns(reports));
    }
  }

  lemma {:induction false} MeanStep(a: real, c: nat, b: real, d: nat)
    requires a >= 0.0 && b >= 0.0
    ensures var q := CombineRealAverages(a, c, b, d);
            q >= 0.0 && q * (c + d) as real == a * c as real + b * d as real
  {
    if c > 0 && d > 0 {
      WeightedNonNegative(a, c as real);
      WeightedNonNegative(b, d as real);
      QuotientUndone(a * c as real + b * d as real, (c + d) as real);
    } else if d == 0 {
      assert b * d as real == 0.0;
    } else {
      assert a * c as real == 0.0;
    }
  }

  lemma {:induction false} WeightedNonNegative(a: real, c: real)
    requires a >= 0.0 && c >= 0.0
    ensures a * c >= 0.0
  {
  }

  lemma {:induction false} QuotientUndone(x: real, y: real)
    requires x >= 0.0 && y > 0.0
    ensures x / y >= 0.0 && x / y * y == x
  {
  }

  /** The codec is the first one reported, and offload is remembered. */
  lemma {:induction false} CodecAndOffload(reports: seq<Metrics>)
    ensures var m := Summary(reports);
            && (m.codecIndex < 0 <==> forall i | 0 <= i < |reports| :: reports[i].codecIndex < 0)
            && (m.codecIndex >= 0 ==> exists i | 0 <= i < |reports| :: FirstCodec(reports, i, m.codecIndex))
            && (m.offload <==> exists i | 0 <= i < |reports| :: reports[i].offload)
  {
    if reports != [] {
      var n := |reports| - 1;
      CodecAndOffload(reports[..n]);
      var before := Summary(reports[..n]);
      assert forall i | 0 <= i < n :: reports[..n][i] == reports[i];
      if before.codecIndex >= 0 {
        var i :| 0 <= i < n && FirstCodec(reports[..n], i, before.codecIndex);
        assert FirstCodec(reports, i, before.codecIndex);
      } else if reports[n].codecIndex >= 0 {
        assert FirstCodec(reports, n, reports[n].codecIndex);
      }
    }
  }

  predicate FirstCodec(reports: seq<Metrics>, i: nat, codec: int)
    requires i < |reports|
  {
    reports[i].codecIndex == codec >= 0 && forall j | 0 <= j < i :: reports[j].codecIndex < 0
  }
}
