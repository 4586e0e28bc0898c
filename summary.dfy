/**
 * The workout summary: derived metrics computed once when a session stops.
 * Numbers are exact: the rate is a `real`, and the averages and second counts
 * are the integers JavaScript's `Math.round` and `Math.floor` give.
 */
module Summary {
  import opened Wrappers

  datatype WorkoutSummary = WorkoutSummary(
    durationSeconds: int,
    jumpTimeSeconds: int,
    avgHeartRate: Option<int>,
    jumpCount: Option<int>,
    jumpsPerMinute: Option<real>)

  /** `readings.reduce((a, b) => a + b, 0)`. */
  function Sum(readings: seq<int>): int {
    if readings == [] then 0 else Sum(readings[..|readings| - 1]) + readings[|readings| - 1]
  }

  /** `Math.round(sum / n)`: the integer nearest the mean, a half rounded up. */
  function RoundedMean(sum: int, n: int): int
    requires n > 0
  {
    (2 * sum + n) / (2 * n)
  }

  /** `Math.round` lands within a half of the exact mean, a tie going up. */
  lemma RoundedMeanIsNearest(sum: int, n: int)
    requires n > 0
    ensures var r := RoundedMean(sum, n) as real;
      r - 0.5 <= sum as real / n as real < r + 0.5
  {
    var r := RoundedMean(sum, n);
    var d := 2 * n;
    assert d * r <= 2 * sum + n < d * r + d;
    var N, S, R := n as real, sum as real, r as real;
    assert 2.0 * N * R <= 2.0 * S + N < 2.0 * N * R + 2.0 * N by {
      assert (d * r) as real == 2.0 * N * R;
    }
    assert (R - 0.5) * N <= S;
    assert S < (R + 0.5) * N;
    BelowQuotient(R - 0.5, S, N);
    AboveQuotient(R + 0.5, S, N);
  }

  lemma BelowQuotient(a: real, b: real, c: real)
    requires c > 0.0 && a * c <= b
    ensures a <= b / c
  {
    var q := b / c;
    assert q * c == b;
    assert (a - q) * c <= 0.0;
  }

  lemma AboveQuotient(a: real, b: real, c: real)
    requires c > 0.0 && b < a * c
    ensures b / c < a
  {
    var q := b / c;
    assert q * c == b;
    assert (q - a) * c < 0.0;
  }

  /** A mean rounded with `Math.round` stays within integer bounds that hold for the mean. */
  lemma RoundedMeanBetween(sum: int, n: int, lo: int, hi: int)
    requires n > 0 && n * lo <= sum <= n * hi
    ensures lo <= RoundedMean(sum, n) <= hi
  {
    var r := RoundedMean(sum, n);
    var d := 2 * n;
    assert d * r <= 2 * sum + n < d * r + d;
    assert d * lo == 2 * (n * lo) && d * (hi + 1) == 2 * (n * hi) + d;
    assert d * lo < d * (r + 1) by {
      assert d * (r + 1) == d * r + d;
    }
    assert d * r < d * (hi + 1);
    ScaleLt(lo, r + 1, d);
    ScaleLt(r, hi + 1, d);
  }

  /** Dividing both sides of `c * a < c * b` by a positive `c`. */
  lemma ScaleLt(a: int, b: int, c: int)
    requires c > 0 && c * a < c * b
    ensures a < b
  {
    assert c * (b - a) > 0;
  }

  /** Floor of a millisecond count to whole seconds, `Math.floor(ms / 1000)`. */
  function WholeSeconds(ms: int): (s: int)
    ensures 1000 * s <= ms < 1000 * (s + 1)
  {
    ms / 1000
  }

  /** `computeSummary`: total, with `None` for the cases the source reports as null. */
  function ComputeSummary(durationSeconds: int, hrReadings: seq<int>, jumpCount: int, jumpTimeMs: int): (s: WorkoutSummary)
    ensures s.durationSeconds == durationSeconds
    ensures 1000 * s.jumpTimeSeconds <= jumpTimeMs < 1000 * (s.jumpTimeSeconds + 1)
    ensures s.avgHeartRate.None? <==> hrReadings == []
    ensures s.jumpCount.None? <==> jumpCount <= 0
    ensures s.jumpCount.Some? ==> s.jumpCount.value == jumpCount
    ensures s.jumpsPerMinute.Some? <==> s.jumpTimeSeconds > 0 && jumpCount > 0
    ensures s.jumpsPerMinute.Some? ==>
              s.jumpsPerMinute.value * s.jumpTimeSeconds as real == 60.0 * jumpCount as real
  {
    var avgHeartRate := if |hrReadings| > 0 then Some(RoundedMean(Sum(hrReadings), |hrReadings|)) else None;
    var jumpTimeSeconds := WholeSeconds(jumpTimeMs);
    var jpm := if jumpTimeSeconds > 0 && jumpCount > 0
               then Some(RatePerMinute(jumpCount, jumpTimeSeconds))
               else None;
    WorkoutSummary(durationSeconds, jumpTimeSeconds, avgHeartRate,
                   if jumpCount > 0 then Some(jumpCount) else None, jpm)
  }

  /** `count / (seconds / 60)`. */
  function RatePerMinute(count: int, seconds: int): (rate: real)
    requires seconds > 0
    ensures rate * seconds as real == 60.0 * count as real
  {
    var minutes := seconds as real / 60.0;
    assert minutes * 60.0 == seconds as real;
    count as real / minutes
  }

  /** The non-null average heart rate is the rounded mean of the readings. */
  lemma AverageIsRoundedMean(durationSeconds: int, hrReadings: seq<int>, jumpCount: int, jumpTimeMs: int)
    requires hrReadings != []
    ensures var avg := ComputeSummary(durationSeconds, hrReadings, jumpCount, jumpTimeMs).avgHeartRate.value as real;
      avg - 0.5 <= Sum(hrReadings) as real / |hrReadings| as real < avg + 0.5
  {
    RoundedMeanIsNearest(Sum(hrReadings), |hrReadings|);
  }

  /** Bounds on a sum from bounds on its terms. */
  lemma {:induction false} SumBetween(readings: seq<int>, lo: int, hi: int)
    requires forall i :: 0 <= i < |readings| ==> lo <= readings[i] <= hi
    ensures |readings| * lo <= Sum(readings) <= |readings| * hi
  {
    if readings != [] {
      SumBetween(readings[..|readings| - 1], lo, hi);
    }
  }

  /** The average heart rate lies between the smallest and the largest reading. */
  lemma AverageWithinReadings(durationSeconds: int, hrReadings: seq<int>, jumpCount: int, jumpTimeMs: int, lo: int, hi: int)
    requires hrReadings != []
    requires forall i :: 0 <= i < |hrReadings| ==> lo <= hrReadings[i] <= hi
    ensures lo <= ComputeSummary(durationSeconds, hrReadings, jumpCount, jumpTimeMs).avgHeartRate.value <= hi
  {
    SumBetween(hrReadings, lo, hi);
    RoundedMeanBetween(Sum(hrReadings), |hrReadings|, lo, hi);
  }

  /** The worked examples of the summary's behaviour. */
  lemma SummaryExamples()
    ensures ComputeSummary(300, [100, 120, 140], 50, 90_000) ==
            WorkoutSummary(300, 90, Some(120), Some(50), Some(100.0 / 3.0))
    ensures ComputeSummary(300, [120, 130], 0, 0).avgHeartRate == Some(125)
    ensures ComputeSummary(300, [], 0, 0) == WorkoutSummary(300, 0, None, None, None)
    ensures ComputeSummary(300, [120], 30, 90_000).jumpsPerMinute == Some(20.0)
    ensures ComputeSummary(300, [120], 10, 0).jumpsPerMinute == None
    ensures ComputeSummary(300, [], 10, 5500).jumpTimeSeconds == 5
  {
    assert Sum([100, 120, 140]) == 360 by {
      assert [100, 120, 140][..2] == [100, 120];
      assert [100, 120][..1] == [100];
    }
    assert Sum([120, 130]) == 250 by {
      assert [120, 130][..1] == [120];
    }
  }
}
