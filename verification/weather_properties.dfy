/** Properties relating the WeatherForecast queries to each other and to the
    construction, beyond what each query's own contract states. */
module WeatherProperties {
  import opened Reductions
  import opened Slicing
  import opened Grid
  import opened Weather

  /** A nested list that already has the shape (days, 10) is stored as it is. */
  lemma FromRowsKeepsGrid(raw: seq<seq<real>>)
    requires WellShaped(raw)
    ensures FromRows(raw) == Ok(WeatherForecast(raw))
  {
    ChunkFlatten(raw);
  }

  /** A day's mean is a tenth of the day's total and lies within the day's range. */
  lemma DayMeanIsTenthOfTotal(w: WeatherForecast, i: nat)
    requires w.Valid() && i < |w.data|
    ensures w.DayMean(i) * 10.0 == Sum(w.data[i])
    ensures Min(w.data[i]) <= w.DayMean(i) <= Max(w.data[i])
  {
    MeanTimesCount(w.data[i]);
    MeanBetweenMinAndMax(w.data[i]);
  }

  /** Ten times the change of the daily mean is the change of the daily total. */
  lemma DayChangeOfTotals(w: WeatherForecast, i: nat)
    requires w.Valid() && i + 1 < |w.data|
    ensures w.DayChange(i) * 10.0 == Sum(w.data[i + 1]) - Sum(w.data[i])
  {
    DayMeanIsTenthOfTotal(w, i);
    DayMeanIsTenthOfTotal(w, i + 1);
  }

  /** The reported drop is zero exactly when every day has the same mean as the day before. */
  lemma LargestDropZeroIffSteady(w: WeatherForecast)
    requires w.Valid() && |w.data| >= 2
    ensures w.LargestDrop().Ok?
    ensures w.LargestDrop().value == 0.0 <==> forall i :: 0 <= i < |w.data| - 1 ==> w.DayMean(i + 1) == w.DayMean(i)
  {
    var r := w.LargestDrop().value;
    if r == 0.0 {
      forall i | 0 <= i < |w.data| - 1
        ensures w.DayMean(i + 1) == w.DayMean(i)
      {
        assert Abs(w.DayChange(i)) <= 0.0;
      }
    } else {
      var i :| 0 <= i < |w.data| - 1 && Abs(w.DayChange(i)) == -r;
      assert w.DayMean(i + 1) != w.DayMean(i);
    }
  }

  /** A rise in the daily mean that is the largest change in magnitude is reported
      negated, as if it were a drop. */
  lemma RiseReportedAsDrop(w: WeatherForecast, i: nat)
    requires w.Valid() && i + 1 < |w.data|
    requires w.DayChange(i) > 0.0
    requires forall j :: 0 <= j < |w.data| - 1 ==> Abs(w.DayChange(j)) <= w.DayChange(i)
    ensures w.LargestDrop() == Ok(-w.DayChange(i))
  {
    var r := w.LargestDrop().value;
    assert Abs(w.DayChange(i)) <= -r;
    var j :| 0 <= j < |w.data| - 1 && Abs(w.DayChange(j)) == -r;
  }

  /** The trailing-window maxima are a suffix of the per-day maxima: the last k of
      them for 1 <= k <= days, and all of them for k == 0 or k > days. */
  lemma MaxLastKDaysIsSuffixOfDailyMax(w: WeatherForecast, k: int)
    requires w.Valid()
    ensures 1 <= k <= |w.data| ==> w.MaxLastKDays(k) == w.MinAndMaxPerDay().1[|w.data| - k..]
    ensures k == 0 || k > |w.data| ==> w.MaxLastKDays(k) == w.MinAndMaxPerDay().1
  {
    var s := TailStart(|w.data|, k);
    assert Tail(w.data, k) == w.data[s..];
    assert RowMaxima(w.data[s..]) == RowMaxima(w.data)[s..];
  }

  /** As written, a window of zero days keeps every day, because -0 == 0 and
      `data[0:]` is the whole grid: the result has one entry per day, not zero. */
  lemma ZeroWindowKeepsEveryDay(w: WeatherForecast)
    requires w.Valid() && |w.data| >= 1
    ensures |w.MaxLastKDays(0)| == |w.data| != 0
    ensures w.MaxLastKDays(0) == w.MinAndMaxPerDay().1
  {
    MaxLastKDaysIsSuffixOfDailyMax(w, 0);
  }

  /** The clamped window agrees with the source for every positive k and differs
      only at k == 0, where it keeps no day. */
  lemma ClampedDiffersOnlyAtZero(w: WeatherForecast, k: nat)
    requires w.Valid()
    ensures k >= 1 ==> w.MaxLastKDaysClamped(k) == w.MaxLastKDays(k)
    ensures k == 0 ==> w.MaxLastKDaysClamped(k) == []
  {
    if k >= 1 {
      var kept := if k <= |w.data| then k else |w.data|;
      assert Tail(w.data, k) == w.data[|w.data| - kept..];
    }
  }

  /** Ten times the sum of the row means is the sum of all readings. */
  lemma {:induction false} SumOfRowMeans(rows: seq<seq<real>>)
    requires WellShaped(rows)
    ensures Sum(RowMeans(rows)) * (MEASUREMENTS_PER_DAY as real) == SumOfRows(rows)
  {
    if rows != [] {
      SumOfRowMeans(rows[1..]);
      assert RowMeans(rows)[1..] == RowMeans(rows[1..]);
      assert Mean(rows[0]) * (MEASUREMENTS_PER_DAY as real) == Sum(rows[0]);
    }
  }

  /** The flat mean over the kept days equals the mean of their daily means,
      because every day holds the same number of readings. */
  lemma PredictIsMeanOfDayMeans(w: WeatherForecast, k: int)
    requires w.Valid() && TailLength(|w.data|, k) >= 1
    ensures w.PredictTemperature(k) == Mean(Tail(RowMeans(w.data), k))
  {
    var kept := Tail(w.data, k);
    var means := RowMeans(kept);
    assert Tail(RowMeans(w.data), k) == means;
    SumOfRowMeans(kept);
    assert (MEASUREMENTS_PER_DAY * |kept|) as real == 10.0 * (|kept| as real);
    ScaledQuotient(Sum(means), SumOfRows(kept), |kept| as real);
  }

  lemma ScaledQuotient(s: real, total: real, m: real)
    requires m > 0.0 && s * 10.0 == total
    ensures s / m == total / (10.0 * m)
  {
  }

  /** The prediction lies between the smallest and the largest kept reading. */
  lemma PredictWithinKeptReadings(w: WeatherForecast, k: int)
    requires w.Valid() && TailLength(|w.data|, k) >= 1
    ensures |Flatten(Tail(w.data, k))| > 0
    ensures Min(Flatten(Tail(w.data, k))) <= w.PredictTemperature(k) <= Max(Flatten(Tail(w.data, k)))
  {
    var kept := Tail(w.data, k);
    FlattenLength(kept);
    SumFlatten(kept);
    MeanBetweenMinAndMax(Flatten(kept));
  }

  /** A probe equal to some day is matched at distance zero, by that day or an earlier one. */
  lemma ExactMatchFound(w: WeatherForecast, t: seq<real>, j: nat)
    requires w.Valid() && j < |w.data| && t == w.data[j]
    ensures w.WhatDayIsThisFrom(t).Ok?
    ensures w.Distance(w.WhatDayIsThisFrom(t).value, t) == 0.0
    ensures w.WhatDayIsThisFrom(t).value <= j
  {
    L1ZeroIffEqual(w.data[j], t);
    assert w.Distance(j, t) == 0.0;
  }

  /** A probe equal to exactly one day identifies that day. */
  lemma UniqueMatchFound(w: WeatherForecast, t: seq<real>, j: nat)
    requires w.Valid() && j < |w.data| && t == w.data[j]
    requires forall i :: 0 <= i < |w.data| && i != j ==> w.data[i] != t
    ensures w.WhatDayIsThisFrom(t) == Ok(j)
  {
    ExactMatchFound(w, t, j);
    var r := w.WhatDayIsThisFrom(t).value;
    L1ZeroIffEqual(w.data[r], t);
  }
}
