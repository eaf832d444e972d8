# WeatherForecast, modelled in Dafny

A model of the `WeatherForecast` class of `homework1/weather_forecast.py`. The class
stores daily weather readings as a grid with one row per day and ten readings per row.
It answers six read-only queries over that grid:

- the minimum and maximum of each day;
- the largest day-over-day change of the daily mean, negated;
- for each day, the reading farthest from that day's mean;
- the maximum of each of the last k days;
- the mean of the last k days, as a prediction for the next day;
- the day nearest to a probe reading, by summed absolute difference.

The grid is assigned once, in the constructor, and never changed. So the class is
modelled as an immutable datatype, `Weather.WeatherForecast`, with one member function
per query. Readings are `real`s, so every mean is exact. The torch reductions become
small functions over `seq<real>`:

- `Reductions`: sum, mean, absolute value, min, max, first argmin and first argmax, and
  the L1 distance.
- `Slicing`: Python's end-relative slice `xs[-k:]`, which both trailing-window queries
  use.
- `Grid`: row-major flattening, and the reshape into rows of ten done by `view(-1, 10)`.
- `Weather`: the error kinds, construction, and the queries.
- `WeatherProperties` and `WeatherExample`: lemmas relating the queries to each other,
  and an example of two mirrored days, one rising from 1 to 10 and one falling from 10
  to 1.

A call that raises in the source returns `Err(...)` in the model:

| case | source behaviour | model |
|---|---|---|
| ragged nested input list | `torch.as_tensor` raises | `RaggedInput` |
| reading count not a multiple of ten | `view` raises | `ShapeError` |
| `find_the_largest_drop` with fewer than two days | max of an empty tensor | `InsufficientData` |
| `what_day_is_this_from` on a grid with no days | argmin of an empty tensor | `InsufficientData` |

Two behaviours of the code are easy to misread, and the model follows the code in both:

- `max_last_k_days(0)` returns one maximum per day, not an empty result, because
  `-0 == 0`.
- When several readings of a day are equally far from its mean,
  `find_the_most_extreme_day` returns the one at the index `torch.max(...).indices`
  reports. The model does not rely on that tie-break: it promises only some farthest
  reading.

The model departs from the code in four places, each listed under "Left out":

- it requires a probe of exactly ten readings, where the code broadcasts a one-value
  probe against every column;
- it has no prediction for a window that keeps no day, where the code returns NaN;
- k is an unbounded integer, so the 64-bit wrap-around of `torch.neg` at -2^63, which
  keeps every day, is not modelled;
- readings are reals, so an integer-valued input list, whose `mean` fails in the code,
  is not modelled.

## Model

| member | source | states |
|---|---|---|
| Weather.FromFlat | homework1/weather_forecast.py:15 | Construction succeeds exactly when the reading count is a multiple of ten; it fails with ShapeError otherwise. On success the grid is well shaped and has count/10 rows. Its rows concatenated give back the input, and reading j of day i is input element 10*i + j. |
| Weather.FromRows | homework1/weather_forecast.py:7-15 | A nested list succeeds exactly when it is rectangular and its reading count is a multiple of ten. A ragged list fails with RaggedInput; otherwise a failure is ShapeError. On success the grid is well shaped and holds the same readings in the same order. |
| WeatherProperties.FromRowsKeepsGrid | homework1/weather_forecast.py:15 | A nested list that already has the shape (days, 10) is stored unchanged. |
| Grid.Chunk | homework1/weather_forecast.py:15 | Reshaping a flat vector whose length is a multiple of ten gives length/10 rows of ten. Flattening them gives back the vector, in row-major order. |
| Grid.ChunkFlatten | homework1/weather_forecast.py:15 | Reshaping a flattened (days, 10) grid gives the same grid back. |
| Slicing.SliceBound | homework1/weather_forecast.py:64 | Python's rule for the start bound i of a slice of n elements: i itself for 0 <= i <= n, n for i > n, n + i for a negative i with n + i >= 0, and 0 below that. |
| Weather.RowMinima | homework1/weather_forecast.py:25 | One entry per row. Entry i is a reading of row i and at most every reading of that row, as `torch.min` along dimension 1 gives. |
| Weather.RowMaxima | homework1/weather_forecast.py:26 | One entry per row. Entry i is a reading of row i and at least every reading of that row, as `torch.max` along dimension 1 gives; line 65 uses it too. |
| Weather.RowMeans | homework1/weather_forecast.py:37 | One entry per row. Entry i is the mean of row i, and ten times it is the row's total, as `torch.mean` along dimension 1 gives. |
| Reductions.MeanTimesCount | homework1/weather_forecast.py:81 | The mean of a non-empty vector, times its length, is its sum: the flat `torch.mean`. |
| WeatherProperties.DayMeanIsTenthOfTotal | homework1/weather_forecast.py:48 | The mean of day i, as `torch.mean(..., dim=1)` gives it at lines 37 and 48, is a tenth of the day's total and lies within the day's range. |
| WeatherProperties.DayChangeOfTotals | homework1/weather_forecast.py:38 | Ten times the change of the daily mean from day i to day i + 1 is the change of the daily total. |
| Weather.WeatherForecast.Distance | homework1/weather_forecast.py:106 | The summed absolute difference between day i and the probe is never negative, and is zero exactly when the day equals the probe. |
| Weather.WeatherForecast.MinAndMaxPerDay | homework1/weather_forecast.py:17-27 | Both outputs have one entry per day. Entry i of each is a reading of day i. The minimum is at most every reading of the day, and the maximum at least every one. |
| Reductions.Abs | homework1/weather_forecast.py:39 | The absolute value is never negative and is x or -x: `torch.abs`, also at lines 51 and 106. |
| Reductions.Min | homework1/weather_forecast.py:25 | The minimum is an element of the vector and at most every element. |
| Reductions.Max | homework1/weather_forecast.py:26 | The maximum is an element of the vector and at least every element. |
| Weather.WeatherForecast.LargestDrop | homework1/weather_forecast.py:29-39 | Fails with InsufficientData exactly when there are fewer than two days. Otherwise the result is at most 0. Its negation is at least every day-over-day change of the daily mean in magnitude, and equals one of them. |
| WeatherProperties.LargestDropZeroIffSteady | homework1/weather_forecast.py:37-39 | With two or more days, the drop is 0 exactly when every day has the same mean as the day before. |
| WeatherProperties.RiseReportedAsDrop | homework1/weather_forecast.py:29-39 | When the largest change in magnitude is a rise of c, the result is -c: a rise is reported as a drop. |
| Weather.WeatherForecast.FarthestColumn | homework1/weather_forecast.py:48-52 | Gives a column of day i whose distance from the day's mean is at least that of every other column. |
| Weather.WeatherForecast.MostExtremeDay | homework1/weather_forecast.py:41-54 | One value per day. Value i is a reading of day i, and its distance from the day's mean is at least that of every reading of the day. |
| Reductions.ArgMax | homework1/weather_forecast.py:52 | Gives an index in range whose element is at least every element and greater than every earlier one. |
| Slicing.TailStart | homework1/weather_forecast.py:63-64 | The start of `xs[-k:]` on n elements: 0 for k = 0, n - k for 1 <= k <= n, 0 for k > n, and min(n, abs(k)) for k < 0. |
| Slicing.TailLength | homework1/weather_forecast.py:79-80 | `xs[-k:]` keeps k elements for 1 <= k <= n and all n for k = 0 or k > n. For k < 0 it keeps n - abs(k) elements, or none when abs(k) >= n. |
| Slicing.Tail | homework1/weather_forecast.py:64 | The slice keeps TailLength elements, element i being element TailStart + i of the input. It is the last k elements for 1 <= k <= n and the whole input for k = 0 or k > n. |
| Weather.WeatherForecast.MaxLastKDays | homework1/weather_forecast.py:56-66 | One value per kept day, in day order. The value for kept day d is a reading of day d and at least every reading of day d. |
| WeatherProperties.MaxLastKDaysIsSuffixOfDailyMax | homework1/weather_forecast.py:63-66 | For 1 <= k <= days the result is the last k per-day maxima. For k = 0 or k > days it is all the per-day maxima. |
| WeatherProperties.ZeroWindowKeepsEveryDay | homework1/weather_forecast.py:56-66 | As written, k = 0 on a non-empty grid gives one maximum for every day rather than none. |
| Weather.WeatherForecast.MaxLastKDaysClamped | homework1/weather_forecast.py:56-66 | For k >= 0 the result has min(k, days) entries. Entry i is the maximum of day days - min(k, days) + i. |
| WeatherProperties.ClampedDiffersOnlyAtZero | homework1/weather_forecast.py:63-66 | The clamped window equals the source's result for every k >= 1, and is empty for k = 0. |
| Weather.WeatherForecast.PredictTemperature | homework1/weather_forecast.py:68-81 | The result is the sum of the kept days' readings divided by ten times the number of kept days. For k = 0 or k >= days it is the mean of the whole grid. |
| WeatherProperties.PredictIsMeanOfDayMeans | homework1/weather_forecast.py:79-81 | The flat mean over the kept days equals the mean of those days' daily means. |
| WeatherProperties.PredictWithinKeptReadings | homework1/weather_forecast.py:79-81 | The prediction lies between the smallest and the largest kept reading. |
| WeatherProperties.SumOfRowMeans | homework1/weather_forecast.py:81 | Ten times the sum of the daily means is the sum of all readings. |
| Grid.SumFlatten | homework1/weather_forecast.py:81 | Summing the flattened grid gives the sum of the row sums. |
| Grid.FlattenLength | homework1/weather_forecast.py:81 | A flattened (days, 10) grid has 10 * days readings. |
| Reductions.MeanBetweenMinAndMax | homework1/weather_forecast.py:81 | The mean of a non-empty vector lies between its minimum and its maximum. |
| Weather.WeatherForecast.WhatDayIsThisFrom | homework1/weather_forecast.py:83-107 | Fails with InsufficientData exactly when there are no days. Otherwise it gives a day in range. That day's L1 distance to the probe is at most every day's, and strictly less than every earlier day's: the first nearest day. |
| Reductions.ArgMin | homework1/weather_forecast.py:107 | Gives an index in range whose element is at most every element and smaller than every earlier one. |
| Reductions.L1 | homework1/weather_forecast.py:106 | The summed absolute difference is never negative. |
| Reductions.L1ZeroIffEqual | homework1/weather_forecast.py:106 | The summed absolute difference is zero exactly when the two vectors are equal. |
| WeatherProperties.ExactMatchFound | homework1/weather_forecast.py:106-107 | A probe equal to day j is matched at distance 0, by day j or an earlier day. |
| WeatherProperties.UniqueMatchFound | homework1/weather_forecast.py:106-107 | A probe equal to day j and to no other day gives day j. |
| WeatherExample.ExampleIsStoredAsGiven | homework1/weather_forecast.py:15 | The two mirrored days 1..10 and 10..1 are stored as given. |
| WeatherExample.ExampleMinAndMax | homework1/weather_forecast.py:25-27 | For the mirrored days, the minima are [1, 1] and the maxima are [10, 10]. |
| WeatherExample.ExampleLargestDrop | homework1/weather_forecast.py:37-39 | For the mirrored days, the drop is 0, since both daily means are 5.5. |
| WeatherExample.ExampleMaxLastDay | homework1/weather_forecast.py:63-66 | For the mirrored days, the maximum over the last day is [10]. |
| WeatherExample.ExampleWhatDay | homework1/weather_forecast.py:106-107 | For the mirrored days, the probe 1..10 is found on day 0. |

## Findings

| source | as written | input that shows it | evidently intended | confidence | as-written member | corrected member |
|---|---|---|---|---|---|---|
| homework1/weather_forecast.py:56-66 | `data[-k:]` with k = 0 is `data[0:]`, so every day is kept | any grid with at least one day, k = 0: the result has one entry per day | a result of size (k,) as documented at line 61, so none for k = 0 | medium, not executed | WeatherProperties.ZeroWindowKeepsEveryDay | Weather.WeatherForecast.MaxLastKDaysClamped |

The clamped form keeps the silent clamp for k greater than the number of days. That is a
modelling choice, since the documented size (k,) would not allow it either.
`PredictTemperature` at lines 79-81 slices the same way, so for k = 0 it averages the
whole grid. That query is modelled as written only.

## Left out

- Tensor machinery: dtype, device, the shape plumbing of `view`, `squeeze` and
  `None`-indexing, and whether a result is a 0-d or a 1-d tensor. Results are plain
  `real`, `nat` and `seq<real>` values.
- Floating-point rounding in `mean` and subtraction. Exact `real` arithmetic stands in
  for it, so ties and zero distances are exact.
- Integer-valued input lists, which give an integer tensor whose `mean` fails. Input
  readings are reals.
- Nesting deeper than two levels in the constructor's input. A flat list is covered by
  `FromFlat` and a list of lists by `FromRows`.
- The 64-bit range of `torch.as_tensor(k)` and the wrap-around of `torch.neg` at its
  minimum. k is an unbounded integer.
- Weather.WeatherForecast.PredictTemperature: requires at least one kept day. With none,
  that is k < 0 with abs(k) >= days, or an empty grid, the source returns NaN, the mean of
  an empty tensor. That is a floating-point artefact.
- Weather.WeatherForecast.WhatDayIsThisFrom: requires a probe of exactly ten readings.
  Broadcasting a one-value probe against every column, and the error for other sizes,
  are not modelled.
- Weather.WeatherForecast.MostExtremeDay: states only that the value is some reading
  farthest from the day's mean. The model picks the first such reading, but its
  contract does not rely on the tie-break of `max(...).indices`.
- Mapping the returned day index to a weekday name. The docstring mentions Monday, but
  the code has no such logic.
