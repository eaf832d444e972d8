/** The WeatherForecast class: a (days, 10) grid of daily readings, fixed at
    construction, and six read-only queries over it. The class never changes its
    grid after the constructor, so it is modelled as an immutable value. */
module Weather {
  import opened Reductions
  import opened Slicing
  import opened Grid

  /** The ways construction and the queries fail. */
  datatype Error =
    | RaggedInput       // the nested input list is not rectangular
    | ShapeError        // the reading count is not a multiple of ten
    | InsufficientData  // a reduction over an empty vector

  datatype Result<T> = Ok(value: T) | Err(error: Error)

  /** Per-row minimum, as a reduction along the second dimension. */
  function RowMinima(rows: seq<seq<real>>): (r: seq<real>)
    requires WellShaped(rows)
    ensures |r| == |rows|
    ensures forall i :: 0 <= i < |rows| ==> r[i] == Min(rows[i])
    ensures forall i :: 0 <= i < |rows| ==> r[i] in rows[i]
    ensures forall i, j :: 0 <= i < |rows| && 0 <= j < |rows[i]| ==> r[i] <= rows[i][j]
  {
    seq(|rows|, i requires 0 <= i < |rows| => Min(rows[i]))
  }

  /** Per-row maximum, as a reduction along the second dimension. */
  function RowMaxima(rows: seq<seq<real>>): (r: seq<real>)
    requires WellShaped(rows)
    ensures |r| == |rows|
    ensures forall i :: 0 <= i < |rows| ==> r[i] == Max(rows[i])
    ensures forall i :: 0 <= i < |rows| ==> r[i] in rows[i]
    ensures forall i, j :: 0 <= i < |rows| && 0 <= j < |rows[i]| ==> rows[i][j] <= r[i]
  {
    seq(|rows|, i requires 0 <= i < |rows| => Max(rows[i]))
  }

  /** Per-row mean. */
  function RowMeans(rows: seq<seq<real>>): (r: seq<real>)
    requires WellShaped(rows)
    ensures |r| == |rows|
    ensures forall i :: 0 <= i < |rows| ==> r[i] == Mean(rows[i])
    ensures forall i :: 0 <= i < |rows| ==> r[i] * (MEASUREMENTS_PER_DAY as real) == Sum(rows[i])
  {
    seq(|rows|, i requires 0 <= i < |rows| => Mean(rows[i]))
  }

  datatype WeatherForecast = WeatherForecast(data: seq<seq<real>>)
  {
    /** The grid has the shape (days, 10). */
    predicate Valid()
    {
      WellShaped(data)
    }

    function DayMean(i: nat): real
      requires Valid() && i < |data|
    {
      Mean(data[i])
    }

    /** The change of the daily mean from day i to day i + 1. */
    function DayChange(i: nat): real
      requires Valid() && i + 1 < |data|
    {
      DayMean(i + 1) - DayMean(i)
    }

    /** Sum of absolute differences between day i and the probe t. */
    function Distance(i: nat, t: seq<real>): (r: real)
      requires Valid() && i < |data| && |t| == MEASUREMENTS_PER_DAY
      ensures r >= 0.0
      ensures r == 0.0 <==> data[i] == t
    {
      L1ZeroIffEqual(data[i], t);
      L1(data[i], t)
    }

    /** The smallest and the largest reading of each day, in day order. */
    function MinAndMaxPerDay(): (r: (seq<real>, seq<real>))
      requires Valid()
      ensures |r.0| == |data| && |r.1| == |data|
      ensures forall i :: 0 <= i < |data| ==> r.0[i] in data[i] && r.1[i] in data[i]
      ensures forall i, j :: 0 <= i < |data| && 0 <= j < |data[i]| ==> r.0[i] <= data[i][j] <= r.1[i]
    {
      (RowMinima(data), RowMaxima(data))
    }

    /** The largest day-over-day change of the daily mean, in magnitude, negated:
        a large rise is reported as a negative number just as a large fall is. */
    function LargestDrop(): (r: Result<real>)
      requires Valid()
      ensures r.Ok? <==> |data| >= 2
      ensures r.Err? ==> r.error == InsufficientData
      ensures r.Ok? ==> r.value <= 0.0
      ensures r.Ok? ==> forall i :: 0 <= i < |data| - 1 ==> Abs(DayChange(i)) <= -r.value
      ensures r.Ok? ==> exists i :: 0 <= i < |data| - 1 && Abs(DayChange(i)) == -r.value
    {
      if |data| < 2 then Err(InsufficientData)
      else
        var magnitudes := seq(|data| - 1, i requires 0 <= i < |data| - 1 => Abs(DayChange(i)));
        assert forall i :: 0 <= i < |data| - 1 ==> magnitudes[i] == Abs(DayChange(i));
        Ok(-Max(magnitudes))
    }

    /** A column of day i whose reading lies farthest from the day's mean. */
    function FarthestColumn(i: nat): (c: nat)
      requires Valid() && i < |data|
      ensures c < MEASUREMENTS_PER_DAY
      ensures forall j :: 0 <= j < MEASUREMENTS_PER_DAY ==>
                Abs(data[i][j] - DayMean(i)) <= Abs(data[i][c] - DayMean(i))
    {
      var deviations := seq(MEASUREMENTS_PER_DAY, j requires 0 <= j < MEASUREMENTS_PER_DAY =>
                              Abs(data[i][j] - DayMean(i)));
      assert forall j :: 0 <= j < MEASUREMENTS_PER_DAY ==> deviations[j] == Abs(data[i][j] - DayMean(i));
      ArgMax(deviations)
    }

    /** For each day, a reading of that day lying farthest from the day's mean. */
    function MostExtremeDay(): (r: seq<real>)
      requires Valid()
      ensures |r| == |data|
      ensures forall i :: 0 <= i < |data| ==> r[i] in data[i]
      ensures forall i, j :: 0 <= i < |data| && 0 <= j < |data[i]| ==>
                Abs(data[i][j] - DayMean(i)) <= Abs(r[i] - DayMean(i))
    {
      seq(|data|, i requires 0 <= i < |data| => data[i][FarthestColumn(i)])
    }

    /** The largest reading of each day kept by `data[-k:]`, in day order. */
    function MaxLastKDays(k: int): (r: seq<real>)
      requires Valid()
      ensures |r| == TailLength(|data|, k)
      ensures forall d :: TailStart(|data|, k) <= d < |data| ==> r[d - TailStart(|data|, k)] in data[d]
      ensures forall d, j :: TailStart(|data|, k) <= d < |data| && 0 <= j < |data[d]| ==>
                data[d][j] <= r[d - TailStart(|data|, k)]
    {
      RowMaxima(Tail(data, k))
    }

    /** The trailing-window maxima with the window that the documented result size
        (k,) asks for: the last k days, clamped to the days recorded, none for k == 0. */
    function MaxLastKDaysClamped(k: nat): (r: seq<real>)
      requires Valid()
      ensures |r| == if k <= |data| then k else |data|
      ensures forall i :: 0 <= i < |r| ==> r[i] == Max(data[|data| - |r| + i])
    {
      var kept := if k <= |data| then k else |data|;
      RowMaxima(data[|data| - kept..])
    }

    /** The mean of every reading of the days kept by `data[-k:]`. */
    function PredictTemperature(k: int): (r: real)
      requires Valid() && TailLength(|data|, k) >= 1
      ensures r == SumOfRows(Tail(data, k)) / ((MEASUREMENTS_PER_DAY * TailLength(|data|, k)) as real)
      ensures k == 0 || k >= |data| ==> r == SumOfRows(data) / ((MEASUREMENTS_PER_DAY * |data|) as real)
    {
      var kept := Tail(data, k);
      FlattenLength(kept);
      SumFlatten(kept);
      Mean(Flatten(kept))
    }

    /** The first day whose readings are nearest to t in summed absolute difference. */
    function WhatDayIsThisFrom(t: seq<real>): (r: Result<nat>)
      requires Valid() && |t| == MEASUREMENTS_PER_DAY
      ensures r.Ok? <==> |data| > 0
      ensures r.Err? ==> r.error == InsufficientData
      ensures r.Ok? ==> r.value < |data|
      ensures r.Ok? ==> forall i :: 0 <= i < |data| ==> Distance(r.value, t) <= Distance(i, t)
      ensures r.Ok? ==> forall i :: 0 <= i < r.value ==> Distance(r.value, t) < Distance(i, t)
    {
      if |data| == 0 then Err(InsufficientData)
      else
        var distances := seq(|data|, i requires 0 <= i < |data| => Distance(i, t));
        assert forall i :: 0 <= i < |data| ==> distances[i] == Distance(i, t);
        Ok(ArgMin(distances))
    }
  }

  /** Construction from a flat list of readings: `view(-1, 10)`. */
  function FromFlat(values: seq<real>): (r: Result<WeatherForecast>)
    ensures r.Ok? <==> |values| % MEASUREMENTS_PER_DAY == 0
    ensures r.Err? ==> r.error == ShapeError
    ensures r.Ok? ==> r.value.Valid() && |r.value.data| == |values| / MEASUREMENTS_PER_DAY
    ensures r.Ok? ==> Flatten(r.value.data) == values
    ensures r.Ok? ==> forall i, j :: 0 <= i < |r.value.data| && 0 <= j < MEASUREMENTS_PER_DAY ==>
              r.value.data[i][j] == values[MEASUREMENTS_PER_DAY * i + j]
  {
    if |values| % MEASUREMENTS_PER_DAY != 0 then Err(ShapeError)
    else Ok(WeatherForecast(Chunk(values)))
  }

  /** Construction from a nested list: it must form a 2-D array, whose readings are
      then reshaped row-major into rows of ten. */
  function FromRows(raw: seq<seq<real>>): (r: Result<WeatherForecast>)
    ensures r.Ok? <==> Rectangular(raw) && |Flatten(raw)| % MEASUREMENTS_PER_DAY == 0
    ensures !Rectangular(raw) ==> r.Err? && r.error == RaggedInput
    ensures Rectangular(raw) && r.Err? ==> r.error == ShapeError
    ensures r.Ok? ==> r.value.Valid() && Flatten(r.value.data) == Flatten(raw)
  {
    if !Rectangular(raw) then Err(RaggedInput)
    else FromFlat(Flatten(raw))
  }
}
