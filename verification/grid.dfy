/** The (days, 10) grid of readings, row-major: flattening it and reshaping a flat
    vector into rows of ten, as `view(-1, 10)` does. */
module Grid {
  import opened Reductions

  /** Readings taken per day: the width of every row. */
  const MEASUREMENTS_PER_DAY: nat := 10

  /** Every row holds exactly one day of readings. */
  predicate WellShaped<T>(rows: seq<seq<T>>)
  {
    forall i :: 0 <= i < |rows| ==> |rows[i]| == MEASUREMENTS_PER_DAY
  }

  /** All rows have the same length, so the nested list forms a 2-D array. */
  predicate Rectangular<T>(rows: seq<seq<T>>)
  {
    forall i, j :: 0 <= i < |rows| && 0 <= j < |rows| ==> |rows[i]| == |rows[j]|
  }

  /** The rows concatenated in order. */
  function Flatten<T>(rows: seq<seq<T>>): seq<T>
  {
    if rows == [] then [] else rows[0] + Flatten(rows[1..])
  }

  /** Cuts a flat vector into consecutive rows of ten: the reshape of `view(-1, 10)`. */
  function Chunk<T>(flat: seq<T>): (rows: seq<seq<T>>)
    requires |flat| % MEASUREMENTS_PER_DAY == 0
    ensures WellShaped(rows)
    ensures |rows| == |flat| / MEASUREMENTS_PER_DAY
    ensures Flatten(rows) == flat
    ensures forall i, j :: 0 <= i < |rows| && 0 <= j < MEASUREMENTS_PER_DAY ==>
              rows[i][j] == flat[MEASUREMENTS_PER_DAY * i + j]
    decreases |flat|
  {
    if flat == [] then []
    else
      var rest := Chunk(flat[MEASUREMENTS_PER_DAY..]);
      assert flat == flat[..MEASUREMENTS_PER_DAY] + flat[MEASUREMENTS_PER_DAY..];
      [flat[..MEASUREMENTS_PER_DAY]] + rest
  }

  /** The sum of every row's sum. */
  function SumOfRows(rows: seq<seq<real>>): real
  {
    if rows == [] then 0.0 else Sum(rows[0]) + SumOfRows(rows[1..])
  }

  lemma {:induction false} FlattenLength<T>(rows: seq<seq<T>>)
    requires WellShaped(rows)
    ensures |Flatten(rows)| == MEASUREMENTS_PER_DAY * |rows|
  {
    if rows != [] {
      FlattenLength(rows[1..]);
    }
  }

  /** Reshaping the flattened grid gives the grid back. */
  lemma {:induction false} ChunkFlatten<T>(rows: seq<seq<T>>)
    requires WellShaped(rows)
    ensures |Flatten(rows)| % MEASUREMENTS_PER_DAY == 0
    ensures Chunk(Flatten(rows)) == rows
  {
    FlattenLength(rows);
    if rows != [] {
      ChunkFlatten(rows[1..]);
      var flat := Flatten(rows);
      assert flat[..MEASUREMENTS_PER_DAY] == rows[0];
      assert flat[MEASUREMENTS_PER_DAY..] == Flatten(rows[1..]);
      assert rows == [rows[0]] + rows[1..];
    }
  }

  /** Summing the flattened grid is summing the row sums. */
  lemma {:induction false} SumFlatten(rows: seq<seq<real>>)
    ensures Sum(Flatten(rows)) == SumOfRows(rows)
  {
    if rows != [] {
      SumAppend(rows[0], Flatten(rows[1..]));
      SumFlatten(rows[1..]);
    }
  }
}
