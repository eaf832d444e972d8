/** Reductions over one vector of readings: the exact-arithmetic counterparts of
    torch's sum, mean, abs, min/max along a dimension and argmin/argmax. */
module Reductions {

  function Abs(x: real): (r: real)
    ensures r >= 0.0
    ensures r == x || r == -x
  {
    if x < 0.0 then -x else x
  }

  function Sum(s: seq<real>): real
  {
    if s == [] then 0.0 else s[0] + Sum(s[1..])
  }

  /** The arithmetic mean; reals stand in for the floats of the source, so no rounding. */
  function Mean(s: seq<real>): real
    requires |s| > 0
  {
    Sum(s) / (|s| as real)
  }

  /** Index of the first smallest element, as torch.argmin reports it. */
  function ArgMin(s: seq<real>): (r: nat)
    requires |s| > 0
    ensures r < |s|
    ensures forall i :: 0 <= i < |s| ==> s[r] <= s[i]
    ensures forall i :: 0 <= i < r ==> s[r] < s[i]
  {
    if |s| == 1 then 0
    else
      var j := ArgMin(s[..|s| - 1]);
      if s[|s| - 1] < s[j] then |s| - 1 else j
  }

  /** Index of the first largest element. */
  function ArgMax(s: seq<real>): (r: nat)
    requires |s| > 0
    ensures r < |s|
    ensures forall i :: 0 <= i < |s| ==> s[i] <= s[r]
    ensures forall i :: 0 <= i < r ==> s[i] < s[r]
  {
    if |s| == 1 then 0
    else
      var j := ArgMax(s[..|s| - 1]);
      if s[j] < s[|s| - 1] then |s| - 1 else j
  }

  function Min(s: seq<real>): (m: real)
    requires |s| > 0
    ensures m in s
    ensures forall i :: 0 <= i < |s| ==> m <= s[i]
  {
    s[ArgMin(s)]
  }

  function Max(s: seq<real>): (m: real)
    requires |s| > 0
    ensures m in s
    ensures forall i :: 0 <= i < |s| ==> s[i] <= m
  {
    s[ArgMax(s)]
  }

  /** Two maxima of the same vector are equal. */
  lemma MaxUnique(s: seq<real>, m1: real, m2: real)
    requires m1 in s && forall j :: 0 <= j < |s| ==> s[j] <= m1
    requires m2 in s && forall j :: 0 <= j < |s| ==> s[j] <= m2
    ensures m1 == m2
  {
    var j1 :| 0 <= j1 < |s| && s[j1] == m1;
    var j2 :| 0 <= j2 < |s| && s[j2] == m2;
  }

  /** Two minima of the same vector are equal. */
  lemma MinUnique(s: seq<real>, m1: real, m2: real)
    requires m1 in s && forall j :: 0 <= j < |s| ==> m1 <= s[j]
    requires m2 in s && forall j :: 0 <= j < |s| ==> m2 <= s[j]
    ensures m1 == m2
  {
    var j1 :| 0 <= j1 < |s| && s[j1] == m1;
    var j2 :| 0 <= j2 < |s| && s[j2] == m2;
  }

  /** Sum of absolute differences, element by element. */
  function L1(a: seq<real>, b: seq<real>): (d: real)
    requires |a| == |b|
    ensures d >= 0.0
  {
    if a == [] then 0.0 else Abs(a[0] - b[0]) + L1(a[1..], b[1..])
  }

  lemma {:induction false} SumAppend(a: seq<real>, b: seq<real>)
    ensures Sum(a + b) == Sum(a) + Sum(b)
  {
    if a != [] {
      assert (a + b)[0] == a[0] && (a + b)[1..] == a[1..] + b;
      SumAppend(a[1..], b);
    } else {
      assert a + b == b;
    }
  }

  /** A sum of n values lying in [lo, hi] lies in [n * lo, n * hi]. */
  lemma {:induction false} SumBounds(s: seq<real>, lo: real, hi: real)
    requires forall i :: 0 <= i < |s| ==> lo <= s[i] <= hi
    ensures (|s| as real) * lo <= Sum(s) <= (|s| as real) * hi
  {
    if s != [] {
      SumBounds(s[1..], lo, hi);
    }
  }

  /** The mean times the number of elements is the sum. */
  lemma MeanTimesCount(s: seq<real>)
    requires |s| > 0
    ensures Mean(s) * (|s| as real) == Sum(s)
  {
  }

  /** The mean of values lying in [lo, hi] lies in [lo, hi]. */
  lemma MeanBounds(s: seq<real>, lo: real, hi: real)
    requires |s| > 0
    requires forall i :: 0 <= i < |s| ==> lo <= s[i] <= hi
    ensures lo <= Mean(s) <= hi
  {
    SumBounds(s, lo, hi);
    QuotientBounds(Sum(s), |s| as real, lo, hi);
  }

  /** The mean lies between the smallest and the largest element. */
  lemma MeanBetweenMinAndMax(s: seq<real>)
    requires |s| > 0
    ensures Min(s) <= Mean(s) <= Max(s)
  {
    MeanBounds(s, Min(s), Max(s));
  }

  lemma QuotientBounds(x: real, n: real, lo: real, hi: real)
    requires n > 0.0 && n * lo <= x <= n * hi
    ensures lo <= x / n <= hi
  {
    assert (x / n) * n == x;
  }

  /** The distance is zero exactly when the two vectors are equal. */
  lemma {:induction false} L1ZeroIffEqual(a: seq<real>, b: seq<real>)
    requires |a| == |b|
    ensures L1(a, b) == 0.0 <==> a == b
  {
    if a != [] {
      L1ZeroIffEqual(a[1..], b[1..]);
      assert a == [a[0]] + a[1..];
      assert b == [b[0]] + b[1..];
    }
  }
}
