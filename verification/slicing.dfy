/** Python's end-relative slicing `xs[-k:]`, which both trailing-window queries use. */
module Slicing {

  /** Where a slice of a sequence of length n starts when the start bound written
      is i: a negative bound counts from the end, and the result is clamped to [0, n]. */
  function SliceBound(n: nat, i: int): (start: nat)
    ensures start <= n
    ensures 0 <= i <= n ==> start == i
    ensures i > n ==> start == n
    ensures i < 0 && 0 <= n + i ==> start == n + i
    ensures n + i < 0 ==> start == 0
  {
    if i < 0 then (if i + n < 0 then 0 else i + n)
    else if i > n then n
    else i
  }

  /** The start of `xs[-k:]` on a sequence of length n. */
  function TailStart(n: nat, k: int): (start: nat)
    ensures start <= n
    ensures k == 0 ==> start == 0
    ensures 1 <= k <= n ==> start == n - k
    ensures k > n ==> start == 0
    ensures k < 0 ==> start == (if -k < n then -k else n)
  {
    SliceBound(n, -k)
  }

  /** How many elements `xs[-k:]` keeps of a sequence of length n. */
  function TailLength(n: nat, k: int): (kept: nat)
    ensures kept <= n
    ensures 1 <= k <= n ==> kept == k
    ensures k == 0 || k > n ==> kept == n
    ensures k < 0 ==> kept == (if -k < n then n + k else 0)
  {
    n - TailStart(n, k)
  }

  /** `xs[-k:]` */
  function Tail<T>(xs: seq<T>, k: int): (r: seq<T>)
    ensures |r| == TailLength(|xs|, k)
    ensures forall i :: 0 <= i < |r| ==> r[i] == xs[TailStart(|xs|, k) + i]
    ensures 1 <= k <= |xs| ==> r == xs[|xs| - k..]
    ensures k == 0 || k > |xs| ==> r == xs
  {
    xs[TailStart(|xs|, k)..]
  }
}
