/** How many entries of a log of times fall in an interval. */
module Counting {

  ghost predicate Ordered(times: seq<int>) {
    forall i, j :: 0 <= i <= j < |times| ==> times[i] <= times[j]
  }

  /** How many of the times are in [from, to). */
  function CountIn(times: seq<int>, from: int, to: int): nat {
    if times == [] then 0
    else CountIn(times[..|times| - 1], from, to) + if from <= times[|times| - 1] < to then 1 else 0
  }

  lemma {:induction false} CountAfter(times: seq<int>, from: int, to: int, k: nat)
    requires k <= |times| && forall i :: 0 <= i < k ==> times[i] < from
    ensures CountIn(times, from, to) <= |times| - k
  {
    if times != [] { CountAfter(times[..|times| - 1], from, to, if k < |times| then k else k - 1); }
  }

  /** At most `n` times of an ordered log are in the interval if no time and the `n`-th after it both are. */
  lemma {:induction false} CountBound(times: seq<int>, from: int, to: int, n: nat)
    requires Ordered(times)
    requires forall i, j :: 0 <= i && i + n <= j < |times| && from <= times[i] ==> times[j] >= to
    ensures CountIn(times, from, to) <= n
  {
    var last := |times| - 1;
    if times != [] && from <= times[last] < to {
      if last >= n { assert times[last - n] < from; }
      CountAfter(times, from, to, if last < n then 0 else last - n + 1);
    } else if times != [] {
      CountBound(times[..last], from, to, n);
    }
  }
}
