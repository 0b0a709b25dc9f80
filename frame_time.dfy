/** Time accumulated by a coroutine that runs once per frame. */
module FrameTime {

  /** Seconds elapsed after the first n frames of a coroutine. */
  function Elapsed(deltas: seq<real>, n: nat): real
    requires n <= |deltas|
  {
    if n == 0 then 0.0 else Elapsed(deltas, n - 1) + deltas[n - 1]
  }

  /** With non-negative frame times, elapsed time never decreases. */
  lemma {:induction false} ElapsedMonotone(deltas: seq<real>, i: nat, j: nat)
    requires i <= j <= |deltas|
    requires forall k :: 0 <= k < |deltas| ==> deltas[k] >= 0.0
    ensures Elapsed(deltas, i) <= Elapsed(deltas, j)
    decreases j
  {
    if i < j {
      ElapsedMonotone(deltas, i, j - 1);
    }
  }
}
