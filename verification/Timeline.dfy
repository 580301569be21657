/** Time spent in a state.

A streaming auditor sees a value only when it changes: sample `k` holds from `times[k]` until `times[k + 1]`.
`Measure` is what such an auditor adds up; `Nanos` counts, instant by instant, how long the last sample at or
before the instant held.  They agree, whatever the number of coincident samples. */
module Timeline {

  ghost predicate Ordered(times: seq<int>) {
    forall i, j :: 0 <= i <= j < |times| ==> times[i] <= times[j]
  }

  lemma {:induction false} StepwiseOrdered(times: seq<int>)
    requires forall k :: 0 <= k < |times| - 1 ==> times[k] <= times[k + 1]
    ensures Ordered(times)
  {
    if |times| > 1 {
      StepwiseOrdered(times[..|times| - 1]);
      var front := times[..|times| - 1];
      assert front[|front| - 1] == times[|times| - 2] <= times[|times| - 1];
      assert forall i, j :: 0 <= i <= j < |front| ==> times[i] == front[i] <= front[j] == times[j];
    }
  }

  /** `n` samples need `n + 1` instants: the last one is the end of observation. */
  ghost predicate Sampled(holds: seq<bool>, times: seq<int>) {
    |times| == |holds| + 1 && Ordered(times)
  }

  function Measure(holds: seq<bool>, times: seq<int>): int
    requires |times| == |holds| + 1
  {
    if holds == [] then 0
    else
      var n := |holds| - 1;
      Measure(holds[..n], times[..n + 1]) + if holds[n] then times[n + 1] - times[n] else 0
  }

  /** Whether the last sample at or before `t` holds; nothing holds before the first sample. */
  ghost predicate At(holds: seq<bool>, times: seq<int>, t: int)
    requires |times| == |holds| + 1
  {
    if holds == [] then false
    else
      var n := |holds| - 1;
      if times[n] <= t then holds[n] else At(holds[..n], times[..n + 1], t)
  }

  lemma AtStep(holds: seq<bool>, times: seq<int>, t: int, k: nat)
    requires |times| == |holds| + 1 && 0 < k <= |holds|
    ensures At(holds[..k], times[..k + 1], t)
            == if times[k - 1] <= t then holds[k - 1] else At(holds[..k - 1], times[..k], t)
  {
    assert holds[..k][..k - 1] == holds[..k - 1] && times[..k + 1][..k] == times[..k];
  }

  ghost function Nanos(holds: seq<bool>, times: seq<int>, lo: int, hi: int): nat
    requires |times| == |holds| + 1
    decreases hi - lo
  {
    if hi <= lo then 0
    else Nanos(holds, times, lo, hi - 1) + if At(holds, times, hi - 1) then 1 else 0
  }

  lemma {:induction false} NanosOfPrefix(holds: seq<bool>, times: seq<int>, lo: int, hi: int)
    requires Sampled(holds, times) && holds != [] && hi <= times[|holds| - 1]
    ensures var n := |holds| - 1;
            Nanos(holds, times, lo, hi) == Nanos(holds[..n], times[..n + 1], lo, hi)
    decreases hi - lo
  {
    if lo < hi {
      NanosOfPrefix(holds, times, lo, hi - 1);
    }
  }

  lemma {:induction false} NanosOfLast(holds: seq<bool>, times: seq<int>, lo: int, hi: int)
    requires Sampled(holds, times) && holds != [] && lo <= times[|holds| - 1] <= hi
    ensures var n := |holds| - 1;
            Nanos(holds, times, lo, hi)
            == Nanos(holds[..n], times[..n + 1], lo, times[n]) + if holds[n] then hi - times[n] else 0
    decreases hi - lo
  {
    var n := |holds| - 1;
    if hi == times[n] {
      NanosOfPrefix(holds, times, lo, hi);
    } else {
      NanosOfLast(holds, times, lo, hi - 1);
    }
  }

  /** The streaming sum is the time, counted nanosecond by nanosecond, during which the state held. */
  lemma {:induction false} MeasureCountsNanos(holds: seq<bool>, times: seq<int>, lo: int)
    requires Sampled(holds, times) && lo <= times[0]
    ensures Measure(holds, times) == Nanos(holds, times, lo, times[|holds|])
  {
    if holds == [] {
      NothingHolds(times, lo, times[0]);
    } else {
      var n := |holds| - 1;
      MeasureCountsNanos(holds[..n], times[..n + 1], lo);
      NanosOfLast(holds, times, lo, times[n + 1]);
    }
  }

  lemma {:induction false} NothingHolds(times: seq<int>, lo: int, hi: int)
    requires |times| == 1
    ensures Nanos([], times, lo, hi) == 0
    decreases hi - lo
  {
    if lo < hi {
      NothingHolds(times, lo, hi - 1);
    }
  }

  ghost predicate Implies(p: seq<bool>, q: seq<bool>) {
    |p| == |q| && forall k :: 0 <= k < |p| && p[k] ==> q[k]
  }

  lemma {:induction false} MeasureMonotone(p: seq<bool>, q: seq<bool>, times: seq<int>)
    requires Sampled(p, times) && Implies(p, q)
    ensures 0 <= Measure(p, times) <= Measure(q, times) <= times[|p|] - times[0]
  {
    if p != [] {
      var n := |p| - 1;
      MeasureMonotone(p[..n], q[..n], times[..n + 1]);
    }
  }

  ghost predicate IsUnion(u: seq<bool>, p: seq<bool>, q: seq<bool>) {
    |u| == |p| == |q| && forall k :: 0 <= k < |u| ==> u[k] == (p[k] || q[k])
  }

  /** Time in either of two states is at least the time in one and at most the time in both, added. */
  lemma {:induction false} MeasureOfUnion(u: seq<bool>, p: seq<bool>, q: seq<bool>, times: seq<int>)
    requires Sampled(u, times) && IsUnion(u, p, q)
    ensures Measure(u, times) <= Measure(p, times) + Measure(q, times) <= 2 * Measure(u, times)
  {
    if u != [] {
      var n := |u| - 1;
      MeasureOfUnion(u[..n], p[..n], q[..n], times[..n + 1]);
    }
  }
}
