/** Time-weighted book modes and depth dominance of one venue (analysis/cdf_activation.go).

An observation holds from its time until the next one, or until the terminal time.  Durations are exact integers; every
one of them is at most the observed span, so they fit the machine word whenever that span does. */
module CdfConcentration {
  import opened Int64
  import Sorting
  import T = Timeline

  datatype Observation = Observation(at: int64, frame: uint64, bidDepth: int64, askDepth: int64, supplierBid: int64, supplierAsk: int64)

  datatype Mode = TwoSided | BidOnly | AskOnly | Empty

  function BookMode(bidDepth: int64, askDepth: int64): Mode {
    if bidDepth > 0 && askDepth > 0 then TwoSided
    else if bidDepth > 0 then BidOnly
    else if askDepth > 0 then AskOnly
    else Empty
  }

  function ModeOf(o: Observation): Mode {
    BookMode(o.bidDepth, o.askDepth)
  }

  /** The supplier's share of one side exceeds the maximum. */
  predicate Dominates(supplier: int64, depth: int64, share: real) {
    depth > 0 && supplier as real / depth as real > share
  }

  // ----- order -----

  predicate Before(a: Observation, b: Observation) {
    a.at < b.at || (a.at == b.at && a.frame <= b.frame)
  }

  function ByTime(): (Observation, Observation) -> bool {
    (a, b) => Before(a, b)
  }

  ghost predicate InOrder(os: seq<Observation>) {
    Sorting.Sorted(ByTime(), os)
  }

  ghost predicate SortedCopy(ordered: seq<Observation>, os: seq<Observation>) {
    Sorting.SortedCopy(ByTime(), ordered, os)
  }

  // ----- samples -----

  /** When each observation starts to hold, cut off at the terminal time, and the terminal time itself. */
  function Instants(os: seq<Observation>, terminal: int64): (ts: seq<int>)
    ensures |ts| == |os| + 1
  {
    seq(|os|, k requires 0 <= k < |os| => Min(os[k].at, terminal)) + [terminal]
  }

  lemma InstantsAscend(os: seq<Observation>, terminal: int64)
    requires InOrder(os)
    ensures T.Ordered(Instants(os, terminal))
  {
    var ts := Instants(os, terminal);
    forall i, j | 0 <= i <= j < |ts|
      ensures ts[i] <= ts[j]
    {
      assert i < j < |os| ==> Before(os[i], os[j]);
    }
  }

  function Holds(os: seq<Observation>, p: Observation -> bool): (hs: seq<bool>)
    ensures |hs| == |os| && forall k :: 0 <= k < |os| ==> hs[k] == p(os[k])
  {
    seq(|os|, k requires 0 <= k < |os| => p(os[k]))
  }

  function TimeIn(os: seq<Observation>, terminal: int64, p: Observation -> bool): int {
    T.Measure(Holds(os, p), Instants(os, terminal))
  }

  function InMode(m: Mode): Observation -> bool {
    o => ModeOf(o) == m
  }

  function BidActive(): Observation -> bool {
    (o: Observation) => o.bidDepth > 0
  }

  function AskActive(): Observation -> bool {
    (o: Observation) => o.askDepth > 0
  }

  function BidDominant(share: real): Observation -> bool {
    (o: Observation) => Dominates(o.supplierBid, o.bidDepth, share)
  }

  function AskDominant(share: real): Observation -> bool {
    (o: Observation) => Dominates(o.supplierAsk, o.askDepth, share)
  }

  function Lacking(): Observation -> bool {
    o => ModeOf(o) != TwoSided
  }

  /** How long observation `k` holds. */
  function Span(os: seq<Observation>, terminal: int64, k: nat): int
    requires k < |os|
  {
    Instants(os, terminal)[k + 1] - Instants(os, terminal)[k]
  }

  /** Time in a state over the first `k` observations. */
  function Partial(os: seq<Observation>, terminal: int64, p: Observation -> bool, k: nat): int
    requires k <= |os|
  {
    T.Measure(Holds(os, p)[..k], Instants(os, terminal)[..k + 1])
  }

  lemma PartialStep(os: seq<Observation>, terminal: int64, p: Observation -> bool, k: nat)
    requires k < |os|
    ensures Partial(os, terminal, p, k + 1) == Partial(os, terminal, p, k) + if p(os[k]) then Span(os, terminal, k) else 0
  {
    var hs, ts := Holds(os, p), Instants(os, terminal);
    assert hs[..k + 1][..k] == hs[..k] && ts[..k + 2][..k + 1] == ts[..k + 1];
  }

  lemma PartialIsWhole(os: seq<Observation>, terminal: int64, p: Observation -> bool)
    ensures Partial(os, terminal, p, 0) == 0
    ensures Partial(os, terminal, p, |os|) == TimeIn(os, terminal, p)
  {
    var hs, ts := Holds(os, p), Instants(os, terminal);
    assert hs[..|os|] == hs && ts[..|os| + 1] == ts;
  }

  /** The loop's duration is the span, and a span is empty exactly when the loop skips it. */
  lemma SpanIsDuration(os: seq<Observation>, terminal: int64, k: nat)
    requires InOrder(os) && k < |os|
    ensures var end := if k + 1 < |os| && os[k + 1].at < terminal then os[k + 1].at else terminal;
            && (end <= os[k].at ==> Span(os, terminal, k) == 0)
            && (end > os[k].at ==> Span(os, terminal, k) == end - os[k].at)
            && (end > os[k].at ==> Instants(os, terminal)[k] == os[k].at && Instants(os, terminal)[k + 1] == end)
  {
    assert k + 1 < |os| ==> Before(os[k], os[k + 1]);
  }

  // ----- uninterrupted runs -----

  /** Length of the run of `hs` that ends at instant `k`, ignoring zero-length states. */
  function RunEnding(hs: seq<bool>, ts: seq<int>, k: nat): int
    requires |ts| == |hs| + 1 && k <= |hs|
  {
    if k == 0 then 0
    else if ts[k] == ts[k - 1] then RunEnding(hs, ts, k - 1)
    else if hs[k - 1] then RunEnding(hs, ts, k - 1) + ts[k] - ts[k - 1]
    else 0
  }

  function Longest(hs: seq<bool>, ts: seq<int>, k: nat): int
    requires |ts| == |hs| + 1 && k <= |hs|
  {
    if k == 0 then 0 else Max(Longest(hs, ts, k - 1), RunEnding(hs, ts, k))
  }

  lemma {:induction false} RunsAreNatural(hs: seq<bool>, ts: seq<int>, k: nat)
    requires T.Sampled(hs, ts) && k <= |hs|
    ensures 0 <= RunEnding(hs, ts, k) <= Longest(hs, ts, k) && RunEnding(hs, ts, k) <= ts[k] - ts[0]
  {
    if k > 0 {
      RunsAreNatural(hs, ts, k - 1);
    }
  }

  /** Between two instants the sample that holds is the earlier one's. */
  lemma {:induction false} AtWithin(hs: seq<bool>, ts: seq<int>, k: nat, t: int)
    requires T.Sampled(hs, ts) && 0 < k <= |hs| && ts[k - 1] <= t < ts[k]
    ensures T.At(hs, ts, t) == hs[k - 1]
    decreases |hs|
  {
    var n := |hs| - 1;
    if k < |hs| {
      assert ts[n] >= ts[k] > t;
      AtWithin(hs[..n], ts[..n + 1], k, t);
    }
  }

  lemma {:induction false} NothingBefore(hs: seq<bool>, ts: seq<int>, t: int)
    requires T.Sampled(hs, ts) && t < ts[0]
    ensures !T.At(hs, ts, t)
    decreases |hs|
  {
    if hs != [] {
      var n := |hs| - 1;
      assert ts[n] >= ts[0] > t;
      NothingBefore(hs[..n], ts[..n + 1], t);
    }
  }

  /** The state holds at every instant of `[a, b)`. */
  ghost predicate Throughout(hs: seq<bool>, ts: seq<int>, a: int, b: int)
    requires |ts| == |hs| + 1
  {
    forall t :: a <= t < b ==> T.At(hs, ts, t)
  }

  lemma {:induction false} RunHolds(hs: seq<bool>, ts: seq<int>, k: nat)
    requires T.Sampled(hs, ts) && k <= |hs|
    ensures Throughout(hs, ts, ts[k] - RunEnding(hs, ts, k), ts[k])
  {
    if k > 0 {
      RunHolds(hs, ts, k - 1);
      if ts[k] != ts[k - 1] && hs[k - 1] {
        assert ts[k] - RunEnding(hs, ts, k) == ts[k - 1] - RunEnding(hs, ts, k - 1);
        forall t | ts[k] - RunEnding(hs, ts, k) <= t < ts[k]
          ensures T.At(hs, ts, t)
        {
          if ts[k - 1] <= t {
            AtWithin(hs, ts, k, t);
          }
        }
      }
    }
  }

  lemma {:induction false} RunIsLongest(hs: seq<bool>, ts: seq<int>, k: nat, a: int)
    requires T.Sampled(hs, ts) && k <= |hs| && a <= ts[k] && Throughout(hs, ts, a, ts[k])
    ensures ts[k] - a <= RunEnding(hs, ts, k)
  {
    if k == 0 {
      if a < ts[0] {
        NothingBefore(hs, ts, a);
      }
    } else if ts[k] == ts[k - 1] {
      RunIsLongest(hs, ts, k - 1, a);
    } else {
      RunsAreNatural(hs, ts, k - 1);
      if a < ts[k] {
        assert ts[k - 1] < ts[k];
        AtWithin(hs, ts, k, ts[k] - 1);
        assert hs[k - 1];
        if a < ts[k - 1] {
          RunIsLongest(hs, ts, k - 1, a);
        }
      }
    }
  }

  /** No interval in which the state holds throughout is longer than the streaming maximum. */
  lemma {:induction false} LongestBounds(hs: seq<bool>, ts: seq<int>, k: nat, a: int, b: int)
    requires T.Sampled(hs, ts) && k <= |hs| && a <= b <= ts[k] && Throughout(hs, ts, a, b)
    ensures b - a <= Longest(hs, ts, k)
  {
    if k == 0 {
      if a < b {
        NothingBefore(hs, ts, a);
      }
    } else if b <= ts[k - 1] {
      LongestBounds(hs, ts, k - 1, a, b);
    } else if a < b {
      ExtendsToEnd(hs, ts, k, a, b);
      RunIsLongest(hs, ts, k, a);
    } else {
      RunsAreNatural(hs, ts, k);
    }
  }

  lemma ExtendsToEnd(hs: seq<bool>, ts: seq<int>, k: nat, a: int, b: int)
    requires T.Sampled(hs, ts) && 0 < k <= |hs| && a < b && ts[k - 1] < b <= ts[k] && Throughout(hs, ts, a, b)
    ensures Throughout(hs, ts, a, ts[k])
  {
    AtWithin(hs, ts, k, b - 1);
    assert T.At(hs, ts, b - 1) == hs[k - 1];
    forall t | a <= t < ts[k]
      ensures T.At(hs, ts, t)
    {
      if b <= t {
        AtWithin(hs, ts, k, t);
      }
    }
  }

  lemma {:induction false} LongestIsAttained(hs: seq<bool>, ts: seq<int>, k: nat) returns (a: int, b: int)
    requires T.Sampled(hs, ts) && k <= |hs|
    ensures a <= b <= ts[k] && b - a == Longest(hs, ts, k) && Throughout(hs, ts, a, b)
  {
    if k == 0 {
      a, b := ts[0], ts[0];
    } else {
      RunsAreNatural(hs, ts, k);
      if Longest(hs, ts, k - 1) >= RunEnding(hs, ts, k) {
        a, b := LongestIsAttained(hs, ts, k - 1);
        assert ts[k - 1] <= ts[k];
      } else {
        RunHolds(hs, ts, k);
        a, b := ts[k] - RunEnding(hs, ts, k), ts[k];
      }
    }
  }

  // ----- the measurement -----

  datatype Durations = Durations(bidActive: int, askActive: int, bidDominant: int, askDominant: int, bidOnly: int,
                                 askOnly: int, empty: int)

  datatype Concentration = Concentration(count: nat, terminalMode: Option<Mode>, durations: Durations, oneSided: int,
                                         nonTwoSided: int, longestGap: int, bidFraction: real, askFraction: real,
                                         satisfied: bool)

  ghost predicate AreDurations(d: Durations, os: seq<Observation>, terminal: int64, share: real, k: nat)
    requires k <= |os|
  {
    && d.bidActive == Partial(os, terminal, BidActive(), k) && d.askActive == Partial(os, terminal, AskActive(), k)
    && d.bidDominant == Partial(os, terminal, BidDominant(share), k) && d.askDominant == Partial(os, terminal, AskDominant(share), k)
    && d.bidOnly == Partial(os, terminal, InMode(BidOnly), k) && d.askOnly == Partial(os, terminal, InMode(AskOnly), k)
    && d.empty == Partial(os, terminal, InMode(Empty), k)
  }

  function Grow(d: Durations, o: Observation, duration: int, share: real): Durations {
    Durations(d.bidActive + (if o.bidDepth > 0 then duration else 0),
              d.askActive + (if o.askDepth > 0 then duration else 0),
              d.bidDominant + (if Dominates(o.supplierBid, o.bidDepth, share) then duration else 0),
              d.askDominant + (if Dominates(o.supplierAsk, o.askDepth, share) then duration else 0),
              d.bidOnly + (if ModeOf(o) == BidOnly then duration else 0),
              d.askOnly + (if ModeOf(o) == AskOnly then duration else 0),
              d.empty + (if ModeOf(o) == Empty then duration else 0))
  }

  lemma GrowStep(d: Durations, os: seq<Observation>, terminal: int64, share: real, k: nat)
    requires k < |os| && AreDurations(d, os, terminal, share, k)
    ensures AreDurations(Grow(d, os[k], Span(os, terminal, k), share), os, terminal, share, k + 1)
  {
    hide Partial, Span, ModeOf, Dominates;
    PartialStep(os, terminal, BidActive(), k);
    PartialStep(os, terminal, AskActive(), k);
    PartialStep(os, terminal, BidDominant(share), k);
    PartialStep(os, terminal, AskDominant(share), k);
    PartialStep(os, terminal, InMode(BidOnly), k);
    PartialStep(os, terminal, InMode(AskOnly), k);
    PartialStep(os, terminal, InMode(Empty), k);
  }

  lemma NoGrowth(d: Durations, o: Observation, share: real)
    ensures Grow(d, o, 0, share) == d
  {
  }

  /** The durations a loop body adds, field by field. */
  method AddDuration(d: Durations, o: Observation, duration: int, share: real) returns (r: Durations)
    ensures r == Grow(d, o, duration, share)
  {
    r := d;
    if o.bidDepth > 0 {
      r := r.(bidActive := r.bidActive + duration);
      if o.supplierBid as real / o.bidDepth as real > share {
        r := r.(bidDominant := r.bidDominant + duration);
      }
    }
    if o.askDepth > 0 {
      r := r.(askActive := r.askActive + duration);
      if o.supplierAsk as real / o.askDepth as real > share {
        r := r.(askDominant := r.askDominant + duration);
      }
    }
    match ModeOf(o)
    case BidOnly => r := r.(bidOnly := r.bidOnly + duration);
    case AskOnly => r := r.(askOnly := r.askOnly + duration);
    case Empty => r := r.(empty := r.empty + duration);
    case TwoSided =>
  }

  /** The mode of the last observation at or before the terminal time. */
  function LastMode(os: seq<Observation>, terminal: int64): Option<Mode> {
    if os == [] then None
    else if os[|os| - 1].at <= terminal then Some(ModeOf(os[|os| - 1]))
    else LastMode(os[..|os| - 1], terminal)
  }

  /** State of the gap tracker after `k` observations. */
  ghost predicate TracksGaps(os: seq<Observation>, terminal: int64, k: nat, current: int, best: int, previous: Option<int>)
    requires k <= |os|
  {
    var hs, ts := Holds(os, Lacking()), Instants(os, terminal);
    && current == RunEnding(hs, ts, k) && Max(best, current) == Longest(hs, ts, k)
    && (previous.Some? ==> previous.value == ts[k])
    && (previous.None? ==> current == 0 && best == 0 && ts[k] == ts[0])
  }

  lemma GapStep(os: seq<Observation>, terminal: int64, k: nat, current: int, best: int, previous: Option<int>)
    requires InOrder(os) && k < |os| && TracksGaps(os, terminal, k, current, best, previous)
    ensures Span(os, terminal, k) == 0 ==> TracksGaps(os, terminal, k + 1, current, best, previous)
    ensures Span(os, terminal, k) > 0 ==>
              var end := Some(Instants(os, terminal)[k + 1]);
              && (previous.Some? ==> previous.value == Instants(os, terminal)[k])
              && (ModeOf(os[k]) == TwoSided ==> TracksGaps(os, terminal, k + 1, 0, Max(best, current), end))
              && (ModeOf(os[k]) != TwoSided ==> TracksGaps(os, terminal, k + 1, current + Span(os, terminal, k), best, end))
              && (previous.None? ==> current == 0 && best == 0)
  {
    var hs, ts := Holds(os, Lacking()), Instants(os, terminal);
    InstantsAscend(os, terminal);
    RunsAreNatural(hs, ts, k);
    assert hs[k] == (ModeOf(os[k]) != TwoSided);
  }

  lemma LastModeStep(os: seq<Observation>, terminal: int64, k: nat)
    requires k < |os|
    ensures LastMode(os[..k + 1], terminal) == if os[k].at <= terminal then Some(ModeOf(os[k])) else LastMode(os[..k], terminal)
  {
    assert os[..k + 1][..k] == os[..k];
  }

  /** Everything the loop over sorted observations knows after `k` of them. */
  ghost predicate Scanned(os: seq<Observation>, terminal: int64, share: real, k: nat, d: Durations, current: int, best: int,
                          previous: Option<int>, mode: Option<Mode>)
    requires k <= |os|
  {
    && AreDurations(d, os, terminal, share, k) && TracksGaps(os, terminal, k, current, best, previous)
    && mode == LastMode(os[..k], terminal)
  }

  function EndOf(os: seq<Observation>, terminal: int64, k: nat): int64
    requires k < |os|
  {
    if k + 1 < |os| && os[k + 1].at < terminal then os[k + 1].at else terminal
  }

  function NextMode(mode: Option<Mode>, o: Observation, terminal: int64): Option<Mode> {
    if o.at <= terminal then Some(ModeOf(o)) else mode
  }

  lemma SkipScan(os: seq<Observation>, terminal: int64, share: real, k: nat, d: Durations, current: int, best: int,
                 previous: Option<int>, mode: Option<Mode>)
    requires InOrder(os) && k < |os| && Scanned(os, terminal, share, k, d, current, best, previous, mode)
    requires EndOf(os, terminal, k) <= os[k].at
    ensures Scanned(os, terminal, share, k + 1, d, current, best, previous, NextMode(mode, os[k], terminal))
  {
    SpanIsDuration(os, terminal, k);
    hide AreDurations, TracksGaps, Grow, InOrder, Span, Instants, LastMode, Max, ModeOf;
    LastModeStep(os, terminal, k);
    GapStep(os, terminal, k, current, best, previous);
    GrowStep(d, os, terminal, share, k);
    NoGrowth(d, os[k], share);
  }

  lemma EndIsInstant(os: seq<Observation>, terminal: int64, k: nat)
    requires InOrder(os) && k < |os| && EndOf(os, terminal, k) > os[k].at
    ensures Span(os, terminal, k) == EndOf(os, terminal, k) - os[k].at && Instants(os, terminal)[k + 1] == EndOf(os, terminal, k)
  {
    SpanIsDuration(os, terminal, k);
  }

  lemma StepScan(os: seq<Observation>, terminal: int64, share: real, k: nat, d: Durations, current: int, best: int,
                 previous: Option<int>, mode: Option<Mode>, c: int, b: int)
    requires InOrder(os) && k < |os| && Scanned(os, terminal, share, k, d, current, best, previous, mode)
    requires EndOf(os, terminal, k) > os[k].at
    requires ModeOf(os[k]) == TwoSided ==> c == 0 && b == Max(best, current)
    requires ModeOf(os[k]) != TwoSided ==> c == current + (EndOf(os, terminal, k) - os[k].at) && b == best
    ensures Scanned(os, terminal, share, k + 1, Grow(d, os[k], EndOf(os, terminal, k) - os[k].at, share), c, b,
                    Some(EndOf(os, terminal, k)), NextMode(mode, os[k], terminal))
  {
    hide *;
    ScannedParts(os, terminal, share, k, d, current, best, previous, mode);
    EndIsInstant(os, terminal, k);
    LastModeStep(os, terminal, k);
    NextModeIs(mode, os[k], terminal);
    GapStep(os, terminal, k, current, best, previous);
    GrowStep(d, os, terminal, share, k);
    ScannedFrom(os, terminal, share, k + 1, Grow(d, os[k], EndOf(os, terminal, k) - os[k].at, share), c, b,
                Some(EndOf(os, terminal, k)), NextMode(mode, os[k], terminal));
  }

  lemma NextModeIs(mode: Option<Mode>, o: Observation, terminal: int64)
    ensures NextMode(mode, o, terminal) == if o.at <= terminal then Some(ModeOf(o)) else mode
  {
  }

  lemma ScannedParts(os: seq<Observation>, terminal: int64, share: real, k: nat, d: Durations, current: int, best: int,
                     previous: Option<int>, mode: Option<Mode>)
    requires k <= |os| && Scanned(os, terminal, share, k, d, current, best, previous, mode)
    ensures AreDurations(d, os, terminal, share, k) && TracksGaps(os, terminal, k, current, best, previous)
    ensures mode == LastMode(os[..k], terminal)
  {
    hide AreDurations, TracksGaps, LastMode;
  }

  lemma ScannedFrom(os: seq<Observation>, terminal: int64, share: real, k: nat, d: Durations, current: int, best: int,
                    previous: Option<int>, mode: Option<Mode>)
    requires k <= |os| && AreDurations(d, os, terminal, share, k) && TracksGaps(os, terminal, k, current, best, previous)
    requires mode == LastMode(os[..k], terminal)
    ensures Scanned(os, terminal, share, k, d, current, best, previous, mode)
  {
    hide AreDurations, TracksGaps, LastMode;
  }

  /** A positive interval starts where the previous positive one ended. */
  lemma NoHoles(os: seq<Observation>, terminal: int64, share: real, k: nat, d: Durations, current: int, best: int,
                previous: Option<int>, mode: Option<Mode>)
    requires InOrder(os) && k < |os| && Scanned(os, terminal, share, k, d, current, best, previous, mode)
    requires EndOf(os, terminal, k) > os[k].at
    ensures previous.Some? ==> previous.value == os[k].at
    ensures previous.None? ==> current == 0 && best == 0
  {
    SpanIsDuration(os, terminal, k);
    GapStep(os, terminal, k, current, best, previous);
    hide AreDurations, TracksGaps;
  }

  method Scan(os: seq<Observation>, terminal: int64, share: real)
    returns (d: Durations, current: int, best: int, ghost previous': Option<int>, mode: Option<Mode>)
    requires InOrder(os)
    ensures Scanned(os, terminal, share, |os|, d, current, best, previous', mode)
  {
    d, current, best, mode := Durations(0, 0, 0, 0, 0, 0, 0), 0, 0, None;
    var previous: Option<int> := None;
    StartDurations(os, terminal, share);
    assert os[..0] == [];
    assert Scanned(os, terminal, share, 0, d, current, best, previous, mode);
    hide *;
    for k := 0 to |os|
      invariant Scanned(os, terminal, share, k, d, current, best, previous, mode)
    {
      var o, end := os[k], EndOf(os, terminal, k);
      var last := NextMode(mode, o, terminal);
      if end <= o.at {
        SkipScan(os, terminal, share, k, d, current, best, previous, mode);
        mode := last;
        continue;
      }
      NoHoles(os, terminal, share, k, d, current, best, previous, mode);
      var c, b := TrackGap(ModeOf(o), o.at, end - o.at, current, best, previous);
      var grown := AddDuration(d, o, end - o.at, share);
      StepScan(os, terminal, share, k, d, current, best, previous, mode, c, b);
      d, current, best, previous, mode := grown, c, b, Some(end), last;
    }
    previous' := previous;
  }

  /** The concentration limit holds on both sides, each of which was active. */
  ghost predicate WithinLimit(d: Durations, limit: real) {
    && d.bidActive > 0 && d.askActive > 0
    && d.bidDominant as real <= limit * d.bidActive as real && d.askDominant as real <= limit * d.askActive as real
  }

  method Judge(d: Durations, limit: real) returns (bidFraction: real, askFraction: real, satisfied: bool)
    ensures satisfied <==> WithinLimit(d, limit)
  {
    bidFraction, askFraction := Fraction(d.bidDominant, d.bidActive), Fraction(d.askDominant, d.askActive);
    FractionLimit(d.bidDominant, d.bidActive, limit);
    FractionLimit(d.askDominant, d.askActive, limit);
    satisfied := d.bidActive > 0 && d.askActive > 0 && bidFraction <= limit && askFraction <= limit;
  }

  /** The whole measurement of one venue. */
  method MeasureVenue(os: seq<Observation>, terminal: int64, share: real, limit: real)
    returns (r: Concentration, ghost ordered: seq<Observation>)
    ensures SortedCopy(ordered, os) && r.count == |os| && r.terminalMode == LastMode(ordered, terminal)
    ensures AreDurations(r.durations, ordered, terminal, share, |ordered|)
    ensures r.oneSided == r.durations.bidOnly + r.durations.askOnly && r.nonTwoSided == r.oneSided + r.durations.empty
    ensures r.longestGap == Longest(Holds(ordered, Lacking()), Instants(ordered, terminal), |ordered|)
    ensures r.satisfied <==> WithinLimit(r.durations, limit)
  {
    var sorted := Sorting.Sort(ByTime(), os);
    ordered := sorted;
    var d, current, best, previous, mode := Scan(sorted, terminal, share);
    hide AreDurations, InOrder, Instants, LastMode, Longest, RunEnding, Fraction, WithinLimit;
    if current > best {
      best := current;
    }
    assert sorted[..|sorted|] == sorted;
    var bidFraction, askFraction, satisfied := Judge(d, limit);
    var oneSided := d.bidOnly + d.askOnly;
    r := Concentration(|os|, mode, d, oneSided, oneSided + d.empty, best, bidFraction, askFraction, satisfied);
  }

  /** One positive interval: a two-sided one ends the gap, another extends it or starts anew. */
  method TrackGap(mode: Mode, at: int, duration: int, current: int, best: int, previous: Option<int>) returns (c: int, b: int)
    requires previous.Some? ==> previous.value == at
    requires previous.None? ==> current == 0 && best == 0
    ensures mode == TwoSided ==> c == 0 && b == Max(best, current)
    ensures mode != TwoSided ==> c == current + duration && b == best
  {
    c, b := current, best;
    if mode == TwoSided {
      if c > b {
        b := c;
      }
      c := 0;
    } else if previous.Some? && at == previous.value {
      c := c + duration;
    } else {
      if c > b {
        b := c;
      }
      c := duration;
    }
  }

  function Fraction(part: int, whole: int): real {
    if whole > 0 then part as real / whole as real else 0.0
  }

  lemma FractionLimit(part: int, whole: int, limit: real)
    ensures whole > 0 ==> (Fraction(part, whole) <= limit <==> part as real <= limit * whole as real)
  {
    if whole > 0 {
      var f, w := Fraction(part, whole), whole as real;
      assert f * w == part as real;
      if f <= limit {
        assert (limit - f) * w >= 0.0;
      } else {
        assert (f - limit) * w > 0.0;
      }
    }
  }

  lemma StartDurations(os: seq<Observation>, terminal: int64, share: real)
    ensures AreDurations(Durations(0, 0, 0, 0, 0, 0, 0), os, terminal, share, 0)
    ensures TracksGaps(os, terminal, 0, 0, 0, None)
  {
  }

  // ----- what it means -----

  /** Empty, one-sided and two-sided time make up the whole observed span. */
  lemma ModesCoverTheSpan(os: seq<Observation>, terminal: int64)
    requires InOrder(os) && os != []
    ensures TimeIn(os, terminal, InMode(Empty)) + TimeIn(os, terminal, InMode(BidOnly))
            + TimeIn(os, terminal, InMode(AskOnly)) + TimeIn(os, terminal, InMode(TwoSided))
            == Max(0, terminal - os[0].at)
  {
    ModesCoverPrefix(os, terminal, |os|);
    PartialIsWhole(os, terminal, InMode(Empty));
    PartialIsWhole(os, terminal, InMode(BidOnly));
    PartialIsWhole(os, terminal, InMode(AskOnly));
    PartialIsWhole(os, terminal, InMode(TwoSided));
  }

  lemma {:induction false} ModesCoverPrefix(os: seq<Observation>, terminal: int64, k: nat)
    requires k <= |os|
    ensures Partial(os, terminal, InMode(Empty), k) + Partial(os, terminal, InMode(BidOnly), k)
            + Partial(os, terminal, InMode(AskOnly), k) + Partial(os, terminal, InMode(TwoSided), k)
            == Instants(os, terminal)[k] - Instants(os, terminal)[0]
  {
    if k == 0 {
      PartialIsWhole(os, terminal, InMode(Empty));
      PartialIsWhole(os, terminal, InMode(BidOnly));
      PartialIsWhole(os, terminal, InMode(AskOnly));
      PartialIsWhole(os, terminal, InMode(TwoSided));
    } else {
      ModesCoverPrefix(os, terminal, k - 1);
      PartialStep(os, terminal, InMode(Empty), k - 1);
      PartialStep(os, terminal, InMode(BidOnly), k - 1);
      PartialStep(os, terminal, InMode(AskOnly), k - 1);
      PartialStep(os, terminal, InMode(TwoSided), k - 1);
    }
  }

  /** A supplier never dominates a side for longer than the side is active, and no duration exceeds the span. */
  lemma DominantWithinActive(os: seq<Observation>, terminal: int64, share: real)
    requires InOrder(os) && os != []
    ensures 0 <= TimeIn(os, terminal, BidDominant(share)) <= TimeIn(os, terminal, BidActive()) <= Max(0, terminal - os[0].at)
    ensures 0 <= TimeIn(os, terminal, AskDominant(share)) <= TimeIn(os, terminal, AskActive()) <= Max(0, terminal - os[0].at)
  {
    InstantsAscend(os, terminal);
    T.MeasureMonotone(Holds(os, BidDominant(share)), Holds(os, BidActive()), Instants(os, terminal));
    T.MeasureMonotone(Holds(os, AskDominant(share)), Holds(os, AskActive()), Instants(os, terminal));
  }

  /** Whether, at an instant, the last observation says the book is not two-sided. */
  ghost predicate LackingAt(os: seq<Observation>, terminal: int64, t: int) {
    T.At(Holds(os, Lacking()), Instants(os, terminal), t)
  }

  /** The reported maximum is the length of the longest interval, up to the terminal time, throughout which the book in
      force was not two-sided. */
  lemma LongestGapIsTheLongestInterval(os: seq<Observation>, terminal: int64) returns (a: int, b: int)
    requires InOrder(os)
    ensures var longest := Longest(Holds(os, Lacking()), Instants(os, terminal), |os|);
            && a <= b <= terminal && b - a == longest && (forall t :: a <= t < b ==> LackingAt(os, terminal, t))
            && (forall x, y :: x <= y <= terminal && AllLacking(os, terminal, x, y) ==> y - x <= longest)
  {
    var hs, ts := Holds(os, Lacking()), Instants(os, terminal);
    InstantsAscend(os, terminal);
    a, b := LongestIsAttained(hs, ts, |os|);
    forall x, y | x <= y <= terminal && AllLacking(os, terminal, x, y)
      ensures y - x <= Longest(hs, ts, |os|)
    {
      assert Throughout(hs, ts, x, y) by {
        forall t | x <= t < y
          ensures T.At(hs, ts, t)
        {
          assert LackingAt(os, terminal, t);
        }
      }
      LongestBounds(hs, ts, |os|, x, y);
    }
  }

  ghost predicate AllLacking(os: seq<Observation>, terminal: int64, x: int, y: int) {
    forall t :: x <= t < y ==> LackingAt(os, terminal, t)
  }
}
