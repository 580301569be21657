/** The stage decomposition of the public edge predicate (analysis/crossvenue_stage_diagnostic.go):
two-sided prices, gross crossing, one-lot depth, positive after fees, each tracked per direction. */
module CrossVenueStages {
  import opened Int64
  import opened CrossVenueEdge
  import opened CrossVenueEpisodes
  import Timeline

  datatype Exposure = Exposure(episodes: int, nanos: int, zeroes: int) {
    function Plus(e: Exposure): Exposure {
      Exposure(episodes + e.episodes, nanos + e.nanos, zeroes + e.zeroes)
    }

    function PlusIf(condition: bool, e: Exposure): Exposure {
      if condition then Plus(e) else this
    }
  }

  function Nothing(): Exposure {
    Exposure(0, 0, 0)
  }

  datatype Tracker = Tracker(active: bool, start: int)

  function Idle(): Tracker {
    Tracker(false, 0)
  }

  function Next(t: Tracker, at: int, qualifies: bool): Tracker {
    Tracker(qualifies, if !t.active && qualifies then at else t.start)
  }

  /** What one observation adds to the tracker's metric. */
  function Gain(t: Tracker, at: int, qualifies: bool): Exposure {
    Exposure(if !t.active && qualifies then 1 else 0,
             if t.active && !qualifies then at - t.start else 0,
             if t.active && !qualifies && at == t.start then 1 else 0)
  }

  const STAGES := 4
  const TRACKERS := 8

  /** Trackers are listed direction by direction; both directions of a stage share its metric. */
  method ObserveAll(trackers: seq<Tracker>, metrics: seq<Exposure>, at: int, qualifies: seq<bool>)
    returns (trackers': seq<Tracker>, metrics': seq<Exposure>)
    requires |trackers| == TRACKERS == |qualifies| && |metrics| == STAGES
    ensures |trackers'| == TRACKERS && |metrics'| == STAGES
    ensures forall j :: 0 <= j < TRACKERS ==> trackers'[j] == Next(trackers[j], at, qualifies[j])
    ensures forall s :: 0 <= s < STAGES ==>
              metrics'[s] == metrics[s].Plus(Gain(trackers[s], at, qualifies[s]))
                                       .Plus(Gain(trackers[s + 4], at, qualifies[s + 4]))
  {
    trackers', metrics' := trackers, metrics;
    var j := 0;
    while j < TRACKERS
      invariant 0 <= j <= TRACKERS && |trackers'| == TRACKERS && |metrics'| == STAGES
      invariant forall i :: 0 <= i < TRACKERS ==>
                  trackers'[i] == if i < j then Next(trackers[i], at, qualifies[i]) else trackers[i]
      invariant forall s :: 0 <= s < STAGES ==>
                  metrics'[s] == metrics[s].PlusIf(s < j, Gain(trackers[s], at, qualifies[s]))
                                           .PlusIf(s + 4 < j, Gain(trackers[s + 4], at, qualifies[s + 4]))
    {
      var stage := j % 4;
      var tracker, metric := trackers'[j], metrics'[stage];
      if tracker.active && !qualifies[j] {
        var duration := at - tracker.start;
        metric := metric.(nanos := metric.nanos + duration);
        if duration == 0 {
          metric := metric.(zeroes := metric.zeroes + 1);
        }
      }
      if !tracker.active && qualifies[j] {
        tracker := tracker.(start := at);
        metric := metric.(episodes := metric.episodes + 1);
      }
      tracker := tracker.(active := qualifies[j]);
      trackers' := trackers'[j := tracker];
      metrics' := metrics'[stage := metric];
      j := j + 1;
    }
  }

  // ----- one tracker over a whole run -----

  function AnyRoute(): Route {
    Route("", "")
  }

  /** The runs of a boolean sequence, as spans of a single route. */
  ghost function Marks(qs: seq<bool>): (rs: seq<Option<Route>>)
    ensures |rs| == |qs| && forall k :: 0 <= k < |qs| ==> rs[k] == if qs[k] then Some(AnyRoute()) else None
  {
    seq(|qs|, k requires 0 <= k < |qs| => if qs[k] then Some(AnyRoute()) else None)
  }

  ghost function ZeroSpans(ss: seq<Span>, times: seq<int>): nat
    requires EndsWithin(ss, |times| - 1)
  {
    if ss == [] then 0
    else
      var s := ss[|ss| - 1];
      ZeroSpans(ss[..|ss| - 1], times) + if times[s.end] == times[s.start] then 1 else 0
  }

  /** Number, total length and number of zero-length members of the maximal runs. */
  ghost function RunExposure(ss: seq<Span>, times: seq<int>): Exposure
    requires EndsWithin(ss, |times| - 1)
  {
    Exposure(|ss|, SpanTime(ss, times), ZeroSpans(ss, times))
  }

  /** The tracker after `k` samples, and what it has added to its metric. */
  ghost function TrackerAt(qs: seq<bool>, times: seq<int>, k: nat): Tracker
    requires k <= |qs| && |times| == |qs| + 1
  {
    if k == 0 then Idle() else Next(TrackerAt(qs, times, k - 1), times[k - 1], qs[k - 1])
  }

  ghost function Earned(qs: seq<bool>, times: seq<int>, k: nat): Exposure
    requires k <= |qs| && |times| == |qs| + 1
  {
    if k == 0 then Nothing()
    else Earned(qs, times, k - 1).Plus(Gain(TrackerAt(qs, times, k - 1), times[k - 1], qs[k - 1]))
  }

  /** The tracker knows every run but the one still growing. */
  ghost predicate Followed(ss: seq<Span>, times: seq<int>, k: nat, t: Tracker, e: Exposure) {
    && EndsWithin(ss, k) && k < |times|
    && e.episodes == |ss|
    && t.active == Unfinished(ss, k)
    && (t.active ==> t.start == times[ss[|ss| - 1].start])
    && e.nanos == SpanTime(Done(ss, k), times)
    && e.zeroes == ZeroSpans(Done(ss, k), times)
  }

  ghost predicate FollowedBy(ss: seq<Span>, times: seq<int>, k: nat, t: Tracker, e: Exposure) {
    Followed(ss, times, k, t, e) && forall i :: 0 <= i < |ss| ==> ss[i].route == AnyRoute()
  }

  predicate Unfinished(ss: seq<Span>, k: nat) {
    ss != [] && ss[|ss| - 1].end == k
  }

  /** The runs that have ended before sample `k`. */
  ghost function Done(ss: seq<Span>, k: nat): (done: seq<Span>)
    ensures EndsWithin(ss, k) ==> EndsWithin(done, k)
  {
    if Unfinished(ss, k) then ss[..|ss| - 1] else ss
  }

  lemma RunStarts(ss: seq<Span>, times: seq<int>, k: nat, t: Tracker, e: Exposure)
    requires k + 1 < |times| && Followed(ss, times, k, t, e) && !t.active
    ensures Followed(ss + [Span(k, k + 1, AnyRoute())], times, k + 1, Next(t, times[k], true), e.Plus(Gain(t, times[k], true)))
  {
    var ss' := ss + [Span(k, k + 1, AnyRoute())];
    assert ss'[..|ss'| - 1] == ss;
  }

  lemma RunGrows(ss: seq<Span>, times: seq<int>, k: nat, t: Tracker, e: Exposure)
    requires k + 1 < |times| && Followed(ss, times, k, t, e) && t.active
    ensures Followed(ss[|ss| - 1 := ss[|ss| - 1].(end := k + 1)], times, k + 1,
                     Next(t, times[k], true), e.Plus(Gain(t, times[k], true)))
  {
    var ss' := ss[|ss| - 1 := ss[|ss| - 1].(end := k + 1)];
    assert ss'[..|ss'| - 1] == ss[..|ss| - 1];
  }

  lemma RunEnds(ss: seq<Span>, times: seq<int>, k: nat, t: Tracker, e: Exposure)
    requires k + 1 < |times| && Followed(ss, times, k, t, e)
    ensures Followed(ss, times, k + 1, Next(t, times[k], false), e.Plus(Gain(t, times[k], false)))
  {
  }

  lemma FollowStep(ss: seq<Span>, times: seq<int>, k: nat, t: Tracker, e: Exposure, q: bool)
    requires k + 1 < |times| && FollowedBy(ss, times, k, t, e)
    ensures FollowedBy(SpansStep(ss, if q then Some(AnyRoute()) else None, k), times, k + 1,
                       Next(t, times[k], q), e.Plus(Gain(t, times[k], q)))
  {
    assert t.active == Unfinished(ss, k);
    OneRoute(ss, k, q);
    hide SpansStep, Followed, Next, Gain, Exposure.Plus, AnyRoute;
    if !q {
      RunEnds(ss, times, k, t, e);
    } else if t.active {
      RunGrows(ss, times, k, t, e);
    } else {
      RunStarts(ss, times, k, t, e);
    }
  }

  /** Runs of a single route: a qualifying sample starts one or lengthens the last. */
  lemma OneRoute(ss: seq<Span>, k: nat, q: bool)
    requires forall i :: 0 <= i < |ss| ==> ss[i].route == AnyRoute()
    ensures var next := SpansStep(ss, if q then Some(AnyRoute()) else None, k);
            && (forall i :: 0 <= i < |next| ==> next[i].route == AnyRoute())
            && next == if !q then ss
                       else if Unfinished(ss, k) then ss[|ss| - 1 := ss[|ss| - 1].(end := k + 1)]
                       else ss + [Span(k, k + 1, AnyRoute())]
  {
  }

  lemma {:induction false} FollowTracksRuns(qs: seq<bool>, times: seq<int>, k: nat)
    requires k <= |qs| && |times| == |qs| + 1
    ensures FollowedAt(qs, times, k)
  {
    hide *;
    if k == 0 {
      FollowNothing(qs, times);
    } else {
      FollowTracksRuns(qs, times, k - 1);
      FollowTracksStep(qs, times, k);
    }
  }

  ghost predicate FollowedAt(qs: seq<bool>, times: seq<int>, k: nat)
    requires k <= |qs| && |times| == |qs| + 1
  {
    FollowedBy(Spans(Marks(qs)[..k]), times, k, TrackerAt(qs, times, k), Earned(qs, times, k))
  }

  lemma FollowNothing(qs: seq<bool>, times: seq<int>)
    requires |times| == |qs| + 1
    ensures FollowedAt(qs, times, 0)
  {
    assert Spans(Marks(qs)[..0]) == [];
  }

  lemma MarksPrefix(qs: seq<bool>, k: nat)
    requires 0 < k <= |qs|
    ensures Marks(qs)[..k][..k - 1] == Marks(qs)[..k - 1]
    ensures Marks(qs)[..k][k - 1] == if qs[k - 1] then Some(AnyRoute()) else None
  {
  }

  lemma FollowTracksStep(qs: seq<bool>, times: seq<int>, k: nat)
    requires 0 < k <= |qs| && |times| == |qs| + 1 && FollowedAt(qs, times, k - 1)
    ensures FollowedAt(qs, times, k)
  {
    hide FollowedBy, Spans, SpansStep, TrackerAt, Earned, Next, Gain, Marks, Exposure.Plus;
    var rs := Marks(qs)[..k];
    MarksPrefix(qs, k);
    SpansUnfold(rs);
    FollowUnfold(qs, times, k);
    FollowStep(Spans(rs[..k - 1]), times, k - 1, TrackerAt(qs, times, k - 1), Earned(qs, times, k - 1), qs[k - 1]);
  }

  lemma SpansUnfold(rs: seq<Option<Route>>)
    requires rs != []
    ensures Spans(rs) == SpansStep(Spans(rs[..|rs| - 1]), rs[|rs| - 1], |rs| - 1)
  {
  }

  lemma FollowUnfold(qs: seq<bool>, times: seq<int>, k: nat)
    requires 0 < k <= |qs| && |times| == |qs| + 1
    ensures TrackerAt(qs, times, k) == Next(TrackerAt(qs, times, k - 1), times[k - 1], qs[k - 1])
    ensures Earned(qs, times, k)
            == Earned(qs, times, k - 1).Plus(Gain(TrackerAt(qs, times, k - 1), times[k - 1], qs[k - 1]))
  {
  }

  /** Closing every tracker at the end leaves exactly the maximal runs, and their total length is the time the
      stage held. */
  lemma FollowToTheEnd(qs: seq<bool>, times: seq<int>)
    requires |times| == |qs| + 1
    ensures EndsWithin(Spans(Marks(qs)), |qs|)
    ensures var e := Earned(qs, times, |qs|).Plus(Gain(TrackerAt(qs, times, |qs|), times[|qs|], false));
            e == RunExposure(Spans(Marks(qs)), times) && e.nanos == Timeline.Measure(qs, times)
  {
    assert Marks(qs)[..|qs|] == Marks(qs);
    assert Positives(Marks(qs)) == qs;
    FollowTracksRuns(qs, times, |qs|);
    hide *;
    SpansMeasure(Marks(qs), times);
    FollowedEnds(Spans(Marks(qs)), times, TrackerAt(qs, times, |qs|), Earned(qs, times, |qs|));
  }

  lemma FollowedEnds(ss: seq<Span>, times: seq<int>, t: Tracker, e: Exposure)
    requires times != [] && Followed(ss, times, |times| - 1, t, e)
    ensures EndsWithin(ss, |times| - 1)
    ensures e.Plus(Gain(t, times[|times| - 1], false)) == RunExposure(ss, times)
    ensures RunExposure(ss, times).nanos == SpanTime(ss, times)
  {
  }

  // ----- the stages of a book state -----

  /** Stage `j % 4` of direction `j / 4`, which buys on venue `j / 4`. */
  function Qualifies(venues: Pair<string>, books: Pair<Touch>, c: Convention, j: nat): bool
    requires j < TRACKERS
  {
    var buyer := j / 4;
    var buy, sell := books.At(buyer), books.At(1 - buyer);
    var twoSided := buy.hasBid && buy.hasAsk && sell.hasBid && sell.hasAsk && buy.ask > 0 && sell.bid > 0;
    var gross := twoSided && sell.bid > buy.ask;
    var depth := gross && buy.askQty >= c.lotQty && sell.bidQty >= c.lotQty;
    var positive := depth && Evaluate(venues, books, c, true).directions.At(buyer).status.PositiveEdge?;
    if j % 4 == 0 then twoSided else if j % 4 == 1 then gross else if j % 4 == 2 then depth else positive
  }

  /** The same after some transitions; nothing qualifies until both venues have published. */
  ghost predicate QualifiesAfter(venues: Pair<string>, trs: seq<Transition>, c: Convention, j: nat)
    requires j < TRACKERS
  {
    var a, b := Latest(trs, venues.first), Latest(trs, venues.second);
    a.Some? && b.Some? && Qualifies(venues, Pair(a.value, b.value), c, j)
  }

  ghost function Samples(venues: Pair<string>, trs: seq<Transition>, c: Convention, j: nat): (qs: seq<bool>)
    requires j < TRACKERS
    ensures |qs| == |trs| && forall k :: 0 <= k < |trs| ==> qs[k] == QualifiesAfter(venues, trs[..k + 1], c, j)
  {
    seq(|trs|, k requires 0 <= k < |trs| => QualifiesAfter(venues, trs[..k + 1], c, j))
  }

  predicate WellFormed(t: Touch) {
    && (t.hasBid ==> t.bidQty > 0) && (t.hasAsk ==> t.askQty > 0)
    && (!t.hasBid ==> t.bid == 0 && t.bidQty == 0) && (!t.hasAsk ==> t.ask == 0 && t.askQty == 0)
  }

  ghost predicate Diagnosable(venues: Pair<string>, trs: seq<Transition>, horizon: int64, c: Convention) {
    && Admissible(venues, trs, horizon, c)
    && (forall k :: 0 <= k < |trs| ==> WellFormed(trs[k].touch))
    && Latest(trs, venues.first).Some? && Latest(trs, venues.second).Some?
  }

  /** Exposure of a stage: the maximal runs of both directions, counted and added up. */
  ghost function StageExposure(venues: Pair<string>, trs: seq<Transition>, horizon: int64, c: Convention, stage: nat): Exposure
    requires stage < STAGES
  {
    TrackerExposure(venues, trs, horizon, c, stage).Plus(TrackerExposure(venues, trs, horizon, c, stage + 4))
  }

  ghost function TrackerExposure(venues: Pair<string>, trs: seq<Transition>, horizon: int64, c: Convention, j: nat): Exposure
    requires j < TRACKERS
  {
    var qs, times := Samples(venues, trs, c, j), Times(trs, horizon);
    SpansMeasure(Marks(qs), times);
    RunExposure(Spans(Marks(qs)), times)
  }

  /** The trackers and metrics after `k` transitions. */
  ghost predicate Diagnosed(venues: Pair<string>, trs: seq<Transition>, horizon: int64, c: Convention, k: nat,
                            trackers: seq<Tracker>, metrics: seq<Exposure>)
    requires k <= |trs|
  {
    var times := Times(trs, horizon);
    && |trackers| == TRACKERS && |metrics| == STAGES
    && (forall j :: 0 <= j < TRACKERS ==> trackers[j] == TrackerAt(Samples(venues, trs, c, j), times, k))
    && (forall s :: 0 <= s < STAGES ==>
          metrics[s] == Earned(Samples(venues, trs, c, s), times, k).Plus(Earned(Samples(venues, trs, c, s + 4), times, k)))
  }

  lemma DiagnosedStep(venues: Pair<string>, trs: seq<Transition>, horizon: int64, c: Convention, k: nat,
                      trackers: seq<Tracker>, metrics: seq<Exposure>, qualifies: seq<bool>,
                      trackers': seq<Tracker>, metrics': seq<Exposure>)
    requires k < |trs| && Diagnosed(venues, trs, horizon, c, k, trackers, metrics)
    requires |qualifies| == TRACKERS && forall j :: 0 <= j < TRACKERS ==> qualifies[j] == QualifiesAfter(venues, trs[..k + 1], c, j)
    requires |trackers'| == TRACKERS && |metrics'| == STAGES
    requires forall j :: 0 <= j < TRACKERS ==> trackers'[j] == Next(trackers[j], trs[k].at, qualifies[j])
    requires forall s :: 0 <= s < STAGES ==>
               metrics'[s] == metrics[s].Plus(Gain(trackers[s], trs[k].at, qualifies[s]))
                                        .Plus(Gain(trackers[s + 4], trs[k].at, qualifies[s + 4]))
    ensures Diagnosed(venues, trs, horizon, c, k + 1, trackers', metrics')
  {
    var times := Times(trs, horizon);
    assert times[k] == trs[k].at;
    forall j | 0 <= j < TRACKERS
      ensures TrackerAt(Samples(venues, trs, c, j), times, k + 1) == trackers'[j]
      ensures Earned(Samples(venues, trs, c, j), times, k + 1)
              == Earned(Samples(venues, trs, c, j), times, k).Plus(Gain(trackers[j], times[k], qualifies[j]))
    {
      FollowUnfold(Samples(venues, trs, c, j), times, k + 1);
    }
    hide TrackerAt, Earned, Samples, QualifiesAfter, Gain, Next;
  }

  lemma {:induction false} IdleUntilMarked(qs: seq<bool>, times: seq<int>, k: nat)
    requires k <= |qs| && |times| == |qs| + 1 && forall i :: 0 <= i < k ==> !qs[i]
    ensures TrackerAt(qs, times, k) == Idle() && Earned(qs, times, k) == Nothing()
  {
    if k > 0 {
      IdleUntilMarked(qs, times, k - 1);
      assert !qs[k - 1];
    }
  }

  /** Skipping a transition that leaves a venue unknown is the same as observing that nothing qualifies. */
  lemma IdleStep(venues: Pair<string>, trs: seq<Transition>, horizon: int64, c: Convention, k: nat,
                 trackers: seq<Tracker>, metrics: seq<Exposure>)
    requires k < |trs| && Diagnosed(venues, trs, horizon, c, k, trackers, metrics)
    requires Latest(trs[..k + 1], venues.first).None? || Latest(trs[..k + 1], venues.second).None?
    ensures Diagnosed(venues, trs, horizon, c, k + 1, trackers, metrics)
  {
    hide TrackerAt, Earned, Samples, Latest, Qualifies, Times;
    forall j | 0 <= j < TRACKERS
      ensures TrackerAt(Samples(venues, trs, c, j), Times(trs, horizon), k) == Idle()
      ensures Earned(Samples(venues, trs, c, j), Times(trs, horizon), k) == Nothing()
      ensures TrackerAt(Samples(venues, trs, c, j), Times(trs, horizon), k + 1) == Idle()
      ensures Earned(Samples(venues, trs, c, j), Times(trs, horizon), k + 1) == Nothing()
    {
      NothingQualified(venues, trs, c, k, j);
      IdleUntilMarked(Samples(venues, trs, c, j), Times(trs, horizon), k);
      IdleUntilMarked(Samples(venues, trs, c, j), Times(trs, horizon), k + 1);
    }
  }

  lemma NothingQualified(venues: Pair<string>, trs: seq<Transition>, c: Convention, k: nat, j: nat)
    requires k < |trs| && j < TRACKERS
    requires Latest(trs[..k + 1], venues.first).None? || Latest(trs[..k + 1], venues.second).None?
    ensures forall i :: 0 <= i < k + 1 ==> !Samples(venues, trs, c, j)[i]
  {
    hide Latest, Qualifies;
    var qs := Samples(venues, trs, c, j);
    forall i | 0 <= i < k + 1
      ensures !qs[i]
    {
      if Latest(trs[..i + 1], venues.first).Some? { KnownStaysKnown(trs, venues.first, i + 1, k + 1); }
      if Latest(trs[..i + 1], venues.second).Some? { KnownStaysKnown(trs, venues.second, i + 1, k + 1); }
    }
  }

  lemma NothingDiagnosed(venues: Pair<string>, trs: seq<Transition>, horizon: int64, c: Convention,
                         trackers: seq<Tracker>, metrics: seq<Exposure>)
    requires |trackers| == TRACKERS && forall j :: 0 <= j < TRACKERS ==> trackers[j] == Idle()
    requires |metrics| == STAGES && forall s :: 0 <= s < STAGES ==> metrics[s] == Nothing()
    ensures Diagnosed(venues, trs, horizon, c, 0, trackers, metrics)
  {
    hide TrackerAt, Earned, Samples, Times, QualifiesAfter, Nothing, Idle, Exposure.Plus;
    forall j | 0 <= j < TRACKERS
      ensures TrackerAt(Samples(venues, trs, c, j), Times(trs, horizon), 0) == Idle()
      ensures Earned(Samples(venues, trs, c, j), Times(trs, horizon), 0) == Nothing()
    {
      IdleUntilMarked(Samples(venues, trs, c, j), Times(trs, horizon), 0);
    }
    NothingTwice();
  }

  lemma NothingTwice()
    ensures Nothing().Plus(Nothing()) == Nothing()
  {
  }

  /** Closing one tracker at the horizon completes its exposure. */
  lemma TrackerEnds(venues: Pair<string>, trs: seq<Transition>, horizon: int64, c: Convention, j: nat)
    requires j < TRACKERS
    ensures var qs, times := Samples(venues, trs, c, j), Times(trs, horizon);
            Earned(qs, times, |trs|).Plus(Gain(TrackerAt(qs, times, |trs|), horizon, false)) == TrackerExposure(venues, trs, horizon, c, j)
  {
    FollowToTheEnd(Samples(venues, trs, c, j), Times(trs, horizon));
    hide TrackerAt, Earned, Gain, Samples;
  }

  lemma RegroupPlus(a: Exposure, b: Exposure, c: Exposure, d: Exposure)
    ensures a.Plus(b).Plus(c).Plus(d) == a.Plus(c).Plus(b.Plus(d))
  {
  }

  lemma DiagnosedEnd(venues: Pair<string>, trs: seq<Transition>, horizon: int64, c: Convention,
                     trackers: seq<Tracker>, metrics: seq<Exposure>, metrics': seq<Exposure>)
    requires Diagnosed(venues, trs, horizon, c, |trs|, trackers, metrics) && |metrics'| == STAGES
    requires forall s :: 0 <= s < STAGES ==>
               metrics'[s] == metrics[s].Plus(Gain(trackers[s], horizon, false)).Plus(Gain(trackers[s + 4], horizon, false))
    ensures forall s :: 0 <= s < STAGES ==> metrics'[s] == StageExposure(venues, trs, horizon, c, s)
  {
    forall s | 0 <= s < STAGES
      ensures metrics'[s] == StageExposure(venues, trs, horizon, c, s)
    {
      TrackerEnds(venues, trs, horizon, c, s);
      TrackerEnds(venues, trs, horizon, c, s + 4);
      var times := Times(trs, horizon);
      RegroupPlus(Earned(Samples(venues, trs, c, s), times, |trs|), Earned(Samples(venues, trs, c, s + 4), times, |trs|),
                  Gain(trackers[s], horizon, false), Gain(trackers[s + 4], horizon, false));
      hide TrackerAt, Earned, Samples, Gain, TrackerExposure, Exposure.Plus;
    }
  }

  function Mask(venues: Pair<string>, books: Pair<Touch>, c: Convention): (qs: seq<bool>)
    ensures |qs| == TRACKERS && forall j :: 0 <= j < TRACKERS ==> qs[j] == Qualifies(venues, books, c, j)
  {
    seq(TRACKERS, j requires 0 <= j < TRACKERS => Qualifies(venues, books, c, j))
  }

  /** The diagnostic loop. */
  method Diagnose(venues: Pair<string>, trs: seq<Transition>, horizon: int64, c: Convention)
    returns (r: Option<seq<Exposure>>)
    ensures r.Some? <==> Diagnosable(venues, trs, horizon, c)
    ensures r.Some? ==> |r.value| == STAGES
    ensures r.Some? ==> forall s :: 0 <= s < STAGES ==> r.value[s] == StageExposure(venues, trs, horizon, c, s)
  {
    if !ValidConvention(venues, c) || horizon <= 0 || |trs| == 0 {
      return None;
    }
    var metrics := seq(STAGES, _ => Nothing());
    var trackers := seq(TRACKERS, _ => Idle());
    var books: Pair<Touch> := Pair(Touch(0, 0, 0, 0, false, false), Touch(0, 0, 0, 0, false, false));
    var known := Pair(false, false);
    var previousSequence: uint64, previousTS: int64 := 0, 0;
    NothingDiagnosed(venues, trs, horizon, c, trackers, metrics);
    assert HoldsBoth(trs[..0], venues, known, books);
    hide Diagnosed, HoldsBoth, Qualifies, Next, Gain, StageExposure, WellFormed, Latest, Diagnosable;
    var index := 0;
    while index < |trs|
      invariant 0 <= index <= |trs|
      invariant index > 0 ==> previousSequence == trs[index - 1].sequence && previousTS == trs[index - 1].at
      invariant forall k :: 0 <= k < index ==> FineAt(venues, trs, horizon, k)
      invariant HoldsBoth(trs[..index], venues, known, books)
      invariant Diagnosed(venues, trs, horizon, c, index, trackers, metrics)
    {
      var transition := trs[index];
      var isFirst := transition.venue == venues.first;
      if transition.sequence == 0 || (index > 0 && transition.sequence <= previousSequence)
        || transition.at < 0 || (index > 0 && transition.at < previousTS) || transition.at > horizon
        || (!isFirst && transition.venue != venues.second) || !WellFormed(transition.touch) {
        NotDiagnosable(venues, trs, horizon, c, index);
        return None;
      }
      assert FineAt(venues, trs, horizon, index);
      previousSequence, previousTS := transition.sequence, transition.at;
      HoldsStep(trs, venues, known, books, index);
      books, known := Put(books, isFirst, transition.touch), Put(known, isFirst, true);
      trackers, metrics := DiagnoseOne(venues, trs, horizon, c, index, books, known, trackers, metrics);
      index := index + 1;
    }
    DiagnosableIffKnown(venues, trs, horizon, c, known, books);
    if !known.first || !known.second {
      return None;
    }
    r := Finish(venues, trs, horizon, c, trackers, metrics);
  }

  /** What both the reconstruction and the diagnostic demand of transition `k`. */
  predicate FineAt(venues: Pair<string>, trs: seq<Transition>, horizon: int64, k: nat)
    requires k < |trs|
  {
    OkAt(venues, trs, horizon, k) && WellFormed(trs[k].touch)
  }

  lemma NotDiagnosable(venues: Pair<string>, trs: seq<Transition>, horizon: int64, c: Convention, k: nat)
    requires k < |trs| && !FineAt(venues, trs, horizon, k)
    ensures !Diagnosable(venues, trs, horizon, c)
  {
    hide OkAt, WellFormed;
  }

  lemma DiagnosableIffKnown(venues: Pair<string>, trs: seq<Transition>, horizon: int64, c: Convention,
                            known: Pair<bool>, books: Pair<Touch>)
    requires ValidConvention(venues, c) && horizon > 0
    requires forall k :: 0 <= k < |trs| ==> FineAt(venues, trs, horizon, k)
    requires HoldsBoth(trs[..|trs|], venues, known, books)
    ensures Diagnosable(venues, trs, horizon, c) <==> known.first && known.second
  {
    assert trs[..|trs|] == trs;
    Unknown(trs, venues, known, books);
    assert Admissible(venues, trs, horizon, c) by {
      forall k | 0 <= k < |trs| ensures OkAt(venues, trs, horizon, k) { assert FineAt(venues, trs, horizon, k); }
    }
    forall k | 0 <= k < |trs| ensures WellFormed(trs[k].touch) { assert FineAt(venues, trs, horizon, k); }
    hide OkAt, WellFormed;
  }

  /** Every tracker still running ends at the horizon. */
  method Finish(venues: Pair<string>, trs: seq<Transition>, horizon: int64, c: Convention,
                trackers: seq<Tracker>, metrics: seq<Exposure>) returns (r: Option<seq<Exposure>>)
    requires Diagnosed(venues, trs, horizon, c, |trs|, trackers, metrics)
    ensures r.Some? && |r.value| == STAGES
    ensures forall s :: 0 <= s < STAGES ==> r.value[s] == StageExposure(venues, trs, horizon, c, s)
  {
    assert |trackers| == TRACKERS && |metrics| == STAGES;
    hide *;
    var _, final := ObserveAll(trackers, metrics, horizon, seq(TRACKERS, _ => false));
    DiagnosedEnd(venues, trs, horizon, c, trackers, metrics, final);
    return Some(final);
  }

  lemma Unknown(trs: seq<Transition>, venues: Pair<string>, known: Pair<bool>, books: Pair<Touch>)
    requires HoldsBoth(trs, venues, known, books)
    ensures known.first == Latest(trs, venues.first).Some? && known.second == Latest(trs, venues.second).Some?
    ensures known.first ==> Latest(trs, venues.first) == Some(books.first)
    ensures known.second ==> Latest(trs, venues.second) == Some(books.second)
  {
  }

  /** Both directions and all stages of one book state. */
  method DiagnoseOne(venues: Pair<string>, trs: seq<Transition>, horizon: int64, c: Convention, index: nat,
                     books: Pair<Touch>, known: Pair<bool>, trackers: seq<Tracker>, metrics: seq<Exposure>)
    returns (trackers': seq<Tracker>, metrics': seq<Exposure>)
    requires index < |trs| && HoldsBoth(trs[..index + 1], venues, known, books)
    requires Diagnosed(venues, trs, horizon, c, index, trackers, metrics)
    ensures Diagnosed(venues, trs, horizon, c, index + 1, trackers', metrics')
  {
    Unknown(trs[..index + 1], venues, known, books);
    if !known.first || !known.second {
      IdleStep(venues, trs, horizon, c, index, trackers, metrics);
      return trackers, metrics;
    }
    var qualifies := Mask(venues, books, c);
    assert |trackers| == TRACKERS && |metrics| == STAGES;
    trackers', metrics' := ObserveAll(trackers, metrics, trs[index].at, qualifies);
    assert forall j :: 0 <= j < TRACKERS ==> qualifies[j] == QualifiesAfter(venues, trs[..index + 1], c, j);
    hide *;
    DiagnosedStep(venues, trs, horizon, c, index, trackers, metrics, qualifies, trackers', metrics');
  }

  // ----- what the decomposition says -----

  /** The last stage is the evaluator's own per-direction predicate: requiring a gross crossing and one lot of
      depth first excludes nothing. */
  lemma FeeStageIsThePredicate(venues: Pair<string>, books: Pair<Touch>, c: Convention, buyer: nat)
    requires ValidConvention(venues, c) && buyer < 2
    ensures Qualifies(venues, books, c, 4 * buyer + 3)
            <==> Evaluate(venues, books, c, true).directions.At(buyer).status.PositiveEdge?
  {
    var buy, sell := books.At(buyer), books.At(1 - buyer);
    assert (4 * buyer + 3) / 4 == buyer && (4 * buyer + 3) % 4 == 3;
    assert Evaluate(venues, books, c, true).directions.At(buyer).status == Assess(buy, sell, c, true).0;
    if Assess(buy, sell, c, true).0.PositiveEdge? {
      PositiveEdgeCrosses(buy, sell, c, true);
    }
  }

  lemma StagesNest(venues: Pair<string>, trs: seq<Transition>, c: Convention, j: nat)
    requires j + 1 < TRACKERS && j != 3
    ensures Timeline.Implies(Samples(venues, trs, c, j + 1), Samples(venues, trs, c, j))
  {
    assert (j + 1) / 4 == j / 4 && (j + 1) % 4 == j % 4 + 1;
  }

  lemma TrackerTime(venues: Pair<string>, trs: seq<Transition>, horizon: int64, c: Convention, j: nat)
    requires j < TRACKERS
    ensures TrackerExposure(venues, trs, horizon, c, j).nanos == Timeline.Measure(Samples(venues, trs, c, j), Times(trs, horizon))
  {
    FollowToTheEnd(Samples(venues, trs, c, j), Times(trs, horizon));
  }

  /** One tracker's time is within the horizon, and within the time of the stage before. */
  lemma TrackerNests(venues: Pair<string>, trs: seq<Transition>, horizon: int64, c: Convention, j: nat)
    requires Admissible(venues, trs, horizon, c) && j < TRACKERS
    ensures 0 <= TrackerExposure(venues, trs, horizon, c, j).nanos <= horizon
    ensures j % 4 != 3 ==> TrackerExposure(venues, trs, horizon, c, j + 1).nanos <= TrackerExposure(venues, trs, horizon, c, j).nanos
  {
    TrackerIsBounded(venues, trs, horizon, c, j);
    if j % 4 != 3 {
      TimesAreOrdered(venues, trs, horizon, c);
      StagesNest(venues, trs, c, j);
      TrackerTime(venues, trs, horizon, c, j);
      TrackerTime(venues, trs, horizon, c, j + 1);
      hide *;
      Timeline.MeasureMonotone(Samples(venues, trs, c, j + 1), Samples(venues, trs, c, j), Times(trs, horizon));
    }
  }

  lemma TrackerIsBounded(venues: Pair<string>, trs: seq<Transition>, horizon: int64, c: Convention, j: nat)
    requires Admissible(venues, trs, horizon, c) && j < TRACKERS
    ensures 0 <= TrackerExposure(venues, trs, horizon, c, j).nanos <= horizon
  {
    TimesAreOrdered(venues, trs, horizon, c);
    assert Times(trs, horizon)[|trs|] - Times(trs, horizon)[0] <= horizon;
    hide Samples, TrackerExposure, Timeline.Measure, Times, Admissible;
    TrackerTime(venues, trs, horizon, c, j);
    Timeline.MeasureMonotone(Samples(venues, trs, c, j), Samples(venues, trs, c, j), Times(trs, horizon));
  }

  /** Exposure shrinks from stage to stage and is at most twice the horizon, so an int64 holds it whenever it
      holds twice the horizon. */
  lemma ExposuresNest(venues: Pair<string>, trs: seq<Transition>, horizon: int64, c: Convention)
    requires Admissible(venues, trs, horizon, c)
    ensures 0 <= StageExposure(venues, trs, horizon, c, 3).nanos
              <= StageExposure(venues, trs, horizon, c, 2).nanos
              <= StageExposure(venues, trs, horizon, c, 1).nanos
              <= StageExposure(venues, trs, horizon, c, 0).nanos
              <= 2 * horizon
  {
    hide TrackerExposure, Admissible;
    TrackerNests(venues, trs, horizon, c, 0);
    TrackerNests(venues, trs, horizon, c, 1);
    TrackerNests(venues, trs, horizon, c, 2);
    TrackerNests(venues, trs, horizon, c, 3);
    TrackerNests(venues, trs, horizon, c, 4);
    TrackerNests(venues, trs, horizon, c, 5);
    TrackerNests(venues, trs, horizon, c, 6);
    TrackerNests(venues, trs, horizon, c, 7);
  }

  /** The fee stage neither invents nor loses opportunity: its exposure is at least the strict positive time of
      the episodes and at most twice it, since two directions can be positive at once. */
  lemma FeeExposureIsStrictTime(venues: Pair<string>, trs: seq<Transition>, horizon: int64, c: Convention)
    requires Admissible(venues, trs, horizon, c)
    ensures var strict := TotalDuration(Episodes(venues, trs, horizon, c, true));
            strict <= StageExposure(venues, trs, horizon, c, 3).nanos <= 2 * strict
  {
    var times := Times(trs, horizon);
    var u, p, q := PositiveSamples(venues, trs, c, true), Samples(venues, trs, c, 3), Samples(venues, trs, c, 7);
    TimesAreOrdered(venues, trs, horizon, c);
    DurationIsMeasure(venues, trs, horizon, c, true);
    TrackerTime(venues, trs, horizon, c, 3);
    TrackerTime(venues, trs, horizon, c, 7);
    forall k | 0 <= k < |trs|
      ensures u[k] == (p[k] || q[k])
    {
      SampleIs(venues, trs, c, true, k + 1);
      FeeSample(venues, trs[..k + 1], c);
    }
    hide PositiveSamples, Samples, TrackerExposure, Timeline.Measure, Episodes;
    Timeline.MeasureOfUnion(u, p, q, times);
  }

  lemma FeeSample(venues: Pair<string>, trs: seq<Transition>, c: Convention)
    requires ValidConvention(venues, c)
    ensures RouteOf(VerdictAfter(venues, trs, c, true)).Some?
            == (QualifiesAfter(venues, trs, c, 3) || QualifiesAfter(venues, trs, c, 7))
  {
    var a, b := Latest(trs, venues.first), Latest(trs, venues.second);
    if a.Some? && b.Some? {
      var books := Pair(a.value, b.value);
      FeeStageIsThePredicate(venues, books, c, 0);
      FeeStageIsThePredicate(venues, books, c, 1);
      VerdictIsTheBestDirection(venues, books, c, true);
    }
  }
}
