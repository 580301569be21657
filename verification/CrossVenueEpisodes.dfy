/** Episodes of positive edge, rebuilt from an ordered stream of public book transitions
(analysis/crossvenue_opportunity.go). */
module CrossVenueEpisodes {
  import opened Int64
  import opened CrossVenueEdge
  import Timeline

  datatype Transition = Transition(at: int64, sequence: uint64, venue: string, touch: Touch)

  datatype EndStatus = Ended(status: Status) | HorizonCensored

  datatype Episode = Episode(startTS: int64, startSequence: uint64, endTS: int64, endSequence: uint64,
                             censored: bool, buyVenue: string, sellVenue: string, initialEdge: int64,
                             endStatus: EndStatus)

  /** Transition `k` follows its predecessor, stays inside the horizon and names one of the two venues. */
  predicate OkAt(venues: Pair<string>, trs: seq<Transition>, horizon: int64, k: nat)
    requires k < |trs|
  {
    && trs[k].sequence != 0 && 0 <= trs[k].at <= horizon
    && (k > 0 ==> trs[k - 1].sequence < trs[k].sequence && trs[k - 1].at <= trs[k].at)
    && (trs[k].venue == venues.first || trs[k].venue == venues.second)
  }

  /** What the reconstruction accepts. */
  predicate Admissible(venues: Pair<string>, trs: seq<Transition>, horizon: int64, c: Convention) {
    ValidConvention(venues, c) && horizon > 0 && forall k :: 0 <= k < |trs| ==> OkAt(venues, trs, horizon, k)
  }

  /** The last touch a venue published. */
  function Latest(trs: seq<Transition>, venue: string): Option<Touch> {
    if trs == [] then None
    else if trs[|trs| - 1].venue == venue then Some(trs[|trs| - 1].touch)
    else Latest(trs[..|trs| - 1], venue)
  }

  /** The verdict on the latest books; none until both venues have published. */
  function VerdictAfter(venues: Pair<string>, trs: seq<Transition>, c: Convention, twoSided: bool): Option<Verdict> {
    match (Latest(trs, venues.first), Latest(trs, venues.second))
    case (Some(a), Some(b)) => Some(Evaluate(venues, Pair(a, b), c, twoSided).verdict)
    case _ => None
  }

  function Verdicts(venues: Pair<string>, trs: seq<Transition>, c: Convention, twoSided: bool): (vs: seq<Option<Verdict>>)
    ensures |vs| == |trs|
    ensures forall k :: 0 <= k < |trs| ==> vs[k] == VerdictAfter(venues, trs[..k + 1], c, twoSided)
  {
    seq(|trs|, k requires 0 <= k < |trs| => VerdictAfter(venues, trs[..k + 1], c, twoSided))
  }

  datatype Route = Route(buyVenue: string, sellVenue: string)

  function RouteOf(v: Option<Verdict>): Option<Route> {
    if v.Some? && v.value.status.PositiveEdge? then Some(Route(v.value.buyVenue, v.value.sellVenue)) else None
  }

  function Routes(vs: seq<Option<Verdict>>): (rs: seq<Option<Route>>)
    ensures |rs| == |vs|
    ensures forall k :: 0 <= k < |vs| ==> rs[k] == RouteOf(vs[k])
  {
    seq(|vs|, k requires 0 <= k < |vs| => RouteOf(vs[k]))
  }

  // ----- runs of one route -----

  /** A half-open range of samples with one route throughout. */
  datatype Span = Span(start: nat, end: nat, route: Route)

  /** Sample `n` continues the last span, starts a new one or belongs to none. */
  function SpansStep(before: seq<Span>, r: Option<Route>, n: nat): seq<Span> {
    match r
    case None => before
    case Some(route) =>
      if before != [] && before[|before| - 1].end == n && before[|before| - 1].route == route then
        before[|before| - 1 := before[|before| - 1].(end := n + 1)]
      else
        before + [Span(n, n + 1, route)]
  }

  function Spans(rs: seq<Option<Route>>): seq<Span> {
    if rs == [] then [] else SpansStep(Spans(rs[..|rs| - 1]), rs[|rs| - 1], |rs| - 1)
  }

  ghost predicate MaximalRun(rs: seq<Option<Route>>, s: Span) {
    && s.start < s.end <= |rs|
    && (forall k :: s.start <= k < s.end ==> rs[k] == Some(s.route))
    && (s.start > 0 ==> rs[s.start - 1] != Some(s.route))
    && (s.end < |rs| ==> rs[s.end] != Some(s.route))
  }

  ghost predicate Covers(ss: seq<Span>, k: int) {
    exists i :: 0 <= i < |ss| && ss[i].start <= k < ss[i].end
  }

  ghost predicate SpansOk(rs: seq<Option<Route>>, ss: seq<Span>) {
    && (forall i :: 0 <= i < |ss| ==> MaximalRun(rs, ss[i]))
    && (forall i, j :: 0 <= i < j < |ss| ==> ss[i].end <= ss[j].start)
    && (forall k :: 0 <= k < |rs| && rs[k].Some? ==> Covers(ss, k))
  }

  lemma RunOfPrefix(rs: seq<Option<Route>>, s: Span)
    requires rs != [] && MaximalRun(rs[..|rs| - 1], s)
    requires s.end == |rs| - 1 ==> rs[|rs| - 1] != Some(s.route)
    ensures MaximalRun(rs, s)
  {
    assert forall k :: s.start <= k < s.end ==> rs[k] == rs[..|rs| - 1][k];
    assert s.start > 0 ==> rs[s.start - 1] == rs[..|rs| - 1][s.start - 1];
  }

  lemma RunExtends(rs: seq<Option<Route>>, s: Span)
    requires rs != [] && MaximalRun(rs[..|rs| - 1], s)
    requires s.end == |rs| - 1 && rs[|rs| - 1] == Some(s.route)
    ensures MaximalRun(rs, s.(end := |rs|))
  {
    assert forall k :: s.start <= k < s.end ==> rs[k] == rs[..|rs| - 1][k];
    assert s.start > 0 ==> rs[s.start - 1] == rs[..|rs| - 1][s.start - 1];
  }

  lemma CoverGrows(rs: seq<Option<Route>>, ss: seq<Span>, ss': seq<Span>)
    requires rs != [] && SpansOk(rs[..|rs| - 1], ss) && |ss| <= |ss'|
    requires forall i :: 0 <= i < |ss| ==> ss'[i].start == ss[i].start && ss[i].end <= ss'[i].end
    requires rs[|rs| - 1].Some? ==> Covers(ss', |rs| - 1)
    ensures forall k :: 0 <= k < |rs| && rs[k].Some? ==> Covers(ss', k)
  {
    forall k | 0 <= k < |rs| - 1 && rs[k].Some?
      ensures Covers(ss', k)
    {
      assert rs[..|rs| - 1][k].Some?;
      var i :| 0 <= i < |ss| && ss[i].start <= k < ss[i].end;
      assert ss'[i].start <= k < ss'[i].end;
    }
  }

  lemma SkipSample(rs: seq<Option<Route>>, ss: seq<Span>)
    requires rs != [] && SpansOk(rs[..|rs| - 1], ss) && rs[|rs| - 1].None?
    ensures SpansOk(rs, ss)
  {
    forall i | 0 <= i < |ss| ensures MaximalRun(rs, ss[i]) { RunOfPrefix(rs, ss[i]); }
    CoverGrows(rs, ss, ss);
  }

  lemma ExtendSpan(rs: seq<Option<Route>>, ss: seq<Span>)
    requires rs != [] && SpansOk(rs[..|rs| - 1], ss) && ss != []
    requires ss[|ss| - 1].end == |rs| - 1 && rs[|rs| - 1] == Some(ss[|ss| - 1].route)
    ensures SpansOk(rs, ss[|ss| - 1 := ss[|ss| - 1].(end := |rs|)])
  {
    var m := |ss| - 1;
    var ss' := ss[m := ss[m].(end := |rs|)];
    forall i | 0 <= i < |ss'|
      ensures MaximalRun(rs, ss'[i])
    {
      assert MaximalRun(rs[..|rs| - 1], ss[i]);
      if i < m {
        assert ss[i].end <= ss[m].start < ss[m].end;
        RunOfPrefix(rs, ss[i]);
      } else {
        RunExtends(rs, ss[m]);
      }
    }
    assert ss'[m].start <= |rs| - 1 < ss'[m].end;
    CoverGrows(rs, ss, ss');
  }

  lemma LastSampleInLastSpan(rs: seq<Option<Route>>, ss: seq<Span>)
    requires rs != [] && SpansOk(rs, ss)
    ensures rs[|rs| - 1].Some? ==> ss != [] && ss[|ss| - 1].end == |rs| && rs[|rs| - 1] == Some(ss[|ss| - 1].route)
  {
    var n := |rs|;
    if rs[n - 1].Some? {
      assert Covers(ss, n - 1);
      var i :| 0 <= i < |ss| && ss[i].start <= n - 1 < ss[i].end;
      RunAtTheEnd(rs, ss, i);
      hide SpansOk, Covers;
    }
  }

  /** A run that reaches the last sample ends there, has its route, and is the last run. */
  lemma RunAtTheEnd(rs: seq<Option<Route>>, ss: seq<Span>, i: nat)
    requires SpansOk(rs, ss) && i < |ss| && |rs| - 1 < ss[i].end && rs != []
    ensures i == |ss| - 1 && ss[i].end == |rs| && rs[|rs| - 1] == Some(ss[i].route)
  {
    assert MaximalRun(rs, ss[i]);
    hide SpansOk;
    if i < |ss| - 1 {
      SpansApart(rs, ss, i, |ss| - 1);
    }
  }

  lemma SpansApart(rs: seq<Option<Route>>, ss: seq<Span>, i: nat, j: nat)
    requires SpansOk(rs, ss) && i < j < |ss|
    ensures ss[i].end <= ss[j].start < ss[j].end <= |rs|
  {
    assert MaximalRun(rs, ss[j]);
  }

  lemma AppendSpan(rs: seq<Option<Route>>, ss: seq<Span>)
    requires rs != [] && SpansOk(rs[..|rs| - 1], ss) && rs[|rs| - 1].Some?
    requires ss != [] && ss[|ss| - 1].end == |rs| - 1 ==> rs[|rs| - 1] != Some(ss[|ss| - 1].route)
    ensures SpansOk(rs, ss + [Span(|rs| - 1, |rs|, rs[|rs| - 1].value)])
  {
    var n := |rs| - 1;
    var ss' := ss + [Span(n, n + 1, rs[n].value)];
    EarlierRunsEnd(rs, ss);
    if n > 0 { LastSampleInLastSpan(rs[..n], ss); }
    assert MaximalRun(rs, ss'[|ss|]);
    assert ss'[|ss|].start <= n < ss'[|ss|].end;
    CoverGrows(rs, ss, ss');
    hide MaximalRun, Covers;
  }

  /** Runs of all but the last sample stay maximal when that sample does not continue them. */
  lemma EarlierRunsEnd(rs: seq<Option<Route>>, ss: seq<Span>)
    requires rs != [] && SpansOk(rs[..|rs| - 1], ss)
    requires ss != [] && ss[|ss| - 1].end == |rs| - 1 ==> rs[|rs| - 1] != Some(ss[|ss| - 1].route)
    ensures forall i :: 0 <= i < |ss| ==> MaximalRun(rs, ss[i]) && ss[i].end <= |rs| - 1
  {
    forall i | 0 <= i < |ss|
      ensures MaximalRun(rs, ss[i]) && ss[i].end <= |rs| - 1
    {
      assert MaximalRun(rs[..|rs| - 1], ss[i]);
      if i < |ss| - 1 { assert ss[i].end <= ss[|ss| - 1].start < ss[|ss| - 1].end; }
      RunOfPrefix(rs, ss[i]);
    }
  }

  lemma SpansStepOk(rs: seq<Option<Route>>, before: seq<Span>)
    requires rs != [] && SpansOk(rs[..|rs| - 1], before)
    ensures SpansOk(rs, SpansStep(before, rs[|rs| - 1], |rs| - 1))
  {
    hide SpansOk;
    var n := |rs| - 1;
    if rs[n].None? {
      SkipSample(rs, before);
    } else if before != [] && before[|before| - 1].end == n && before[|before| - 1].route == rs[n].value {
      ExtendSpan(rs, before);
    } else {
      AppendSpan(rs, before);
    }
  }

  lemma {:induction false} SpansAreMaximalRuns(rs: seq<Option<Route>>)
    ensures SpansOk(rs, Spans(rs))
  {
    if rs != [] {
      SpansAreMaximalRuns(rs[..|rs| - 1]);
      assert Spans(rs) == SpansStep(Spans(rs[..|rs| - 1]), rs[|rs| - 1], |rs| - 1);
      hide *;
      SpansStepOk(rs, Spans(rs[..|rs| - 1]));
    }
  }

  lemma OverlapIsOneSided(rs: seq<Option<Route>>, s: Span, o: Span, k: int)
    requires MaximalRun(rs, s) && MaximalRun(rs, o)
    requires s.start <= k < s.end && o.start <= k < o.end
    ensures o.route == s.route && o.start <= s.start && s.end <= o.end
  {
    assert rs[k] == Some(s.route) && rs[k] == Some(o.route);
    assert o.start > 0 ==> rs[o.start - 1] != Some(s.route);
    assert o.end < |rs| ==> rs[o.end] != Some(s.route);
  }

  lemma MaximalRunIsSpan(rs: seq<Option<Route>>, ss: seq<Span>, s: Span)
    requires SpansOk(rs, ss) && MaximalRun(rs, s)
    ensures s in ss
  {
    assert rs[s.start].Some? && Covers(ss, s.start);
    var i :| 0 <= i < |ss| && ss[i].start <= s.start < ss[i].end;
    assert MaximalRun(rs, ss[i]);
    hide MaximalRun, SpansOk;
    OverlapIsOneSided(rs, s, ss[i], s.start);
    OverlapIsOneSided(rs, ss[i], s, s.start);
    assert ss[i] == s;
  }

  /** The spans are exactly the maximal runs of one route. */
  lemma SpansAreAllMaximalRuns(rs: seq<Option<Route>>, s: Span)
    ensures MaximalRun(rs, s) <==> s in Spans(rs)
  {
    hide MaximalRun, Spans;
    SpansAreMaximalRuns(rs);
    if MaximalRun(rs, s) {
      MaximalRunIsSpan(rs, Spans(rs), s);
    }
  }

  // ----- episodes -----

  function Moment(trs: seq<Transition>, horizon: int64, k: nat): int64 {
    if k < |trs| then trs[k].at else horizon
  }

  function EpisodeOf(trs: seq<Transition>, vs: seq<Option<Verdict>>, horizon: int64, s: Span): Episode
    requires |vs| == |trs| && s.start < |vs| && vs[s.start].Some?
    requires s.end < |vs| ==> vs[s.end].Some?
  {
    Episode(trs[s.start].at, trs[s.start].sequence,
            Moment(trs, horizon, s.end), if s.end < |trs| then trs[s.end].sequence else 0,
            s.end >= |trs|, s.route.buyVenue, s.route.sellVenue, vs[s.start].value.edge,
            if s.end < |trs| then Ended(vs[s.end].value.status) else HorizonCensored)
  }

  /** Both books stay known once they are. */
  lemma {:induction false} KnownStaysKnown(trs: seq<Transition>, venue: string, i: nat, j: nat)
    requires i <= j <= |trs| && Latest(trs[..i], venue).Some?
    ensures Latest(trs[..j], venue).Some?
    decreases j - i
  {
    if i < j {
      KnownStaysKnown(trs, venue, i, j - 1);
      assert trs[..j][..j - 1] == trs[..j - 1];
    }
  }

  ghost predicate Evaluated(vs: seq<Option<Verdict>>) {
    forall i, j :: 0 <= i <= j < |vs| && vs[i].Some? ==> vs[j].Some?
  }

  lemma VerdictStaysKnown(venues: Pair<string>, trs: seq<Transition>, c: Convention, twoSided: bool, i: nat, j: nat)
    requires i <= j <= |trs| && VerdictAfter(venues, trs[..i], c, twoSided).Some?
    ensures VerdictAfter(venues, trs[..j], c, twoSided).Some?
  {
    hide Evaluate, Latest;
    KnownStaysKnown(trs, venues.first, i, j);
    KnownStaysKnown(trs, venues.second, i, j);
  }

  lemma VerdictsStayEvaluated(venues: Pair<string>, trs: seq<Transition>, c: Convention, twoSided: bool)
    ensures Evaluated(Verdicts(venues, trs, c, twoSided))
  {
    hide VerdictAfter;
    var vs := Verdicts(venues, trs, c, twoSided);
    forall i, j | 0 <= i <= j < |vs| && vs[i].Some?
      ensures vs[j].Some?
    {
      VerdictStaysKnown(venues, trs, c, twoSided, i + 1, j + 1);
    }
  }

  /** One episode per maximal run. */
  ghost function Episodes(venues: Pair<string>, trs: seq<Transition>, horizon: int64, c: Convention, twoSided: bool): (es: seq<Episode>)
    ensures |es| == |Spans(Routes(Verdicts(venues, trs, c, twoSided)))|
  {
    var vs := Verdicts(venues, trs, c, twoSided);
    var ss := Spans(Routes(vs));
    VerdictsStayEvaluated(venues, trs, c, twoSided);
    SpansAreMaximalRuns(Routes(vs));
    assert forall i :: 0 <= i < |ss| ==> MaximalRun(Routes(vs), ss[i]);
    assert forall i :: 0 <= i < |ss| ==> Routes(vs)[ss[i].start] == Some(ss[i].route);
    seq(|ss|, i requires 0 <= i < |ss| => EpisodeOf(trs, vs, horizon, ss[i]))
  }

  lemma EpisodeAt(venues: Pair<string>, trs: seq<Transition>, horizon: int64, c: Convention, twoSided: bool, i: nat)
    requires i < |Spans(Routes(Verdicts(venues, trs, c, twoSided)))|
    ensures var vs := Verdicts(venues, trs, c, twoSided);
            var s := Spans(Routes(vs))[i];
            && s.start < s.end <= |trs| && vs[s.start].Some? && (s.end < |vs| ==> vs[s.end].Some?)
            && Episodes(venues, trs, horizon, c, twoSided)[i] == EpisodeOf(trs, vs, horizon, s)
  {
    var vs := Verdicts(venues, trs, c, twoSided);
    VerdictsStayEvaluated(venues, trs, c, twoSided);
    SpansAreMaximalRuns(Routes(vs));
    var s := Spans(Routes(vs))[i];
    assert MaximalRun(Routes(vs), s) && Routes(vs)[s.start] == Some(s.route);
  }

  function Opening(t: Transition, v: Verdict): Episode {
    Episode(t.at, t.sequence, 0, 0, false, v.buyVenue, v.sellVenue, v.edge, Ended(InvalidConvention))
  }

  /** Ends the open episode if the route changed or vanished, then opens one if the edge is positive. */
  method RecordVerdict(t: Transition, v: Verdict, episodes: seq<Episode>, open: Option<Episode>)
    returns (episodes': seq<Episode>, open': Option<Episode>)
    ensures (episodes', open') == Advance(t, Some(v), episodes, open)
  {
    episodes', open' := episodes, open;
    if open.Some? && (v.status != PositiveEdge || v.buyVenue != open.value.buyVenue || v.sellVenue != open.value.sellVenue) {
      episodes' := episodes + [open.value.(endTS := t.at, endSequence := t.sequence, endStatus := Ended(v.status))];
      open' := None;
    }
    if v.status == PositiveEdge && open'.None? {
      open' := Some(Opening(t, v));
    }
  }

  /** What the loop holds for one venue after some transitions. */
  ghost predicate Holds(trs: seq<Transition>, venue: string, known: bool, book: Touch) {
    if known then Latest(trs, venue) == Some(book) else Latest(trs, venue).None?
  }

  ghost predicate HoldsBoth(trs: seq<Transition>, venues: Pair<string>, known: Pair<bool>, books: Pair<Touch>) {
    Holds(trs, venues.first, known.first, books.first) && Holds(trs, venues.second, known.second, books.second)
  }

  lemma HoldsStep(trs: seq<Transition>, venues: Pair<string>, known: Pair<bool>, books: Pair<Touch>, k: nat)
    requires k < |trs| && venues.first != venues.second && HoldsBoth(trs[..k], venues, known, books)
    ensures trs[k].venue == venues.first ==>
              HoldsBoth(trs[..k + 1], venues, known.(first := true), books.(first := trs[k].touch))
    ensures trs[k].venue == venues.second ==>
              HoldsBoth(trs[..k + 1], venues, known.(second := true), books.(second := trs[k].touch))
  {
    LatestStep(trs, venues.first, k);
    LatestStep(trs, venues.second, k);
  }

  lemma HeldVerdict(trs: seq<Transition>, venues: Pair<string>, known: Pair<bool>, books: Pair<Touch>,
                    c: Convention, twoSided: bool)
    requires HoldsBoth(trs, venues, known, books)
    ensures VerdictAfter(venues, trs, c, twoSided)
            == if known.first && known.second then Some(Evaluate(venues, books, c, twoSided).verdict) else None
  {
  }

  /** The loop's state after `index` transitions. */
  ghost predicate Scanned(venues: Pair<string>, trs: seq<Transition>, horizon: int64, c: Convention, twoSided: bool,
                          index: nat, known: Pair<bool>, books: Pair<Touch>,
                          episodes: seq<Episode>, open: Option<Episode>)
    requires index <= |trs|
  {
    var vs := Verdicts(venues, trs, c, twoSided);
    && (forall k :: 0 <= k < index ==> OkAt(venues, trs, horizon, k))
    && HoldsBoth(trs[..index], venues, known, books)
    && Tracked(trs, vs, horizon, Spans(Routes(vs)[..index]), index, episodes, open)
  }

  /** What a touch from one of the two venues does to that venue's side of a pair. */
  function Put<T>(p: Pair<T>, isFirst: bool, x: T): Pair<T> {
    if isFirst then p.(first := x) else p.(second := x)
  }

  lemma ScanStep(venues: Pair<string>, trs: seq<Transition>, horizon: int64, c: Convention, twoSided: bool,
                 index: nat, known: Pair<bool>, books: Pair<Touch>, episodes: seq<Episode>, open: Option<Episode>)
    requires index < |trs| && venues.first != venues.second && OkAt(venues, trs, horizon, index)
    requires Scanned(venues, trs, horizon, c, twoSided, index, known, books, episodes, open)
    ensures var isFirst := trs[index].venue == venues.first;
            var known', books' := Put(known, isFirst, true), Put(books, isFirst, trs[index].touch);
            var v := if known'.first && known'.second then Some(Evaluate(venues, books', c, twoSided).verdict) else None;
            var (episodes', open') := Advance(trs[index], v, episodes, open);
            Scanned(venues, trs, horizon, c, twoSided, index + 1, known', books', episodes', open')
  {
    var isFirst := trs[index].venue == venues.first;
    var known', books' := Put(known, isFirst, true), Put(books, isFirst, trs[index].touch);
    var vs := Verdicts(venues, trs, c, twoSided);
    VerdictsStayEvaluated(venues, trs, c, twoSided);
    HoldsStep(trs, venues, known, books, index);
    HeldVerdict(trs[..index + 1], venues, known', books', c, twoSided);
    hide Tracked, HoldsBoth, Advance, Spans, Evaluate, VerdictAfter, OkAt;
    TrackStep(trs, vs, horizon, index, episodes, open);
  }

  /** One book state: nothing before both books are known, then one verdict.  Under a valid convention no verdict is
      InvalidConvention, so the exit for that case is never taken. */
  method Observe(venues: Pair<string>, books: Pair<Touch>, known: Pair<bool>, c: Convention, twoSided: bool,
                 transition: Transition, episodes: seq<Episode>, open: Option<Episode>)
    returns (episodes': seq<Episode>, open': Option<Episode>)
    requires ValidConvention(venues, c)
    ensures var v := if known.first && known.second then Some(Evaluate(venues, books, c, twoSided).verdict) else None;
            (episodes', open') == Advance(transition, v, episodes, open)
  {
    hide Evaluate, Advance;
    if known.first && known.second {
      var state := EvaluateOneLotEdge(venues, books, c, twoSided);
      ValidConventionYieldsStatus(venues, books, c, twoSided);
      assert state.verdict.status != InvalidConvention;
      episodes', open' := RecordVerdict(transition, state.verdict, episodes, open);
    } else {
      AdvanceNothing(transition, episodes, open);
      episodes', open' := episodes, open;
    }
  }

  /** A transition is out of place exactly when the loop's own comparisons say so. */
  lemma OutOfPlace(venues: Pair<string>, trs: seq<Transition>, horizon: int64, c: Convention, k: nat, sequence: uint64, at: int64)
    requires k < |trs| && (k > 0 ==> sequence == trs[k - 1].sequence && at == trs[k - 1].at)
    ensures OkAt(venues, trs, horizon, k) <==>
            !(trs[k].sequence == 0 || (k > 0 && trs[k].sequence <= sequence) || trs[k].at < 0 || (k > 0 && trs[k].at < at)
              || trs[k].at > horizon || (trs[k].venue != venues.first && trs[k].venue != venues.second))
    ensures !OkAt(venues, trs, horizon, k) ==> !Admissible(venues, trs, horizon, c)
  {
  }

  /** The streaming reconstruction. */
  method Reconstruct(venues: Pair<string>, trs: seq<Transition>, horizon: int64, c: Convention, twoSided: bool)
    returns (r: Option<seq<Episode>>)
    ensures r.Some? <==> Admissible(venues, trs, horizon, c)
    ensures r.Some? ==> r.value == Episodes(venues, trs, horizon, c, twoSided)
  {
    if !ValidConvention(venues, c) || horizon <= 0 {
      return None;
    }
    var books: Pair<Touch> := Pair(Touch(0, 0, 0, 0, false, false), Touch(0, 0, 0, 0, false, false));
    var known := Pair(false, false);
    var episodes: seq<Episode> := [];
    var open: Option<Episode> := None;
    var previousSequence: uint64, previousTS: int64 := 0, 0;
    NothingTracked(venues, trs, horizon, c, twoSided, books);
    assert venues.first != venues.second;
    hide Scanned, Evaluate, Episodes, Advance, OkAt, Admissible;
    var index := 0;
    while index < |trs|
      invariant 0 <= index <= |trs|
      invariant index > 0 ==> previousSequence == trs[index - 1].sequence && previousTS == trs[index - 1].at
      invariant Scanned(venues, trs, horizon, c, twoSided, index, known, books, episodes, open)
    {
      var transition := trs[index];
      var isFirst := transition.venue == venues.first;
      OutOfPlace(venues, trs, horizon, c, index, previousSequence, previousTS);
      if transition.sequence == 0 || (index > 0 && transition.sequence <= previousSequence)
        || transition.at < 0 || (index > 0 && transition.at < previousTS) || transition.at > horizon
        || (!isFirst && transition.venue != venues.second) {
        return None;
      }
      ScanStep(venues, trs, horizon, c, twoSided, index, known, books, episodes, open);
      previousSequence, previousTS := transition.sequence, transition.at;
      books, known := Put(books, isFirst, transition.touch), Put(known, isFirst, true);
      episodes, open := Observe(venues, books, known, c, twoSided, transition, episodes, open);
      index := index + 1;
    }
    ScanEnd(venues, trs, horizon, c, twoSided, known, books, episodes, open);
    if open.Some? {
      episodes := episodes + [open.value.(endTS := horizon, censored := true, endStatus := HorizonCensored)];
    }
    return Some(episodes);
  }

  lemma ScanEnd(venues: Pair<string>, trs: seq<Transition>, horizon: int64, c: Convention, twoSided: bool,
                known: Pair<bool>, books: Pair<Touch>, episodes: seq<Episode>, open: Option<Episode>)
    requires ValidConvention(venues, c) && horizon > 0
    requires Scanned(venues, trs, horizon, c, twoSided, |trs|, known, books, episodes, open)
    ensures Admissible(venues, trs, horizon, c)
    ensures Episodes(venues, trs, horizon, c, twoSided)
            == if open.None? then episodes
               else episodes + [open.value.(endTS := horizon, censored := true, endStatus := HorizonCensored)]
  {
    var vs := Verdicts(venues, trs, c, twoSided);
    assert Routes(vs)[..|trs|] == Routes(vs);
    hide Tracked, HoldsBoth, Spans, Episodes, OkAt;
    TrackEnd(venues, trs, horizon, c, twoSided, episodes, open);
  }

  lemma NothingTracked(venues: Pair<string>, trs: seq<Transition>, horizon: int64, c: Convention, twoSided: bool, books: Pair<Touch>)
    ensures Scanned(venues, trs, horizon, c, twoSided, 0, Pair(false, false), books, [], None)
  {
  }

  lemma AdvanceNothing(t: Transition, episodes: seq<Episode>, open: Option<Episode>)
    ensures Advance(t, None, episodes, open) == (episodes, open)
  {
  }

  lemma TrackEnd(venues: Pair<string>, trs: seq<Transition>, horizon: int64, c: Convention, twoSided: bool,
                 episodes: seq<Episode>, open: Option<Episode>)
    requires var vs := Verdicts(venues, trs, c, twoSided);
             Tracked(trs, vs, horizon, Spans(Routes(vs)), |trs|, episodes, open)
    ensures Episodes(venues, trs, horizon, c, twoSided)
            == if open.None? then episodes
               else episodes + [open.value.(endTS := horizon, censored := true, endStatus := HorizonCensored)]
  {
    var vs := Verdicts(venues, trs, c, twoSided);
    var ss := Spans(Routes(vs));
    var all := Episodes(venues, trs, horizon, c, twoSided);
    hide Spans, Episodes, Verdicts, Routes;
    forall i | 0 <= i < |episodes|
      ensures all[i] == episodes[i]
    {
      EpisodeAt(venues, trs, horizon, c, twoSided, i);
    }
    assert all[..|episodes|] == episodes;
    if open.Some? {
      EpisodeAt(venues, trs, horizon, c, twoSided, |episodes|);
      assert all == all[..|episodes|] + [all[|episodes|]];
    }
  }

  /** The first spans, each already ended, have become these episodes. */
  ghost predicate Recorded(trs: seq<Transition>, vs: seq<Option<Verdict>>, horizon: int64, ss: seq<Span>, index: nat,
                           episodes: seq<Episode>)
    requires |vs| == |trs| && index <= |trs|
  {
    && |episodes| <= |ss|
    && forall i :: 0 <= i < |episodes| ==>
         && ss[i].start < ss[i].end < index && vs[ss[i].start].Some? && vs[ss[i].end].Some?
         && episodes[i] == EpisodeOf(trs, vs, horizon, ss[i])
  }

  /** The open episode is the span still growing at `index`. */
  ghost predicate Growing(trs: seq<Transition>, vs: seq<Option<Verdict>>, s: Span, index: nat, open: Episode)
    requires |vs| == |trs| && index <= |trs|
  {
    && s.end == index && s.start < index && vs[s.start].Some?
    && s.route == Route(open.buyVenue, open.sellVenue)
    && RouteOf(vs[s.start]) == Some(s.route)
    && open == Opening(trs[s.start], vs[s.start].value)
  }

  /** The loop's state: every span but a still-growing last one has become an episode. */
  ghost predicate Tracked(trs: seq<Transition>, vs: seq<Option<Verdict>>, horizon: int64, ss: seq<Span>, index: nat,
                          episodes: seq<Episode>, open: Option<Episode>)
    requires |vs| == |trs| && index <= |trs|
  {
    && Recorded(trs, vs, horizon, ss, index, episodes)
    && if open.Some? then |ss| == |episodes| + 1 && Growing(trs, vs, ss[|episodes|], index, open.value)
       else |ss| == |episodes|
  }

  lemma LatestStep(trs: seq<Transition>, venue: string, k: nat)
    requires k < |trs|
    ensures Latest(trs[..k + 1], venue)
            == if trs[k].venue == venue then Some(trs[k].touch) else Latest(trs[..k], venue)
  {
    assert trs[..k + 1][..k] == trs[..k];
  }

  /** What one verdict does to the closed episodes and the open one. */
  function Advance(t: Transition, v: Option<Verdict>, episodes: seq<Episode>, open: Option<Episode>)
    : (seq<Episode>, Option<Episode>)
  {
    if v.None? then (episodes, open)
    else
      var ends := open.Some? && RouteOf(v) != Some(Route(open.value.buyVenue, open.value.sellVenue));
      (if ends then episodes + [open.value.(endTS := t.at, endSequence := t.sequence, endStatus := Ended(v.value.status))]
       else episodes,
       if v.value.status.PositiveEdge? && (open.None? || ends) then Some(Opening(t, v.value))
       else if ends then None else open)
  }

  lemma RecordedLater(trs: seq<Transition>, vs: seq<Option<Verdict>>, horizon: int64, ss: seq<Span>, ss': seq<Span>,
                      index: nat, episodes: seq<Episode>)
    requires |vs| == |trs| && index < |trs| && Recorded(trs, vs, horizon, ss, index, episodes)
    requires |episodes| <= |ss'| && forall i :: 0 <= i < |episodes| ==> ss'[i] == ss[i]
    ensures Recorded(trs, vs, horizon, ss', index + 1, episodes)
  {
    hide EpisodeOf;
  }

  lemma RecordedCloses(trs: seq<Transition>, vs: seq<Option<Verdict>>, horizon: int64, ss: seq<Span>,
                       index: nat, episodes: seq<Episode>, open: Episode)
    requires |vs| == |trs| && index < |trs| && vs[index].Some?
    requires Recorded(trs, vs, horizon, ss, index, episodes)
    requires |ss| == |episodes| + 1 && Growing(trs, vs, ss[|episodes|], index, open)
    ensures Recorded(trs, vs, horizon, ss, index + 1,
                     episodes + [open.(endTS := trs[index].at, endSequence := trs[index].sequence,
                                       endStatus := Ended(vs[index].value.status))])
  {
    assert open.(endTS := trs[index].at, endSequence := trs[index].sequence, endStatus := Ended(vs[index].value.status))
           == EpisodeOf(trs, vs, horizon, ss[|episodes|]);
    hide EpisodeOf;
  }

  lemma LastSpanEnded(trs: seq<Transition>, vs: seq<Option<Verdict>>, horizon: int64, ss: seq<Span>, index: nat,
                      episodes: seq<Episode>)
    requires |vs| == |trs| && index <= |trs| && Recorded(trs, vs, horizon, ss, index, episodes)
    requires |ss| == |episodes| > 0
    ensures ss[|ss| - 1].end < index
  {
  }

  lemma TrackClosed(trs: seq<Transition>, vs: seq<Option<Verdict>>, horizon: int64, ss: seq<Span>, index: nat,
                    episodes: seq<Episode>)
    requires |vs| == |trs| && index < |trs| && Tracked(trs, vs, horizon, ss, index, episodes, None)
    ensures var (episodes', open') := Advance(trs[index], vs[index], episodes, None);
            Tracked(trs, vs, horizon, SpansStep(ss, RouteOf(vs[index]), index), index + 1, episodes', open')
  {
    if ss != [] { LastSpanEnded(trs, vs, horizon, ss, index, episodes); }
    RecordedLater(trs, vs, horizon, ss, SpansStep(ss, RouteOf(vs[index]), index), index, episodes);
    hide Recorded;
  }

  lemma TrackOpen(trs: seq<Transition>, vs: seq<Option<Verdict>>, horizon: int64, ss: seq<Span>, index: nat,
                  episodes: seq<Episode>, open: Episode)
    requires |vs| == |trs| && index < |trs| && vs[index].Some?
    requires Tracked(trs, vs, horizon, ss, index, episodes, Some(open))
    ensures var (episodes', open') := Advance(trs[index], vs[index], episodes, Some(open));
            Tracked(trs, vs, horizon, SpansStep(ss, RouteOf(vs[index]), index), index + 1, episodes', open')
  {
    hide Recorded;
    var ss' := SpansStep(ss, RouteOf(vs[index]), index);
    if RouteOf(vs[index]) == Some(ss[|ss| - 1].route) {
      RecordedLater(trs, vs, horizon, ss, ss', index, episodes);
    } else {
      RecordedCloses(trs, vs, horizon, ss, index, episodes, open);
      RecordedSame(trs, vs, horizon, ss, ss', index + 1, Advance(trs[index], vs[index], episodes, Some(open)).0);
    }
  }

  lemma TrackStep(trs: seq<Transition>, vs: seq<Option<Verdict>>, horizon: int64, index: nat,
                  episodes: seq<Episode>, open: Option<Episode>)
    requires |vs| == |trs| && index < |trs| && Evaluated(vs)
    requires Tracked(trs, vs, horizon, Spans(Routes(vs)[..index]), index, episodes, open)
    ensures var (episodes', open') := Advance(trs[index], vs[index], episodes, open);
            Tracked(trs, vs, horizon, Spans(Routes(vs)[..index + 1]), index + 1, episodes', open')
  {
    var rs := Routes(vs)[..index + 1];
    assert rs[..index] == Routes(vs)[..index] && rs[index] == RouteOf(vs[index]);
    assert Spans(rs) == SpansStep(Spans(rs[..index]), rs[index], index);
    assert open.Some? ==> vs[index].Some?;
    hide *;
    if open.Some? {
      TrackOpen(trs, vs, horizon, Spans(rs[..index]), index, episodes, open.value);
    } else {
      TrackClosed(trs, vs, horizon, Spans(rs[..index]), index, episodes);
    }
  }

  lemma RecordedSame(trs: seq<Transition>, vs: seq<Option<Verdict>>, horizon: int64, ss: seq<Span>, ss': seq<Span>,
                     index: nat, episodes: seq<Episode>)
    requires |vs| == |trs| && index <= |trs| && Recorded(trs, vs, horizon, ss, index, episodes)
    requires |episodes| <= |ss'| && forall i :: 0 <= i < |episodes| ==> ss'[i] == ss[i]
    ensures Recorded(trs, vs, horizon, ss', index, episodes)
  {
    hide EpisodeOf;
  }

  /** Episodes follow one another: each ends, uncensored, no later than the next begins, in frames and in time.
      Each is one maximal run of transitions with one positive route, and every such run is an episode. */
  lemma EpisodesAreDisjoint(venues: Pair<string>, trs: seq<Transition>, horizon: int64, c: Convention, twoSided: bool,
                            i: nat, j: nat)
    requires Admissible(venues, trs, horizon, c)
    requires i < j < |Episodes(venues, trs, horizon, c, twoSided)|
    ensures var es := Episodes(venues, trs, horizon, c, twoSided);
            && !es[i].censored
            && es[i].startSequence < es[i].endSequence <= es[j].startSequence
            && es[i].startTS <= es[i].endTS <= es[j].startTS
  {
    hide *;
    var vs := Verdicts(venues, trs, c, twoSided);
    var ss := Spans(Routes(vs));
    SpansDisjoint(Routes(vs), i, j);
    EpisodeAt(venues, trs, horizon, c, twoSided, i);
    EpisodeAt(venues, trs, horizon, c, twoSided, j);
    EpisodeOrder(venues, trs, vs, horizon, c, ss[i], ss[j]);
  }

  lemma EpisodeOrder(venues: Pair<string>, trs: seq<Transition>, vs: seq<Option<Verdict>>, horizon: int64, c: Convention,
                     s: Span, s': Span)
    requires Admissible(venues, trs, horizon, c) && |vs| == |trs|
    requires s.start < s.end <= s'.start < s'.end <= |trs|
    requires vs[s.start].Some? && vs[s.end].Some? && vs[s'.start].Some? && (s'.end < |vs| ==> vs[s'.end].Some?)
    ensures var e, e' := EpisodeOf(trs, vs, horizon, s), EpisodeOf(trs, vs, horizon, s');
            && !e.censored
            && e.startSequence < e.endSequence <= e'.startSequence
            && e.startTS <= e.endTS <= e'.startTS
  {
    FramesAscend(venues, trs, horizon, c, s.start, s.end);
    FramesAscend(venues, trs, horizon, c, s.end, s'.start);
  }

  lemma SpansDisjoint(rs: seq<Option<Route>>, i: nat, j: nat)
    requires i < j < |Spans(rs)|
    ensures var ss := Spans(rs); ss[i].start < ss[i].end <= ss[j].start < ss[j].end <= |rs|
  {
    hide Spans;
    SpansAreMaximalRuns(rs);
    assert MaximalRun(rs, Spans(rs)[i]) && MaximalRun(rs, Spans(rs)[j]);
  }

  lemma {:induction false} FramesAscend(venues: Pair<string>, trs: seq<Transition>, horizon: int64, c: Convention, i: nat, j: nat)
    requires Admissible(venues, trs, horizon, c) && i <= j < |trs|
    ensures trs[i].at <= trs[j].at && (i < j ==> trs[i].sequence < trs[j].sequence)
    decreases j - i
  {
    if i < j {
      FramesAscend(venues, trs, horizon, c, i, j - 1);
      assert OkAt(venues, trs, horizon, j);
    }
  }

  /** Listing the venues the other way round changes neither the verdicts nor, therefore, the episodes. */
  lemma EpisodesIgnoreVenueOrder(venues: Pair<string>, trs: seq<Transition>, horizon: int64, c: Convention, twoSided: bool)
    ensures Admissible(venues, trs, horizon, c) <==> Admissible(venues.Swap(), trs, horizon, c)
    ensures Verdicts(venues.Swap(), trs, c, twoSided) == Verdicts(venues, trs, c, twoSided)
    ensures Episodes(venues.Swap(), trs, horizon, c, twoSided) == Episodes(venues, trs, horizon, c, twoSided)
  {
    assert forall k {:trigger OkAt(venues, trs, horizon, k)} {:trigger OkAt(venues.Swap(), trs, horizon, k)} ::
        0 <= k < |trs| ==> OkAt(venues, trs, horizon, k) == OkAt(venues.Swap(), trs, horizon, k);
    var vs, vs' := Verdicts(venues, trs, c, twoSided), Verdicts(venues.Swap(), trs, c, twoSided);
    forall k | 0 <= k < |trs|
      ensures vs'[k] == vs[k]
    {
      var a, b := Latest(trs[..k + 1], venues.first), Latest(trs[..k + 1], venues.second);
      if a.Some? && b.Some? {
        SwapInvariant(venues, Pair(a.value, b.value), c, twoSided);
      }
    }
    assert vs' == vs;
    var es, es' := Episodes(venues, trs, horizon, c, twoSided), Episodes(venues.Swap(), trs, horizon, c, twoSided);
    forall i | 0 <= i < |es|
      ensures es'[i] == es[i]
    {
      EpisodeAt(venues, trs, horizon, c, twoSided, i);
      EpisodeAt(venues.Swap(), trs, horizon, c, twoSided, i);
    }
  }

  // ----- time -----

  function TotalDuration(es: seq<Episode>): int {
    if es == [] then 0
    else TotalDuration(es[..|es| - 1]) + (es[|es| - 1].endTS - es[|es| - 1].startTS)
  }

  ghost function Times(trs: seq<Transition>, horizon: int64): (ts: seq<int>)
    ensures |ts| == |trs| + 1
    ensures forall k :: 0 <= k <= |trs| ==> ts[k] == Moment(trs, horizon, k)
  {
    seq(|trs| + 1, k requires 0 <= k <= |trs| => Moment(trs, horizon, k))
  }

  ghost function Positives(rs: seq<Option<Route>>): (hs: seq<bool>)
    ensures |hs| == |rs|
    ensures forall k :: 0 <= k < |rs| ==> hs[k] == rs[k].Some?
  {
    seq(|rs|, k requires 0 <= k < |rs| => rs[k].Some?)
  }

  /** Samples at which the latest books of both venues give a positive edge. */
  ghost function PositiveSamples(venues: Pair<string>, trs: seq<Transition>, c: Convention, twoSided: bool): (hs: seq<bool>)
    ensures |hs| == |trs|
  {
    Positives(Routes(Verdicts(venues, trs, c, twoSided)))
  }

  lemma TimesAreOrdered(venues: Pair<string>, trs: seq<Transition>, horizon: int64, c: Convention)
    requires Admissible(venues, trs, horizon, c)
    ensures Timeline.Ordered(Times(trs, horizon)) && 0 <= Times(trs, horizon)[0]
  {
    var ts := Times(trs, horizon);
    forall k | 0 <= k < |trs|
      ensures 0 <= ts[k] <= ts[k + 1]
    {
      assert OkAt(venues, trs, horizon, k);
      if k + 1 < |trs| { assert OkAt(venues, trs, horizon, k + 1); }
    }
    Timeline.StepwiseOrdered(ts);
  }

  ghost predicate EndsWithin(ss: seq<Span>, n: int) {
    forall i :: 0 <= i < |ss| ==> ss[i].start < ss[i].end <= n
  }

  ghost function SpanTime(ss: seq<Span>, times: seq<int>): int
    requires EndsWithin(ss, |times| - 1)
  {
    if ss == [] then 0
    else SpanTime(ss[..|ss| - 1], times) + (times[ss[|ss| - 1].end] - times[ss[|ss| - 1].start])
  }

  lemma {:induction false} SpanTimeOfPrefix(ss: seq<Span>, times: seq<int>)
    requires times != [] && EndsWithin(ss, |times| - 2)
    ensures SpanTime(ss, times) == SpanTime(ss, times[..|times| - 1])
  {
    if ss != [] {
      SpanTimeOfPrefix(ss[..|ss| - 1], times);
    }
  }

  lemma SpanTimeExtends(ss: seq<Span>, times: seq<int>)
    requires ss != [] && |times| >= 2 && EndsWithin(ss, |times| - 2) && ss[|ss| - 1].end == |times| - 2
    ensures var ss' := ss[|ss| - 1 := ss[|ss| - 1].(end := |times| - 1)];
            && EndsWithin(ss', |times| - 1)
            && SpanTime(ss', times) == SpanTime(ss, times) + (times[|times| - 1] - times[|times| - 2])
  {
    var ss' := ss[|ss| - 1 := ss[|ss| - 1].(end := |times| - 1)];
    assert ss'[..|ss| - 1] == ss[..|ss| - 1];
  }

  lemma SpanTimeAppends(ss: seq<Span>, route: Route, times: seq<int>)
    requires |times| >= 2 && EndsWithin(ss, |times| - 2)
    ensures var ss' := ss + [Span(|times| - 2, |times| - 1, route)];
            && EndsWithin(ss', |times| - 1)
            && SpanTime(ss', times) == SpanTime(ss, times) + (times[|times| - 1] - times[|times| - 2])
  {
    var ss' := ss + [Span(|times| - 2, |times| - 1, route)];
    assert ss'[..|ss|] == ss;
  }

  /** Adding up the runs is adding up the samples. */
  lemma {:induction false} SpansMeasure(rs: seq<Option<Route>>, times: seq<int>)
    requires |times| == |rs| + 1
    ensures EndsWithin(Spans(rs), |rs|)
    ensures SpanTime(Spans(rs), times) == Timeline.Measure(Positives(rs), times)
  {
    if rs == [] {
      assert Spans(rs) == [];
    } else {
      var n := |rs| - 1;
      SpansMeasure(rs[..n], times[..n + 1]);
      assert times[..n + 1] == times[..|times| - 1];
      SpanTimeOfPrefix(Spans(rs[..n]), times);
      SpansMeasureStep(rs, times);
    }
  }

  lemma SpansMeasureStep(rs: seq<Option<Route>>, times: seq<int>)
    requires rs != [] && |times| == |rs| + 1 && EndsWithin(Spans(rs[..|rs| - 1]), |rs| - 1)
    requires SpanTime(Spans(rs[..|rs| - 1]), times)
             == Timeline.Measure(Positives(rs[..|rs| - 1]), times[..|times| - 1])
    ensures EndsWithin(Spans(rs), |rs|)
    ensures SpanTime(Spans(rs), times) == Timeline.Measure(Positives(rs), times)
  {
    var n := |rs| - 1;
    var before := Spans(rs[..n]);
    PositivesMeasureStep(rs, times);
    var after := SpansStep(before, rs[n], n);
    assert Spans(rs) == after;
    hide *;
    SpansStepTime(before, rs[n], times);
  }

  lemma SpansStepTime(before: seq<Span>, r: Option<Route>, times: seq<int>)
    requires |times| >= 2 && EndsWithin(before, |times| - 2)
    ensures var after := SpansStep(before, r, |times| - 2);
            && EndsWithin(after, |times| - 1)
            && SpanTime(after, times)
               == SpanTime(before, times) + if r.Some? then times[|times| - 1] - times[|times| - 2] else 0
  {
    hide SpanTime, EndsWithin;
    if r.None? {
      SpanTimeUnchanged(before, times);
    } else if before != [] && before[|before| - 1].end == |times| - 2 && before[|before| - 1].route == r.value {
      SpanTimeExtends(before, times);
    } else {
      SpanTimeAppends(before, r.value, times);
    }
  }

  lemma SpanTimeUnchanged(ss: seq<Span>, times: seq<int>)
    requires EndsWithin(ss, |times| - 2)
    ensures EndsWithin(ss, |times| - 1)
  {
  }

  lemma PositivesMeasureStep(rs: seq<Option<Route>>, times: seq<int>)
    requires rs != [] && |times| == |rs| + 1
    ensures var n := |rs| - 1;
            Timeline.Measure(Positives(rs), times)
            == Timeline.Measure(Positives(rs[..n]), times[..|times| - 1])
               + if rs[n].Some? then times[|times| - 1] - times[|times| - 2] else 0
  {
    assert Positives(rs)[..|rs| - 1] == Positives(rs[..|rs| - 1]);
  }

  lemma {:induction false} EpisodesTime(venues: Pair<string>, trs: seq<Transition>, horizon: int64, c: Convention,
                                        twoSided: bool, m: nat)
    requires m <= |Episodes(venues, trs, horizon, c, twoSided)|
    ensures var ss := Spans(Routes(Verdicts(venues, trs, c, twoSided)));
            && EndsWithin(ss, |trs|)
            && TotalDuration(Episodes(venues, trs, horizon, c, twoSided)[..m]) == SpanTime(ss[..m], Times(trs, horizon))
  {
    var ss := Spans(Routes(Verdicts(venues, trs, c, twoSided)));
    var es := Episodes(venues, trs, horizon, c, twoSided);
    SpansMeasure(Routes(Verdicts(venues, trs, c, twoSided)), Times(trs, horizon));
    if m == 0 {
      assert es[..0] == [] && ss[..0] == [];
      hide Episodes, Verdicts, Routes, Spans, Times;
    } else {
      EpisodeTimes(venues, trs, horizon, c, twoSided, m - 1);
      hide *;
      EpisodesTime(venues, trs, horizon, c, twoSided, m - 1);
      PrefixTimes(es, ss, Times(trs, horizon), m);
    }
  }

  lemma EpisodeTimes(venues: Pair<string>, trs: seq<Transition>, horizon: int64, c: Convention, twoSided: bool, i: nat)
    requires i < |Episodes(venues, trs, horizon, c, twoSided)|
    ensures var e, ss := Episodes(venues, trs, horizon, c, twoSided)[i], Spans(Routes(Verdicts(venues, trs, c, twoSided)));
            && |ss| == |Episodes(venues, trs, horizon, c, twoSided)| && ss[i].start < ss[i].end < |Times(trs, horizon)|
            && Times(trs, horizon)[ss[i].start] == e.startTS && Times(trs, horizon)[ss[i].end] == e.endTS
  {
    EpisodeAt(venues, trs, horizon, c, twoSided, i);
    hide Episodes, Verdicts, Routes, Spans;
  }

  lemma PrefixTimes(es: seq<Episode>, ss: seq<Span>, times: seq<int>, m: nat)
    requires 0 < m <= |es| == |ss| && EndsWithin(ss, |times| - 1)
    requires TotalDuration(es[..m - 1]) == SpanTime(ss[..m - 1], times)
    requires times[ss[m - 1].start] == es[m - 1].startTS && times[ss[m - 1].end] == es[m - 1].endTS
    ensures TotalDuration(es[..m]) == SpanTime(ss[..m], times)
  {
    assert es[..m][..m - 1] == es[..m - 1] && ss[..m][..m - 1] == ss[..m - 1];
  }

  /** The episodes last exactly as long as the sampled edge was positive. */
  lemma DurationIsMeasure(venues: Pair<string>, trs: seq<Transition>, horizon: int64, c: Convention, twoSided: bool)
    ensures TotalDuration(Episodes(venues, trs, horizon, c, twoSided))
            == Timeline.Measure(PositiveSamples(venues, trs, c, twoSided), Times(trs, horizon))
  {
    var ss := Spans(Routes(Verdicts(venues, trs, c, twoSided)));
    var es := Episodes(venues, trs, horizon, c, twoSided);
    EpisodesTime(venues, trs, horizon, c, twoSided, |es|);
    SpansMeasure(Routes(Verdicts(venues, trs, c, twoSided)), Times(trs, horizon));
    assert es[..|es|] == es && ss[..|ss|] == ss;
  }

  /** Everything published at or before `t`. */
  ghost function Visible(trs: seq<Transition>, t: int): seq<Transition> {
    if trs == [] then []
    else Visible(trs[..|trs| - 1], t) + if trs[|trs| - 1].at <= t then [trs[|trs| - 1]] else []
  }

  ghost predicate PositiveAt(venues: Pair<string>, trs: seq<Transition>, c: Convention, twoSided: bool, t: int) {
    RouteOf(VerdictAfter(venues, Visible(trs, t), c, twoSided)).Some?
  }

  /** Nanoseconds of `[0, until)` at which the latest published books of both venues give a positive edge. */
  ghost function PositiveTime(venues: Pair<string>, trs: seq<Transition>, c: Convention, twoSided: bool, until: nat): nat {
    if until == 0 then 0
    else PositiveTime(venues, trs, c, twoSided, until - 1)
         + if PositiveAt(venues, trs, c, twoSided, until - 1) then 1 else 0
  }

  ghost predicate TimeOrdered(trs: seq<Transition>) {
    forall i, j :: 0 <= i <= j < |trs| ==> trs[i].at <= trs[j].at
  }

  lemma {:induction false} AllVisible(trs: seq<Transition>, t: int)
    requires forall k :: 0 <= k < |trs| ==> trs[k].at <= t
    ensures Visible(trs, t) == trs
  {
    hide *;
    if trs == [] {
      NoneVisible(t);
    } else {
      var n := |trs| - 1;
      VisibleStep(trs, t, n);
      AllVisible(trs[..n], t);
      assert trs == trs[..n] + [trs[n]];
    }
  }

  lemma NoneVisible(t: int)
    ensures Visible([], t) == []
  {
  }

  lemma VisibleStep(trs: seq<Transition>, t: int, n: nat)
    requires |trs| == n + 1
    ensures Visible(trs, t) == Visible(trs[..n], t) + if trs[n].at <= t then [trs[n]] else []
  {
  }

  lemma {:induction false} LaterIsInvisible(trs: seq<Transition>, t: int, k: nat)
    requires k <= |trs| && forall i :: k <= i < |trs| ==> t < trs[i].at
    ensures Visible(trs, t) == Visible(trs[..k], t)
    decreases |trs| - k
  {
    hide *;
    if k < |trs| {
      LaterIsInvisible(trs, t, k + 1);
      VisibleStep(trs[..k + 1], t, k);
      assert trs[..k + 1][..k] == trs[..k] && Visible(trs[..k], t) + [] == Visible(trs[..k], t);
    } else {
      assert trs[..k] == trs;
    }
  }

  lemma {:induction false} AtIsVisible(venues: Pair<string>, trs: seq<Transition>, horizon: int64, c: Convention,
                                       twoSided: bool, t: int, k: nat)
    requires k <= |trs| && TimeOrdered(trs) && t < horizon
    requires forall i :: k <= i < |trs| ==> t < trs[i].at
    ensures Timeline.At(PositiveSamples(venues, trs, c, twoSided)[..k], Times(trs, horizon)[..k + 1], t)
            == PositiveAt(venues, trs, c, twoSided, t)
    decreases k
  {
    LaterIsInvisible(trs, t, k);
    var hs, ts := PositiveSamples(venues, trs, c, twoSided), Times(trs, horizon);
    if k == 0 {
      assert trs[..0] == [] && hs[..0] == [];
      hide PositiveSamples;
    } else if trs[k - 1].at <= t {
      assert ts[k - 1] == trs[k - 1].at;
      VisibleSample(venues, trs, c, twoSided, t, k);
      hide *;
      Timeline.AtStep(hs, ts, t, k);
    } else {
      assert ts[k - 1] == trs[k - 1].at;
      hide *;
      Timeline.AtStep(hs, ts, t, k);
      AtIsVisible(venues, trs, horizon, c, twoSided, t, k - 1);
    }
  }

  /** When the last of `k` transitions is visible, so are all before it: their sample is the one in force. */
  lemma VisibleSample(venues: Pair<string>, trs: seq<Transition>, c: Convention, twoSided: bool, t: int, k: nat)
    requires 0 < k <= |trs| && TimeOrdered(trs) && trs[k - 1].at <= t && Visible(trs, t) == Visible(trs[..k], t)
    ensures PositiveSamples(venues, trs, c, twoSided)[k - 1] == PositiveAt(venues, trs, c, twoSided, t)
  {
    assert forall i :: 0 <= i < k ==> trs[i].at <= t;
    hide Visible, PositiveSamples, VerdictAfter;
    AllVisible(trs[..k], t);
    SampleIs(venues, trs, c, twoSided, k);
  }

  lemma SampleIs(venues: Pair<string>, trs: seq<Transition>, c: Convention, twoSided: bool, k: nat)
    requires 0 < k <= |trs|
    ensures PositiveSamples(venues, trs, c, twoSided)[k - 1]
            == RouteOf(VerdictAfter(venues, trs[..k], c, twoSided)).Some?
  {
  }

  lemma AtIsPositiveAt(venues: Pair<string>, trs: seq<Transition>, horizon: int64, c: Convention, twoSided: bool, t: int)
    requires TimeOrdered(trs) && t < horizon
    ensures Timeline.At(PositiveSamples(venues, trs, c, twoSided), Times(trs, horizon), t) == PositiveAt(venues, trs, c, twoSided, t)
  {
    var hs, ts := PositiveSamples(venues, trs, c, twoSided), Times(trs, horizon);
    hide PositiveSamples, Times, PositiveAt;
    AtIsVisible(venues, trs, horizon, c, twoSided, t, |trs|);
    assert hs[..|trs|] == hs && ts[..|trs| + 1] == ts;
  }

  lemma {:induction false} NanosArePositiveTime(venues: Pair<string>, trs: seq<Transition>, horizon: int64, c: Convention,
                                                twoSided: bool, until: nat)
    requires TimeOrdered(trs) && until <= horizon
    ensures Timeline.Nanos(PositiveSamples(venues, trs, c, twoSided), Times(trs, horizon), 0, until)
            == PositiveTime(venues, trs, c, twoSided, until)
  {
    hide PositiveSamples, Times, PositiveAt, Timeline.At;
    if until > 0 {
      NanosArePositiveTime(venues, trs, horizon, c, twoSided, until - 1);
      AtIsPositiveAt(venues, trs, horizon, c, twoSided, until - 1);
    }
  }

  /** The streaming machine measures time: its episodes last, in all, exactly the nanoseconds of `[0, horizon)`
      at which the latest books of both venues give a positive edge. */
  lemma EpisodesMeasurePositiveTime(venues: Pair<string>, trs: seq<Transition>, horizon: int64, c: Convention, twoSided: bool)
    requires Admissible(venues, trs, horizon, c)
    ensures TotalDuration(Episodes(venues, trs, horizon, c, twoSided))
            == PositiveTime(venues, trs, c, twoSided, horizon)
  {
    var hs, ts := PositiveSamples(venues, trs, c, twoSided), Times(trs, horizon);
    DurationIsMeasure(venues, trs, horizon, c, twoSided);
    TimesAreOrdered(venues, trs, horizon, c);
    assert forall i, j :: 0 <= i <= j < |trs| ==> trs[i].at == ts[i] <= ts[j] == trs[j].at;
    Timeline.MeasureCountsNanos(hs, ts, 0);
    NanosArePositiveTime(venues, trs, horizon, c, twoSided, horizon);
  }
}
