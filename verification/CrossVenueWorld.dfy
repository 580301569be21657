/** Summaries of one world's edge episodes, and paired OFF/ON contrasts
(analysis/crossvenue_paired_world.go). */
module CrossVenueWorld {
  import opened Int64
  import opened CrossVenueEdge
  import opened CrossVenueEpisodes
  import Timeline

  datatype World = World(seed: int64, arm: string, background: string, venues: Pair<string>,
                         transitions: seq<Transition>, horizon: int64, convention: Convention)

  datatype Summary = Summary(seed: int64, arm: string, background: string, venues: Pair<string>, horizon: int64,
                             convention: Convention,
                             episodes: int, censored: int, positiveNanos: int64, noOpportunity: bool,
                             broaderEpisodes: int, broaderCensored: int, broaderNanos: int64)

  function CensoredCount(es: seq<Episode>): nat {
    if es == [] then 0
    else CensoredCount(es[..|es| - 1]) + if es[|es| - 1].censored then 1 else 0
  }

  lemma {:induction false} CensoredAtMostAll(es: seq<Episode>)
    ensures CensoredCount(es) <= |es|
  {
    if es != [] {
      CensoredAtMostAll(es[..|es| - 1]);
    }
  }

  ghost predicate InsideHorizon(es: seq<Episode>, horizon: int64) {
    forall i :: 0 <= i < |es| ==> 0 <= es[i].startTS <= es[i].endTS <= horizon
  }

  /** Episodes that fit the horizon, one by one and all together. */
  ghost predicate FitHorizon(es: seq<Episode>, horizon: int64) {
    && (forall i :: 0 <= i < |es| ==> es[i].startTS <= es[i].endTS <= horizon)
    && (es != [] ==> TotalDuration(es) <= horizon)
  }

  /** Durations too long for 64 bits: only an episode that starts before time zero can have one. */
  function Overlong(es: seq<Episode>): nat {
    if es == [] then 0
    else Overlong(es[..|es| - 1]) + if es[|es| - 1].endTS - es[|es| - 1].startTS > MAX then 1 else 0
  }

  /** A running total and one more episode: the subtraction wraps, the addition is checked. */
  function Added(total: int64, e: Episode, horizon: int64): Option<int64> {
    if e.endTS < e.startTS || e.endTS > horizon then None
    else
      match TryAdd(total, Wrap(e.endTS - e.startTS))
      case None => None
      case Some(next) => if next > horizon then None else Some(next)
  }

  function Accumulated(es: seq<Episode>, horizon: int64): Option<int64> {
    if es == [] then Some(0)
    else
      match Accumulated(es[..|es| - 1], horizon)
      case None => None
      case Some(total) => Added(total, es[|es| - 1], horizon)
  }

  lemma AddedIsExact(total: int64, e: Episode, horizon: int64)
    requires Added(total, e, horizon).Some?
    ensures var duration := e.endTS - e.startTS;
            && 0 <= duration && e.endTS <= horizon
            && Added(total, e, horizon).value == total + duration - (if duration > MAX then WORD else 0)
            && Added(total, e, horizon).value <= horizon
  {
  }

  /** Every accepted total is the true total less one full turn of the counter for each overlong duration. */
  lemma {:induction false} AccumulatedIsExact(es: seq<Episode>, horizon: int64)
    requires Accumulated(es, horizon).Some?
    ensures Accumulated(es, horizon).value == TotalDuration(es) - WORD * Overlong(es)
  {
    if es != [] {
      AccumulatedIsExact(es[..|es| - 1], horizon);
      AddedIsExact(Accumulated(es[..|es| - 1], horizon).value, es[|es| - 1], horizon);
      hide Added;
    }
  }

  lemma {:induction false} AccumulatedFits(es: seq<Episode>, horizon: int64)
    requires Overlong(es) == 0
    ensures Accumulated(es, horizon).Some? <==> FitHorizon(es, horizon)
  {
    if es != [] {
      var before, e := es[..|es| - 1], es[|es| - 1];
      AccumulatedFits(before, horizon);
      FitGrows(es, horizon);
      if Accumulated(before, horizon).Some? {
        NonNegative(before, horizon);
        AccumulatedIsExact(before, horizon);
        AddedFits(Accumulated(before, horizon).value, e, horizon);
      }
      hide FitHorizon, Added, TotalDuration;
    }
  }

  lemma AddedFits(total: int64, e: Episode, horizon: int64)
    requires 0 <= total && e.endTS - e.startTS <= MAX
    ensures Added(total, e, horizon).Some?
            <==> e.startTS <= e.endTS <= horizon && total + (e.endTS - e.startTS) <= horizon
  {
  }

  lemma {:induction false} NonNegative(es: seq<Episode>, horizon: int64)
    requires FitHorizon(es, horizon)
    ensures 0 <= TotalDuration(es)
  {
    if es != [] {
      FitGrows(es, horizon);
      NonNegative(es[..|es| - 1], horizon);
    }
  }

  /** Fitting the horizon, one episode at a time; what comes before a fitting episode fits too. */
  lemma FitGrows(es: seq<Episode>, horizon: int64)
    requires es != []
    ensures var before, e := es[..|es| - 1], es[|es| - 1];
            FitHorizon(es, horizon)
            <==> FitHorizon(before, horizon) && e.startTS <= e.endTS <= horizon && TotalDuration(before) + (e.endTS - e.startTS) <= horizon
  {
    var before := es[..|es| - 1];
    assert forall i :: 0 <= i < |before| ==> before[i] == es[i];
  }

  lemma {:induction false} NoneOverlong(es: seq<Episode>)
    requires forall i :: 0 <= i < |es| ==> es[i].startTS >= 0
    ensures Overlong(es) == 0
  {
    if es != [] {
      NoneOverlong(es[..|es| - 1]);
    }
  }

  /** Adds up durations, refusing an episode outside the horizon or a total beyond it. */
  method SummarizeDurations(es: seq<Episode>, horizon: int64) returns (r: Option<(int64, nat)>)
    ensures r.Some? <==> Accumulated(es, horizon).Some?
    ensures r.Some? ==> r.value == (TotalDuration(es) - WORD * Overlong(es), CensoredCount(es))
    ensures Overlong(es) == 0 ==> (r.Some? <==> FitHorizon(es, horizon))
  {
    var positive: int64, censored := 0, 0;
    hide TotalDuration, Overlong, Added, FitHorizon;
    if Overlong(es) == 0 {
      AccumulatedFits(es, horizon);
    }
    for i := 0 to |es|
      invariant Accumulated(es[..i], horizon) == Some(positive) && censored == CensoredCount(es[..i])
    {
      assert es[..i + 1][..i] == es[..i];
      var next := Add(positive, es[i], horizon);
      if next.None? {
        RefusalIsFinal(es, horizon, i + 1);
        return None;
      }
      positive := next.value;
      if es[i].censored {
        censored := censored + 1;
      }
    }
    assert es[..|es|] == es;
    AccumulatedIsExact(es, horizon);
    return Some((positive, censored));
  }

  method Add(total: int64, e: Episode, horizon: int64) returns (r: Option<int64>)
    ensures r == Added(total, e, horizon)
  {
    if e.endTS < e.startTS || e.endTS > horizon {
      return None;
    }
    var duration := Wrap(e.endTS - e.startTS);
    var next := TryAdd(total, duration);
    if next.None? || next.value > horizon {
      return None;
    }
    return next;
  }

  lemma {:induction false} RefusalIsFinal(es: seq<Episode>, horizon: int64, k: nat)
    requires k <= |es| && Accumulated(es[..k], horizon).None?
    ensures Accumulated(es, horizon).None?
    decreases |es| - k
  {
    if k == |es| {
      assert es[..k] == es;
    } else {
      assert es[..k + 1][..k] == es[..k];
      RefusalIsFinal(es, horizon, k + 1);
    }
  }

  lemma EpisodesInsideHorizon(venues: Pair<string>, trs: seq<Transition>, horizon: int64, c: Convention, twoSided: bool)
    requires Admissible(venues, trs, horizon, c)
    ensures InsideHorizon(Episodes(venues, trs, horizon, c, twoSided), horizon)
  {
    var es := Episodes(venues, trs, horizon, c, twoSided);
    forall i | 0 <= i < |es|
      ensures 0 <= es[i].startTS <= es[i].endTS <= horizon
    {
      hide Episodes, Spans, Verdicts, Routes;
      EpisodeAt(venues, trs, horizon, c, twoSided, i);
      var s := Spans(Routes(Verdicts(venues, trs, c, twoSided)))[i];
      assert OkAt(venues, trs, horizon, s.start);
      if s.end < |trs| {
        FramesAscend(venues, trs, horizon, c, s.start, s.end);
        assert OkAt(venues, trs, horizon, s.end);
      }
    }
  }

  lemma StrictSamplesAreLegSideSamples(venues: Pair<string>, trs: seq<Transition>, c: Convention)
    ensures Timeline.Implies(PositiveSamples(venues, trs, c, true), PositiveSamples(venues, trs, c, false))
  {
    forall k | 0 <= k < |trs| && PositiveSamples(venues, trs, c, true)[k]
      ensures PositiveSamples(venues, trs, c, false)[k]
    {
      SampleIs(venues, trs, c, true, k + 1);
      SampleIs(venues, trs, c, false, k + 1);
      var a, b := Latest(trs[..k + 1], venues.first), Latest(trs[..k + 1], venues.second);
      StrictImpliesLegSide(venues, Pair(a.value, b.value), c);
    }
  }

  /** Two-sided opportunity time never exceeds leg-side opportunity time, and neither exceeds the horizon; a world
      with no leg-side episode has no two-sided one either. */
  lemma StrictWithinLegSide(venues: Pair<string>, trs: seq<Transition>, horizon: int64, c: Convention)
    requires Admissible(venues, trs, horizon, c)
    ensures var strict, broad := Episodes(venues, trs, horizon, c, true), Episodes(venues, trs, horizon, c, false);
            && 0 <= TotalDuration(strict) <= TotalDuration(broad) <= horizon
            && (broad == [] ==> strict == [] && TotalDuration(broad) == 0)
  {
    var p, q, ts := PositiveSamples(venues, trs, c, true), PositiveSamples(venues, trs, c, false), Times(trs, horizon);
    StrictSamplesAreLegSideSamples(venues, trs, c);
    TimesAreOrdered(venues, trs, horizon, c);
    Timeline.MeasureMonotone(p, q, ts);
    DurationIsMeasure(venues, trs, horizon, c, true);
    DurationIsMeasure(venues, trs, horizon, c, false);
    NoEpisodeNoSample(venues, trs, horizon, c, true);
    NoEpisodeNoSample(venues, trs, horizon, c, false);
  }

  lemma NoEpisodeNoSample(venues: Pair<string>, trs: seq<Transition>, horizon: int64, c: Convention, twoSided: bool)
    ensures Episodes(venues, trs, horizon, c, twoSided) == []
            <==> forall k :: 0 <= k < |trs| ==> !PositiveSamples(venues, trs, c, twoSided)[k]
  {
    var rs := Routes(Verdicts(venues, trs, c, twoSided));
    hide Spans;
    SpansAreMaximalRuns(rs);
    var ss := Spans(rs);
    if ss == [] {
      assert forall k :: 0 <= k < |rs| && rs[k].Some? ==> Covers(ss, k);
    } else {
      assert MaximalRun(rs, ss[0]) && rs[ss[0].start] == Some(ss[0].route);
      assert PositiveSamples(venues, trs, c, twoSided)[ss[0].start];
    }
  }

  ghost function SummaryOf(w: World): Summary
    requires Admissible(w.venues, w.transitions, w.horizon, w.convention)
  {
    var strict := Episodes(w.venues, w.transitions, w.horizon, w.convention, true);
    var broad := Episodes(w.venues, w.transitions, w.horizon, w.convention, false);
    StrictWithinLegSide(w.venues, w.transitions, w.horizon, w.convention);
    Summary(w.seed, w.arm, w.background, w.venues, w.horizon, w.convention,
            |strict|, CensoredCount(strict), TotalDuration(strict), strict == [],
            |broad|, CensoredCount(broad), TotalDuration(broad))
  }

  /** What the paired comparison demands of each summary. */
  predicate ValidSummary(s: Summary) {
    && (s.arm == "OFF" || s.arm == "ON") && s.background != "" && s.horizon > 0
    && ValidConvention(s.venues, s.convention)
    && 0 <= s.positiveNanos <= s.horizon && s.episodes >= 0
    && 0 <= s.censored <= s.episodes && s.noOpportunity == (s.episodes == 0)
    && s.broaderEpisodes >= 0 && 0 <= s.broaderCensored <= s.broaderEpisodes
    && s.positiveNanos <= s.broaderNanos <= s.horizon
    && (s.broaderEpisodes == 0 ==> s.episodes == 0 && s.broaderNanos == 0)
  }

  predicate Declared(w: World) {
    (w.arm == "OFF" || w.arm == "ON") && w.background != ""
  }

  /** A summary fails only for an undeclared arm or inadmissible evidence: the horizon and containment errors
      cannot occur, and what is returned always passes the comparison's own validation. */
  method Summarize(w: World) returns (r: Option<Summary>)
    ensures r.Some? <==> Declared(w) && Admissible(w.venues, w.transitions, w.horizon, w.convention)
    ensures r.Some? ==> r.value == SummaryOf(w) && ValidSummary(r.value)
  {
    if !Declared(w) {
      return None;
    }
    var strict := Reconstruct(w.venues, w.transitions, w.horizon, w.convention, true);
    if strict.None? {
      return None;
    }
    var broad := Reconstruct(w.venues, w.transitions, w.horizon, w.convention, false);
    if broad.None? {
      return None;
    }
    hide Episodes;
    EpisodesInsideHorizon(w.venues, w.transitions, w.horizon, w.convention, true);
    EpisodesInsideHorizon(w.venues, w.transitions, w.horizon, w.convention, false);
    NoneOverlong(strict.value);
    NoneOverlong(broad.value);
    StrictWithinLegSide(w.venues, w.transitions, w.horizon, w.convention);
    var narrow := SummarizeDurations(strict.value, w.horizon);
    if narrow.None? {
      return None;
    }
    var wide := SummarizeDurations(broad.value, w.horizon);
    if wide.None? {
      return None;
    }
    if wide.value.0 < narrow.value.0 {
      return None;
    }
    CensoredAtMostAll(strict.value);
    CensoredAtMostAll(broad.value);
    return Some(Summary(w.seed, w.arm, w.background, w.venues, w.horizon, w.convention,
                        |strict.value|, narrow.value.1, narrow.value.0, |strict.value| == 0,
                        |broad.value|, wide.value.1, wide.value.0));
  }

  /** Why a pair listed in the other order may be compared: only the venue list of the summary changes. */
  lemma SummaryIgnoresVenueOrder(w: World)
    requires Admissible(w.venues, w.transitions, w.horizon, w.convention)
    ensures var w' := w.(venues := w.venues.Swap());
            && Admissible(w'.venues, w'.transitions, w'.horizon, w'.convention)
            && SummaryOf(w') == SummaryOf(w).(venues := w.venues.Swap())
  {
    EpisodesIgnoreVenueOrder(w.venues, w.transitions, w.horizon, w.convention, true);
    EpisodesIgnoreVenueOrder(w.venues, w.transitions, w.horizon, w.convention, false);
  }

  // ----- paired comparison -----

  datatype Contrast = Contrast(seed: int64, off: Summary, on: Summary, nanos: int64, episodes: int)

  predicate SamePair(left: Pair<string>, right: Pair<string>) {
    left == right || left == right.Swap()
  }

  predicate Compatible(off: Summary, on: Summary) {
    && off.background == on.background && off.horizon == on.horizon && off.convention == on.convention
    && SamePair(off.venues, on.venues)
  }

  ghost predicate Unique(ws: seq<Summary>) {
    forall i, j :: 0 <= i < j < |ws| ==> ws[i].seed != ws[j].seed || ws[i].arm != ws[j].arm
  }

  ghost predicate Paired(ws: seq<Summary>, w: Summary) {
    exists o :: o in ws && o.seed == w.seed && o.arm == (if w.arm == "OFF" then "ON" else "OFF")
      && if w.arm == "OFF" then Compatible(w, o) else Compatible(o, w)
  }

  /** Exactly one OFF and one ON world per seed, each valid and compatible with the other. */
  ghost predicate Comparable(ws: seq<Summary>) {
    && ws != [] && |ws| % 2 == 0 && Unique(ws)
    && (forall w :: w in ws ==> ValidSummary(w))
    && (forall w :: w in ws ==> Paired(ws, w))
  }

  ghost predicate Ascending(cs: seq<Contrast>) {
    forall i, j :: 0 <= i < j < |cs| ==> cs[i].seed < cs[j].seed
  }

  ghost predicate IsContrast(ws: seq<Summary>, c: Contrast) {
    && c.off in ws && c.on in ws
    && c.off.seed == c.on.seed == c.seed && c.off.arm == "OFF" && c.on.arm == "ON"
    && c.nanos == c.on.positiveNanos - c.off.positiveNanos
    && c.episodes == c.on.episodes - c.off.episodes
  }

  ghost predicate HasSeed(cs: seq<Contrast>, seed: int64) {
    exists i :: 0 <= i < |cs| && cs[i].seed == seed
  }

  /** One contrast per seed, in seed order, each taken from the worlds of that seed. */
  ghost predicate AreContrasts(ws: seq<Summary>, cs: seq<Contrast>) {
    && Ascending(cs)
    && (forall i :: 0 <= i < |cs| ==> IsContrast(ws, cs[i]))
    && (forall w :: w in ws ==> HasSeed(cs, w.seed))
  }

  method SmallestSeed(seeds: set<int64>) returns (m: int64)
    requires seeds != {}
    ensures m in seeds && forall s :: s in seeds ==> m <= s
  {
    m :| m in seeds;
    var rest := seeds - {m};
    while rest != {}
      invariant rest <= seeds && m in seeds
      invariant forall s :: s in seeds && s !in rest ==> m <= s
      decreases rest
    {
      var s :| s in rest;
      if s < m {
        m := s;
      }
      rest := rest - {s};
    }
  }

  /** The two cells of one seed, filled by arm. */
  datatype Cells = Cells(off: Option<Summary>, on: Option<Summary>)

  function CellsOf(cells: map<int64, Cells>, seed: int64): Cells {
    if seed in cells then cells[seed] else Cells(None, None)
  }

  function Cell(c: Cells, arm: string): Option<Summary> {
    if arm == "OFF" then c.off else c.on
  }

  /** A filled cell holds one of the first `n` worlds, under its own seed and arm. */
  ghost predicate CellOk(ws: seq<Summary>, n: nat, cell: Option<Summary>, seed: int64, arm: string)
    requires n <= |ws|
  {
    cell.Some? ==> cell.value in ws[..n] && cell.value.seed == seed && cell.value.arm == arm
  }

  ghost predicate CellsOk(ws: seq<Summary>, n: nat, cells: map<int64, Cells>, seed: int64)
    requires n <= |ws| && seed in cells
  {
    && CellOk(ws, n, cells[seed].off, seed, "OFF")
    && CellOk(ws, n, cells[seed].on, seed, "ON")
    && (cells[seed].off.Some? || cells[seed].on.Some?)
  }

  /** The cells hold exactly the first `n` worlds. */
  ghost predicate Filed(ws: seq<Summary>, n: nat, cells: map<int64, Cells>)
    requires n <= |ws|
  {
    && (forall i :: 0 <= i < n ==> ValidSummary(ws[i]))
    && Unique(ws[..n])
    && (forall i :: 0 <= i < n ==> ws[i].seed in cells && Cell(cells[ws[i].seed], ws[i].arm) == Some(ws[i]))
    && (forall s :: s in cells ==> CellsOk(ws, n, cells, s))
  }

  function File(cells: map<int64, Cells>, w: Summary): map<int64, Cells> {
    var held := CellsOf(cells, w.seed);
    cells[w.seed := if w.arm == "OFF" then held.(off := Some(w)) else held.(on := Some(w))]
  }

  lemma FileStep(ws: seq<Summary>, n: nat, cells: map<int64, Cells>)
    requires n < |ws| && Filed(ws, n, cells) && ValidSummary(ws[n])
    requires Cell(CellsOf(cells, ws[n].seed), ws[n].arm).None?
    ensures Filed(ws, n + 1, File(cells, ws[n]))
  {
    hide ValidSummary;
    var w, cells' := ws[n], File(cells, ws[n]);
    FiledStays(ws, n, cells);
    forall s | s in cells'
      ensures CellsOk(ws, n + 1, cells', s)
    {
      CellsStep(ws, n, cells, s);
    }
    hide CellsOk, Cell, File;
    UniqueStep(ws, n);
  }

  /** An earlier world keeps its cell, and differs from the new one. */
  lemma FiledStays(ws: seq<Summary>, n: nat, cells: map<int64, Cells>)
    requires n < |ws| && Filed(ws, n, cells) && ValidSummary(ws[n])
    requires Cell(CellsOf(cells, ws[n].seed), ws[n].arm).None?
    ensures forall i :: 0 <= i < n ==> ws[i].seed != ws[n].seed || ws[i].arm != ws[n].arm
    ensures var cells' := File(cells, ws[n]);
            forall i :: 0 <= i <= n ==> ws[i].seed in cells' && Cell(cells'[ws[i].seed], ws[i].arm) == Some(ws[i])
  {
    hide Unique, CellsOk;
    forall i | 0 <= i < n
      ensures (ws[i].seed != ws[n].seed || ws[i].arm != ws[n].arm)
              && ws[i].seed in File(cells, ws[n]) && Cell(File(cells, ws[n])[ws[i].seed], ws[i].arm) == Some(ws[i])
    {
      assert ValidSummary(ws[i]) && Cell(cells[ws[i].seed], ws[i].arm) == Some(ws[i]);
    }
  }

  lemma UniqueStep(ws: seq<Summary>, n: nat)
    requires n < |ws| && Unique(ws[..n])
    requires forall i :: 0 <= i < n ==> ws[i].seed != ws[n].seed || ws[i].arm != ws[n].arm
    ensures Unique(ws[..n + 1])
  {
    assert forall i :: 0 <= i < n ==> ws[..n][i] == ws[i];
  }

  lemma CellsStep(ws: seq<Summary>, n: nat, cells: map<int64, Cells>, s: int64)
    requires n < |ws| && ValidSummary(ws[n]) && s in File(cells, ws[n]) && (s in cells ==> CellsOk(ws, n, cells, s))
    ensures CellsOk(ws, n + 1, File(cells, ws[n]), s)
  {
    assert ws[..n + 1] == ws[..n] + [ws[n]];
  }

  /** Sorts the worlds into cells, refusing an invalid or duplicate one. */
  method FileWorlds(ws: seq<Summary>) returns (r: Option<map<int64, Cells>>)
    ensures r.Some? ==> Filed(ws, |ws|, r.value)
    ensures r.None? ==> !Unique(ws) || exists w :: w in ws && !ValidSummary(w)
  {
    var cells: map<int64, Cells> := map[];
    var n := 0;
    while n < |ws|
      invariant 0 <= n <= |ws| && Filed(ws, n, cells)
    {
      var w := ws[n];
      if !ValidSummary(w) {
        return None;
      }
      if Cell(CellsOf(cells, w.seed), w.arm).Some? {
        DuplicateCell(ws, n, cells);
        return None;
      }
      FileStep(ws, n, cells);
      cells := File(cells, w);
      n := n + 1;
    }
    return Some(cells);
  }

  ghost predicate Contrasted(ws: seq<Summary>, cells: map<int64, Cells>, seeds: set<int64>, cs: seq<Contrast>) {
    && seeds <= cells.Keys
    && Ascending(cs)
    && (forall i :: 0 <= i < |cs| ==> IsContrast(ws, cs[i]) && Compatible(cs[i].off, cs[i].on))
    && (forall i, s :: 0 <= i < |cs| && s in seeds ==> cs[i].seed < s)
    && (forall s :: s in cells && s !in seeds ==> HasSeed(cs, s))
  }

  predicate Complete(arms: Cells) {
    arms.off.Some? && arms.on.Some? && Compatible(arms.off.value, arms.on.value)
  }

  ghost predicate IsContrastOf(arms: Cells, seed: int64, c: Contrast) {
    && Complete(arms)
    && c.off == arms.off.value && c.on == arms.on.value && c.seed == seed
    && c.nanos == c.on.positiveNanos - c.off.positiveNanos && c.episodes == c.on.episodes - c.off.episodes
  }

  lemma ContrastStep(ws: seq<Summary>, cells: map<int64, Cells>, seeds: set<int64>, cs: seq<Contrast>, c: Contrast)
    requires Filed(ws, |ws|, cells) && Contrasted(ws, cells, seeds, cs)
    requires c.seed in seeds && (forall s :: s in seeds ==> c.seed <= s) && IsContrastOf(cells[c.seed], c.seed, c)
    ensures Contrasted(ws, cells, seeds - {c.seed}, cs + [c])
  {
    assert Compatible(c.off, c.on);
    PairIsContrast(ws, cells, c);
    hide Filed, Compatible, IsContrastOf, IsContrast, HasSeed, Ascending;
    SeedsGrow(cs, c, cells.Keys - seeds);
    AscendMore(cs, c, seeds);
    ContrastsMore(ws, cs, c);
  }

  lemma AscendMore(cs: seq<Contrast>, c: Contrast, seeds: set<int64>)
    requires Ascending(cs) && (forall i, s :: 0 <= i < |cs| && s in seeds ==> cs[i].seed < s)
    requires c.seed in seeds && forall s :: s in seeds ==> c.seed <= s
    ensures Ascending(cs + [c]) && forall i, s :: 0 <= i < |cs + [c]| && s in seeds - {c.seed} ==> (cs + [c])[i].seed < s
  {
    assert forall i :: 0 <= i < |cs| ==> (cs + [c])[i] == cs[i] && cs[i].seed < c.seed;
  }

  lemma ContrastsMore(ws: seq<Summary>, cs: seq<Contrast>, c: Contrast)
    requires forall i :: 0 <= i < |cs| ==> IsContrast(ws, cs[i]) && Compatible(cs[i].off, cs[i].on)
    requires IsContrast(ws, c) && Compatible(c.off, c.on)
    ensures forall i :: 0 <= i < |cs + [c]| ==> IsContrast(ws, (cs + [c])[i]) && Compatible((cs + [c])[i].off, (cs + [c])[i].on)
  {
    hide IsContrast, Compatible;
  }

  lemma PairIsContrast(ws: seq<Summary>, cells: map<int64, Cells>, c: Contrast)
    requires Filed(ws, |ws|, cells) && c.seed in cells && IsContrastOf(cells[c.seed], c.seed, c)
    ensures IsContrast(ws, c)
  {
    FiledPair(ws, cells, c.seed);
    hide Filed;
  }

  lemma FiledPair(ws: seq<Summary>, cells: map<int64, Cells>, seed: int64)
    requires Filed(ws, |ws|, cells) && seed in cells && Complete(cells[seed])
    ensures var off, on := cells[seed].off.value, cells[seed].on.value;
            && off in ws && off.seed == seed && off.arm == "OFF" && ValidSummary(off)
            && on in ws && on.seed == seed && on.arm == "ON" && ValidSummary(on)
  {
    assert ws[..|ws|] == ws && CellsOk(ws, |ws|, cells, seed);
  }

  method ContrastSeed(ws: seq<Summary>, cells: map<int64, Cells>, seed: int64) returns (r: Option<Contrast>)
    requires Filed(ws, |ws|, cells) && seed in cells
    ensures r.Some? ==> IsContrastOf(cells[seed], seed, r.value)
    ensures r.None? ==> exists w :: w in ws && !Paired(ws, w)
  {
    var arms := cells[seed];
    if !Complete(arms) {
      UnpairedSeed(ws, cells, seed);
      return None;
    }
    var off, on := arms.off.value, arms.on.value;
    FiledPair(ws, cells, seed);
    hide Filed, Compatible, Paired;
    var difference := TrySub(on.positiveNanos, off.positiveNanos);
    if difference.None? {
      return None;
    }
    return Some(Contrast(seed, off, on, difference.value, on.episodes - off.episodes));
  }

  method ContrastCells(ws: seq<Summary>, cells: map<int64, Cells>) returns (r: Option<seq<Contrast>>)
    requires Filed(ws, |ws|, cells)
    ensures r.Some? ==> Contrasted(ws, cells, {}, r.value)
    ensures r.None? ==> exists w :: w in ws && !Paired(ws, w)
  {
    var seeds := cells.Keys;
    var cs: seq<Contrast> := [];
    assert Contrasted(ws, cells, seeds, cs);
    hide *;
    while seeds != {}
      invariant seeds <= cells.Keys
      invariant Contrasted(ws, cells, seeds, cs)
      decreases seeds
    {
      var seed := SmallestSeed(seeds);
      var contrast := ContrastSeed(ws, cells, seed);
      if contrast.None? {
        return None;
      }
      SeedOfContrast(cells[seed], seed, contrast.value);
      ContrastStep(ws, cells, seeds, cs, contrast.value);
      cs := cs + [contrast.value];
      seeds := seeds - {seed};
    }
    return Some(cs);
  }

  lemma SeedOfContrast(arms: Cells, seed: int64, c: Contrast)
    requires IsContrastOf(arms, seed, c)
    ensures c.seed == seed
  {
  }

  /** The comparison succeeds exactly on complete, valid, compatible pairs; the overflow error cannot occur. */
  method Compare(ws: seq<Summary>) returns (r: Option<seq<Contrast>>)
    ensures r.Some? <==> Comparable(ws)
    ensures r.Some? ==> AreContrasts(ws, r.value)
  {
    if |ws| == 0 || |ws| % 2 != 0 {
      return None;
    }
    hide Filed, Contrasted, Paired, ValidSummary, Unique;
    var cells := FileWorlds(ws);
    if cells.None? {
      return None;
    }
    r := ContrastCells(ws, cells.value);
    if r.Some? {
      AllPaired(ws, cells.value, r.value);
    }
  }

  lemma SeedsGrow(cs: seq<Contrast>, c: Contrast, done: set<int64>)
    requires forall s :: s in done ==> HasSeed(cs, s)
    ensures forall s :: s in done ==> HasSeed(cs + [c], s)
    ensures HasSeed(cs + [c], c.seed)
  {
    assert (cs + [c])[|cs|].seed == c.seed;
    forall s | s in done
      ensures HasSeed(cs + [c], s)
    {
      var i :| 0 <= i < |cs| && cs[i].seed == s;
      assert (cs + [c])[i].seed == s;
    }
  }

  lemma DuplicateCell(ws: seq<Summary>, n: nat, cells: map<int64, Cells>)
    requires n < |ws| && Filed(ws, n, cells) && ValidSummary(ws[n])
    requires Cell(CellsOf(cells, ws[n].seed), ws[n].arm).Some?
    ensures !Unique(ws)
  {
    var w := Cell(cells[ws[n].seed], ws[n].arm).value;
    assert w in ws[..n];
    var i :| 0 <= i < n && ws[i] == w;
    assert ws[i].seed == ws[n].seed && ws[i].arm == ws[n].arm;
  }

  lemma UnpairedSeed(ws: seq<Summary>, cells: map<int64, Cells>, seed: int64)
    requires Filed(ws, |ws|, cells) && seed in cells
    requires !Complete(cells[seed])
    ensures exists w :: w in ws && !Paired(ws, w)
  {
    assert ws[..|ws|] == ws && CellsOk(ws, |ws|, cells, seed);
    var w := if cells[seed].off.Some? then cells[seed].off.value else cells[seed].on.value;
    assert w in ws && w.seed == seed;
    forall o | o in ws && o.seed == seed && o.arm != w.arm
      ensures !(if w.arm == "OFF" then Compatible(w, o) else Compatible(o, w))
    {
      var i :| 0 <= i < |ws| && ws[i] == o;
      assert ValidSummary(ws[i]) && Cell(cells[seed], o.arm) == Some(o);
    }
    assert !Paired(ws, w);
  }

  lemma AllPaired(ws: seq<Summary>, cells: map<int64, Cells>, cs: seq<Contrast>)
    requires Filed(ws, |ws|, cells) && Contrasted(ws, cells, {}, cs)
    ensures forall w :: w in ws ==> ValidSummary(w) && Paired(ws, w)
    ensures Unique(ws) && AreContrasts(ws, cs)
  {
    assert ws[..|ws|] == ws;
    forall w | w in ws
      ensures ValidSummary(w) && HasSeed(cs, w.seed) && Paired(ws, w)
    {
      var k :| 0 <= k < |ws| && ws[k] == w;
      assert ValidSummary(ws[k]) && w.seed in cells && HasSeed(cs, w.seed);
      var i :| 0 <= i < |cs| && cs[i].seed == w.seed;
      assert IsContrast(ws, cs[i]) && Compatible(cs[i].off, cs[i].on);
      SameWorld(ws, w, if w.arm == "OFF" then cs[i].off else cs[i].on);
      assert (if w.arm == "OFF" then cs[i].on else cs[i].off) in ws;
    }
  }

  /** The contrasts are a function of which worlds there are, not of the order they were handed over in. */
  lemma ContrastsIgnoreOrder(ws: seq<Summary>, ws': seq<Summary>, cs: seq<Contrast>, cs': seq<Contrast>)
    requires forall w :: w in ws <==> w in ws'
    requires Unique(ws) && AreContrasts(ws, cs) && AreContrasts(ws', cs')
    ensures cs == cs'
  {
    forall i | 0 <= i < |cs| ensures cs[i] in cs' { SameContrast(ws, ws', cs, cs', i); }
    forall i | 0 <= i < |cs'| ensures cs'[i] in cs { SameContrast(ws, ws, cs', cs, i); }
    AscendingSame(cs, cs');
  }

  lemma SameContrast(ws: seq<Summary>, ws': seq<Summary>, cs: seq<Contrast>, cs': seq<Contrast>, i: nat)
    requires forall w :: w in ws <==> w in ws'
    requires Unique(ws) && i < |cs| && (forall k :: 0 <= k < |cs| ==> IsContrast(ws, cs[k]))
    requires forall w :: w in ws ==> HasSeed(cs', w.seed)
    requires forall k :: 0 <= k < |cs'| ==> IsContrast(ws', cs'[k])
    ensures cs[i] in cs'
  {
    var c := cs[i];
    assert IsContrast(ws, c) && HasSeed(cs', c.off.seed);
    var j :| 0 <= j < |cs'| && cs'[j].seed == c.seed;
    assert IsContrast(ws', cs'[j]);
    SameWorld(ws, c.off, cs'[j].off);
    SameWorld(ws, c.on, cs'[j].on);
    assert cs'[j] == c;
  }

  lemma SameWorld(ws: seq<Summary>, a: Summary, b: Summary)
    requires Unique(ws) && a in ws && b in ws && a.seed == b.seed && a.arm == b.arm
    ensures a == b
  {
    var i :| 0 <= i < |ws| && ws[i] == a;
    var j :| 0 <= j < |ws| && ws[j] == b;
    assert i == j;
  }

  lemma HeadIsMember(cs: seq<Contrast>)
    ensures cs != [] ==> cs[0] in cs
  {
  }

  lemma {:induction false} AscendingSame(cs: seq<Contrast>, cs': seq<Contrast>)
    requires Ascending(cs) && Ascending(cs')
    requires (forall c :: c in cs ==> c in cs') && (forall c :: c in cs' ==> c in cs)
    ensures cs == cs'
  {
    if cs == [] || cs' == [] {
      HeadIsMember(cs);
      HeadIsMember(cs');
    } else {
      var last, last' := cs[|cs| - 1], cs'[|cs'| - 1];
      assert last in cs' && last' in cs;
      assert last == last';
      var front, front' := cs[..|cs| - 1], cs'[..|cs'| - 1];
      assert cs == front + [last] && cs' == front' + [last];
      forall c | c in front ensures c in front' { assert c in cs && c in cs' && c != last; }
      forall c | c in front' ensures c in front { assert c in cs' && c in cs && c != last; }
      AscendingSame(front, front');
    }
  }
}
