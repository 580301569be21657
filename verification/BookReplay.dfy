/** Displayed books rebuilt from snapshots and deltas: once by the public replay (analysis/crossvenue_public_replay.go),
once by an actor that consumes the same messages (analysis/crossvenue_consumed_source.go). */
module BookReplay {
  import opened Int64
  import opened CrossVenueEdge
  import CrossVenueEpisodes

  datatype Level = Level(price: int64, visible: int64, hidden: int64)

  type Ladder = map<int64, int64>

  datatype Evidence =
    | Snapshot(bids: seq<Level>, asks: seq<Level>, sourceSequence: uint64, publicBids: seq<Level>, publicAsks: seq<Level>)
    | Delta(side: string, price: int64, visible: int64, hidden: int64, total: int64)
    | Unreadable

  datatype Event = Event(evidence: Evidence, venue: string, symbol: string, logName: string, frame: uint64, at: int64)

  datatype Depth = Depth(bids: Ladder, asks: Ladder, known: bool) {
    function Side(buy: bool): Ladder {
      if buy then bids else asks
    }
  }

  function EmptyDepth(known: bool): Depth {
    Depth(map[], map[], known)
  }

  // ----- the public projection of a full book -----

  predicate FullLevel(l: Level) {
    l.visible >= 0 && l.hidden >= 0 && TryAdd(l.visible, l.hidden).Some? && l.visible + l.hidden > 0
  }

  predicate PublicLevel(l: Level) {
    l.visible > 0 && l.hidden == 0
  }

  predicate DistinctPrices(levels: seq<Level>) {
    forall i, j :: 0 <= i < j < |levels| ==> levels[i].price != levels[j].price
  }

  /** What a list of levels shows: price to positive visible quantity. */
  function Shown(levels: seq<Level>): Ladder {
    if levels == [] then map[]
    else
      var l := levels[|levels| - 1];
      if l.visible > 0 then Shown(levels[..|levels| - 1])[l.price := l.visible] else Shown(levels[..|levels| - 1])
  }

  /** The quantity some levels show at a price; zero if none. */
  function DisplayedAt(levels: seq<Level>, price: int64): int64 {
    if levels == [] then 0
    else if levels[|levels| - 1].price == price then levels[|levels| - 1].visible
    else DisplayedAt(levels[..|levels| - 1], price)
  }

  predicate Projects(full: seq<Level>, public: seq<Level>) {
    && (forall i :: 0 <= i < |full| ==> FullLevel(full[i])) && DistinctPrices(full)
    && (forall i :: 0 <= i < |public| ==> PublicLevel(public[i])) && DistinctPrices(public)
    && Shown(full) == Shown(public)
  }

  lemma {:induction false} ShownComesFrom(levels: seq<Level>, price: int64)
    requires price in Shown(levels)
    ensures exists i :: 0 <= i < |levels| && levels[i].price == price
  {
    var front, l := levels[..|levels| - 1], levels[|levels| - 1];
    if l.price != price {
      ShownComesFrom(front, price);
      var i :| 0 <= i < |front| && front[i].price == price;
      assert levels[i].price == price;
    }
  }

  lemma {:induction false} ShownIsDisplayed(levels: seq<Level>, price: int64)
    requires DistinctPrices(levels) && forall i :: 0 <= i < |levels| ==> levels[i].visible >= 0
    ensures price in Shown(levels) <==> DisplayedAt(levels, price) > 0
    ensures price in Shown(levels) ==> Shown(levels)[price] == DisplayedAt(levels, price)
  {
    if levels != [] {
      var front, l := levels[..|levels| - 1], levels[|levels| - 1];
      assert forall i :: 0 <= i < |front| ==> front[i] == levels[i];
      ShownIsDisplayed(front, price);
      if l.price == price && price in Shown(front) {
        ShownComesFrom(front, price);
        assert false;
      }
    }
  }

  ghost predicate SameDisplay(a: seq<Level>, b: seq<Level>) {
    forall p: int64 :: DisplayedAt(a, p) == DisplayedAt(b, p)
  }

  /** A public ladder is accepted exactly when, price by price, it displays what the full book shows. */
  lemma ProjectionIsPointwise(full: seq<Level>, public: seq<Level>)
    requires forall i :: 0 <= i < |full| ==> FullLevel(full[i])
    requires forall i :: 0 <= i < |public| ==> PublicLevel(public[i])
    requires DistinctPrices(full) && DistinctPrices(public)
    ensures Projects(full, public) <==> SameDisplay(full, public)
  {
    hide Shown, DisplayedAt;
    if Shown(full) == Shown(public) {
      forall p: int64
        ensures DisplayedAt(full, p) == DisplayedAt(public, p)
      {
        ShownGives(full, p);
        ShownGives(public, p);
      }
    }
    if SameDisplay(full, public) {
      forall p: int64
        ensures p in Shown(full) <==> p in Shown(public)
        ensures p in Shown(full) ==> Shown(full)[p] == Shown(public)[p]
      {
        ShownGives(full, p);
        ShownGives(public, p);
      }
      assert Shown(full) == Shown(public);
    }
  }

  lemma ShownGives(levels: seq<Level>, price: int64)
    requires DistinctPrices(levels) && forall i :: 0 <= i < |levels| ==> FullLevel(levels[i]) || PublicLevel(levels[i])
    ensures DisplayedAt(levels, price) == if price in Shown(levels) then Shown(levels)[price] else 0
    ensures price in Shown(levels) <==> DisplayedAt(levels, price) != 0
  {
    ShownIsDisplayed(levels, price);
    DisplayedIsNat(levels, price);
  }

  lemma {:induction false} DisplayedIsNat(levels: seq<Level>, price: int64)
    requires forall i :: 0 <= i < |levels| ==> levels[i].visible >= 0
    ensures DisplayedAt(levels, price) >= 0
  {
    if levels != [] {
      DisplayedIsNat(levels[..|levels| - 1], price);
    }
  }

  lemma ShownStep(levels: seq<Level>, i: nat)
    requires i < |levels|
    ensures Shown(levels[..i + 1])
            == if levels[i].visible > 0 then Shown(levels[..i])[levels[i].price := levels[i].visible] else Shown(levels[..i])
  {
    assert levels[..i + 1][..i] == levels[..i];
  }

  lemma SmallerOrEqual(a: set<int64>, b: set<int64>)
    requires a <= b
    ensures |a| <= |b| && (|a| == |b| ==> a == b)
  {
    var d := b - a;
    assert b == a + d;
    assert |b| == |a| + |d|;
    if |a| == |b| {
      assert d == {};
    }
  }

  method CheckFull(full: seq<Level>) returns (visible: Ladder, ok: bool)
    ensures ok <==> DistinctPrices(full) && forall i :: 0 <= i < |full| ==> FullLevel(full[i])
    ensures ok ==> visible == Shown(full)
  {
    visible, ok := map[], true;
    var seen: set<int64> := {};
    for i := 0 to |full|
      invariant visible == Shown(full[..i])
      invariant forall k :: 0 <= k < i ==> FullLevel(full[k])
      invariant DistinctPrices(full[..i]) && forall p :: p in seen <==> exists k :: 0 <= k < i && full[k].price == p
    {
      var l := full[i];
      var total := TryAdd(l.visible, l.hidden);
      if l.visible < 0 || l.hidden < 0 || total.None? || total.value <= 0 {
        assert !FullLevel(full[i]);
        return visible, false;
      }
      if l.price in seen {
        return visible, false;
      }
      seen := seen + {l.price};
      ShownStep(full, i);
      if l.visible > 0 {
        visible := visible[l.price := l.visible];
      }
    }
    assert full[..|full|] == full;
  }

  method CheckPublic(public: seq<Level>) returns (projected: Ladder, ok: bool)
    ensures ok <==> DistinctPrices(public) && forall i :: 0 <= i < |public| ==> PublicLevel(public[i])
    ensures ok ==> projected == Shown(public)
  {
    projected, ok := map[], true;
    for i := 0 to |public|
      invariant projected == Shown(public[..i])
      invariant forall k :: 0 <= k < i ==> PublicLevel(public[k])
      invariant DistinctPrices(public[..i]) && forall p :: p in projected <==> exists k :: 0 <= k < i && public[k].price == p
    {
      var l := public[i];
      if l.visible <= 0 || l.hidden != 0 {
        assert !PublicLevel(public[i]);
        return projected, false;
      }
      if l.price in projected {
        return projected, false;
      }
      ShownStep(public, i);
      projected := projected[l.price := l.visible];
    }
    assert public[..|public|] == public;
  }

  lemma {:induction false} ShownIsPositive(levels: seq<Level>)
    ensures forall p :: p in Shown(levels) ==> Shown(levels)[p] > 0
  {
    if levels != [] {
      ShownIsPositive(levels[..|levels| - 1]);
    }
  }

  /** Accepts a public ladder iff it is the displayed projection of the full one, and hands it back as a map. */
  method ValidateProjection(full: seq<Level>, public: seq<Level>) returns (r: Option<Ladder>)
    ensures r.Some? <==> Projects(full, public)
    ensures r.Some? ==> r.value == Shown(full)
  {
    var visible, fullOk := CheckFull(full);
    if !fullOk {
      return None;
    }
    var projected, publicOk := CheckPublic(public);
    if !publicOk || |visible| != |projected| {
      return None;
    }
    ShownIsPositive(full);
    hide Shown, FullLevel, PublicLevel;
    var rest := visible.Keys;
    while rest != {}
      invariant rest <= visible.Keys
      invariant forall p :: p in visible && p !in rest ==> p in projected && projected[p] == visible[p]
    {
      var p :| p in rest;
      if (if p in projected then projected[p] else 0) != visible[p] {
        return None;
      }
      rest := rest - {p};
    }
    assert visible.Keys <= projected.Keys && |visible.Keys| == |visible| && |projected.Keys| == |projected|;
    SmallerOrEqual(visible.Keys, projected.Keys);
    assert visible == projected;
    return Some(projected);
  }

  // ----- the public replay -----

  function Put(ladder: Ladder, price: int64, quantity: int64): Ladder {
    if quantity == 0 then ladder - {price} else ladder[price := quantity]
  }

  predicate DeltaOk(e: Evidence)
    requires e.Delta?
  {
    && e.visible >= 0 && e.hidden >= 0 && TryAdd(e.visible, e.hidden) == Some(e.total)
    && (e.side == "BUY" || e.side == "SELL")
  }

  predicate SnapshotOk(e: Evidence)
    requires e.Snapshot?
  {
    Projects(e.bids, e.publicBids) && Projects(e.asks, e.publicAsks)
  }

  function Change(d: Depth, buy: bool, price: int64, quantity: int64): Depth {
    if buy then d.(bids := Put(d.bids, price, quantity)) else d.(asks := Put(d.asks, price, quantity))
  }

  /** One published record applied to a venue's book. */
  function Publish(d: Depth, e: Evidence): Option<Depth> {
    match e
    case Snapshot(bids, asks, _, _, _) =>
      if SnapshotOk(e) then Some(Depth(Shown(bids), Shown(asks), true)) else None
    case Delta(side, price, visible, _, _) =>
      if d.known && DeltaOk(e) then Some(Change(d, side == "BUY", price, visible)) else None
    case Unreadable => None
  }

  function BookAfter(es: seq<Event>, venue: string, initial: Depth): Option<Depth> {
    if es == [] then Some(initial)
    else
      var e := es[|es| - 1];
      match BookAfter(es[..|es| - 1], venue, initial)
      case None => None
      case Some(d) => if e.venue == venue then Publish(d, e.evidence) else Some(d)
  }

  datatype Options = Options(venues: Pair<string>, symbol: string, initiallyEmpty: bool)

  predicate ValidOptions(o: Options) {
    o.symbol != "" && o.venues.first != "" && o.venues.second != "" && o.venues.first != o.venues.second
  }

  function Dashed(symbol: string): string {
    seq(|symbol|, i requires 0 <= i < |symbol| => if symbol[i] == '/' then '-' else symbol[i])
  }

  predicate InOrder(es: seq<Event>, o: Options, k: nat)
    requires k < |es|
  {
    && es[k].frame != 0 && es[k].at >= 0
    && (k > 0 ==> es[k - 1].frame < es[k].frame && es[k - 1].at <= es[k].at)
    && (es[k].venue == o.venues.first || es[k].venue == o.venues.second)
    && (es[k].symbol == o.symbol || es[k].logName == Dashed(o.symbol))
  }

  function Initial(o: Options): Depth {
    EmptyDepth(o.initiallyEmpty)
  }

  predicate Speaks(es: seq<Event>, venue: string) {
    exists k :: 0 <= k < |es| && es[k].venue == venue
  }

  predicate Replayable(es: seq<Event>, o: Options) {
    && (forall k :: 0 <= k < |es| ==> InOrder(es, o, k))
    && BookAfter(es, o.venues.first, Initial(o)).Some? && BookAfter(es, o.venues.second, Initial(o)).Some?
  }

  predicate Observed(es: seq<Event>, o: Options, venue: string)
    requires BookAfter(es, venue, Initial(o)).Some?
  {
    BookAfter(es, venue, Initial(o)).value.known && Speaks(es, venue)
  }

  predicate Accepts(es: seq<Event>, o: Options) {
    && ValidOptions(o) && Replayable(es, o)
    && Observed(es, o, o.venues.first) && Observed(es, o, o.venues.second)
  }

  lemma BookStep(es: seq<Event>, venue: string, initial: Depth, k: nat)
    requires k < |es|
    ensures BookAfter(es[..k + 1], venue, initial)
            == match BookAfter(es[..k], venue, initial)
               case None => None
               case Some(d) => if es[k].venue == venue then Publish(d, es[k].evidence) else Some(d)
  {
    assert es[..k + 1][..k] == es[..k];
  }

  lemma {:induction false} BookOfPrefix(es: seq<Event>, venue: string, initial: Depth, k: nat)
    requires k <= |es| && BookAfter(es, venue, initial).Some?
    ensures BookAfter(es[..k], venue, initial).Some?
    decreases |es| - k
  {
    if k == |es| {
      assert es[..k] == es;
    } else {
      BookOfPrefix(es, venue, initial, k + 1);
      BookStep(es, venue, initial, k);
    }
  }

  // ----- best levels -----

  predicate Better(buy: bool, p: int64, q: int64) {
    if buy then p > q else p < q
  }

  /** `has`, `price` and `quantity` are the best positive level of a ladder, or its absence. */
  ghost predicate IsBest(ladder: Ladder, buy: bool, has: bool, price: int64, quantity: int64) {
    && (has ==> price in ladder && ladder[price] == quantity > 0)
    && (!has ==> price == 0 && quantity == 0)
    && (forall p :: p in ladder && ladder[p] > 0 ==> has && (p == price || Better(buy, price, p)))
  }

  lemma BestIsUnique(ladder: Ladder, buy: bool, has: bool, p: int64, q: int64, has': bool, p': int64, q': int64)
    requires IsBest(ladder, buy, has, p, q) && IsBest(ladder, buy, has', p', q')
    ensures has == has' && p == p' && q == q'
  {
  }

  ghost predicate IsTouch(t: Touch, d: Depth) {
    IsBest(d.bids, true, t.hasBid, t.bid, t.bidQty) && IsBest(d.asks, false, t.hasAsk, t.ask, t.askQty)
  }

  /** The levels of a ladder, best first. */
  ghost predicate IsLevels(levels: seq<Level>, ladder: Ladder, buy: bool) {
    && (forall i, j :: 0 <= i < j < |levels| ==> Better(buy, levels[i].price, levels[j].price))
    && (forall i :: 0 <= i < |levels| ==> levels[i].price in ladder && levels[i] == Level(levels[i].price, ladder[levels[i].price], 0))
    && (forall p :: p in ladder ==> Listed(levels, p))
  }

  ghost predicate Listed(levels: seq<Level>, price: int64) {
    exists i :: 0 <= i < |levels| && levels[i].price == price
  }

  lemma SameHead(a: seq<Level>, b: seq<Level>, ladder: Ladder, buy: bool)
    requires IsLevels(a, ladder, buy) && IsLevels(b, ladder, buy) && a != []
    ensures b != [] && a[0] == b[0]
  {
    assert Listed(b, a[0].price) && Listed(a, a[0].price);
    assert Listed(a, b[0].price);
  }

  lemma TailOfLevels(levels: seq<Level>, ladder: Ladder, buy: bool)
    requires IsLevels(levels, ladder, buy) && levels != []
    ensures IsLevels(levels[1..], ladder - {levels[0].price}, buy)
  {
    var rest := levels[1..];
    assert forall i :: 0 <= i < |rest| ==> rest[i] == levels[i + 1];
    forall i | 0 <= i < |rest|
      ensures rest[i].price != levels[0].price && rest[i].price in ladder
    {
      assert Better(buy, levels[0].price, levels[i + 1].price);
    }
    forall p | p in ladder && p != levels[0].price
      ensures Listed(rest, p)
    {
      assert Listed(levels, p);
      var i :| 0 <= i < |levels| && levels[i].price == p;
      assert rest[i - 1].price == p;
    }
  }

  /** The sorted ladder does not depend on the order in which a map was walked. */
  lemma {:induction false} LevelsAreUnique(a: seq<Level>, b: seq<Level>, ladder: Ladder, buy: bool)
    requires IsLevels(a, ladder, buy) && IsLevels(b, ladder, buy)
    ensures a == b
    decreases |a|
  {
    if a == [] {
      if b != [] {
        SameHead(b, a, ladder, buy);
      }
    } else {
      SameHead(a, b, ladder, buy);
      TailOfLevels(a, ladder, buy);
      TailOfLevels(b, ladder, buy);
      LevelsAreUnique(a[1..], b[1..], ladder - {a[0].price}, buy);
      assert a == [a[0]] + a[1..] && b == [b[0]] + b[1..];
    }
  }

  ghost predicate Positive(ladder: Ladder) {
    forall p :: p in ladder ==> ladder[p] > 0
  }

  /** The touch is the head of the sorted levels. */
  lemma TouchIsHead(levels: seq<Level>, ladder: Ladder, buy: bool, has: bool, price: int64, quantity: int64)
    requires Positive(ladder) && IsLevels(levels, ladder, buy)
    requires IsBest(ladder, buy, has, price, quantity)
    ensures has <==> levels != []
    ensures has ==> levels[0] == Level(price, quantity, 0)
  {
    if levels != [] {
      assert levels[0].price in ladder;
      if price != levels[0].price {
        assert Listed(levels, price);
      }
    }
    if has {
      assert Listed(levels, price);
    }
  }

  /** One pass over a map in whatever order it yields its keys. */
  method BestOf(ladder: Ladder, buy: bool) returns (has: bool, price: int64, quantity: int64)
    ensures IsBest(ladder, buy, has, price, quantity)
  {
    has, price, quantity := false, 0, 0;
    var rest := ladder.Keys;
    while rest != {}
      invariant rest <= ladder.Keys
      invariant has ==> price in ladder && ladder[price] == quantity > 0
      invariant !has ==> price == 0 && quantity == 0
      invariant forall p :: p in ladder && p !in rest && ladder[p] > 0 ==> has && (p == price || Better(buy, price, p))
    {
      var p :| p in rest;
      if ladder[p] > 0 && (!has || Better(buy, p, price)) {
        has, price, quantity := true, p, ladder[p];
      }
      rest := rest - {p};
    }
  }

  /** The sorted levels; each key is placed where it belongs as the map yields it. */
  method SortedLevels(ladder: Ladder, buy: bool) returns (levels: seq<Level>)
    ensures IsLevels(levels, ladder, buy)
  {
    levels := [];
    var rest := ladder.Keys;
    ghost var done: Ladder := map[];
    while rest != {}
      invariant rest <= ladder.Keys
      invariant done == map p | p in ladder && p !in rest :: ladder[p]
      invariant IsLevels(levels, done, buy)
    {
      var p :| p in rest;
      levels := Insert(levels, p, ladder[p], done, buy);
      rest := rest - {p};
      done := done[p := ladder[p]];
    }
    assert done == ladder;
  }

  method Insert(levels: seq<Level>, price: int64, quantity: int64, ghost ladder: Ladder, buy: bool) returns (r: seq<Level>)
    requires IsLevels(levels, ladder, buy) && price !in ladder
    ensures IsLevels(r, ladder[price := quantity], buy)
  {
    var k := 0;
    while k < |levels| && Better(buy, levels[k].price, price)
      invariant 0 <= k <= |levels|
      invariant forall i :: 0 <= i < k ==> Better(buy, levels[i].price, price)
    {
      k := k + 1;
    }
    r := levels[..k] + [Level(price, quantity, 0)] + levels[k..];
    InsertKeepsLevels(levels, price, quantity, ladder, buy, k);
  }

  lemma InsertKeepsLevels(levels: seq<Level>, price: int64, quantity: int64, ladder: Ladder, buy: bool, k: nat)
    requires IsLevels(levels, ladder, buy) && price !in ladder && k <= |levels|
    requires forall i :: 0 <= i < k ==> Better(buy, levels[i].price, price)
    requires k < |levels| ==> !Better(buy, levels[k].price, price)
    ensures IsLevels(levels[..k] + [Level(price, quantity, 0)] + levels[k..], ladder[price := quantity], buy)
  {
    var r := levels[..k] + [Level(price, quantity, 0)] + levels[k..];
    InsertKeepsOrder(levels, price, ladder, buy, k);
    InsertKeepsListing(levels, price, quantity, ladder, buy, k);
    assert forall i, j :: 0 <= i < j < |r| ==> Better(buy, r[i].price, r[j].price);
  }

  lemma InsertKeepsOrder(levels: seq<Level>, price: int64, ladder: Ladder, buy: bool, k: nat)
    requires IsLevels(levels, ladder, buy) && price !in ladder && k <= |levels|
    requires k < |levels| ==> !Better(buy, levels[k].price, price)
    ensures forall i :: k <= i < |levels| ==> Better(buy, price, levels[i].price)
  {
    forall i | k <= i < |levels|
      ensures Better(buy, price, levels[i].price)
    {
      assert levels[k].price in ladder && levels[k].price != price;
      assert i > k ==> Better(buy, levels[k].price, levels[i].price);
    }
  }

  lemma InsertKeepsListing(levels: seq<Level>, price: int64, quantity: int64, ladder: Ladder, buy: bool, k: nat)
    requires IsLevels(levels, ladder, buy) && price !in ladder && k <= |levels|
    ensures var r := levels[..k] + [Level(price, quantity, 0)] + levels[k..];
            forall p :: p in ladder[price := quantity] ==> Listed(r, p)
  {
    var r := levels[..k] + [Level(price, quantity, 0)] + levels[k..];
    forall p | p in ladder[price := quantity]
      ensures Listed(r, p)
    {
      if p == price {
        assert r[k].price == p;
      } else {
        assert Listed(levels, p);
        var i :| 0 <= i < |levels| && levels[i].price == p;
        assert r[if i < k then i else i + 1].price == p;
      }
    }
  }

  // ----- the state both sides update in place -----

  class DepthState {
    var bids: Ladder
    var asks: Ladder
    var known: bool

    ghost function Value(): Depth
      reads this
    {
      Depth(bids, asks, known)
    }

    constructor (known: bool)
      ensures Value() == EmptyDepth(known)
    {
      bids, asks := map[], map[];
      this.known := known;
    }

    method Set(buy: bool, price: int64, quantity: int64)
      modifies this
      ensures Value() == Change(old(Value()), buy, price, quantity)
    {
      var levels := if buy then bids else asks;
      if quantity == 0 {
        levels := levels - {price};
      } else {
        levels := levels[price := quantity];
      }
      if buy {
        bids := levels;
      } else {
        asks := levels;
      }
    }

    /** Applies one published record, or refuses it. */
    method Observe(e: Evidence) returns (ok: bool)
      modifies this
      ensures ok <==> Publish(old(Value()), e).Some?
      ensures ok ==> Value() == Publish(old(Value()), e).value
    {
      match e
      case Snapshot(fullBids, fullAsks, _, publicBids, publicAsks) =>
        var b := ValidateProjection(fullBids, publicBids);
        if b.None? {
          return false;
        }
        var a := ValidateProjection(fullAsks, publicAsks);
        if a.None? {
          return false;
        }
        bids, asks, known := b.value, a.value, true;
        return true;
      case Delta(side, price, visible, hidden, total) =>
        if !known {
          return false;
        }
        var sum := TryAdd(visible, hidden);
        if sum.None? || visible < 0 || hidden < 0 || sum.value != total || (side != "BUY" && side != "SELL") {
          return false;
        }
        Set(side == "BUY", price, visible);
        return true;
      case Unreadable =>
        return false;
    }

    method ReadTouch() returns (t: Touch)
      ensures IsTouch(t, Value())
    {
      var hasBid, bid, bidQty := BestOf(bids, true);
      var hasAsk, ask, askQty := BestOf(asks, false);
      t := Touch(bid, bidQty, ask, askQty, hasBid, hasAsk);
    }

    /** What the actor does with a message it consumed. */
    method Consume(m: Message) returns (ok: bool)
      modifies this
      ensures ok <==> Consumed(old(Value()), m).Some?
      ensures ok ==> Value() == Consumed(old(Value()), m).value
    {
      match m
      case BookMessage(levelBids, levelAsks) =>
        var b := Fill(levelBids);
        var a := Fill(levelAsks);
        bids, asks, known := b, a, true;
        return true;
      case DeltaMessage(buy, price, visible) =>
        if !known {
          return false;
        }
        Set(buy, price, visible);
        return true;
    }
  }

  datatype DisplayedBook = DisplayedBook(bids: seq<Level>, asks: seq<Level>)

  datatype PublicReplay = PublicReplay(transitions: seq<CrossVenueEpisodes.Transition>, terminal: Pair<DisplayedBook>)

  /** Transition `k` carries event `k`'s time, frame and venue, and the touch of that venue's book after it. */
  ghost predicate Reports(t: CrossVenueEpisodes.Transition, es: seq<Event>, o: Options, k: nat)
    requires k < |es|
  {
    && t.at == es[k].at && t.sequence == es[k].frame && t.venue == es[k].venue
    && BookAfter(es[..k + 1], es[k].venue, Initial(o)).Some?
    && IsTouch(t.touch, BookAfter(es[..k + 1], es[k].venue, Initial(o)).value)
  }

  ghost predicate ReportsAll(trs: seq<CrossVenueEpisodes.Transition>, es: seq<Event>, o: Options) {
    |trs| <= |es| && forall k :: 0 <= k < |trs| ==> Reports(trs[k], es, o, k)
  }

  ghost predicate IsTerminal(b: DisplayedBook, d: Depth) {
    IsLevels(b.bids, d.bids, true) && IsLevels(b.asks, d.asks, false)
  }

  method ReadLevels(state: DepthState) returns (b: DisplayedBook)
    ensures IsTerminal(b, state.Value())
  {
    var bids := SortedLevels(state.bids, true);
    var asks := SortedLevels(state.asks, false);
    b := DisplayedBook(bids, asks);
  }

  lemma ReplayableStep(es: seq<Event>, o: Options, k: nat)
    requires k < |es| && Replayable(es[..k], o)
    ensures Replayable(es[..k + 1], o)
            <==> && InOrder(es, o, k)
                 && BookAfter(es[..k + 1], o.venues.first, Initial(o)).Some?
                 && BookAfter(es[..k + 1], o.venues.second, Initial(o)).Some?
  {
    hide BookAfter;
    var before, after := es[..k], es[..k + 1];
    assert forall i :: 0 <= i <= k ==> after[i] == es[i];
    assert forall i :: 0 <= i < k ==> before[i] == es[i];
    forall i | 0 <= i < k
      ensures InOrder(after, o, i)
    {
      assert InOrder(before, o, i);
    }
    assert InOrder(after, o, k) == InOrder(es, o, k);
  }

  lemma ReplayableBefore(es: seq<Event>, o: Options, k: nat)
    requires k <= |es| && Replayable(es, o)
    ensures Replayable(es[..k], o)
  {
    BookOfPrefix(es, o.venues.first, Initial(o), k);
    BookOfPrefix(es, o.venues.second, Initial(o), k);
    hide BookAfter;
    forall i | 0 <= i < k
      ensures InOrder(es[..k], o, i)
    {
      assert InOrder(es, o, i);
    }
  }

  lemma SpeaksStep(es: seq<Event>, venue: string, k: nat)
    requires k < |es|
    ensures Speaks(es[..k + 1], venue) <==> Speaks(es[..k], venue) || es[k].venue == venue
  {
    assert es[..k + 1][k] == es[k];
    assert forall i :: 0 <= i < k ==> es[..k + 1][i] == es[..k][i];
    if Speaks(es[..k], venue) {
      var i :| 0 <= i < k && es[..k][i].venue == venue;
      assert es[..k + 1][i].venue == venue;
    }
  }

  /** Everything the loop knows after `k` events. */
  ghost predicate Replayed(es: seq<Event>, o: Options, k: nat, a: Depth, b: Depth,
                           trs: seq<CrossVenueEpisodes.Transition>, seen: Pair<bool>)
    requires k <= |es|
  {
    && Replayable(es[..k], o) && |trs| == k && ReportsAll(trs, es, o)
    && BookAfter(es[..k], o.venues.first, Initial(o)) == Some(a)
    && BookAfter(es[..k], o.venues.second, Initial(o)) == Some(b)
    && seen == Pair(Speaks(es[..k], o.venues.first), Speaks(es[..k], o.venues.second))
  }

  /** One accepted event moves the venue it names and no other. */
  lemma ReplayStep(es: seq<Event>, o: Options, k: nat, a: Depth, b: Depth, trs: seq<CrossVenueEpisodes.Transition>,
                   seen: Pair<bool>, moved: Depth, touch: Touch)
    requires k < |es| && ValidOptions(o) && Replayed(es, o, k, a, b, trs, seen) && InOrder(es, o, k)
    requires Publish(if es[k].venue == o.venues.first then a else b, es[k].evidence) == Some(moved) && IsTouch(touch, moved)
    ensures var first := es[k].venue == o.venues.first;
            Replayed(es, o, k + 1, if first then moved else a, if first then b else moved,
                     trs + [CrossVenueEpisodes.Transition(es[k].at, es[k].frame, es[k].venue, touch)],
                     if first then seen.(first := true) else seen.(second := true))
  {
    BookStep(es, o.venues.first, Initial(o), k);
    BookStep(es, o.venues.second, Initial(o), k);
    ReplayableStep(es, o, k);
    SpeaksStep(es, o.venues.first, k);
    SpeaksStep(es, o.venues.second, k);
    hide BookAfter, Speaks, Publish, IsTouch;
    var t := CrossVenueEpisodes.Transition(es[k].at, es[k].frame, es[k].venue, touch);
    assert Reports(t, es, o, k);
    assert forall i :: 0 <= i < |trs| ==> (trs + [t])[i] == trs[i];
  }

  lemma RefusedStep(es: seq<Event>, o: Options, k: nat, a: Depth, b: Depth)
    requires k < |es| && ValidOptions(o) && Replayable(es[..k], o)
    requires BookAfter(es[..k], o.venues.first, Initial(o)) == Some(a)
    requires BookAfter(es[..k], o.venues.second, Initial(o)) == Some(b)
    requires InOrder(es, o, k) ==> Publish(if es[k].venue == o.venues.first then a else b, es[k].evidence).None?
    ensures !Replayable(es, o)
  {
    if Replayable(es, o) {
      ReplayableBefore(es, o, k + 1);
      ReplayableStep(es, o, k);
      BookStep(es, o.venues.first, Initial(o), k);
      BookStep(es, o.venues.second, Initial(o), k);
    }
  }

  /** The replay succeeds exactly on acceptable streams; it reports one transition per event and the terminal books. */
  method Replay(es: seq<Event>, o: Options) returns (r: Option<PublicReplay>)
    ensures r.Some? <==> Accepts(es, o)
    ensures r.Some? ==> |r.value.transitions| == |es| && ReportsAll(r.value.transitions, es, o)
    ensures r.Some? ==> IsTerminal(r.value.terminal.first, BookAfter(es, o.venues.first, Initial(o)).value)
    ensures r.Some? ==> IsTerminal(r.value.terminal.second, BookAfter(es, o.venues.second, Initial(o)).value)
  {
    if o.symbol == "" || o.venues.first == "" || o.venues.second == "" || o.venues.first == o.venues.second {
      return None;
    }
    var first := new DepthState(o.initiallyEmpty);
    var second := new DepthState(o.initiallyEmpty);
    var trs: seq<CrossVenueEpisodes.Transition> := [];
    var seen := Pair(false, false);
    assert es[..0] == [];
    for k := 0 to |es|
      invariant fresh(first) && fresh(second) && first != second
      invariant Replayed(es, o, k, first.Value(), second.Value(), trs, seen)
    {
      var e := es[k];
      ghost var a, b := first.Value(), second.Value();
      hide Replayable, Publish, BookAfter, Speaks, ReportsAll, IsTouch, InOrder;
      var ordered := CheckOrder(es, o, k);
      if !ordered {
        RefusedStep(es, o, k, a, b);
        return None;
      }
      var state := if e.venue == o.venues.first then first else second;
      var ok := state.Observe(e.evidence);
      if !ok {
        RefusedStep(es, o, k, a, b);
        return None;
      }
      var touch := state.ReadTouch();
      ReplayStep(es, o, k, a, b, trs, seen, state.Value(), touch);
      trs := trs + [CrossVenueEpisodes.Transition(e.at, e.frame, e.venue, touch)];
      seen := if e.venue == o.venues.first then seen.(first := true) else seen.(second := true);
    }
    assert es[..|es|] == es;
    if !first.known || !seen.first || !second.known || !seen.second {
      return None;
    }
    var a := ReadLevels(first);
    var b := ReadLevels(second);
    r := Some(PublicReplay(trs, Pair(a, b)));
  }

  method CheckOrder(es: seq<Event>, o: Options, k: nat) returns (ok: bool)
    requires k < |es|
    ensures ok <==> InOrder(es, o, k)
  {
    var e := es[k];
    if e.frame == 0 || (k > 0 && e.frame <= es[k - 1].frame) || e.at < 0 || (k > 0 && e.at < es[k - 1].at) {
      return false;
    }
    if e.venue != o.venues.first && e.venue != o.venues.second {
      return false;
    }
    return !(e.symbol != o.symbol && e.logName != Dashed(o.symbol));
  }

  // ----- what a book is -----

  /** The quantity at a price, read off the stream: the last delta there since the latest snapshot, otherwise what
      that snapshot's full ladder displays. */
  function LastQuantity(es: seq<Event>, venue: string, buy: bool, price: int64): int64 {
    if es == [] then 0
    else
      var e, before := es[|es| - 1], es[..|es| - 1];
      if e.venue != venue then LastQuantity(before, venue, buy, price)
      else
        match e.evidence
        case Snapshot(bids, asks, _, _, _) => DisplayedAt(if buy then bids else asks, price)
        case Delta(side, p, visible, _, _) =>
          if (side == "BUY") == buy && p == price then visible else LastQuantity(before, venue, buy, price)
        case Unreadable => LastQuantity(before, venue, buy, price)
  }

  ghost predicate HoldsAt(ladder: Ladder, price: int64, quantity: int64) {
    quantity >= 0 && (price in ladder <==> quantity > 0) && (price in ladder ==> ladder[price] == quantity)
  }

  /** Price by price, the replayed book is exactly what the stream last said. */
  lemma {:induction false} BookIsLastQuantity(es: seq<Event>, venue: string, known: bool, buy: bool, price: int64)
    requires BookAfter(es, venue, EmptyDepth(known)).Some?
    ensures HoldsAt(BookAfter(es, venue, EmptyDepth(known)).value.Side(buy), price, LastQuantity(es, venue, buy, price))
  {
    if es != [] {
      var e, before := es[|es| - 1], es[..|es| - 1];
      BookIsLastQuantity(before, venue, known, buy, price);
      if e.venue == venue && e.evidence.Snapshot? {
        var full := if buy then e.evidence.bids else e.evidence.asks;
        ShownIsDisplayed(full, price);
        DisplayedIsNat(full, price);
      }
    }
  }

  lemma {:induction false} BooksArePositive(es: seq<Event>, venue: string, known: bool)
    requires BookAfter(es, venue, EmptyDepth(known)).Some?
    ensures var d := BookAfter(es, venue, EmptyDepth(known)).value; Positive(d.bids) && Positive(d.asks)
  {
    var d := BookAfter(es, venue, EmptyDepth(known)).value;
    forall p | p in d.bids
      ensures d.bids[p] > 0
    {
      BookIsLastQuantity(es, venue, known, true, p);
    }
    forall p | p in d.asks
      ensures d.asks[p] > 0
    {
      BookIsLastQuantity(es, venue, known, false, p);
    }
  }

  // ----- the actor's side -----

  datatype Message =
    | BookMessage(bids: seq<Level>, asks: seq<Level>)
    | DeltaMessage(buy: bool, price: int64, visible: int64)

  datatype Sourced = Refused | Skipped | Sent(message: Message)

  /** The message the exchange would have sent for a record, if the record carries that source sequence. */
  function SourceMessage(e: Evidence, sequence: uint64): Sourced {
    match e
    case Snapshot(_, _, sourceSequence, publicBids, publicAsks) =>
      if sourceSequence != sequence then Skipped
      else if SnapshotOk(e) then Sent(BookMessage(publicBids, publicAsks))
      else Refused
    case Delta(side, price, visible, _, _) =>
      if DeltaOk(e) then Sent(DeltaMessage(side != "SELL", price, visible)) else Refused
    case Unreadable => Refused
  }

  /** Every level written in turn, whatever its quantity. */
  function Filled(levels: seq<Level>): Ladder {
    if levels == [] then map[]
    else Filled(levels[..|levels| - 1])[levels[|levels| - 1].price := levels[|levels| - 1].visible]
  }

  method Fill(levels: seq<Level>) returns (ladder: Ladder)
    ensures ladder == Filled(levels)
  {
    ladder := map[];
    for i := 0 to |levels|
      invariant ladder == Filled(levels[..i])
    {
      assert levels[..i + 1][..i] == levels[..i];
      ladder := ladder[levels[i].price := levels[i].visible];
    }
    assert levels[..|levels|] == levels;
  }

  function Consumed(d: Depth, m: Message): Option<Depth> {
    match m
    case BookMessage(bids, asks) => Some(Depth(Filled(bids), Filled(asks), true))
    case DeltaMessage(buy, price, visible) => if d.known then Some(Change(d, buy, price, visible)) else None
  }

  /** The sequence an evaluation names when it consumed this record. */
  function NamedSequence(e: Evidence): uint64 {
    if e.Snapshot? then e.sourceSequence else 0
  }

  /** An actor that consumes every message of one venue, from some local book on. */
  function ConsumeAll(local: Depth, es: seq<Event>, venue: string): Option<Depth> {
    if es == [] then Some(local)
    else
      var e := es[|es| - 1];
      match ConsumeAll(local, es[..|es| - 1], venue)
      case None => None
      case Some(d) =>
        if e.venue != venue then Some(d)
        else
          match SourceMessage(e.evidence, NamedSequence(e.evidence))
          case Sent(m) => Consumed(d, m)
          case _ => None
  }

  lemma {:induction false} FilledIsShown(levels: seq<Level>)
    requires forall i :: 0 <= i < |levels| ==> PublicLevel(levels[i])
    ensures Filled(levels) == Shown(levels)
  {
    if levels != [] {
      FilledIsShown(levels[..|levels| - 1]);
    }
  }

  /** Consuming a record does to a book in step what publishing it does; a snapshot puts any book in step. */
  lemma ConsumeIsPublish(d: Depth, local: Depth, e: Evidence)
    requires Publish(d, e).Some? && (e.Snapshot? || local == d)
    ensures SourceMessage(e, NamedSequence(e)).Sent?
    ensures Consumed(local, SourceMessage(e, NamedSequence(e)).message) == Publish(d, e)
  {
    if e.Snapshot? {
      FilledIsShown(e.publicBids);
      FilledIsShown(e.publicAsks);
    }
  }

  /** From a snapshot on, an actor that consumes every message holds exactly the public book, whatever it held
      before. */
  lemma {:induction false} ActorHoldsThePublicBook(es: seq<Event>, venue: string, initial: Depth, local: Depth, k: nat, n: nat)
    requires k < n <= |es| && BookAfter(es[..n], venue, initial).Some?
    requires es[k].venue == venue && es[k].evidence.Snapshot?
    ensures ConsumeAll(local, es[k..n], venue) == BookAfter(es[..n], venue, initial)
    decreases n
  {
    hide Publish, Consumed, SourceMessage, NamedSequence, BookAfter;
    var e := es[n - 1];
    BookStep(es, venue, initial, n - 1);
    assert es[k..n][..n - 1 - k] == es[k..n - 1] && es[k..n][n - 1 - k] == e;
    if k == n - 1 {
      assert es[k..k] == [];
      ConsumeIsPublish(BookAfter(es[..k], venue, initial).value, local, e.evidence);
    } else {
      ActorHoldsThePublicBook(es, venue, initial, local, k, n - 1);
      if e.venue == venue {
        var d := BookAfter(es[..n - 1], venue, initial).value;
        ConsumeIsPublish(d, d, e.evidence);
      }
    }
  }

  // ----- what the episode reconstruction is fed -----

  /** The transitions a replay reports are admissible to the episode reconstruction. */
  lemma ReplayFeedsEpisodes(es: seq<Event>, o: Options, trs: seq<CrossVenueEpisodes.Transition>, horizon: int64, c: Convention)
    requires Accepts(es, o) && |trs| == |es| && ReportsAll(trs, es, o)
    requires ValidConvention(o.venues, c) && horizon > 0 && forall k :: 0 <= k < |es| ==> es[k].at <= horizon
    ensures CrossVenueEpisodes.Admissible(o.venues, trs, horizon, c)
  {
    hide BookAfter, IsTouch, Observed;
    forall k | 0 <= k < |trs|
      ensures CrossVenueEpisodes.OkAt(o.venues, trs, horizon, k)
    {
      assert Reports(trs[k], es, o, k) && InOrder(es, o, k);
      assert k > 0 ==> Reports(trs[k - 1], es, o, k - 1);
    }
  }

  /** At every point of the run the latest touch of a venue that has spoken is the touch of its current book. */
  lemma {:induction false} LatestTouchIsTheBooks(es: seq<Event>, o: Options, trs: seq<CrossVenueEpisodes.Transition>,
                                                 venue: string, n: nat)
    requires |trs| == |es| && ReportsAll(trs, es, o) && n <= |es| && Speaks(es[..n], venue)
    requires BookAfter(es[..n], venue, Initial(o)).Some?
    ensures CrossVenueEpisodes.Latest(trs[..n], venue).Some?
    ensures IsTouch(CrossVenueEpisodes.Latest(trs[..n], venue).value, BookAfter(es[..n], venue, Initial(o)).value)
  {
    assert n > 0;
    assert Reports(trs[n - 1], es, o, n - 1);
    assert trs[..n][..n - 1] == trs[..n - 1];
    SpeaksStep(es, venue, n - 1);
    BookStep(es, venue, Initial(o), n - 1);
    hide BookAfter, IsTouch, Publish;
    if es[n - 1].venue != venue {
      LatestTouchIsTheBooks(es, o, trs, venue, n - 1);
    }
  }
}
