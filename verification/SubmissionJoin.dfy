/** Submitted evaluations joined to gateway decisions and exchange placements
(analysis/crossvenue_submission_join.go). */
module SubmissionJoin {
  import opened Int64
  import opened RouterEvidence

  datatype Feed = Feed(venue: string, client: uint64, link: uint64, ordinal: uint64, deliveredAt: int64, digest: nat)

  datatype Evaluation = Evaluation(event: Stamp, generation: uint64, reason: string, selectedBuy: string,
                                   selectedSell: string, quotedEdge: int64, feeds: seq<Feed>)

  datatype Component = Component(client: uint64, link: uint64, ordinal: uint64, deliveredAt: int64, digest: nat)

  datatype Side = Buy | Sell

  datatype Decision = Decision(id: uint64, actor: uint64, client: uint64, request: uint64, tradingLink: uint64,
                               symbol: string, side: Side, isMarket: bool, isFok: bool, price: int64, qty: int64,
                               at: int64, componentCount: uint64, components: seq<Component>)

  datatype Leg = Leg(decision: Decision, placement: Placement)

  datatype Group = Group(generation: uint64, buy: Leg, sell: Leg)

  datatype Link = Link(client: uint64, link: uint64)

  // ----- routes and feeds -----

  predicate FeedOk(f: Feed, at: int64) {
    f.venue != "" && f.client != 0 && f.link != 0 && f.ordinal != 0 && f.deliveredAt <= at && f.digest != 0
  }

  predicate RouteOk(e: Evaluation) {
    && e.generation != 0 && e.quotedEdge > 0
    && e.selectedBuy != "" && e.selectedSell != "" && e.selectedBuy != e.selectedSell
    && |e.feeds| == 2 && FeedOk(e.feeds[0], e.event.at) && FeedOk(e.feeds[1], e.event.at)
    && e.feeds[0].venue != e.feeds[1].venue
    && (e.selectedBuy == e.feeds[0].venue || e.selectedBuy == e.feeds[1].venue)
    && (e.selectedSell == e.feeds[0].venue || e.selectedSell == e.feeds[1].venue)
  }

  function FeedOf(e: Evaluation, venue: string): Feed
    requires |e.feeds| == 2
  {
    if e.feeds[0].venue == venue then e.feeds[0] else e.feeds[1]
  }

  function FeedLink(f: Feed): Link {
    Link(f.client, f.link)
  }

  function ComponentLink(c: Component): Link {
    Link(c.client, c.link)
  }

  predicate Same(c: Component, f: Feed) {
    c.ordinal == f.ordinal && c.deliveredAt == f.deliveredAt && c.digest == f.digest
  }

  /** A component repeats one of the two consumed feeds. */
  predicate Repeats(c: Component, feeds: seq<Feed>)
    requires |feeds| == 2
  {
    (ComponentLink(c) == FeedLink(feeds[0]) && Same(c, feeds[0])) || (ComponentLink(c) == FeedLink(feeds[1]) && Same(c, feeds[1]))
  }

  predicate ComponentsMatch(cs: seq<Component>, feeds: seq<Feed>)
    requires |feeds| == 2
  {
    && FeedLink(feeds[0]) != FeedLink(feeds[1])
    && (forall i :: 0 <= i < |cs| ==> Repeats(cs[i], feeds))
    && (forall i, j :: 0 <= i < j < |cs| ==> ComponentLink(cs[i]) != ComponentLink(cs[j]))
  }

  /** The decision was taken on exactly the consumed feeds: every component repeats one, none twice. */
  method MatchComponents(cs: seq<Component>, feeds: seq<Feed>) returns (ok: bool)
    requires |feeds| == 2
    ensures ok <==> ComponentsMatch(cs, feeds)
  {
    var expected: map<Link, Feed> := map[];
    for i := 0 to |feeds|
      invariant expected == if i == 0 then map[]
                            else if i == 1 then map[FeedLink(feeds[0]) := feeds[0]]
                            else map[FeedLink(feeds[0]) := feeds[0], FeedLink(feeds[1]) := feeds[1]]
      invariant i == 2 ==> FeedLink(feeds[0]) != FeedLink(feeds[1])
    {
      if FeedLink(feeds[i]) in expected {
        return false;
      }
      expected := expected[FeedLink(feeds[i]) := feeds[i]];
    }
    var seen: set<Link> := {};
    for i := 0 to |cs|
      invariant forall k :: 0 <= k < i ==> Repeats(cs[k], feeds)
      invariant forall k, j :: 0 <= k < j < i ==> ComponentLink(cs[k]) != ComponentLink(cs[j])
      invariant forall l :: l in seen <==> exists k :: 0 <= k < i && ComponentLink(cs[k]) == l
    {
      var key := ComponentLink(cs[i]);
      if key !in expected || key in seen || !Same(cs[i], expected[key]) {
        return false;
      }
      seen := seen + {key};
    }
    return true;
  }

  // ----- one leg -----

  function LegVenue(e: Evaluation, leg: nat): string {
    if leg == 0 then e.selectedBuy else e.selectedSell
  }

  predicate DecisionAgrees(e: Evaluation, d: Decision, leg: nat, symbol: string, lot: int64)
    requires |e.feeds| == 2
  {
    var feed := FeedOf(e, LegVenue(e, leg));
    && d.id != 0 && d.actor != 0 && d.client == feed.client && d.tradingLink == feed.link && d.request != 0
    && d.symbol == symbol && d.side == (if leg == 0 then Buy else Sell) && d.isMarket && d.isFok && d.price == 0
    && d.qty == lot && d.at == e.event.at && d.componentCount == 2 && |d.components| == 2
    && ComponentsMatch(d.components, e.feeds)
  }

  function LegKey(e: Evaluation, d: Decision, leg: nat): RequestKey
    requires |e.feeds| == 2
  {
    RequestKey(LegVenue(e, leg), FeedOf(e, LegVenue(e, leg)).client, d.request)
  }

  predicate PlacementAgrees(e: Evaluation, d: Decision, p: Placement, leg: nat, lot: int64) {
    && p.event.frame > e.event.frame && p.event.at >= d.at
    && p.side == (if leg == 0 then "BUY" else "SELL") && p.qty == lot
    && (p.kind == "ACCEPTED" || p.kind == "REJECTED")
  }

  // ----- the join -----

  function Submits(es: seq<Evaluation>): seq<Evaluation> {
    if es == [] then []
    else if es[|es| - 1].reason == "SUBMIT" then Submits(es[..|es| - 1]) + [es[|es| - 1]]
    else Submits(es[..|es| - 1])
  }

  ghost predicate FramesAscend(es: seq<Evaluation>) {
    forall i :: 0 <= i < |es| ==> es[i].event.frame != 0 && (i > 0 ==> es[i - 1].event.frame < es[i].event.frame)
  }

  ghost predicate Identified(ps: seq<Placement>) {
    forall i :: 0 <= i < |ps| ==> ps[i].event.venue != "" && ps[i].event.client != 0 && ps[i].requestId != 0
  }

  /** Leg `k` belongs to evaluation `k / 2` and is bound to the placement at `claim`. */
  ghost predicate LegBound(subs: seq<Evaluation>, ds: seq<Decision>, ps: seq<Placement>, symbol: string, lot: int64,
                           k: nat, claim: nat)
    requires k < |ds| && |ds| == 2 * |subs|
  {
    var e, d, leg := subs[k / 2], ds[k], k % 2;
    && RouteOk(e) && d.id > (if k == 0 then 0 else ds[k - 1].id) && DecisionAgrees(e, d, leg, symbol, lot)
    && claim < |ps| && KeyOf(ps[claim]) == LegKey(e, d, leg) && PlacementAgrees(e, d, ps[claim], leg, lot)
  }

  ghost predicate Injective(claims: seq<nat>) {
    forall i, j :: 0 <= i < j < |claims| ==> claims[i] != claims[j]
  }

  ghost predicate LegsBound(subs: seq<Evaluation>, ds: seq<Decision>, ps: seq<Placement>, symbol: string, lot: int64,
                            claims: seq<nat>)
    requires |ds| == 2 * |subs|
  {
    |claims| <= |ds| && Injective(claims) && forall k :: 0 <= k < |claims| ==> LegBound(subs, ds, ps, symbol, lot, k, claims[k])
  }

  datatype Contract = Contract(symbol: string, lotQty: int64, maxAttempts: int)

  /** What the join demands of its inputs; `claims` says which placement each decision got. */
  ghost predicate IsBinding(es: seq<Evaluation>, ds: seq<Decision>, ps: seq<Placement>, c: Contract, claims: seq<nat>) {
    && c.symbol != "" && c.lotQty > 0 && c.maxAttempts > 0 && FramesAscend(es)
    && |Submits(es)| <= c.maxAttempts && |ds| == 2 * |Submits(es)| == |ps|
    && Identified(ps) && DistinctRequests(ps)
    && |claims| == |ds| && LegsBound(Submits(es), ds, ps, c.symbol, c.lotQty, claims)
  }

  /** The groups a binding yields. */
  ghost predicate IsGroups(groups: seq<Group>, subs: seq<Evaluation>, ds: seq<Decision>, ps: seq<Placement>, claims: seq<nat>) {
    && 2 * |groups| <= |claims| && |claims| <= |ds| && |groups| <= |subs|
    && (forall k :: 0 <= k < |claims| ==> claims[k] < |ps|)
    && forall g :: 0 <= g < |groups| ==>
         groups[g] == Group(subs[g].generation, Leg(ds[2 * g], ps[claims[2 * g]]), Leg(ds[2 * g + 1], ps[claims[2 * g + 1]]))
  }

  method CollectSubmits(es: seq<Evaluation>) returns (ok: bool, subs: seq<Evaluation>)
    ensures ok <==> FramesAscend(es)
    ensures ok ==> subs == Submits(es)
  {
    subs := [];
    var last: uint64 := 0;
    for i := 0 to |es|
      invariant FramesAscend(es[..i]) && subs == Submits(es[..i]) && (i > 0 ==> last == es[i - 1].event.frame)
    {
      AscendStep(es, i);
      SubmitsStep(es, i);
      hide FramesAscend, Submits;
      if es[i].event.frame == 0 || (i > 0 && es[i].event.frame <= last) {
        return false, subs;
      }
      last := es[i].event.frame;
      if es[i].reason == "SUBMIT" {
        subs := subs + [es[i]];
      }
    }
    assert es[..|es|] == es;
    return true, subs;
  }

  lemma AscendStep(es: seq<Evaluation>, i: nat)
    requires i < |es| && FramesAscend(es[..i])
    ensures es[i].event.frame == 0 || (i > 0 && es[i].event.frame <= es[i - 1].event.frame) ==> !FramesAscend(es)
    ensures es[i].event.frame != 0 && (i > 0 ==> es[i].event.frame > es[i - 1].event.frame) ==> FramesAscend(es[..i + 1])
  {
    var before, after := es[..i], es[..i + 1];
    assert forall k :: 0 <= k < i ==> before[k] == after[k];
  }

  lemma SubmitsStep(es: seq<Evaluation>, i: nat)
    requires i < |es|
    ensures Submits(es[..i + 1]) == Submits(es[..i]) + if es[i].reason == "SUBMIT" then [es[i]] else []
  {
    assert es[..i + 1][..i] == es[..i];
  }

  method IndexPlacements(ps: seq<Placement>) returns (ok: bool, byRequest: map<RequestKey, nat>)
    ensures ok <==> Identified(ps) && DistinctRequests(ps)
    ensures ok ==> IndexesRequests(byRequest, ps)
  {
    byRequest := map[];
    for i := 0 to |ps|
      invariant Identified(ps[..i]) && DistinctRequests(ps[..i]) && IndexesRequests(byRequest, ps[..i])
    {
      var key := KeyOf(ps[i]);
      if key.venue == "" || key.client == 0 || key.request == 0 {
        return false, byRequest;
      }
      IndexRequestStep(byRequest, ps, i);
      if key in byRequest {
        return false, byRequest;
      }
      DistinctRequestsStep(ps, i);
      byRequest := byRequest[key := i];
    }
    assert ps[..|ps|] == ps;
    return true, byRequest;
  }

  method CheckRoute(e: Evaluation) returns (ok: bool)
    ensures ok <==> RouteOk(e)
  {
    if e.generation == 0 || e.quotedEdge <= 0 || e.selectedBuy == "" || e.selectedSell == "" ||
       e.selectedBuy == e.selectedSell || |e.feeds| != 2 {
      return false;
    }
    var feeds: set<string> := {};
    for i := 0 to 2
      invariant forall k :: 0 <= k < i ==> FeedOk(e.feeds[k], e.event.at)
      invariant feeds == set k | 0 <= k < i :: e.feeds[k].venue
      invariant i == 2 ==> e.feeds[0].venue != e.feeds[1].venue
    {
      if !FeedOk(e.feeds[i], e.event.at) || e.feeds[i].venue in feeds {
        return false;
      }
      feeds := feeds + {e.feeds[i].venue};
    }
    assert feeds == {e.feeds[0].venue, e.feeds[1].venue};
    return e.selectedBuy in feeds && e.selectedSell in feeds;
  }

  /** Any binding that covers a leg gives it the placement found by its key. */
  lemma ClaimsAreForced(subs: seq<Evaluation>, ds: seq<Decision>, ps: seq<Placement>, symbol: string, lot: int64,
                        claims: seq<nat>, other: seq<nat>)
    requires |ds| == 2 * |subs| && DistinctRequests(ps)
    requires LegsBound(subs, ds, ps, symbol, lot, claims) && LegsBound(subs, ds, ps, symbol, lot, other)
    ensures forall k :: 0 <= k < |claims| && k < |other| ==> claims[k] == other[k]
  {
    forall k | 0 <= k < |claims| && k < |other|
      ensures claims[k] == other[k]
    {
      assert LegBound(subs, ds, ps, symbol, lot, k, claims[k]) && LegBound(subs, ds, ps, symbol, lot, k, other[k]);
    }
  }

  /** What binds leg `k`, stated without naming a claim. */
  ghost predicate LegBindable(subs: seq<Evaluation>, ds: seq<Decision>, ps: seq<Placement>, symbol: string, lot: int64,
                              claims: seq<nat>, k: nat)
    requires k < |ds| && |ds| == 2 * |subs|
  {
    exists claim: nat :: LegBound(subs, ds, ps, symbol, lot, k, claim) && claim !in claims
  }

  lemma StuckMeansUnbindable(subs: seq<Evaluation>, ds: seq<Decision>, ps: seq<Placement>, symbol: string, lot: int64,
                             claims: seq<nat>, full: seq<nat>)
    requires |ds| == 2 * |subs| && DistinctRequests(ps) && |claims| < |ds| == |full|
    requires LegsBound(subs, ds, ps, symbol, lot, claims) && LegsBound(subs, ds, ps, symbol, lot, full)
    ensures LegBindable(subs, ds, ps, symbol, lot, claims, |claims|)
  {
    var k := |claims|;
    ClaimsAreForced(subs, ds, ps, symbol, lot, claims, full);
    assert LegBound(subs, ds, ps, symbol, lot, k, full[k]);
    assert forall j :: 0 <= j < k ==> full[j] != full[k];
  }

  /** Binds leg `k`, or finds that nothing can. */
  method BindLeg(subs: seq<Evaluation>, ds: seq<Decision>, ps: seq<Placement>, symbol: string, lot: int64,
                 byRequest: map<RequestKey, nat>, claimed: set<nat>, ghost claims: seq<nat>, k: nat, lastId: uint64)
    returns (index: Option<nat>)
    requires k < |ds| && |ds| == 2 * |subs| && IndexesRequests(byRequest, ps) && RouteOk(subs[k / 2])
    requires lastId == if k == 0 then 0 else ds[k - 1].id
    requires forall c :: c in claimed <==> c in claims
    ensures index.Some? <==> LegBindable(subs, ds, ps, symbol, lot, claims, k)
    ensures index.Some? ==> LegBound(subs, ds, ps, symbol, lot, k, index.value) && index.value !in claims
  {
    var e, d, leg := subs[k / 2], ds[k], k % 2;
    var feed := FeedOf(e, LegVenue(e, leg));
    if d.id == 0 || d.id <= lastId || d.actor == 0 || d.client != feed.client || d.tradingLink != feed.link ||
       d.request == 0 || d.symbol != symbol || d.side != (if leg == 0 then Buy else Sell) || !d.isMarket || !d.isFok ||
       d.price != 0 || d.qty != lot || d.at != e.event.at || d.componentCount != 2 || |d.components| != 2 {
      return None;
    }
    var matched := MatchComponents(d.components, e.feeds);
    if !matched {
      return None;
    }
    var key := LegKey(e, d, leg);
    if key !in byRequest || byRequest[key] in claimed {
      return None;
    }
    var p := ps[byRequest[key]];
    if !PlacementAgrees(e, d, p, leg, lot) {
      return None;
    }
    assert LegBound(subs, ds, ps, symbol, lot, k, byRequest[key]);
    return Some(byRequest[key]);
  }

  lemma ClaimOne(subs: seq<Evaluation>, ds: seq<Decision>, ps: seq<Placement>, symbol: string, lot: int64,
                 claims: seq<nat>, claim: nat)
    requires |ds| == 2 * |subs| && |claims| < |ds| && LegsBound(subs, ds, ps, symbol, lot, claims)
    requires LegBound(subs, ds, ps, symbol, lot, |claims|, claim) && claim !in claims
    ensures LegsBound(subs, ds, ps, symbol, lot, claims + [claim])
  {
    hide LegBound;
    var longer := claims + [claim];
    assert forall k :: 0 <= k < |claims| ==> longer[k] == claims[k];
  }

  /** State of the loop over groups. */
  ghost predicate Joined(subs: seq<Evaluation>, ds: seq<Decision>, ps: seq<Placement>, c: Contract, claims: seq<nat>,
                         claimed: set<nat>, groups: seq<Group>, lastId: uint64)
    requires |ds| == 2 * |subs|
  {
    && |claims| == 2 * |groups| && LegsBound(subs, ds, ps, c.symbol, c.lotQty, claims)
    && (forall i :: i in claimed <==> i in claims) && |claimed| == |claims|
    && IsGroups(groups, subs, ds, ps, claims)
    && lastId == if |claims| == 0 then 0 else ds[|claims| - 1].id
  }

  lemma AppendGroup(subs: seq<Evaluation>, ds: seq<Decision>, ps: seq<Placement>, claims: seq<nat>, groups: seq<Group>,
                    a: nat, b: nat)
    requires IsGroups(groups, subs, ds, ps, claims) && |claims| == 2 * |groups| && |groups| < |subs| && |ds| == 2 * |subs|
    requires a < |ps| && b < |ps|
    ensures var g := |groups|;
            IsGroups(groups + [Group(subs[g].generation, Leg(ds[2 * g], ps[a]), Leg(ds[2 * g + 1], ps[b]))],
                     subs, ds, ps, claims + [a, b])
  {
    var g := |groups|;
    var longer := claims + [a, b];
    assert longer[2 * g] == a && longer[2 * g + 1] == b;
    assert forall k :: 0 <= k < |claims| ==> longer[k] == claims[k];
  }

  lemma NoBinding(es: seq<Evaluation>, ds: seq<Decision>, ps: seq<Placement>, c: Contract, subs: seq<Evaluation>,
                  claims: seq<nat>)
    requires subs == Submits(es) && |ds| == 2 * |subs| && DistinctRequests(ps) && |claims| < |ds|
    requires LegsBound(subs, ds, ps, c.symbol, c.lotQty, claims)
    requires !LegBindable(subs, ds, ps, c.symbol, c.lotQty, claims, |claims|)
    ensures forall full :: !IsBinding(es, ds, ps, c, full)
  {
    forall full
      ensures !IsBinding(es, ds, ps, c, full)
    {
      hide LegsBound, LegBindable, FramesAscend, Identified, DistinctRequests;
      if IsBinding(es, ds, ps, c, full) {
        StuckMeansUnbindable(subs, ds, ps, c.symbol, c.lotQty, claims, full);
      }
    }
  }

  lemma RouteIsNeeded(subs: seq<Evaluation>, ds: seq<Decision>, ps: seq<Placement>, c: Contract, claims: seq<nat>, g: nat)
    requires |ds| == 2 * |subs| && g < |subs| && |claims| == 2 * g && !RouteOk(subs[g])
    ensures !LegBindable(subs, ds, ps, c.symbol, c.lotQty, claims, |claims|)
  {
    assert |claims| / 2 == g;
  }

  /** What is established before the first attempt is bound. */
  ghost predicate Prepared(es: seq<Evaluation>, subs: seq<Evaluation>, ds: seq<Decision>, ps: seq<Placement>, c: Contract,
                           byRequest: map<RequestKey, nat>) {
    && c.symbol != "" && c.lotQty > 0 && c.maxAttempts > 0 && FramesAscend(es)
    && subs == Submits(es) && |subs| <= c.maxAttempts && |ds| == 2 * |subs| == |ps|
    && Identified(ps) && DistinctRequests(ps) && IndexesRequests(byRequest, ps)
  }

  lemma TwoPerAttempt(es: seq<Evaluation>, subs: seq<Evaluation>, ds: seq<Decision>, ps: seq<Placement>, c: Contract,
                      byRequest: map<RequestKey, nat>)
    requires Prepared(es, subs, ds, ps, c, byRequest)
    ensures |ds| == 2 * |subs|
  {
  }

  /** Both legs of the next group. */
  method BindGroup(es: seq<Evaluation>, subs: seq<Evaluation>, ds: seq<Decision>, ps: seq<Placement>, c: Contract,
                   byRequest: map<RequestKey, nat>, claimed: set<nat>, ghost claims: seq<nat>, groups: seq<Group>,
                   lastId: uint64)
    returns (r: Option<Bound>)
    requires Prepared(es, subs, ds, ps, c, byRequest) && |groups| < |subs|
    requires |ds| == 2 * |subs| && Joined(subs, ds, ps, c, claims, claimed, groups, lastId)
    ensures r.Some? ==>
              Joined(subs, ds, ps, c, claims + [r.value.buy, r.value.sell], claimed + {r.value.buy, r.value.sell},
                     groups + [r.value.group], r.value.lastId)
    ensures r.None? ==> forall full :: !IsBinding(es, ds, ps, c, full)
  {
    var g := |groups|;
    hide LegBound, LegBindable, IndexesRequests, RouteOk, DistinctRequests, IsBinding, Submits, IsGroups;
    var route := CheckRoute(subs[g]);
    if !route {
      RouteIsNeeded(subs, ds, ps, c, claims, g);
      NoBinding(es, ds, ps, c, subs, claims);
      return None;
    }
    var buy := BindLeg(subs, ds, ps, c.symbol, c.lotQty, byRequest, claimed, claims, 2 * g, lastId);
    if buy.None? {
      NoBinding(es, ds, ps, c, subs, claims);
      return None;
    }
    ClaimOne(subs, ds, ps, c.symbol, c.lotQty, claims, buy.value);
    ghost var halfway := claims + [buy.value];
    var sell := BindLeg(subs, ds, ps, c.symbol, c.lotQty, byRequest, claimed + {buy.value}, halfway, 2 * g + 1, ds[2 * g].id);
    if sell.None? {
      NoBinding(es, ds, ps, c, subs, halfway);
      return None;
    }
    JoinStep(subs, ds, ps, c, claims, claimed, groups, lastId, buy.value, sell.value);
    r := Some(Bound(Group(subs[g].generation, Leg(ds[2 * g], ps[buy.value]), Leg(ds[2 * g + 1], ps[sell.value])),
                    buy.value, sell.value, ds[2 * g + 1].id));
  }

  lemma JoinStep(subs: seq<Evaluation>, ds: seq<Decision>, ps: seq<Placement>, c: Contract, claims: seq<nat>,
                 claimed: set<nat>, groups: seq<Group>, lastId: uint64, buy: nat, sell: nat)
    requires |ds| == 2 * |subs| && |groups| < |subs| && Joined(subs, ds, ps, c, claims, claimed, groups, lastId)
    requires LegBound(subs, ds, ps, c.symbol, c.lotQty, 2 * |groups|, buy) && buy !in claims
    requires LegBound(subs, ds, ps, c.symbol, c.lotQty, 2 * |groups| + 1, sell) && sell !in claims + [buy]
    ensures buy < |ps| && sell < |ps|
    ensures var g := |groups|;
            Joined(subs, ds, ps, c, claims + [buy, sell], claimed + {buy, sell},
                   groups + [Group(subs[g].generation, Leg(ds[2 * g], ps[buy]), Leg(ds[2 * g + 1], ps[sell]))],
                   ds[2 * g + 1].id)
  {
    var g := |groups|;
    hide LegBound;
    BoundIsInRange(subs, ds, ps, c, 2 * g, buy);
    BoundIsInRange(subs, ds, ps, c, 2 * g + 1, sell);
    ClaimOne(subs, ds, ps, c.symbol, c.lotQty, claims, buy);
    ClaimOne(subs, ds, ps, c.symbol, c.lotQty, claims + [buy], sell);
    assert claims + [buy] + [sell] == claims + [buy, sell];
    AppendGroup(subs, ds, ps, claims, groups, buy, sell);
    hide LegsBound, IsGroups;
    assert claimed + {buy, sell} == claimed + {buy} + {sell};
  }

  /** What one attempt is bound to: its group, the two placements and the last decision identity. */
  datatype Bound = Bound(group: Group, buy: nat, sell: nat, lastId: uint64)

  /** Joins every decision to its own placement, or finds that no binding exists.  The source's last test, that every
      placement was claimed, needs no branch: the counts already force it. */
  method Bind(es: seq<Evaluation>, ds: seq<Decision>, ps: seq<Placement>, c: Contract)
    returns (r: Option<seq<Group>>, ghost claims: seq<nat>)
    ensures r.Some? ==> IsBinding(es, ds, ps, c, claims) && IsGroups(r.value, Submits(es), ds, ps, claims)
    ensures r.Some? ==> |r.value| == |Submits(es)|
    ensures r.None? ==> forall full :: !IsBinding(es, ds, ps, c, full)
  {
    claims := [];
    if c.symbol == "" || c.lotQty <= 0 || c.maxAttempts <= 0 {
      return None, claims;
    }
    var ascending, subs := CollectSubmits(es);
    if !ascending || |subs| > c.maxAttempts || |ds| != 2 * |subs| || |ps| != 2 * |subs| {
      return None, claims;
    }
    var indexed, byRequest := IndexPlacements(ps);
    if !indexed {
      return None, claims;
    }
    assert Prepared(es, subs, ds, ps, c, byRequest);
    hide *;
    r, claims := BindGroups(es, subs, ds, ps, c, byRequest);
  }

  /** The loop over the submitted attempts. */
  method BindGroups(es: seq<Evaluation>, subs: seq<Evaluation>, ds: seq<Decision>, ps: seq<Placement>, c: Contract,
                    byRequest: map<RequestKey, nat>)
    returns (r: Option<seq<Group>>, ghost claims: seq<nat>)
    requires Prepared(es, subs, ds, ps, c, byRequest)
    ensures r.Some? ==> IsBinding(es, ds, ps, c, claims) && IsGroups(r.value, Submits(es), ds, ps, claims)
    ensures r.Some? ==> |r.value| == |Submits(es)|
    ensures r.None? ==> forall full :: !IsBinding(es, ds, ps, c, full)
  {
    claims := [];
    var claimed: set<nat> := {};
    var groups: seq<Group> := [];
    var lastId: uint64 := 0;
    hide *;
    TwoPerAttempt(es, subs, ds, ps, c, byRequest);
    NothingJoined(subs, ds, ps, c);
    for g := 0 to |subs|
      invariant |groups| == g && Joined(subs, ds, ps, c, claims, claimed, groups, lastId)
    {
      var bound := BindGroup(es, subs, ds, ps, c, byRequest, claimed, claims, groups, lastId);
      if bound.None? {
        return None, claims;
      }
      var buy, sell := bound.value.buy, bound.value.sell;
      groups, lastId := groups + [bound.value.group], bound.value.lastId;
      claims, claimed := claims + [buy, sell], claimed + {buy, sell};
    }
    JoinedIsBinding(es, subs, ds, ps, c, byRequest, claims, claimed, groups, lastId);
    assert |claimed| == |ps|;
    r := Some(groups);
  }

  lemma NothingJoined(subs: seq<Evaluation>, ds: seq<Decision>, ps: seq<Placement>, c: Contract)
    requires |ds| == 2 * |subs|
    ensures Joined(subs, ds, ps, c, [], {}, [], 0)
  {
  }

  lemma JoinedIsBinding(es: seq<Evaluation>, subs: seq<Evaluation>, ds: seq<Decision>, ps: seq<Placement>, c: Contract,
                        byRequest: map<RequestKey, nat>, claims: seq<nat>, claimed: set<nat>, groups: seq<Group>,
                        lastId: uint64)
    requires Prepared(es, subs, ds, ps, c, byRequest) && |groups| == |subs|
    requires |ds| == 2 * |subs| && Joined(subs, ds, ps, c, claims, claimed, groups, lastId)
    ensures IsBinding(es, ds, ps, c, claims) && IsGroups(groups, Submits(es), ds, ps, claims)
    ensures |claimed| == |ps| && |groups| == |Submits(es)|
  {
    hide FramesAscend, Identified, DistinctRequests, LegsBound, IsGroups, Submits;
  }

  lemma BoundIsInRange(subs: seq<Evaluation>, ds: seq<Decision>, ps: seq<Placement>, c: Contract, k: nat, claim: nat)
    requires k < |ds| && |ds| == 2 * |subs| && LegBound(subs, ds, ps, c.symbol, c.lotQty, k, claim)
    ensures claim < |ps|
  {
  }

  // ----- one-to-one -----

  /** The placements of the legs, in decision order. */
  function LegPlacements(groups: seq<Group>): seq<Placement> {
    if groups == [] then []
    else LegPlacements(groups[..|groups| - 1]) + [groups[|groups| - 1].buy.placement, groups[|groups| - 1].sell.placement]
  }

  ghost function Claimed(ps: seq<Placement>, claims: seq<nat>): seq<Placement>
    requires forall k :: 0 <= k < |claims| ==> claims[k] < |ps|
  {
    seq(|claims|, k requires 0 <= k < |claims| => ps[claims[k]])
  }

  lemma {:induction false} LegsAreClaims(groups: seq<Group>, subs: seq<Evaluation>, ds: seq<Decision>, ps: seq<Placement>,
                                         claims: seq<nat>)
    requires IsGroups(groups, subs, ds, ps, claims) && |claims| == 2 * |groups|
    ensures LegPlacements(groups) == Claimed(ps, claims)
  {
    if groups == [] {
      hide IsGroups;
    } else {
      var g := |groups| - 1;
      FewerGroups(groups, subs, ds, ps, claims, g);
      GroupIs(groups, subs, ds, ps, claims, g);
      AllClaimsIn(groups, subs, ds, ps, claims);
      hide *;
      LegsAreClaims(groups[..g], subs, ds, ps, claims[..2 * g]);
      LastLegs(groups, g);
      ClaimedTwo(ps, claims, 2 * g);
    }
  }

  lemma LastLegs(groups: seq<Group>, g: nat)
    requires |groups| == g + 1
    ensures LegPlacements(groups) == LegPlacements(groups[..g]) + [groups[g].buy.placement, groups[g].sell.placement]
  {
  }

  lemma AllClaimsIn(groups: seq<Group>, subs: seq<Evaluation>, ds: seq<Decision>, ps: seq<Placement>, claims: seq<nat>)
    requires IsGroups(groups, subs, ds, ps, claims)
    ensures forall k :: 0 <= k < |claims| ==> claims[k] < |ps|
  {
  }

  lemma GroupIs(groups: seq<Group>, subs: seq<Evaluation>, ds: seq<Decision>, ps: seq<Placement>, claims: seq<nat>, g: nat)
    requires g < |groups| && IsGroups(groups, subs, ds, ps, claims)
    ensures claims[2 * g] < |ps| && claims[2 * g + 1] < |ps|
    ensures groups[g].buy.placement == ps[claims[2 * g]] && groups[g].sell.placement == ps[claims[2 * g + 1]]
  {
  }

  lemma FewerGroups(groups: seq<Group>, subs: seq<Evaluation>, ds: seq<Decision>, ps: seq<Placement>, claims: seq<nat>, g: nat)
    requires |groups| == g + 1 && IsGroups(groups, subs, ds, ps, claims) && |claims| == 2 * |groups|
    ensures IsGroups(groups[..g], subs, ds, ps, claims[..2 * g])
  {
    var fewer := claims[..2 * g];
    assert forall k :: 0 <= k < |fewer| ==> fewer[k] == claims[k];
  }

  lemma ClaimedTwo(ps: seq<Placement>, claims: seq<nat>, n: nat)
    requires |claims| == n + 2 && forall k :: 0 <= k < |claims| ==> claims[k] < |ps|
    ensures Claimed(ps, claims) == Claimed(ps, claims[..n]) + [ps[claims[n]], ps[claims[n + 1]]]
  {
  }

  ghost predicate Distinct<T>(s: seq<T>) {
    forall i, j :: 0 <= i < j < |s| ==> s[i] != s[j]
  }

  lemma {:induction false} DistinctCounts<T>(s: seq<T>)
    requires Distinct(s)
    ensures |set x | x in s| == |s|
    ensures forall x :: x in s ==> multiset(s)[x] == 1
  {
    if s != [] {
      var n := |s| - 1;
      var front, last := s[..n], s[n];
      DistinctCounts(front);
      assert s == front + [last];
      assert last !in front;
      assert (set x | x in s) == (set x | x in front) + {last};
    }
  }

  lemma SubsetOfSameSize<T>(a: set<T>, b: set<T>)
    requires a <= b && |a| == |b|
    ensures a == b
  {
    var d := b - a;
    assert b == a + d && |b| == |a| + |d|;
    assert d == {};
  }

  /** Two duplicate-free lists of one length, one within the other, hold the same elements. */
  lemma SameElements<T>(a: seq<T>, b: seq<T>)
    requires Distinct(a) && Distinct(b) && |a| == |b| && forall i :: 0 <= i < |a| ==> a[i] in b
    ensures multiset(a) == multiset(b)
  {
    DistinctCounts(a);
    DistinctCounts(b);
    var inA, inB := set x | x in a, set x | x in b;
    SubsetOfSameSize(inA, inB);
    forall x: T
      ensures multiset(a)[x] == multiset(b)[x]
    {
      assert x in a <==> x in inA;
      assert x in b <==> x in inB;
      if x in a {
        assert x in b;
        assert multiset(a)[x] == 1 && multiset(b)[x] == 1;
      } else {
        assert x !in multiset(a) && x !in multiset(b);
      }
    }
  }

  lemma ClaimedAreDistinct(ps: seq<Placement>, claims: seq<nat>)
    requires DistinctRequests(ps) && Injective(claims) && |claims| == |ps|
    requires forall k :: 0 <= k < |claims| ==> claims[k] < |ps|
    ensures Distinct(Claimed(ps, claims)) && multiset(Claimed(ps, claims)) == multiset(ps)
  {
    var legs := Claimed(ps, claims);
    assert Distinct(ps) by {
      forall i, j | 0 <= i < j < |ps|
        ensures ps[i] != ps[j]
      {
        assert KeyOf(ps[i]) != KeyOf(ps[j]);
      }
    }
    hide DistinctRequests;
    forall i, j | 0 <= i < j < |legs|
      ensures legs[i] != legs[j]
    {
      assert claims[i] != claims[j];
      assert ps[claims[i]] != ps[claims[j]];
    }
    SameElements(legs, ps);
  }

  /** Decisions and placements correspond one to one: the legs' placements are the placements, each exactly once. */
  lemma LegsArePlacements(es: seq<Evaluation>, ds: seq<Decision>, ps: seq<Placement>, c: Contract, claims: seq<nat>,
                          groups: seq<Group>)
    requires IsBinding(es, ds, ps, c, claims)
    requires IsGroups(groups, Submits(es), ds, ps, claims) && |groups| == |Submits(es)|
    ensures multiset(LegPlacements(groups)) == multiset(ps)
    ensures Distinct(LegPlacements(groups))
  {
    var subs := Submits(es);
    LegsAreClaims(groups, subs, ds, ps, claims);
    hide LegBound, LegPlacements, FramesAscend, Identified, IsGroups, Submits, DistinctRequests;
    ClaimedAreDistinct(ps, claims);
  }

  /** Each side of a group is a placement of that side for one lot. */
  lemma LegSides(es: seq<Evaluation>, ds: seq<Decision>, ps: seq<Placement>, c: Contract, claims: seq<nat>,
                 groups: seq<Group>, g: nat)
    requires IsBinding(es, ds, ps, c, claims)
    requires IsGroups(groups, Submits(es), ds, ps, claims) && |groups| == |Submits(es)| && g < |groups|
    ensures groups[g].buy.placement.side == "BUY" && groups[g].sell.placement.side == "SELL"
  {
    hide LegBound, Submits, FramesAscend, Identified, DistinctRequests;
    BoundSide(Submits(es), ds, ps, c, 2 * g, claims[2 * g]);
    BoundSide(Submits(es), ds, ps, c, 2 * g + 1, claims[2 * g + 1]);
  }

  lemma BoundSide(subs: seq<Evaluation>, ds: seq<Decision>, ps: seq<Placement>, c: Contract, k: nat, claim: nat)
    requires k < |ds| && |ds| == 2 * |subs| && LegBound(subs, ds, ps, c.symbol, c.lotQty, k, claim)
    ensures ps[claim].side == (if k % 2 == 0 then "BUY" else "SELL") && ps[claim].qty == c.lotQty
    ensures ps[claim].kind == "ACCEPTED" || ps[claim].kind == "REJECTED"
  {
  }
}
