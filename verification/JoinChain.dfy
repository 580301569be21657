/** What the four reconciliations say together: decisions, placements, fills and accounts of one router
(analysis/crossvenue_submission_join.go, analysis/crossvenue_placement_join.go,
analysis/crossvenue_terminal_groups.go, analysis/crossvenue_accounts.go). */
module JoinChain {
  import opened Int64
  import Sums
  import opened RouterEvidence
  import opened SubmissionJoin
  import P = PlacementJoin
  import T = TerminalGroups
  import A = RouterAccounts

  function Signed(side: string, quantity: int): int {
    if side == "BUY" then quantity else -quantity
  }

  /** What a fully settled placement leaves in the account. */
  function Leaves(p: Placement, lot: int): int {
    if Accepted(p) then Signed(p.side, lot) else 0
  }

  function LeavesWith(lot: int): Placement -> int {
    p => Leaves(p, lot)
  }

  function PlacementSum(ps: seq<Placement>, lot: int): int {
    Sums.Sum(LeavesWith(lot), ps)
  }

  // ----- fills to placements -----

  function SettledSum(ps: seq<Placement>, fs: seq<Fill>): int {
    if ps == [] then 0 else SettledSum(ps[..|ps| - 1], fs) + Signed(ps[|ps| - 1].side, P.Settled(ps[|ps| - 1], fs))
  }

  predicate Hits(p: Placement, f: Fill) {
    Accepted(p) && OrderOf(p) == FillOrder(f)
  }

  /** What one fill adds over all placements. */
  function HitSum(ps: seq<Placement>, f: Fill): int {
    if ps == [] then 0 else HitSum(ps[..|ps| - 1], f) + if Hits(ps[|ps| - 1], f) then Signed(ps[|ps| - 1].side, f.qty) else 0
  }

  lemma {:induction false} NoHit(ps: seq<Placement>, f: Fill)
    requires forall i :: 0 <= i < |ps| ==> !Hits(ps[i], f)
    ensures HitSum(ps, f) == 0
  {
    if ps != [] {
      NoHit(ps[..|ps| - 1], f);
    }
  }

  lemma {:induction false} OneHit(ps: seq<Placement>, f: Fill, i: nat)
    requires i < |ps| && DistinctOrders(ps) && Hits(ps[i], f)
    ensures HitSum(ps, f) == Signed(ps[i].side, f.qty)
  {
    var n := |ps| - 1;
    var front := ps[..n];
    if i == n {
      assert forall k :: 0 <= k < n ==> front[k] == ps[k];
      NoHit(front, f);
    } else {
      assert front[i] == ps[i] && (Accepted(ps[n]) ==> OrderOf(ps[i]) != OrderOf(ps[n]));
      OneHit(front, f, i);
    }
  }

  lemma {:induction false} SettledSumStep(ps: seq<Placement>, fs: seq<Fill>)
    requires fs != []
    ensures SettledSum(ps, fs) == SettledSum(ps, fs[..|fs| - 1]) + HitSum(ps, fs[|fs| - 1])
  {
    if ps != [] {
      SettledSumStep(ps[..|ps| - 1], fs);
    }
  }

  lemma {:induction false} NothingSettled(ps: seq<Placement>)
    ensures SettledSum(ps, []) == 0
  {
    if ps != [] {
      NothingSettled(ps[..|ps| - 1]);
    }
  }

  lemma {:induction false} NetIsSettledSum(ps: seq<Placement>, fs: seq<Fill>, horizon: int64)
    requires P.FillsOk(ps, fs, horizon) && DistinctOrders(ps)
    ensures A.Net(fs) == SettledSum(ps, fs)
  {
    if fs == [] {
      NothingSettled(ps);
    } else {
      var n := |fs| - 1;
      var front, f := fs[..n], fs[n];
      assert forall j :: 0 <= j < n ==> front[j] == fs[j];
      assert P.Settles(ps, f, horizon);
      var i :| 0 <= i < |ps| && P.FillAgrees(ps[i], f, horizon);
      NetIsSettledSum(ps, front, horizon);
      SettledSumStep(ps, fs);
      OneHit(ps, f, i);
    }
  }

  lemma {:induction false} SettledSumIsLots(ps: seq<Placement>, fs: seq<Fill>, lot: int64)
    requires P.AllFilled(ps, fs, lot)
    ensures SettledSum(ps, fs) == PlacementSum(ps, lot)
  {
    if ps != [] {
      var front := ps[..|ps| - 1];
      assert forall i :: 0 <= i < |front| ==> front[i] == ps[i];
      SettledSumIsLots(front, fs, lot);
    }
  }

  // ----- placements to groups -----

  function Indicator(accepted: bool): int {
    if accepted then 1 else 0
  }

  /** One lot for every accepted buy leg less one for every accepted sell leg. */
  function GroupSum(groups: seq<Group>, lot: int): int {
    if groups == [] then 0
    else
      var g := groups[|groups| - 1];
      GroupSum(groups[..|groups| - 1], lot)
      + lot * (Indicator(Accepted(g.buy.placement)) - Indicator(Accepted(g.sell.placement)))
  }

  ghost predicate SidesOk(groups: seq<Group>) {
    forall g :: 0 <= g < |groups| ==> groups[g].buy.placement.side == "BUY" && groups[g].sell.placement.side == "SELL"
  }

  lemma {:induction false} LegSum(groups: seq<Group>, lot: int)
    requires SidesOk(groups)
    ensures PlacementSum(LegPlacements(groups), lot) == GroupSum(groups, lot)
  {
    if groups != [] {
      var n := |groups| - 1;
      var front, g := groups[..n], groups[n];
      LegSum(front, lot);
      var legs := [g.buy.placement, g.sell.placement];
      Sums.SumConcat(LeavesWith(lot), LegPlacements(front), legs);
      TwoLegs(g.buy.placement, g.sell.placement, lot);
    }
  }

  lemma TwoLegs(buy: Placement, sell: Placement, lot: int)
    requires buy.side == "BUY" && sell.side == "SELL"
    ensures PlacementSum([buy, sell], lot) == lot * (Indicator(Accepted(buy)) - Indicator(Accepted(sell)))
  {
    assert [buy, sell] == [buy] + [sell];
    Sums.SumConcat(LeavesWith(lot), [buy], [sell]);
    Sums.SumOfOne(LeavesWith(lot), buy);
    Sums.SumOfOne(LeavesWith(lot), sell);
  }

  /** The inputs on which submission and placement joins both succeeded. */
  ghost predicate Joined(es: seq<Evaluation>, ds: seq<Decision>, ps: seq<Placement>, rs: seq<P.Receipt>, fs: seq<Fill>,
                         c: Contract, horizon: int64, claims: seq<nat>, groups: seq<Group>) {
    && IsBinding(es, ds, ps, c, claims)
    && IsGroups(groups, Submits(es), ds, ps, claims) && |groups| == |Submits(es)|
    && P.Reconcilable(ps, rs, fs, horizon, c.lotQty)
  }

  lemma JoinedSides(es: seq<Evaluation>, ds: seq<Decision>, ps: seq<Placement>, rs: seq<P.Receipt>, fs: seq<Fill>,
                    c: Contract, horizon: int64, claims: seq<nat>, groups: seq<Group>)
    requires Joined(es, ds, ps, rs, fs, c, horizon, claims, groups)
    ensures SidesOk(groups)
  {
    hide IsBinding, IsGroups, P.Reconcilable, Submits;
    forall g | 0 <= g < |groups|
      ensures groups[g].buy.placement.side == "BUY" && groups[g].sell.placement.side == "SELL"
    {
      LegSides(es, ds, ps, c, claims, groups, g);
    }
  }

  /** For any number of attempts, the two accounts' base changes add up to one lot for every accepted buy less one for
      every accepted sell. */
  lemma BaseDeltasCountAcceptedLegs(es: seq<Evaluation>, ds: seq<Decision>, ps: seq<Placement>, rs: seq<P.Receipt>,
                                    fs: seq<Fill>, c: Contract, horizon: int64, claims: seq<nat>, groups: seq<Group>,
                                    rep: A.Report, vs: A.Venues, clients: map<string, uint64>, conv: A.Convention,
                                    a: A.Delta, b: A.Delta)
    requires Joined(es, ds, ps, rs, fs, c, horizon, claims, groups)
    requires A.Reconciles(rep, vs, clients, fs, conv, a, b)
    ensures a.baseDelta + b.baseDelta == GroupSum(groups, c.lotQty)
  {
    JoinedSides(es, ds, ps, rs, fs, c, horizon, claims, groups);
    assert P.FillsOk(ps, fs, horizon) && P.AllFilled(ps, fs, c.lotQty) && DistinctOrders(ps);
    hide IsBinding, IsGroups, P.Reconcilable, Submits, A.Reconciles, P.FillsOk, P.AllFilled, DistinctOrders, SidesOk;
    A.BaseDeltasAreNetFills(rep, vs, clients, fs, conv, a, b);
    NetIsSettledSum(ps, fs, horizon);
    SettledSumIsLots(ps, fs, c.lotQty);
    LegsArePlacements(es, ds, ps, c, claims, groups);
    Sums.SumOfPermutation(LeavesWith(c.lotQty), LegPlacements(groups), ps);
    LegSum(groups, c.lotQty);
  }

  /** A matched first attempt leaves no net base; an unmatched one leaves exactly the accepted leg's lot. */
  lemma MatchedFokNetsToZero(es: seq<Evaluation>, ds: seq<Decision>, ps: seq<Placement>, rs: seq<P.Receipt>,
                             fs: seq<Fill>, c: Contract, horizon: int64, claims: seq<nat>, groups: seq<Group>,
                             rep: A.Report, vs: A.Venues, clients: map<string, uint64>, conv: A.Convention,
                             a: A.Delta, b: A.Delta, results: seq<P.Result>, counters: T.Counters, i: nat, j: nat)
    requires Joined(es, ds, ps, rs, fs, c, horizon, claims, groups) && |groups| == 1
    requires A.Reconciles(rep, vs, clients, fs, conv, a, b)
    requires T.TerminalOk(groups, results, fs, counters, c.lotQty, i, j)
    ensures var t, g := T.TerminalOf(groups[0].generation, results[i], results[j], fs), groups[0];
            && a.baseDelta + b.baseDelta == c.lotQty * (Indicator(Accepted(g.buy.placement)) - Indicator(Accepted(g.sell.placement)))
            && (t.exchange.MatchedFok? <==> Accepted(g.buy.placement) && Accepted(g.sell.placement))
            && (t.exchange.MatchedFok? ==> a.baseDelta + b.baseDelta == 0)
            && (t.exchange.UnmatchedFok? ==> a.baseDelta + b.baseDelta in {0, c.lotQty as int, -(c.lotQty as int)})
  {
    BaseDeltasCountAcceptedLegs(es, ds, ps, rs, fs, c, horizon, claims, groups, rep, vs, clients, conv, a, b);
    OneGroup(groups, c.lotQty);
    SettledKinds(groups[0], results, fs, c.lotQty, i, j);
    hide Joined, T.TerminalOk, A.Reconciles, T.ActorOf, T.LegMissing, T.LegEarly, GroupSum, Accepted, T.IsAccepted;
  }

  lemma OneGroup(groups: seq<Group>, lot: int)
    requires |groups| == 1
    ensures GroupSum(groups, lot)
            == lot * (Indicator(Accepted(groups[0].buy.placement)) - Indicator(Accepted(groups[0].sell.placement)))
  {
    assert groups[..0] == [];
  }

  lemma SettledKinds(g: Group, results: seq<P.Result>, fs: seq<Fill>, lot: int64, i: nat, j: nat)
    requires T.Settles(g, results, fs, lot, i, j)
    ensures i < |results| && j < |results|
    ensures T.IsAccepted(results[i]) == Accepted(g.buy.placement) && T.IsAccepted(results[j]) == Accepted(g.sell.placement)
  {
    hide T.Partitioned, T.Count;
  }

  // ----- the terminal step accepts what the earlier steps accepted -----

  lemma {:induction false} AckIsFromTheInbox(rs: seq<P.Receipt>, key: RequestKey)
    requires P.AckOf(rs, key).Some?
    ensures P.IsAck(P.AckOf(rs, key).value) && P.ReceiptKey(P.AckOf(rs, key).value) == key && P.AckOf(rs, key).value in rs
  {
    if !(P.IsAck(rs[|rs| - 1]) && P.ReceiptKey(rs[|rs| - 1]) == key) {
      AckIsFromTheInbox(rs[..|rs| - 1], key);
    }
  }

  lemma InboxIsConsistent(ps: seq<Placement>, rs: seq<P.Receipt>, horizon: int64, p: Placement)
    requires P.AcksOk(ps, rs, horizon)
    ensures P.Acknowledged(p, rs).inboxAt.None? <==> P.Acknowledged(p, rs).inboxFrame == 0
  {
    if P.AckOf(rs, KeyOf(p)).Some? {
      AckIsFromTheInbox(rs, KeyOf(p));
      var r := P.AckOf(rs, KeyOf(p)).value;
      assert P.Anchored(ps, r, horizon);
    }
  }

  lemma {:induction false} SettledNeedsAFill(fs: seq<Fill>, key: OrderKey)
    requires P.FilledOf(fs, key) != 0
    ensures exists j :: 0 <= j < |fs| && FillOrder(fs[j]) == key
  {
    var n := |fs| - 1;
    if FillOrder(fs[n]) != key {
      SettledNeedsAFill(fs[..n], key);
      var j :| 0 <= j < n && FillOrder(fs[..n][j]) == key;
      assert FillOrder(fs[j]) == key;
    }
  }

  lemma {:induction false} CountPositive(fs: seq<Fill>, r: P.Result, j: nat)
    requires j < |fs| && T.FillOf(fs[j], r)
    ensures T.Count(fs, r) > 0
  {
    if j < |fs| - 1 {
      assert fs[..|fs| - 1][j] == fs[j];
      CountPositive(fs[..|fs| - 1], r, j);
    }
  }

  /** A fill's result is the one of the placement it settles. */
  lemma FillFindsItsResult(ps: seq<Placement>, fs: seq<Fill>, horizon: int64, p: Placement, r: P.Result, j: nat)
    requires P.FillsOk(ps, fs, horizon) && DistinctOrders(ps) && p in ps && Accepted(p) && j < |fs|
    requires r.venue == p.event.venue && r.client == p.event.client && r.orderId == p.orderId
    ensures T.FillOf(fs[j], r) <==> FillOrder(fs[j]) == OrderOf(p)
  {
    assert P.Settles(ps, fs[j], horizon);
    var i :| 0 <= i < |ps| && P.FillAgrees(ps[i], fs[j], horizon);
    var k :| 0 <= k < |ps| && ps[k] == p;
    assert i < k ==> OrderOf(ps[i]) != OrderOf(ps[k]);
    assert k < i ==> OrderOf(ps[k]) != OrderOf(ps[i]);
  }

  lemma ResultIsOk(ps: seq<Placement>, rs: seq<P.Receipt>, fs: seq<Fill>, horizon: int64, lot: int64, k: nat, r: P.Result)
    requires P.Reconcilable(ps, rs, fs, horizon, lot) && k < |ps| && P.IsResult(r, ps[k], rs, fs)
    ensures T.LegOk(r, ps[k], fs, lot)
    ensures T.ResultOf(r, ps[k]) && (T.IsAccepted(r) <==> Accepted(ps[k]))
    ensures r.venue == ps[k].event.venue && r.client == ps[k].event.client && r.orderId == ps[k].orderId
  {
    var p := ps[k];
    InboxIsConsistent(ps, rs, horizon, p);
    assert P.PlacementOk(ps, k, horizon, lot);
    if Accepted(p) {
      assert P.Settled(p, fs) == lot;
      SettledNeedsAFill(fs, OrderOf(p));
      var j :| 0 <= j < |fs| && FillOrder(fs[j]) == OrderOf(p);
      FillFindsItsResult(ps, fs, horizon, p, r, j);
      CountPositive(fs, r, j);
    }
    hide P.AcksOk, P.FillsOk, P.AllFilled, DistinctRequests, DistinctOrders, P.FilledOf, T.Count, P.AckOf;
  }

  lemma OnlyResult(ps: seq<Placement>, results: seq<P.Result>, rs: seq<P.Receipt>, fs: seq<Fill>, k: nat)
    requires DistinctRequests(ps) && P.AreResults(results, ps, rs, fs) && k < |ps|
    ensures T.IsOnly(results, ps[k], k)
  {
    forall n | 0 <= n < |results|
      ensures T.ResultOf(results[n], ps[k]) <==> n == k
    {
      assert P.IsResult(results[n], ps[n], rs, fs);
      assert RequestKey(results[n].venue, results[n].client, results[n].requestId) == KeyOf(ps[n]);
      if n < k {
        assert KeyOf(ps[n]) != KeyOf(ps[k]);
      } else if k < n {
        assert KeyOf(ps[k]) != KeyOf(ps[n]);
      }
    }
  }

  lemma EveryFillHasOneLeg(ps: seq<Placement>, fs: seq<Fill>, horizon: int64, i: nat, j: nat, a: P.Result, b: P.Result)
    requires P.FillsOk(ps, fs, horizon) && DistinctOrders(ps) && |ps| == 2 && i < 2 && j < 2 && i != j
    requires a.venue == ps[i].event.venue && a.client == ps[i].event.client && a.orderId == ps[i].orderId
    requires b.venue == ps[j].event.venue && b.client == ps[j].event.client && b.orderId == ps[j].orderId
    requires T.IsAccepted(a) == Accepted(ps[i]) && T.IsAccepted(b) == Accepted(ps[j])
    ensures T.Partitioned(a, b, fs)
  {
    forall n | 0 <= n < |fs|
      ensures T.Claims(a, fs[n]) <==> !T.Claims(b, fs[n])
    {
      assert P.Settles(ps, fs[n], horizon);
      var k :| 0 <= k < |ps| && P.FillAgrees(ps[k], fs[n], horizon);
      assert ps[i] in ps && ps[j] in ps;
      if Accepted(ps[i]) {
        FillFindsItsResult(ps, fs, horizon, ps[i], a, n);
      }
      if Accepted(ps[j]) {
        FillFindsItsResult(ps, fs, horizon, ps[j], b, n);
      }
      assert Accepted(ps[i]) && Accepted(ps[j]) ==> OrderOf(ps[i]) != OrderOf(ps[j]);
      assert k == i || k == j;
    }
  }

  lemma BothLegsBound(es: seq<Evaluation>, ds: seq<Decision>, ps: seq<Placement>, c: Contract, claims: seq<nat>, groups: seq<Group>)
    requires IsBinding(es, ds, ps, c, claims)
    requires IsGroups(groups, Submits(es), ds, ps, claims) && |groups| == |Submits(es)| == 1
    ensures |claims| == |ps| == 2 && claims[0] < 2 && claims[1] < 2 && claims[0] != claims[1]
    ensures groups[0].buy.placement == ps[claims[0]] && groups[0].sell.placement == ps[claims[1]]
  {
    hide LegBound, Submits, FramesAscend, Identified, DistinctRequests;
    assert groups[0] == Group(Submits(es)[0].generation, Leg(ds[2 * 0], ps[claims[2 * 0]]), Leg(ds[2 * 0 + 1], ps[claims[2 * 0 + 1]]));
  }

  /** After the earlier joins succeed, one attempt always settles: the terminal step can refuse it only because the
      router's own counters disagree. */
  lemma TerminalRefusesOnlyCounters(es: seq<Evaluation>, ds: seq<Decision>, ps: seq<Placement>, rs: seq<P.Receipt>,
                                    fs: seq<Fill>, c: Contract, horizon: int64, claims: seq<nat>, groups: seq<Group>,
                                    results: seq<P.Result>, counters: T.Counters)
    requires Joined(es, ds, ps, rs, fs, c, horizon, claims, groups) && |groups| == 1
    requires P.AreResults(results, ps, rs, fs)
    ensures |results| == 2 && claims[0] < 2 && claims[1] < 2
    ensures T.Settles(groups[0], results, fs, c.lotQty, claims[0], claims[1])
    ensures T.TerminalOk(groups, results, fs, counters, c.lotQty, claims[0], claims[1])
            <==> T.CountersOk(counters, 1)
                 && T.CountersAgree(counters, T.ActorOf(results[claims[0]], results[claims[1]], fs))
  {
    BothLegsBound(es, ds, ps, c, claims, groups);
    var i, j := claims[0], claims[1];
    assert P.FillsOk(ps, fs, horizon) && DistinctOrders(ps) && DistinctRequests(ps) && c.lotQty > 0;
    hide IsBinding, IsGroups, Submits, P.Reconcilable, P.FillsOk, DistinctOrders, DistinctRequests, T.ActorOf, T.CountersOk;
    OnlyResult(ps, results, rs, fs, i);
    OnlyResult(ps, results, rs, fs, j);
    ResultIsOk(ps, rs, fs, horizon, c.lotQty, i, results[i]);
    ResultIsOk(ps, rs, fs, horizon, c.lotQty, j, results[j]);
    hide P.IsResult, T.LegOk, T.IsOnly, T.Partitioned;
    EveryFillHasOneLeg(ps, fs, horizon, i, j, results[i], results[j]);
  }
}
