/** Placements reconciled with inbox acknowledgements and settled fills (analysis/crossvenue_placement_join.go). */
module PlacementJoin {
  import opened Int64
  import opened RouterEvidence

  datatype Receipt = Receipt(event: Stamp, venue: string, client: uint64, receivedAt: int64, kind: string,
                             requestId: uint64, success: bool, error: string, orderId: uint64)

  datatype Result = Result(venue: string, client: uint64, requestId: uint64, orderId: uint64, kind: string,
                           reason: string, side: string, exchangeAt: int64, inboxAt: Option<int64>, inboxFrame: uint64,
                           filled: int64)

  // ----- placements -----

  predicate OutcomeOk(p: Placement) {
    (p.kind == "ACCEPTED" && p.orderId != 0 && p.reason == "") || (p.kind == "REJECTED" && p.orderId == 0 && p.reason != "")
  }

  predicate PlacementOk(ps: seq<Placement>, k: nat, horizon: int64, lot: int64)
    requires k < |ps|
  {
    && ps[k].event.frame > (if k == 0 then 0 else ps[k - 1].event.frame)
    && 0 <= ps[k].event.at <= horizon
    && ps[k].event.venue != "" && ps[k].event.client != 0 && ps[k].requestId != 0
    && ps[k].qty == lot && (ps[k].side == "BUY" || ps[k].side == "SELL")
    && OutcomeOk(ps[k])
  }

  ghost predicate Admitted(ps: seq<Placement>, horizon: int64, lot: int64) {
    && (forall k :: 0 <= k < |ps| ==> PlacementOk(ps, k, horizon, lot))
    && DistinctRequests(ps) && DistinctOrders(ps)
  }

  /** A map from order to the position of its accepted placement. */
  ghost predicate IndexesOrders(m: map<OrderKey, nat>, ps: seq<Placement>) {
    && (forall k :: k in m ==> m[k] < |ps| && Accepted(ps[m[k]]) && OrderOf(ps[m[k]]) == k)
    && (forall i :: 0 <= i < |ps| && Accepted(ps[i]) ==> OrderOf(ps[i]) in m && m[OrderOf(ps[i])] == i)
  }

  function Fresh(p: Placement): Result {
    Result(p.event.venue, p.event.client, p.requestId, p.orderId, p.kind, p.reason, p.side, p.event.at, None, 0, 0)
  }

  /** What the first loop has established after `i` placements. */
  ghost predicate Indexed(ps: seq<Placement>, i: nat, horizon: int64, lot: int64, requests: map<RequestKey, nat>,
                          orders: map<OrderKey, nat>)
    requires i <= |ps|
  {
    && (forall k :: 0 <= k < i ==> PlacementOk(ps, k, horizon, lot))
    && DistinctRequests(ps[..i]) && IndexesRequests(requests, ps[..i])
    && DistinctOrders(ps[..i]) && IndexesOrders(orders, ps[..i])
  }

  lemma IndexOrderStep(m: map<OrderKey, nat>, ps: seq<Placement>, i: nat)
    requires i < |ps| && IndexesOrders(m, ps[..i]) && DistinctOrders(ps[..i])
    ensures OrderOf(ps[i]) in m <==> exists j :: 0 <= j < i && Accepted(ps[j]) && OrderOf(ps[j]) == OrderOf(ps[i])
    ensures Accepted(ps[i]) && OrderOf(ps[i]) !in m ==>
              IndexesOrders(m[OrderOf(ps[i]) := i], ps[..i + 1]) && DistinctOrders(ps[..i + 1])
    ensures !Accepted(ps[i]) ==> IndexesOrders(m, ps[..i + 1]) && DistinctOrders(ps[..i + 1])
  {
    var before, after := ps[..i], ps[..i + 1];
    assert forall j :: 0 <= j < i ==> before[j] == ps[j] == after[j];
    assert after[i] == ps[i];
    if OrderOf(ps[i]) in m {
      var j := m[OrderOf(ps[i])];
      assert OrderOf(before[j]) == OrderOf(ps[j]) == OrderOf(ps[i]);
    }
    if j :| 0 <= j < i && Accepted(ps[j]) && OrderOf(ps[j]) == OrderOf(ps[i]) {
      assert OrderOf(before[j]) in m;
    }
  }

  lemma RefusedPlacement(ps: seq<Placement>, i: nat, j: nat)
    requires j < i < |ps|
    requires KeyOf(ps[j]) == KeyOf(ps[i]) || (Accepted(ps[i]) && Accepted(ps[j]) && OrderOf(ps[j]) == OrderOf(ps[i]))
    ensures !(DistinctRequests(ps) && DistinctOrders(ps))
  {
  }

  method CheckPlacement(ps: seq<Placement>, k: nat, horizon: int64, lot: int64, previous: uint64) returns (ok: bool)
    requires k < |ps| && previous == (if k == 0 then 0 else ps[k - 1].event.frame)
    ensures ok <==> PlacementOk(ps, k, horizon, lot)
  {
    var p := ps[k];
    if p.event.frame == 0 || p.event.frame <= previous || p.event.at < 0 || p.event.at > horizon || p.event.venue == "" ||
       p.event.client == 0 || p.requestId == 0 || p.qty != lot || (p.side != "BUY" && p.side != "SELL") {
      return false;
    }
    if p.kind == "ACCEPTED" {
      return p.orderId != 0 && p.reason == "";
    }
    if p.kind == "REJECTED" {
      return p.orderId == 0 && p.reason != "";
    }
    return false;
  }

  lemma IndexStep(ps: seq<Placement>, i: nat, horizon: int64, lot: int64, requests: map<RequestKey, nat>,
                  orders: map<OrderKey, nat>)
    requires i < |ps| && Indexed(ps, i, horizon, lot, requests, orders) && PlacementOk(ps, i, horizon, lot)
    ensures KeyOf(ps[i]) in requests || (Accepted(ps[i]) && OrderOf(ps[i]) in orders) ==> !Admitted(ps, horizon, lot)
    ensures KeyOf(ps[i]) !in requests && Accepted(ps[i]) && OrderOf(ps[i]) !in orders ==>
              Indexed(ps, i + 1, horizon, lot, requests[KeyOf(ps[i]) := i], orders[OrderOf(ps[i]) := i])
    ensures KeyOf(ps[i]) !in requests && !Accepted(ps[i]) ==>
              Indexed(ps, i + 1, horizon, lot, requests[KeyOf(ps[i]) := i], orders)
  {
    hide PlacementOk;
    IndexRequestStep(requests, ps, i);
    IndexOrderStep(orders, ps, i);
    if KeyOf(ps[i]) in requests {
      var j :| 0 <= j < i && KeyOf(ps[j]) == KeyOf(ps[i]);
      RefusedPlacement(ps, i, j);
    } else {
      DistinctRequestsStep(ps, i);
    }
    if Accepted(ps[i]) && OrderOf(ps[i]) in orders {
      var j :| 0 <= j < i && Accepted(ps[j]) && OrderOf(ps[j]) == OrderOf(ps[i]);
      RefusedPlacement(ps, i, j);
    }
  }

  /** Everything the first loop keeps after `i` placements. */
  ghost predicate Filed(ps: seq<Placement>, i: nat, horizon: int64, lot: int64, requests: map<RequestKey, nat>,
                        orders: map<OrderKey, nat>, previous: uint64, results: seq<Result>)
    requires i <= |ps|
  {
    && Indexed(ps, i, horizon, lot, requests, orders) && previous == (if i == 0 then 0 else ps[i - 1].event.frame)
    && |results| == i && forall k :: 0 <= k < i ==> results[k] == Fresh(ps[k])
  }

  /** One admissible placement is filed, unless it repeats a request or an accepted order. */
  lemma FileStep(ps: seq<Placement>, i: nat, horizon: int64, lot: int64, requests: map<RequestKey, nat>,
                 orders: map<OrderKey, nat>, previous: uint64, results: seq<Result>)
    requires i < |ps| && Filed(ps, i, horizon, lot, requests, orders, previous, results) && PlacementOk(ps, i, horizon, lot)
    ensures Repeats(ps[i], requests, orders) ==> !Admitted(ps, horizon, lot)
    ensures !Repeats(ps[i], requests, orders) ==>
              Filed(ps, i + 1, horizon, lot, requests[KeyOf(ps[i]) := i],
                    if Accepted(ps[i]) then orders[OrderOf(ps[i]) := i] else orders, ps[i].event.frame, results + [Fresh(ps[i])])
  {
    hide Indexed, PlacementOk, Admitted, Fresh;
    IndexStep(ps, i, horizon, lot, requests, orders);
  }

  predicate Repeats(p: Placement, requests: map<RequestKey, nat>, orders: map<OrderKey, nat>) {
    KeyOf(p) in requests || (Accepted(p) && OrderOf(p) in orders)
  }

  method IndexPlacements(ps: seq<Placement>, horizon: int64, lot: int64)
    returns (ok: bool, requests: map<RequestKey, nat>, orders: map<OrderKey, nat>, results: seq<Result>)
    ensures ok <==> Admitted(ps, horizon, lot)
    ensures ok ==> IndexesRequests(requests, ps) && IndexesOrders(orders, ps)
    ensures ok ==> |results| == |ps| && forall i :: 0 <= i < |ps| ==> results[i] == Fresh(ps[i])
  {
    requests, orders, results := map[], map[], [];
    var previous: uint64 := 0;
    assert Indexed(ps, 0, horizon, lot, requests, orders);
    hide Indexed, PlacementOk, Admitted, IndexesRequests, IndexesOrders, Fresh;
    for i := 0 to |ps|
      invariant Filed(ps, i, horizon, lot, requests, orders, previous, results)
    {
      var p := ps[i];
      var valid := CheckPlacement(ps, i, horizon, lot, previous);
      if !valid {
        RefusedOutright(ps, i, horizon, lot);
        return false, requests, orders, results;
      }
      hide Filed, Repeats;
      FileStep(ps, i, horizon, lot, requests, orders, previous, results);
      if Repeats(p, requests, orders) {
        return false, requests, orders, results;
      }
      requests := requests[KeyOf(p) := i];
      if Accepted(p) {
        orders := orders[OrderOf(p) := i];
      }
      previous, results := p.event.frame, results + [Fresh(p)];
    }
    AllIndexed(ps, horizon, lot, requests, orders);
    return true, requests, orders, results;
  }

  lemma RefusedOutright(ps: seq<Placement>, i: nat, horizon: int64, lot: int64)
    requires i < |ps| && !PlacementOk(ps, i, horizon, lot)
    ensures !Admitted(ps, horizon, lot)
  {
    hide PlacementOk;
  }

  lemma AllIndexed(ps: seq<Placement>, horizon: int64, lot: int64, requests: map<RequestKey, nat>, orders: map<OrderKey, nat>)
    requires Indexed(ps, |ps|, horizon, lot, requests, orders)
    ensures Admitted(ps, horizon, lot) && IndexesRequests(requests, ps) && IndexesOrders(orders, ps)
  {
    hide PlacementOk, IndexesRequests, IndexesOrders, DistinctRequests, DistinctOrders;
    assert ps[..|ps|] == ps;
  }

  // ----- acknowledgements -----

  predicate IsAck(r: Receipt) {
    r.kind != "FILL" && r.kind != "OTHER"
  }

  function ReceiptKey(r: Receipt): RequestKey {
    RequestKey(r.venue, r.client, r.requestId)
  }

  /** An acknowledgement that follows its placement, before the horizon, and repeats its outcome. */
  predicate AckOk(p: Placement, r: Receipt, horizon: int64) {
    && (r.kind == "ORDER_ACCEPTED" || r.kind == "REJECTED") && ReceiptKey(r) == KeyOf(p)
    && r.event.venue == r.venue && r.event.client == r.client && r.event.frame > p.event.frame
    && r.event.at == r.receivedAt && p.event.at <= r.receivedAt <= horizon
    && (p.kind == "ACCEPTED" ==> r.kind == "ORDER_ACCEPTED" && r.orderId == p.orderId && r.success)
    && (p.kind == "REJECTED" ==> r.kind == "REJECTED" && r.error == p.reason && !r.success)
  }

  ghost predicate Anchored(ps: seq<Placement>, r: Receipt, horizon: int64) {
    exists i :: 0 <= i < |ps| && AckOk(ps[i], r, horizon)
  }

  ghost predicate AcksOk(ps: seq<Placement>, rs: seq<Receipt>, horizon: int64) {
    && (forall j :: 0 <= j < |rs| && IsAck(rs[j]) ==> Anchored(ps, rs[j], horizon))
    && (forall i, j :: 0 <= i < j < |rs| && IsAck(rs[i]) && IsAck(rs[j]) ==> ReceiptKey(rs[i]) != ReceiptKey(rs[j]))
  }

  /** The acknowledgement of a request, if it reached the inbox. */
  function AckOf(rs: seq<Receipt>, key: RequestKey): Option<Receipt> {
    if rs == [] then None
    else if IsAck(rs[|rs| - 1]) && ReceiptKey(rs[|rs| - 1]) == key then Some(rs[|rs| - 1])
    else AckOf(rs[..|rs| - 1], key)
  }

  function Acknowledged(p: Placement, rs: seq<Receipt>): Result {
    match AckOf(rs, KeyOf(p))
    case None => Fresh(p)
    case Some(r) => Fresh(p).(inboxAt := Some(r.receivedAt), inboxFrame := r.event.frame)
  }

  lemma AckStep(rs: seq<Receipt>, key: RequestKey, j: nat)
    requires j < |rs|
    ensures AckOf(rs[..j + 1], key)
            == if IsAck(rs[j]) && ReceiptKey(rs[j]) == key then Some(rs[j]) else AckOf(rs[..j], key)
  {
    assert rs[..j + 1][..j] == rs[..j];
  }

  /** Every result carries the acknowledgement seen among the first `j` receipts. */
  ghost predicate Tracked(results: seq<Result>, ps: seq<Placement>, rs: seq<Receipt>) {
    |results| == |ps| && forall i :: 0 <= i < |ps| ==> results[i] == Acknowledged(ps[i], rs)
  }

  ghost predicate SeenKeys(seen: set<RequestKey>, rs: seq<Receipt>) {
    forall k :: k in seen <==> exists j :: 0 <= j < |rs| && IsAck(rs[j]) && ReceiptKey(rs[j]) == k
  }

  lemma SeenStep(seen: set<RequestKey>, rs: seq<Receipt>, j: nat)
    requires j < |rs| && SeenKeys(seen, rs[..j])
    ensures SeenKeys(if IsAck(rs[j]) then seen + {ReceiptKey(rs[j])} else seen, rs[..j + 1])
    ensures IsAck(rs[j]) && ReceiptKey(rs[j]) in seen ==>
              exists i :: 0 <= i < j && IsAck(rs[i]) && ReceiptKey(rs[i]) == ReceiptKey(rs[j])
    ensures ReceiptKey(rs[j]) !in seen ==> forall i :: 0 <= i < j && IsAck(rs[i]) ==> ReceiptKey(rs[i]) != ReceiptKey(rs[j])
  {
    var before, after := rs[..j], rs[..j + 1];
    assert forall i :: 0 <= i < j ==> before[i] == rs[i] == after[i];
    assert after[j] == rs[j];
    var seen' := if IsAck(rs[j]) then seen + {ReceiptKey(rs[j])} else seen;
    forall k
      ensures k in seen' <==> exists i :: 0 <= i < |after| && IsAck(after[i]) && ReceiptKey(after[i]) == k
    {
      if k in seen {
        var i :| 0 <= i < |before| && IsAck(before[i]) && ReceiptKey(before[i]) == k;
        assert IsAck(after[i]) && ReceiptKey(after[i]) == k;
      }
    }
    if IsAck(rs[j]) && ReceiptKey(rs[j]) in seen {
      var i :| 0 <= i < |before| && IsAck(before[i]) && ReceiptKey(before[i]) == ReceiptKey(rs[j]);
      assert IsAck(rs[i]) && ReceiptKey(rs[i]) == ReceiptKey(rs[j]);
    }
  }

  lemma TrackStep(results: seq<Result>, ps: seq<Placement>, rs: seq<Receipt>, j: nat, i: nat)
    requires j < |rs| && Tracked(results, ps, rs[..j]) && DistinctRequests(ps)
    requires IsAck(rs[j]) && i < |ps| && KeyOf(ps[i]) == ReceiptKey(rs[j])
    ensures Tracked(results[i := results[i].(inboxAt := Some(rs[j].receivedAt), inboxFrame := rs[j].event.frame)], ps, rs[..j + 1])
  {
    forall n | 0 <= n < |ps|
      ensures AckOf(rs[..j + 1], KeyOf(ps[n])) == if n == i then Some(rs[j]) else AckOf(rs[..j], KeyOf(ps[n]))
    {
      AckStep(rs, KeyOf(ps[n]), j);
      if n < i {
        assert KeyOf(ps[n]) != KeyOf(ps[i]);
      } else if i < n {
        assert KeyOf(ps[i]) != KeyOf(ps[n]);
      }
    }
    hide AckOf, DistinctRequests;
  }

  lemma SkipStep(results: seq<Result>, ps: seq<Placement>, rs: seq<Receipt>, j: nat)
    requires j < |rs| && Tracked(results, ps, rs[..j]) && !IsAck(rs[j])
    ensures Tracked(results, ps, rs[..j + 1])
  {
    forall n | 0 <= n < |ps|
      ensures AckOf(rs[..j + 1], KeyOf(ps[n])) == AckOf(rs[..j], KeyOf(ps[n]))
    {
      AckStep(rs, KeyOf(ps[n]), j);
    }
    hide AckOf;
  }

  lemma AcksOkStep(ps: seq<Placement>, rs: seq<Receipt>, horizon: int64, j: nat)
    requires j < |rs| && AcksOk(ps, rs[..j], horizon)
    requires IsAck(rs[j]) ==> Anchored(ps, rs[j], horizon)
    requires IsAck(rs[j]) ==> forall i :: 0 <= i < j && IsAck(rs[i]) ==> ReceiptKey(rs[i]) != ReceiptKey(rs[j])
    ensures AcksOk(ps, rs[..j + 1], horizon)
  {
    hide Anchored;
    var before, after := rs[..j], rs[..j + 1];
    assert forall i :: 0 <= i < j ==> before[i] == rs[i] == after[i];
    assert after[j] == rs[j];
  }

  /** Only the placement under its own key can anchor an acknowledgement. */
  lemma AnchorIsUnique(ps: seq<Placement>, r: Receipt, horizon: int64, requests: map<RequestKey, nat>)
    requires IndexesRequests(requests, ps) && DistinctRequests(ps)
    ensures Anchored(ps, r, horizon) <==> ReceiptKey(r) in requests && AckOk(ps[requests[ReceiptKey(r)]], r, horizon)
  {
    if Anchored(ps, r, horizon) {
      var i :| 0 <= i < |ps| && AckOk(ps[i], r, horizon);
      assert requests[KeyOf(ps[i])] == i;
    }
  }

  /** Everything the receipt loop keeps after `j` receipts. */
  ghost predicate Received(ps: seq<Placement>, rs: seq<Receipt>, horizon: int64, j: nat, results: seq<Result>, seen: set<RequestKey>)
    requires j <= |rs|
  {
    AcksOk(ps, rs[..j], horizon) && Tracked(results, ps, rs[..j]) && SeenKeys(seen, rs[..j])
  }

  /** A receipt that is no acknowledgement is skipped; one that repeats, or fits no placement, is refused. */
  lemma ReceiveStep(ps: seq<Placement>, rs: seq<Receipt>, horizon: int64, requests: map<RequestKey, nat>, j: nat,
                    results: seq<Result>, seen: set<RequestKey>)
    requires IndexesRequests(requests, ps) && DistinctRequests(ps)
    requires j < |rs| && Received(ps, rs, horizon, j, results, seen)
    ensures ReceiptKey(rs[j]) in requests ==> requests[ReceiptKey(rs[j])] < |ps| == |results|
    ensures var r, key := rs[j], ReceiptKey(rs[j]);
            var fits := key in requests && AckOk(ps[requests[key]], r, horizon);
            && (!IsAck(r) ==> Received(ps, rs, horizon, j + 1, results, seen))
            && (IsAck(r) && (!fits || key in seen) ==> !AcksOk(ps, rs, horizon))
            && (IsAck(r) && fits && key !in seen ==>
                  var i := requests[key];
                  Received(ps, rs, horizon, j + 1, results[i := results[i].(inboxAt := Some(r.receivedAt), inboxFrame := r.event.frame)],
                           seen + {key}))
  {
    var r, key := rs[j], ReceiptKey(rs[j]);
    SeenStep(seen, rs, j);
    AnchorIsUnique(ps, r, horizon, requests);
    hide Anchored, SeenKeys, IndexesRequests, Acknowledged;
    if !IsAck(r) {
      SkipStep(results, ps, rs, j);
      AcksOkStep(ps, rs, horizon, j);
    } else if Anchored(ps, r, horizon) && key !in seen {
      AcksOkStep(ps, rs, horizon, j);
      hide AcksOk;
      TrackStep(results, ps, rs, j, requests[key]);
    }
  }

  method ApplyReceipts(ps: seq<Placement>, rs: seq<Receipt>, horizon: int64, requests: map<RequestKey, nat>, fresh0: seq<Result>)
    returns (ok: bool, results: seq<Result>)
    requires IndexesRequests(requests, ps) && DistinctRequests(ps)
    requires |fresh0| == |ps| && forall i :: 0 <= i < |ps| ==> fresh0[i] == Fresh(ps[i])
    ensures ok <==> AcksOk(ps, rs, horizon)
    ensures ok ==> Tracked(results, ps, rs)
  {
    results := fresh0;
    var seen: set<RequestKey> := {};
    assert rs[..0] == [];
    assert Received(ps, rs, horizon, 0, results, seen);
    hide AcksOk, Tracked, SeenKeys, DistinctRequests, IndexesRequests, AckOk, Fresh;
    for j := 0 to |rs|
      invariant Received(ps, rs, horizon, j, results, seen)
    {
      hide Received;
      var r := rs[j];
      ReceiveStep(ps, rs, horizon, requests, j, results, seen);
      if r.kind == "FILL" || r.kind == "OTHER" {
        continue;
      }
      var key := ReceiptKey(r);
      if key !in requests || key in seen || !AckOk(ps[requests[key]], r, horizon) {
        return false, results;
      }
      var i := requests[key];
      seen := seen + {key};
      results := results[i := results[i].(inboxAt := Some(r.receivedAt), inboxFrame := r.event.frame)];
    }
    assert rs[..|rs|] == rs;
    return true, results;
  }

  // ----- fills -----

  predicate FillAgrees(p: Placement, f: Fill, horizon: int64) {
    && Accepted(p) && FillOrder(f) == OrderOf(p) && f.event.client == p.event.client && f.event.frame > p.event.frame
    && p.event.at <= f.event.at <= horizon && f.qty > 0 && f.side == p.side && f.role == "taker"
  }

  ghost predicate Settles(ps: seq<Placement>, f: Fill, horizon: int64) {
    exists i :: 0 <= i < |ps| && FillAgrees(ps[i], f, horizon)
  }

  ghost predicate FillsOk(ps: seq<Placement>, fs: seq<Fill>, horizon: int64) {
    forall j :: 0 <= j < |fs| ==> Settles(ps, fs[j], horizon)
  }

  /** Settled quantity of one order. */
  function FilledOf(fs: seq<Fill>, key: OrderKey): int {
    if fs == [] then 0
    else FilledOf(fs[..|fs| - 1], key) + if FillOrder(fs[|fs| - 1]) == key then fs[|fs| - 1].qty else 0
  }

  function Settled(p: Placement, fs: seq<Fill>): int {
    if Accepted(p) then FilledOf(fs, OrderOf(p)) else 0
  }

  lemma FilledStep(fs: seq<Fill>, key: OrderKey, j: nat)
    requires j < |fs|
    ensures FilledOf(fs[..j + 1], key) == FilledOf(fs[..j], key) + if FillOrder(fs[j]) == key then fs[j].qty else 0
  {
    assert fs[..j + 1][..j] == fs[..j];
  }

  lemma {:induction false} FilledGrows(ps: seq<Placement>, fs: seq<Fill>, horizon: int64, key: OrderKey, j: nat)
    requires FillsOk(ps, fs, horizon) && j <= |fs|
    ensures FilledOf(fs[..j], key) <= FilledOf(fs, key)
    decreases |fs| - j
  {
    if j == |fs| {
      assert fs[..j] == fs;
    } else {
      FilledGrows(ps, fs, horizon, key, j + 1);
      FilledStep(fs, key, j);
      assert Settles(ps, fs[j], horizon);
    }
  }

  lemma SettlesByOrder(ps: seq<Placement>, f: Fill, horizon: int64, orders: map<OrderKey, nat>)
    requires IndexesOrders(orders, ps) && DistinctOrders(ps)
    ensures Settles(ps, f, horizon) <==> FillOrder(f) in orders && FillAgrees(ps[orders[FillOrder(f)]], f, horizon)
  {
    if Settles(ps, f, horizon) {
      var i :| 0 <= i < |ps| && FillAgrees(ps[i], f, horizon);
      assert orders[OrderOf(ps[i])] == i;
    }
  }

  ghost predicate Fulls(filled: seq<int64>, ps: seq<Placement>, fs: seq<Fill>, lot: int64) {
    |filled| == |ps| && forall i :: 0 <= i < |ps| ==> filled[i] == Settled(ps[i], fs) && 0 <= filled[i] <= lot
  }

  lemma FullsStep(filled: seq<int64>, ps: seq<Placement>, fs: seq<Fill>, lot: int64, j: nat, i: nat)
    requires j < |fs| && Fulls(filled, ps, fs[..j], lot) && DistinctOrders(ps) && i < |ps|
    requires Accepted(ps[i]) && FillOrder(fs[j]) == OrderOf(ps[i]) && fs[j].qty > 0 && filled[i] + fs[j].qty <= lot
    ensures Fulls(filled[i := filled[i] + fs[j].qty], ps, fs[..j + 1], lot)
  {
    forall n | 0 <= n < |ps|
      ensures Settled(ps[n], fs[..j + 1]) == Settled(ps[n], fs[..j]) + if n == i then fs[j].qty else 0
    {
      FilledStep(fs, OrderOf(ps[n]), j);
      if Accepted(ps[n]) {
        if n < i {
          assert OrderOf(ps[n]) != OrderOf(ps[i]);
        } else if i < n {
          assert OrderOf(ps[i]) != OrderOf(ps[n]);
        }
      }
    }
    hide Settled, DistinctOrders;
  }

  lemma Overrun(ps: seq<Placement>, fs: seq<Fill>, horizon: int64, lot: int64, j: nat, i: nat, filled: int)
    requires j < |fs| && i < |ps| && Accepted(ps[i]) && FillOrder(fs[j]) == OrderOf(ps[i])
    requires filled == Settled(ps[i], fs[..j]) && filled + fs[j].qty > lot
    ensures FillsOk(ps, fs, horizon) ==> Settled(ps[i], fs) > lot
  {
    FilledStep(fs, OrderOf(ps[i]), j);
    if FillsOk(ps, fs, horizon) {
      FilledGrows(ps, fs, horizon, OrderOf(ps[i]), j + 1);
    }
  }

  /** Every accepted order is settled in full. */
  ghost predicate AllFilled(ps: seq<Placement>, fs: seq<Fill>, lot: int64) {
    forall i :: 0 <= i < |ps| && Accepted(ps[i]) ==> Settled(ps[i], fs) == lot
  }

  lemma OverrunIsFinal(ps: seq<Placement>, fs: seq<Fill>, horizon: int64, lot: int64, i: nat)
    requires i < |ps| && Accepted(ps[i]) && (FillsOk(ps, fs, horizon) ==> Settled(ps[i], fs) > lot)
    ensures !(FillsOk(ps, fs, horizon) && AllFilled(ps, fs, lot))
  {
  }

  lemma NothingFilled(ps: seq<Placement>, lot: int64)
    requires lot >= 0
    ensures Fulls(seq(|ps|, _ => 0), ps, [], lot)
  {
  }

  /** One fill of an indexed order: it does not settle, or it overruns the lot, or the totals move on. */
  lemma FillStep(filled: seq<int64>, ps: seq<Placement>, fs: seq<Fill>, horizon: int64, lot: int64,
                 orders: map<OrderKey, nat>, j: nat)
    requires IndexesOrders(orders, ps) && DistinctOrders(ps) && j < |fs| && Fulls(filled, ps, fs[..j], lot)
    ensures var key := FillOrder(fs[j]);
            && (Settles(ps, fs[j], horizon) <==> key in orders && FillAgrees(ps[orders[key]], fs[j], horizon))
            && (Settles(ps, fs[j], horizon) && filled[orders[key]] + fs[j].qty > lot ==>
                  !(FillsOk(ps, fs, horizon) && AllFilled(ps, fs, lot)))
            && (Settles(ps, fs[j], horizon) && filled[orders[key]] + fs[j].qty <= lot ==>
                  Fulls(filled[orders[key] := filled[orders[key]] + fs[j].qty], ps, fs[..j + 1], lot))
  {
    SettlesByOrder(ps, fs[j], horizon, orders);
    hide Settles, Settled, AllFilled, FillsOk, DistinctOrders;
    if Settles(ps, fs[j], horizon) {
      var i := orders[FillOrder(fs[j])];
      if filled[i] + fs[j].qty > lot {
        Overrun(ps, fs, horizon, lot, j, i, filled[i]);
        OverrunIsFinal(ps, fs, horizon, lot, i);
      } else {
        hide Fulls;
        FullsStep(filled, ps, fs, lot, j, i);
      }
    }
  }

  lemma SettlesStep(ps: seq<Placement>, fs: seq<Fill>, horizon: int64, j: nat)
    requires j < |fs|
    ensures !Settles(ps, fs[j], horizon) ==> !FillsOk(ps, fs, horizon)
    ensures FillsOk(ps, fs[..j], horizon) && Settles(ps, fs[j], horizon) ==> FillsOk(ps, fs[..j + 1], horizon)
  {
    hide Settles;
    assert forall n :: 0 <= n < j ==> fs[..j + 1][n] == fs[..j][n];
  }

  lemma FilledRange(filled: seq<int64>, ps: seq<Placement>, fs: seq<Fill>, lot: int64, orders: map<OrderKey, nat>, f: Fill)
    requires IndexesOrders(orders, ps) && Fulls(filled, ps, fs, lot) && FillOrder(f) in orders
    ensures orders[FillOrder(f)] < |filled| == |ps|
  {
  }

  method ApplyFills(ps: seq<Placement>, fs: seq<Fill>, horizon: int64, lot: int64, orders: map<OrderKey, nat>)
    returns (ok: bool, filled: seq<int64>)
    requires IndexesOrders(orders, ps) && DistinctOrders(ps) && lot > 0
    ensures ok ==> FillsOk(ps, fs, horizon) && Fulls(filled, ps, fs, lot)
    ensures !ok ==> !(FillsOk(ps, fs, horizon) && AllFilled(ps, fs, lot))
  {
    filled := seq(|ps|, _ => 0);
    assert fs[..0] == [];
    NothingFilled(ps, lot);
    assert FillsOk(ps, fs[..0], horizon);
    hide Settles, Settled, AllFilled, FillsOk, Fulls, IndexesOrders, DistinctOrders;
    for j := 0 to |fs|
      invariant FillsOk(ps, fs[..j], horizon) && Fulls(filled, ps, fs[..j], lot)
    {
      var key := FillOrder(fs[j]);
      FillStep(filled, ps, fs, horizon, lot, orders, j);
      SettlesStep(ps, fs, horizon, j);
      if key !in orders {
        return false, filled;
      }
      FilledRange(filled, ps, fs[..j], lot, orders, fs[j]);
      if !FillAgrees(ps[orders[key]], fs[j], horizon) {
        return false, filled;
      }
      var quantity := TryAdd(filled[orders[key]], fs[j].qty);
      if quantity.None? || quantity.value > lot {
        return false, filled;
      }
      filled := filled[orders[key] := quantity.value];
    }
    assert fs[..|fs|] == fs;
    return true, filled;
  }

  // ----- the reconciliation -----

  ghost predicate Reconcilable(ps: seq<Placement>, rs: seq<Receipt>, fs: seq<Fill>, horizon: int64, lot: int64) {
    && horizon > 0 && lot > 0 && Admitted(ps, horizon, lot) && AcksOk(ps, rs, horizon)
    && FillsOk(ps, fs, horizon) && AllFilled(ps, fs, lot)
  }

  /** What a placement's result must say. */
  ghost predicate IsResult(r: Result, p: Placement, rs: seq<Receipt>, fs: seq<Fill>) {
    r == Acknowledged(p, rs).(filled := r.filled) && r.filled == Settled(p, fs)
  }

  ghost predicate AreResults(results: seq<Result>, ps: seq<Placement>, rs: seq<Receipt>, fs: seq<Fill>) {
    |results| == |ps| && forall i :: 0 <= i < |ps| ==> IsResult(results[i], ps[i], rs, fs)
  }

  method Reconcile(ps: seq<Placement>, rs: seq<Receipt>, fs: seq<Fill>, horizon: int64, lot: int64)
    returns (r: Option<seq<Result>>)
    ensures r.Some? <==> Reconcilable(ps, rs, fs, horizon, lot)
    ensures r.Some? ==> AreResults(r.value, ps, rs, fs)
  {
    if horizon <= 0 || lot <= 0 {
      return None;
    }
    hide PlacementOk, AcksOk, FillsOk, AllFilled, IndexesRequests, IndexesOrders, DistinctRequests, DistinctOrders, Fulls, Tracked;
    hide Fresh, AreResults;
    var indexed, requests, orders, results := IndexPlacements(ps, horizon, lot);
    if !indexed {
      return None;
    }
    var acked, tracked := ApplyReceipts(ps, rs, horizon, requests, results);
    if !acked {
      return None;
    }
    var settled, filled := ApplyFills(ps, fs, horizon, lot, orders);
    if !settled {
      return None;
    }
    r := Conclude(ps, rs, fs, lot, tracked, filled);
  }

  /** The last pass: every accepted order must be full; each result gets its filled quantity. */
  method Conclude(ps: seq<Placement>, rs: seq<Receipt>, fs: seq<Fill>, lot: int64, tracked: seq<Result>, filled: seq<int64>)
    returns (r: Option<seq<Result>>)
    requires Tracked(tracked, ps, rs) && Fulls(filled, ps, fs, lot)
    ensures r.Some? <==> AllFilled(ps, fs, lot)
    ensures r.Some? ==> AreResults(r.value, ps, rs, fs)
  {
    hide Settled, Acknowledged;
    var results: seq<Result> := [];
    for i := 0 to |ps|
      invariant |results| == i && forall k :: 0 <= k < i ==> IsResult(results[k], ps[k], rs, fs)
      invariant forall k :: 0 <= k < i && Accepted(ps[k]) ==> filled[k] == lot
    {
      if ps[i].kind == "ACCEPTED" && filled[i] != lot {
        return None;
      }
      results := results + [tracked[i].(filled := filled[i])];
    }
    r := Some(results);
  }
}
