/** The records that the router's reconciliation steps share (analysis/crossvenue_placements.go,
analysis/crossvenue_fill_join.go, analysis/crossvenue_response_receipts.go). */
module RouterEvidence {
  import opened Int64

  /** Where and when a record entered the global stream. */
  datatype Stamp = Stamp(venue: string, client: uint64, frame: uint64, at: int64)

  datatype Placement = Placement(event: Stamp, kind: string, requestId: uint64, orderId: uint64, side: string,
                                 qty: int64, reason: string)

  datatype Fill = Fill(event: Stamp, orderId: uint64, symbol: string, side: string, qty: int64, price: int64,
                       feeAmount: int64, feeAsset: string, role: string, receiptFrame: Option<uint64>)

  datatype RequestKey = RequestKey(venue: string, client: uint64, request: uint64)

  datatype OrderKey = OrderKey(venue: string, order: uint64)

  function KeyOf(p: Placement): RequestKey {
    RequestKey(p.event.venue, p.event.client, p.requestId)
  }

  function OrderOf(p: Placement): OrderKey {
    OrderKey(p.event.venue, p.orderId)
  }

  function FillOrder(f: Fill): OrderKey {
    OrderKey(f.event.venue, f.orderId)
  }

  predicate Accepted(p: Placement) {
    p.kind == "ACCEPTED"
  }

  ghost predicate DistinctRequests(ps: seq<Placement>) {
    forall i, j :: 0 <= i < j < |ps| ==> KeyOf(ps[i]) != KeyOf(ps[j])
  }

  ghost predicate DistinctOrders(ps: seq<Placement>) {
    forall i, j :: 0 <= i < j < |ps| && Accepted(ps[i]) && Accepted(ps[j]) ==> OrderOf(ps[i]) != OrderOf(ps[j])
  }

  /** A map from request to the position of its placement. */
  ghost predicate IndexesRequests(m: map<RequestKey, nat>, ps: seq<Placement>) {
    && (forall k :: k in m ==> m[k] < |ps| && KeyOf(ps[m[k]]) == k)
    && (forall i :: 0 <= i < |ps| ==> KeyOf(ps[i]) in m && m[KeyOf(ps[i])] == i)
  }

  lemma IndexRequestStep(m: map<RequestKey, nat>, ps: seq<Placement>, i: nat)
    requires i < |ps| && IndexesRequests(m, ps[..i])
    ensures KeyOf(ps[i]) in m <==> exists j :: 0 <= j < i && KeyOf(ps[j]) == KeyOf(ps[i])
    ensures KeyOf(ps[i]) !in m ==> IndexesRequests(m[KeyOf(ps[i]) := i], ps[..i + 1])
  {
    var before, after := ps[..i], ps[..i + 1];
    assert forall j :: 0 <= j < i ==> before[j] == ps[j] == after[j];
    assert after[i] == ps[i];
    if KeyOf(ps[i]) in m {
      var j := m[KeyOf(ps[i])];
      assert KeyOf(before[j]) == KeyOf(ps[j]) == KeyOf(ps[i]);
    }
    if j :| 0 <= j < i && KeyOf(ps[j]) == KeyOf(ps[i]) {
      assert KeyOf(before[j]) in m;
    }
  }

  lemma DistinctRequestsStep(ps: seq<Placement>, i: nat)
    requires i < |ps| && DistinctRequests(ps[..i])
    requires forall j :: 0 <= j < i ==> KeyOf(ps[j]) != KeyOf(ps[i])
    ensures DistinctRequests(ps[..i + 1])
  {
    var before, after := ps[..i], ps[..i + 1];
    assert forall j :: 0 <= j < i ==> before[j] == ps[j] == after[j];
    assert after[i] == ps[i];
  }
}
