/** The order bookkeeping of an actor (actor/actor.go): responses become events, and fills or forced cancels
that arrive before their order's acceptance are buffered and replayed. */
module ActorResponses {
  import opened Int64

  /** The two notifications the exchange may send before it acknowledges the order. */
  datatype Notice =
    | Fill(orderId: uint64, qty: int64, isFull: bool, tradeId: uint64)
    | ForcedCancel(orderId: uint64, remaining: int64)

  datatype Payload =
    | OrderId(id: uint64)
    | CancelledQty(remaining: int64)
    | Note(notice: Notice)
    | BalanceSnapshot
    | AccountSnapshot
    | OtherData

  datatype Response = Response(requestId: uint64, success: bool, data: Payload)

  /** Decoded events.  A forced cancel and the acknowledgement of a requested one are both "order cancelled"
      events in the source, built in two places; they keep separate constructors here. */
  datatype Event =
    | Accepted(orderId: uint64, requestId: uint64)
    | Rejected(requestId: uint64)
    | CancelRejected(orderId: uint64, requestId: uint64)
    | CancelAcknowledged(orderId: uint64, requestId: uint64, remaining: int64)
    | Notified(notice: Notice)
    | BalanceUpdate
    | AccountUpdate

  datatype OrderInfo = OrderInfo(requestId: uint64, filledQty: int64)

  datatype State = State(active: map<uint64, OrderInfo>, requestToOrder: map<uint64, uint64>,
                         cancelRequests: map<uint64, uint64>, early: map<uint64, seq<Notice>>, requestSeq: uint64)

  function Initial(): State {
    State(map[], map[], map[], map[], 0)
  }

  /** Forgets an active order and the request that placed it. */
  function Drop(s: State, orderId: uint64): State {
    if orderId !in s.active then s
    else s.(active := s.active - {orderId}, requestToOrder := s.requestToOrder - {s.active[orderId].requestId})
  }

  function Apply(s: State, n: Notice): State {
    match n
    case ForcedCancel(id, _) => Drop(s, id)
    case Fill(id, qty, isFull, _) =>
      if id !in s.active then s
      else
        var filled := s.(active := s.active[id := s.active[id].(filledQty := Wrap(s.active[id].filledQty + qty))]);
        if isFull then Drop(filled, id) else filled
  }

  function ApplyAll(s: State, ns: seq<Notice>): State {
    if ns == [] then s else Apply(ApplyAll(s, ns[..|ns| - 1]), ns[|ns| - 1])
  }

  function Buffered(s: State, orderId: uint64): seq<Notice> {
    if orderId in s.early then s.early[orderId] else []
  }

  function Notify(ns: seq<Notice>): (es: seq<Event>)
    ensures |es| == |ns| && forall i :: 0 <= i < |ns| ==> es[i] == Notified(ns[i])
  {
    seq(|ns|, i requires 0 <= i < |ns| => Notified(ns[i]))
  }

  /** An order recorded as active, its buffer taken out. */
  function Opened(s: State, orderId: uint64, requestId: uint64): State {
    s.(requestToOrder := s.requestToOrder[requestId := orderId],
       active := s.active[orderId := OrderInfo(requestId, 0)],
       early := s.early - {orderId})
  }

  function Accept(s: State, orderId: uint64, requestId: uint64): State {
    ApplyAll(Opened(s, orderId, requestId), Buffered(s, orderId))
  }

  function Decode(s: State, r: Response): (State, seq<Event>) {
    if !r.success then
      if r.requestId in s.cancelRequests then
        (s.(cancelRequests := s.cancelRequests - {r.requestId}),
         [CancelRejected(s.cancelRequests[r.requestId], r.requestId)])
      else
        (s, [Rejected(r.requestId)])
    else
      match r.data
      case OrderId(id) => (Accept(s, id, r.requestId), [Accepted(id, r.requestId)] + Notify(Buffered(s, id)))
      case CancelledQty(remaining) =>
        if r.requestId in s.cancelRequests then
          var id := s.cancelRequests[r.requestId];
          (Drop(s.(cancelRequests := s.cancelRequests - {r.requestId}), id),
           [CancelAcknowledged(id, r.requestId, remaining)])
        else
          (s, [CancelAcknowledged(0, r.requestId, remaining)])
      case Note(n) =>
        if n.orderId !in s.active then
          (s.(early := s.early[n.orderId := Buffered(s, n.orderId) + [n]]), [])
        else
          (Apply(s, n), [Notified(n)])
      case BalanceSnapshot => (s, [BalanceUpdate])
      case AccountSnapshot => (s, [AccountUpdate])
      case OtherData => (s, [])
  }

  /** Request identities come from one wrapping counter. */
  function Cancel(s: State, orderId: uint64): State {
    var requestId := (s.requestSeq + 1) % WORD;
    s.(requestSeq := requestId, cancelRequests := s.cancelRequests[requestId := orderId])
  }

  /** The actor's maps, updated in place. */
  class BaseActor {
    var requestSeq: uint64
    var activeOrders: map<uint64, OrderInfo>
    var requestToOrder: map<uint64, uint64>
    var cancelRequests: map<uint64, uint64>
    var earlyOrderEvents: map<uint64, seq<Notice>>

    constructor ()
      ensures Snapshot() == Initial()
    {
      requestSeq, activeOrders, requestToOrder, cancelRequests, earlyOrderEvents := 0, map[], map[], map[], map[];
    }

    ghost function Snapshot(): State
      reads this
    {
      State(activeOrders, requestToOrder, cancelRequests, earlyOrderEvents, requestSeq)
    }

    method Forget(orderId: uint64)
      modifies this
      ensures Snapshot() == Drop(old(Snapshot()), orderId)
    {
      if orderId in activeOrders {
        var info := activeOrders[orderId];
        activeOrders := activeOrders - {orderId};
        requestToOrder := requestToOrder - {info.requestId};
      }
    }

    method ApplyOrderEvent(n: Notice)
      modifies this
      ensures Snapshot() == Apply(old(Snapshot()), n)
    {
      match n
      case ForcedCancel(id, _) =>
        Forget(id);
      case Fill(id, qty, isFull, _) =>
        if id !in activeOrders {
          return;
        }
        var info := activeOrders[id];
        activeOrders := activeOrders[id := info.(filledQty := Wrap(info.filledQty + qty))];
        if isFull {
          Forget(id);
        }
    }

    method BufferEarlyOrderEvent(n: Notice)
      modifies this
      ensures Snapshot() == old(Snapshot()).(early := old(earlyOrderEvents)[n.orderId := Buffered(old(Snapshot()), n.orderId) + [n]])
    {
      var events: seq<Notice> := [];
      if n.orderId in earlyOrderEvents {
        events := earlyOrderEvents[n.orderId];
      }
      earlyOrderEvents := earlyOrderEvents[n.orderId := events + [n]];
    }

    method AcceptOrder(orderId: uint64, requestId: uint64) returns (events: seq<Event>)
      modifies this
      ensures Snapshot() == Accept(old(Snapshot()), orderId, requestId)
      ensures events == [Accepted(orderId, requestId)] + Notify(Buffered(old(Snapshot()), orderId))
    {
      requestToOrder := requestToOrder[requestId := orderId];
      activeOrders := activeOrders[orderId := OrderInfo(requestId, 0)];
      events := [Accepted(orderId, requestId)];
      if orderId in earlyOrderEvents {
        var buffered := earlyOrderEvents[orderId];
        earlyOrderEvents := earlyOrderEvents - {orderId};
        var replayed := ReplayBuffered(buffered);
        events := events + replayed;
      } else {
        assert earlyOrderEvents - {orderId} == earlyOrderEvents;
      }
    }

    /** Applies buffered notices in arrival order. */
    method ReplayBuffered(buffered: seq<Notice>) returns (events: seq<Event>)
      modifies this
      ensures Snapshot() == ApplyAll(old(Snapshot()), buffered) && events == Notify(buffered)
    {
      hide Apply;
      events := [];
      var i := 0;
      while i < |buffered|
        invariant 0 <= i <= |buffered|
        invariant Snapshot() == ApplyAll(old(Snapshot()), buffered[..i])
        invariant events == Notify(buffered[..i])
      {
        assert buffered[..i + 1][..i] == buffered[..i];
        ApplyOrderEvent(buffered[i]);
        events := events + [Notified(buffered[i])];
        i := i + 1;
      }
      assert buffered[..|buffered|] == buffered;
    }

    method DecodeResponse(r: Response) returns (events: seq<Event>)
      modifies this
      ensures (Snapshot(), events) == Decode(old(Snapshot()), r)
    {
      if !r.success {
        if r.requestId in cancelRequests {
          var orderId := cancelRequests[r.requestId];
          cancelRequests := cancelRequests - {r.requestId};
          return [CancelRejected(orderId, r.requestId)];
        }
        return [Rejected(r.requestId)];
      }
      match r.data
      case OrderId(id) =>
        events := AcceptOrder(id, r.requestId);
      case CancelledQty(remaining) =>
        var orderId: uint64 := 0;
        if r.requestId in cancelRequests {
          orderId := cancelRequests[r.requestId];
          cancelRequests := cancelRequests - {r.requestId};
          Forget(orderId);
        }
        return [CancelAcknowledged(orderId, r.requestId, remaining)];
      case Note(n) =>
        if n.orderId !in activeOrders {
          BufferEarlyOrderEvent(n);
          return [];
        }
        ApplyOrderEvent(n);
        return [Notified(n)];
      case BalanceSnapshot =>
        return [BalanceUpdate];
      case AccountSnapshot =>
        return [AccountUpdate];
      case OtherData =>
        return [];
    }

    method CancelOrder(orderId: uint64) returns (requestId: uint64)
      modifies this
      ensures Snapshot() == Cancel(old(Snapshot()), orderId) && requestId == requestSeq
    {
      requestSeq := (requestSeq + 1) % WORD;
      cancelRequests := cancelRequests[requestSeq := orderId];
      return requestSeq;
    }
  }

  // ----- whole runs -----

  /** What happens to an actor: a response arrives, or the actor asks for a cancellation. */
  datatype Input = Receive(response: Response) | RequestCancel(orderId: uint64)

  function Step(s: State, i: Input): State {
    match i
    case Receive(r) => Decode(s, r).0
    case RequestCancel(id) => Cancel(s, id)
  }

  function Emit(s: State, i: Input): seq<Event> {
    match i
    case Receive(r) => Decode(s, r).1
    case RequestCancel(_) => []
  }

  function StateAfter(inputs: seq<Input>): State {
    if inputs == [] then Initial() else Step(StateAfter(inputs[..|inputs| - 1]), inputs[|inputs| - 1])
  }

  function EventsAfter(inputs: seq<Input>): seq<Event> {
    if inputs == [] then []
    else EventsAfter(inputs[..|inputs| - 1]) + Emit(StateAfter(inputs[..|inputs| - 1]), inputs[|inputs| - 1])
  }

  function NoticeIn(i: Input): Option<Notice> {
    if i.Receive? && i.response.success && i.response.data.Note? then Some(i.response.data.notice) else None
  }

  /** The notices received, and returned, for one order, in order. */
  function Received(inputs: seq<Input>, orderId: uint64): seq<Notice> {
    if inputs == [] then []
    else
      var n := NoticeIn(inputs[|inputs| - 1]);
      Received(inputs[..|inputs| - 1], orderId) + if n.Some? && n.value.orderId == orderId then [n.value] else []
  }

  function Returned(events: seq<Event>, orderId: uint64): seq<Notice> {
    if events == [] then []
    else
      var e := events[|events| - 1];
      Returned(events[..|events| - 1], orderId)
        + if e.Notified? && e.notice.orderId == orderId then [e.notice] else []
  }

  lemma {:induction false} ReturnedConcat(a: seq<Event>, b: seq<Event>, id: uint64)
    ensures Returned(a + b, id) == Returned(a, id) + Returned(b, id)
  {
    if b == [] {
      assert a + b == a;
    } else {
      assert (a + b)[..|a + b| - 1] == a + b[..|b| - 1];
      ReturnedConcat(a, b[..|b| - 1], id);
    }
  }

  lemma {:induction false} ReturnedNotices(ns: seq<Notice>, id: uint64)
    requires forall i, j :: 0 <= i < j < |ns| ==> ns[i].orderId == ns[j].orderId
    ensures Returned(Notify(ns), id) == if ns != [] && ns[0].orderId == id then ns else []
  {
    if ns != [] {
      var front := ns[..|ns| - 1];
      assert Notify(ns)[..|ns| - 1] == Notify(front);
      ReturnedNotices(front, id);
    }
  }

  /** No order is both active and buffered, and notices are buffered under their own order. */
  ghost predicate Separated(s: State) {
    && s.active.Keys !! s.early.Keys
    && forall id, i :: id in s.early && 0 <= i < |s.early[id]| ==> s.early[id][i].orderId == id
  }

  lemma ApplyShrinks(s: State, n: Notice)
    ensures Apply(s, n).active.Keys <= s.active.Keys && Apply(s, n).early == s.early
  {
  }

  lemma {:induction false} ApplyAllShrinks(s: State, ns: seq<Notice>)
    ensures ApplyAll(s, ns).active.Keys <= s.active.Keys && ApplyAll(s, ns).early == s.early
  {
    if ns != [] {
      ApplyAllShrinks(s, ns[..|ns| - 1]);
      ApplyShrinks(ApplyAll(s, ns[..|ns| - 1]), ns[|ns| - 1]);
    }
  }

  lemma StepKeepsSeparated(s: State, i: Input)
    requires Separated(s)
    ensures Separated(Step(s, i))
  {
    if i.Receive? && i.response.success && i.response.data.OrderId? {
      var id, requestId := i.response.data.id, i.response.requestId;
      ApplyAllShrinks(Opened(s, id, requestId), Buffered(s, id));
      hide ApplyAll;
    } else if i.Receive? && i.response.success && i.response.data.Note? {
      ApplyShrinks(s, i.response.data.notice);
    }
  }

  /** One input moves notices from the wire to the output or the buffer, losing and reordering none. */
  lemma StepConserves(s: State, i: Input, id: uint64)
    requires Separated(s)
    ensures Buffered(s, id) + Received([i], id) == Returned(Emit(s, i), id) + Buffered(Step(s, i), id)
  {
    assert [i][..0] == [];
    if NoticeIn(i).Some? {
      var n := NoticeIn(i).value;
      if n.orderId in s.active {
        ApplyShrinks(s, n);
        assert [Notified(n)][..0] == [];
      }
    } else if i.Receive? && i.response.success && i.response.data.OrderId? {
      AcceptConserves(s, i.response.data.id, i.response.requestId, id);
    } else {
      EmitsNoNotice(s, i, id);
    }
  }

  lemma AcceptClears(s: State, orderId: uint64, requestId: uint64, id: uint64)
    ensures Buffered(Accept(s, orderId, requestId), id) == if id == orderId then [] else Buffered(s, id)
  {
    ApplyAllShrinks(Opened(s, orderId, requestId), Buffered(s, orderId));
    hide ApplyAll;
  }

  lemma AcceptConserves(s: State, orderId: uint64, requestId: uint64, id: uint64)
    requires Separated(s)
    ensures Buffered(s, id)
            == Returned([Accepted(orderId, requestId)] + Notify(Buffered(s, orderId)), id) + Buffered(Accept(s, orderId, requestId), id)
  {
    AcceptReturns(s, orderId, requestId, id);
    AcceptClears(s, orderId, requestId, id);
    hide *;
    if id == orderId {
      assert Buffered(s, id) + [] == Buffered(s, id);
    } else {
      assert [] + Buffered(s, id) == Buffered(s, id);
    }
  }

  /** An acceptance returns exactly what its order had buffered. */
  lemma AcceptReturns(s: State, orderId: uint64, requestId: uint64, id: uint64)
    requires Separated(s)
    ensures Returned([Accepted(orderId, requestId)] + Notify(Buffered(s, orderId)), id)
            == if id == orderId then Buffered(s, orderId) else []
  {
    var head, held := [Accepted(orderId, requestId)], Buffered(s, orderId);
    AllOfOne(s, orderId);
    HeadReturnsNothing(head[0], id);
    hide *;
    ReturnedNotices(held, id);
    ReturnedConcat(head, Notify(held), id);
    assert Returned(Notify(held), id) == if id == orderId then held else [];
    assert [] + Returned(Notify(held), id) == Returned(Notify(held), id);
  }

  lemma AllOfOne(s: State, orderId: uint64)
    requires Separated(s)
    ensures forall i :: 0 <= i < |Buffered(s, orderId)| ==> Buffered(s, orderId)[i].orderId == orderId
  {
  }

  lemma HeadReturnsNothing(e: Event, id: uint64)
    requires !e.Notified?
    ensures Returned([e], id) == []
  {
    assert [e][..0] == [];
  }

  lemma EmitsNoNotice(s: State, i: Input, id: uint64)
    requires NoticeIn(i).None? && !(i.Receive? && i.response.success && i.response.data.OrderId?)
    ensures Returned(Emit(s, i), id) == [] && Buffered(Step(s, i), id) == Buffered(s, id)
  {
    var es := Emit(s, i);
    assert |es| <= 1 && (es != [] ==> !es[0].Notified? && es[..0] == []);
  }

  lemma {:induction false} RunStaysSeparated(inputs: seq<Input>)
    ensures Separated(StateAfter(inputs))
  {
    if inputs != [] {
      RunStaysSeparated(inputs[..|inputs| - 1]);
      StepKeepsSeparated(StateAfter(inputs[..|inputs| - 1]), inputs[|inputs| - 1]);
    }
  }

  /** Over any run, the fills and forced cancels received for an order are those returned so far followed by
      those still buffered: each is returned exactly once or waits, and none overtakes another. */
  lemma {:induction false} NoticesConserved(inputs: seq<Input>, id: uint64)
    ensures Received(inputs, id) == Returned(EventsAfter(inputs), id) + Buffered(StateAfter(inputs), id)
  {
    if inputs != [] {
      var before, last := inputs[..|inputs| - 1], inputs[|inputs| - 1];
      NoticesConserved(before, id);
      RunStaysSeparated(before);
      StepConserves(StateAfter(before), last, id);
      ReturnedConcat(EventsAfter(before), Emit(StateAfter(before), last), id);
      assert [last][..0] == [] && Received([last], id) + [] == Received([last], id);
      assert Received(inputs, id) == Received(before, id) + Received([last], id);
      hide *;
      Shuffle(Returned(EventsAfter(before), id), Buffered(StateAfter(before), id), Received([last], id),
              Returned(Emit(StateAfter(before), last), id), Buffered(Step(StateAfter(before), last), id));
    }
  }

  lemma Shuffle(returned: seq<Notice>, buffered: seq<Notice>, received: seq<Notice>, out: seq<Notice>, kept: seq<Notice>)
    requires buffered + received == out + kept
    ensures (returned + buffered) + received == (returned + out) + kept
  {
    assert (returned + buffered) + received == returned + (buffered + received);
    assert (returned + out) + kept == returned + (out + kept);
  }

  // ----- acceptance comes first -----

  ghost predicate WasAccepted(events: seq<Event>, id: uint64) {
    exists i :: 0 <= i < |events| && events[i].Accepted? && events[i].orderId == id
  }

  /** No notice is returned before its order's acceptance. */
  ghost predicate Heralded(events: seq<Event>) {
    forall i :: 0 <= i < |events| && events[i].Notified? ==> WasAccepted(events[..i], events[i].notice.orderId)
  }

  lemma AcceptedStays(a: seq<Event>, b: seq<Event>, id: uint64)
    requires WasAccepted(a, id)
    ensures WasAccepted(a + b, id)
  {
    var i :| 0 <= i < |a| && a[i].Accepted? && a[i].orderId == id;
    assert (a + b)[i] == a[i];
  }

  lemma HeraldedConcat(a: seq<Event>, b: seq<Event>)
    requires Heralded(a)
    requires forall i :: 0 <= i < |b| && b[i].Notified? ==> WasAccepted(a + b[..i], b[i].notice.orderId)
    ensures Heralded(a + b)
  {
    forall i | 0 <= i < |a + b| && (a + b)[i].Notified?
      ensures WasAccepted((a + b)[..i], (a + b)[i].notice.orderId)
    {
      if i < |a| {
        assert (a + b)[..i] == a[..i];
      } else {
        assert (a + b)[..i] == a + b[..i - |a|] && (a + b)[i] == b[i - |a|];
      }
    }
  }

  lemma AcceptHeralds(s: State, orderId: uint64, requestId: uint64, events: seq<Event>)
    requires Separated(s) && Heralded(events)
    ensures var out := [Accepted(orderId, requestId)] + Notify(Buffered(s, orderId));
            && Heralded(events + out) && WasAccepted(events + out, orderId)
  {
    var out := [Accepted(orderId, requestId)] + Notify(Buffered(s, orderId));
    forall k | 0 <= k < |out| && out[k].Notified?
      ensures WasAccepted(events + out[..k], out[k].notice.orderId)
    {
      assert out[k].notice == Buffered(s, orderId)[k - 1];
      assert (events + out[..k])[|events|] == out[0];
    }
    assert (events + out)[|events|] == out[0];
    hide WasAccepted, Heralded;
    HeraldedConcat(events, out);
  }

  lemma StepHeralds(s: State, i: Input, events: seq<Event>)
    requires Separated(s) && Heralded(events)
    requires forall id :: id in s.active ==> WasAccepted(events, id)
    ensures Heralded(events + Emit(s, i))
    ensures forall id :: id in Step(s, i).active ==> WasAccepted(events + Emit(s, i), id)
  {
    var out := Emit(s, i);
    forall id | id in s.active ensures WasAccepted(events + out, id) { AcceptedStays(events, out, id); }
    if AcceptIn(i).Some? {
      var id, requestId := i.response.data.id, i.response.requestId;
      hide WasAccepted, Heralded, Separated, ApplyAll, Buffered;
      AcceptHeralds(s, id, requestId, events);
      ApplyAllShrinks(Opened(s, id, requestId), Buffered(s, id));
    } else if NoticeIn(i).Some? {
      ApplyShrinks(s, NoticeIn(i).value);
      assert forall k :: 0 <= k < |out| ==> events + out[..k] == events;
      hide WasAccepted, Heralded;
      HeraldedConcat(events, out);
    } else {
      assert forall k :: 0 <= k < |out| ==> !out[k].Notified?;
      hide WasAccepted, Heralded;
      HeraldedConcat(events, out);
    }
  }

  /** In every run, a fill or forced cancel reaches the strategy only after the acceptance that names its order. */
  lemma {:induction false} AcceptanceComesFirst(inputs: seq<Input>)
    ensures Heralded(EventsAfter(inputs))
    ensures forall id :: id in StateAfter(inputs).active ==> WasAccepted(EventsAfter(inputs), id)
  {
    if inputs != [] {
      var before := inputs[..|inputs| - 1];
      AcceptanceComesFirst(before);
      RunStaysSeparated(before);
      StepHeralds(StateAfter(before), inputs[|inputs| - 1], EventsAfter(before));
    }
  }

  // ----- quantities -----

  /** Quantity of the fills returned for an order since its latest acceptance. */
  function FilledSince(events: seq<Event>, id: uint64): int {
    if events == [] then 0
    else
      var e := events[|events| - 1];
      if e.Accepted? && e.orderId == id then 0
      else FilledSince(events[..|events| - 1], id)
           + if e.Notified? && e.notice.Fill? && e.notice.orderId == id then e.notice.qty else 0
  }

  ghost predicate Tracks(s: State, events: seq<Event>) {
    forall id :: id in s.active ==> s.active[id].filledQty == Wrap(FilledSince(events, id))
  }

  lemma FilledStep(events: seq<Event>, e: Event, id: uint64)
    ensures FilledSince(events + [e], id)
            == if e.Accepted? && e.orderId == id then 0
               else FilledSince(events, id) + if e.Notified? && e.notice.Fill? && e.notice.orderId == id then e.notice.qty else 0
  {
    assert (events + [e])[..|events|] == events;
  }

  lemma ApplyTracks(s: State, events: seq<Event>, n: Notice)
    requires Tracks(s, events)
    ensures Tracks(Apply(s, n), events + [Notified(n)])
  {
    hide Wrap;
    forall id | id in Apply(s, n).active
      ensures Apply(s, n).active[id].filledQty == Wrap(FilledSince(events + [Notified(n)], id))
    {
      FilledStep(events, Notified(n), id);
      if n.Fill? && n.orderId == id {
        WrapAdds(FilledSince(events, id), n.qty);
      }
    }
  }

  lemma {:induction false} ReplayTracks(s: State, events: seq<Event>, ns: seq<Notice>)
    requires Tracks(s, events)
    ensures Tracks(ApplyAll(s, ns), events + Notify(ns))
  {
    if ns == [] {
      assert events + Notify(ns) == events;
    } else {
      var front, last := ns[..|ns| - 1], ns[|ns| - 1];
      ReplayTracks(s, events, front);
      assert events + Notify(ns) == (events + Notify(front)) + [Notified(last)];
      hide Tracks, Apply;
      ApplyTracks(ApplyAll(s, front), events + Notify(front), last);
    }
  }

  lemma AcceptTracks(s: State, events: seq<Event>, orderId: uint64, requestId: uint64)
    requires Tracks(s, events)
    ensures Tracks(Accept(s, orderId, requestId), events + ([Accepted(orderId, requestId)] + Notify(Buffered(s, orderId))))
  {
    var e := Accepted(orderId, requestId);
    var s' := s.(requestToOrder := s.requestToOrder[requestId := orderId],
                 active := s.active[orderId := OrderInfo(requestId, 0)],
                 early := s.early - {orderId});
    forall id | id in s'.active
      ensures s'.active[id].filledQty == Wrap(FilledSince(events + [e], id))
    {
      FilledStep(events, e, id);
    }
    assert events + ([e] + Notify(Buffered(s, orderId))) == (events + [e]) + Notify(Buffered(s, orderId));
    assert Tracks(s', events + [e]);
    hide Tracks, ApplyAll;
    ReplayTracks(s', events + [e], Buffered(s, orderId));
  }

  lemma StepTracks(s: State, i: Input, events: seq<Event>)
    requires Tracks(s, events)
    ensures Tracks(Step(s, i), events + Emit(s, i))
  {
    hide Wrap;
    if i.Receive? && i.response.success && i.response.data.OrderId? {
      AcceptTracks(s, events, i.response.data.id, i.response.requestId);
    } else if NoticeIn(i).Some? && NoticeIn(i).value.orderId in s.active {
      ApplyTracks(s, events, NoticeIn(i).value);
    } else {
      var out := Emit(s, i);
      forall id | id in Step(s, i).active
        ensures Step(s, i).active[id].filledQty == Wrap(FilledSince(events + out, id))
      {
        assert |out| <= 1;
        if |out| == 1 { FilledStep(events, out[0], id); assert out == [out[0]]; } else { assert events + out == events; }
      }
    }
  }

  /** In every run, an active order's filled quantity is what the returned fills since its acceptance add up to,
      as an int64 holds it. */
  lemma {:induction false} FilledQuantityIsReturnedFills(inputs: seq<Input>)
    ensures Tracks(StateAfter(inputs), EventsAfter(inputs))
  {
    if inputs != [] {
      var before := inputs[..|inputs| - 1];
      FilledQuantityIsReturnedFills(before);
      StepTracks(StateAfter(before), inputs[|inputs| - 1], EventsAfter(before));
    }
  }

  // ----- the two directions of the request index -----

  /** `requestToOrder` and `activeOrders` are inverse to each other. */
  ghost predicate Inverse(s: State) {
    && (forall id :: id in s.active ==>
          s.active[id].requestId in s.requestToOrder && s.requestToOrder[s.active[id].requestId] == id)
    && (forall r :: r in s.requestToOrder ==>
          s.requestToOrder[r] in s.active && s.active[s.requestToOrder[r]].requestId == r)
  }

  function AcceptIn(i: Input): Option<Event> {
    if i.Receive? && i.response.success && i.response.data.OrderId?
    then Some(Accepted(i.response.data.id, i.response.requestId)) else None
  }

  ghost function AcceptedOrders(inputs: seq<Input>): set<uint64> {
    set k | 0 <= k < |inputs| && AcceptIn(inputs[k]).Some? :: inputs[k].response.data.id
  }

  ghost function AcceptedRequests(inputs: seq<Input>): set<uint64> {
    set k | 0 <= k < |inputs| && AcceptIn(inputs[k]).Some? :: inputs[k].response.requestId
  }

  ghost predicate UniqueIdentities(inputs: seq<Input>) {
    forall i, j :: 0 <= i < j < |inputs| && AcceptIn(inputs[i]).Some? && AcceptIn(inputs[j]).Some? ==>
      && inputs[i].response.data.id != inputs[j].response.data.id
      && inputs[i].response.requestId != inputs[j].response.requestId
  }

  lemma ApplyKeepsInverse(s: State, n: Notice)
    requires Inverse(s)
    ensures Inverse(Apply(s, n))
    ensures Apply(s, n).active.Keys <= s.active.Keys && Apply(s, n).requestToOrder.Keys <= s.requestToOrder.Keys
  {
  }

  lemma {:induction false} ApplyAllKeepsInverse(s: State, ns: seq<Notice>)
    requires Inverse(s)
    ensures Inverse(ApplyAll(s, ns))
    ensures ApplyAll(s, ns).active.Keys <= s.active.Keys
    ensures ApplyAll(s, ns).requestToOrder.Keys <= s.requestToOrder.Keys
  {
    if ns != [] {
      ApplyAllKeepsInverse(s, ns[..|ns| - 1]);
      ApplyKeepsInverse(ApplyAll(s, ns[..|ns| - 1]), ns[|ns| - 1]);
    }
  }

  lemma OpenKeepsInverse(s: State, orderId: uint64, requestId: uint64)
    requires Inverse(s) && orderId !in s.active && requestId !in s.requestToOrder
    ensures Inverse(Opened(s, orderId, requestId))
  {
  }

  lemma StepKeepsInverse(s: State, i: Input)
    requires Inverse(s)
    requires AcceptIn(i).Some? ==> i.response.data.id !in s.active && i.response.requestId !in s.requestToOrder
    ensures Inverse(Step(s, i))
    ensures Step(s, i).active.Keys <= s.active.Keys + (if AcceptIn(i).Some? then {i.response.data.id} else {})
    ensures Step(s, i).requestToOrder.Keys
            <= s.requestToOrder.Keys + (if AcceptIn(i).Some? then {i.response.requestId} else {})
  {
    if AcceptIn(i).Some? {
      var id, requestId := i.response.data.id, i.response.requestId;
      hide Inverse, ApplyAll;
      OpenKeepsInverse(s, id, requestId);
      ApplyAllKeepsInverse(Opened(s, id, requestId), Buffered(s, id));
    } else if NoticeIn(i).Some? {
      hide Inverse, Apply;
      ApplyKeepsInverse(s, NoticeIn(i).value);
      assert Step(s, i).active.Keys <= s.active.Keys && Step(s, i).requestToOrder.Keys <= s.requestToOrder.Keys;
    } else {
      OtherKeepsInverse(s, i);
      hide Step, Inverse;
    }
  }

  lemma OtherKeepsInverse(s: State, i: Input)
    requires Inverse(s) && AcceptIn(i).None? && NoticeIn(i).None?
    ensures Inverse(Step(s, i))
    ensures Step(s, i).active.Keys <= s.active.Keys && Step(s, i).requestToOrder.Keys <= s.requestToOrder.Keys
  {
  }

  /** The last accepted identities are new, and all earlier ones were already unique. */
  lemma LastIsNew(inputs: seq<Input>)
    requires inputs != [] && UniqueIdentities(inputs)
    ensures var before, last := inputs[..|inputs| - 1], inputs[|inputs| - 1];
            && UniqueIdentities(before)
            && AcceptedOrders(before) <= AcceptedOrders(inputs) && AcceptedRequests(before) <= AcceptedRequests(inputs)
            && (AcceptIn(last).Some? ==>
                  && last.response.data.id in AcceptedOrders(inputs) - AcceptedOrders(before)
                  && last.response.requestId in AcceptedRequests(inputs) - AcceptedRequests(before))
  {
    hide AcceptIn;
    var before := inputs[..|inputs| - 1];
    assert forall k :: 0 <= k < |before| ==> before[k] == inputs[k];
  }

  /** As long as the exchange never reuses an order or request identity, each active order is found from its
      request and each remembered request leads to its active order. */
  lemma {:induction false} RequestIndexIsInverse(inputs: seq<Input>)
    requires UniqueIdentities(inputs)
    ensures Inverse(StateAfter(inputs))
    ensures StateAfter(inputs).active.Keys <= AcceptedOrders(inputs)
    ensures StateAfter(inputs).requestToOrder.Keys <= AcceptedRequests(inputs)
  {
    if inputs != [] {
      var before, last := inputs[..|inputs| - 1], inputs[|inputs| - 1];
      LastIsNew(inputs);
      RequestIndexIsInverse(before);
      hide UniqueIdentities, AcceptedOrders, AcceptedRequests, Inverse, Step;
      StepKeepsInverse(StateAfter(before), last);
    }
  }
}
