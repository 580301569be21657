/** What the final reconciliation of the supplier order audit adds to a clean run: both sides have seen the same fills, every
quote agrees with the exchange, and every accepted order has ended (analysis/cdf_activation.go). */
module CdfReconciliation {
  import opened Int64
  import opened Sums
  import opened CdfOrders
  import opened CdfLifecycle

  // ----- the two fill logs -----

  /** One fill of one order. */
  datatype Piece = Piece(key: FillKey, qty: int)

  function PieceOf(s: Stamp, f: Fill): Piece {
    Piece(FillKeyOf(s, f), f.qty)
  }

  /** The fills the suppliers reported. */
  function Heard(es: seq<Event>): seq<Piece> {
    if es == [] then []
    else
      var e := es[|es| - 1];
      Heard(es[..|es| - 1]) + if e.SupplierFill? then [PieceOf(e.stamp, e.fill)] else []
  }

  /** The fills the exchange reported for audited suppliers. */
  function Printed(es: seq<Event>, audited: set<Participant>): seq<Piece> {
    if es == [] then []
    else
      var e := es[|es| - 1];
      Printed(es[..|es| - 1], audited) + if e.ExchangeFill? && Owner(e.stamp) in audited then [PieceOf(e.stamp, e.fill)] else []
  }

  function OrderOf(k: FillKey): OrderKey {
    OrderKey(k.venue, k.client, k.order)
  }

  /** A piece's share in an order. */
  function Share(k: OrderKey): Piece -> int {
    (p: Piece) => if OrderOf(p.key) == k then p.qty else 0
  }

  lemma ShareAppend(k: OrderKey, ps: seq<Piece>, p: Piece)
    ensures Sum(Share(k), ps + [p]) == Sum(Share(k), ps) + if OrderOf(p.key) == k then p.qty else 0
  {
    SumConcat(Share(k), ps, [p]);
    SumOfOne(Share(k), p);
  }

  lemma {:induction false} LearnedIsHeard(es: seq<Event>, k: OrderKey)
    ensures Learned(es, k) == Sum(Share(k), Heard(es))
  {
    if es != [] {
      var before, e := es[..|es| - 1], es[|es| - 1];
      LearnedIsHeard(before, k);
      if e.SupplierFill? {
        ShareAppend(k, Heard(before), PieceOf(e.stamp, e.fill));
      }
      hide Sum;
      assert Heard(before) + [] == Heard(before);
    }
  }

  lemma {:induction false} ExecutedIsPrinted(es: seq<Event>, audited: set<Participant>, k: OrderKey)
    requires OwnerOf(k) in audited
    ensures Executed(es, k) == Sum(Share(k), Printed(es, audited))
  {
    if es != [] {
      var before, e := es[..|es| - 1], es[|es| - 1];
      ExecutedIsPrinted(before, audited, k);
      if e.ExchangeFill? && Owner(e.stamp) in audited {
        ShareAppend(k, Printed(before, audited), PieceOf(e.stamp, e.fill));
      }
      hide Sum;
      assert Printed(before, audited) + [] == Printed(before, audited);
    }
  }

  /** A log holds exactly these pieces, each under its own key. */
  ghost predicate Records(ps: seq<Piece>, log: map<FillKey, Execution>) {
    && (forall i, j :: 0 <= i < j < |ps| ==> ps[i].key != ps[j].key)
    && (forall p :: p in ps <==> p.key in log && log[p.key].fill.qty == p.qty)
  }

  lemma RecordMore(ps: seq<Piece>, log: map<FillKey, Execution>, p: Piece, x: Execution)
    requires Records(ps, log) && p.key !in log && x.fill.qty == p.qty
    ensures Records(ps + [p], log[p.key := x])
  {
    assert forall i :: 0 <= i < |ps| ==> ps[i] in ps && ps[i].key in log;
    assert forall q :: q in ps + [p] <==> q in ps || q == p;
  }

  lemma {:induction false} OnceEach(ps: seq<Piece>)
    requires forall i, j :: 0 <= i < j < |ps| ==> ps[i].key != ps[j].key
    ensures forall p :: multiset(ps)[p] == if p in ps then 1 else 0
  {
    if ps != [] {
      var front, last := ps[..|ps| - 1], ps[|ps| - 1];
      OnceEach(front);
      assert ps == front + [last];
      assert last !in front;
    }
  }

  /** Logs with the same keys and quantities hold the same pieces. */
  lemma SamePieces(a: seq<Piece>, b: seq<Piece>, left: map<FillKey, Execution>, right: map<FillKey, Execution>)
    requires Records(a, left) && Records(b, right) && left.Keys == right.Keys
    requires forall k :: k in left ==> left[k].fill.qty == right[k].fill.qty
    ensures multiset(a) == multiset(b)
  {
    OnceEach(a);
    OnceEach(b);
    assert forall p :: p in a <==> p in b;
  }

  // ----- the logs along a run -----

  ghost predicate LogsKept(st: State, es: seq<Event>, audited: set<Participant>) {
    st.core.suppliers.Keys == audited && Records(Heard(es), st.observed) && Records(Printed(es, audited), st.actual)
  }

  lemma NoticeLogs(st: State, strict: bool, e: Event)
    requires e.SupplierFill? && Noticed(st, strict, e).checks == st.checks
    ensures Noticed(st, strict, e).actual == st.actual
    ensures FillKeyOf(e.stamp, e.fill) !in st.observed
    ensures Noticed(st, strict, e).observed
            == st.observed[FillKeyOf(e.stamp, e.fill) := Execution(e.fill, e.stamp.at, e.stamp.frame)]
  {
    hide CanNotice, CanBook, FitsQuote, Absorbs, Told, Drained;
    assert Owner(e.stamp) in st.core.suppliers && CanNotice(st, strict, e);
    NewlyHeard(st, strict, e);
  }

  lemma NewlyHeard(st: State, strict: bool, e: Event)
    requires e.SupplierFill? && Owner(e.stamp) in st.core.suppliers && CanNotice(st, strict, e)
    ensures FillKeyOf(e.stamp, e.fill) !in st.observed
  {
    hide PositionOk, CanBook, Queued, Absorbs, FitsQuote;
  }

  lemma EndLogs(st: State, key: OrderKey, o: Order, sup: Supplier, at: int64, kind: string)
    ensures var st' := Ended(st, key, o, sup, at, kind);
            st'.observed == st.observed && st'.actual == st.actual
  {
  }

  lemma FillLogs(st: State, strict: bool, e: Event)
    requires e.ExchangeFill? && Owner(e.stamp) in st.core.suppliers && Filled(st, strict, e).checks == st.checks
    ensures Filled(st, strict, e).observed == st.observed
    ensures FillKeyOf(e.stamp, e.fill) !in st.actual
    ensures Filled(st, strict, e).actual
            == st.actual[FillKeyOf(e.stamp, e.fill) := Execution(e.fill, e.stamp.at, e.stamp.frame)]
  {
    FillAdmitted(st, strict, e);
    FilledShape(st, strict, e);
    var o, sup := FilledOrder(st.core.orders[KeyOf(e.stamp, e.fill.order)], e), Booked(st.core.suppliers[Owner(e.stamp)], e.fill);
    hide Filled, CanFill, Booked, FilledOrder, Ended;
    EndLogs(Logged(st, e), KeyOf(e.stamp, e.fill.order), o, sup, e.stamp.at, "filled");
  }

  lemma FillAdmitted(st: State, strict: bool, e: Event)
    requires e.ExchangeFill? && Owner(e.stamp) in st.core.suppliers && Filled(st, strict, e).checks == st.checks
    ensures CanFill(st, strict, e) && FillKeyOf(e.stamp, e.fill) !in st.actual
    ensures KeyOf(e.stamp, e.fill.order) in st.core.orders
    ensures MatchesOrder(st.core.orders[KeyOf(e.stamp, e.fill.order)], strict, e) && CanSettle(st.core.suppliers[Owner(e.stamp)], e.fill)
  {
    hide MatchesOrder, CanSettle;
  }

  lemma CancelLogs(st: State, strict: bool, e: Event)
    requires e.Cancel?
    ensures Cancelled(st, strict, e).observed == st.observed && Cancelled(st, strict, e).actual == st.actual
  {
    if Owner(e.stamp) in st.core.suppliers && CanCancel(st, strict, e) {
      var p, key := Owner(e.stamp), KeyOf(e.stamp, e.order);
      NotedKeeps(st, strict, e);
      hide Noted, Captured, Ended;
      EndLogs(Noted(st, strict, e), key, Captured(st.core.orders[key], st.core.suppliers[p].quote, strict, e),
              st.core.suppliers[p].(quote := NoQuote()), e.stamp.at, CancelKind(e));
    }
    hide CanCancel;
  }

  lemma AcceptLogs(st: State, strict: bool, e: Event)
    requires e.Accept?
    ensures Accepted(st, strict, e).observed == st.observed && Accepted(st, strict, e).actual == st.actual
  {
    if Owner(e.stamp) in st.core.suppliers && CanAccept(st, strict, e) {
      hide CanAccept, Wrap, NewOrder;
    }
    hide CanAccept;
  }

  lemma QuietLogs(st: State, strict: bool, e: Event)
    requires !e.SupplierFill? && !e.ExchangeFill?
    ensures Step(st, strict, e).observed == st.observed && Step(st, strict, e).actual == st.actual
  {
    hide Cancelled, Accepted;
    if e.Cancel? {
      CancelLogs(st, strict, e);
    } else if e.Accept? {
      AcceptLogs(st, strict, e);
    } else {
      hide Step;
      BookkeepingIsCalm(st, strict, e);
    }
  }

  lemma HeardStep(es: seq<Event>, e: Event, audited: set<Participant>)
    ensures Heard(es + [e]) == Heard(es) + if e.SupplierFill? then [PieceOf(e.stamp, e.fill)] else []
    ensures Printed(es + [e], audited)
            == Printed(es, audited) + if e.ExchangeFill? && Owner(e.stamp) in audited then [PieceOf(e.stamp, e.fill)] else []
  {
    assert (es + [e])[..|es|] == es;
  }

  lemma LogsStep(st: State, strict: bool, e: Event, es: seq<Event>, audited: set<Participant>)
    requires LogsKept(st, es, audited) && Step(st, strict, e).checks == st.checks
    ensures LogsKept(Step(st, strict, e), es + [e], audited)
  {
    StepKeepsRoster(st, strict, e);
    HeardStep(es, e, audited);
    hide Heard, Printed, Noticed, Filled, Cancelled, Accepted;
    var x := if e.SupplierFill? || e.ExchangeFill? then Some(Execution(e.fill, e.stamp.at, e.stamp.frame)) else None;
    if e.SupplierFill? {
      NoticeLogs(st, strict, e);
      hide Records;
      RecordMore(Heard(es), st.observed, PieceOf(e.stamp, e.fill), x.value);
    } else if e.ExchangeFill? {
      hide Records;
      if Owner(e.stamp) in audited {
        FillLogs(st, strict, e);
        RecordMore(Printed(es, audited), st.actual, PieceOf(e.stamp, e.fill), x.value);
      } else {
        UnauditedIsIgnored(st, strict, e);
      }
    } else {
      hide Records, Step;
      QuietLogs(st, strict, e);
    }
  }

  lemma {:induction false} LogsHold(suppliers: map<Participant, Supplier>, strict: bool, es: seq<Event>)
    requires Run(suppliers, strict, es).checks == 0
    ensures LogsKept(Run(suppliers, strict, es), es, suppliers.Keys)
  {
    if es != [] {
      var before, e := es[..|es| - 1], es[|es| - 1];
      ChecksOnlyGrow(Run(suppliers, strict, before), strict, e);
      assert es == before + [e];
      hide Step, LogsKept;
      LogsHold(suppliers, strict, before);
      LogsStep(Run(suppliers, strict, before), strict, e, before, suppliers.Keys);
    }
  }

  // ----- what a reconciled run promises -----

  /** In either mode, when a clean run's fills match, the supplier of every audited order has learned exactly what the
      exchange executed. */
  lemma LearnedIsExecuted(suppliers: map<Participant, Supplier>, strict: bool, es: seq<Event>, k: OrderKey)
    requires Run(suppliers, strict, es).checks == 0 && FillsMatch(Run(suppliers, strict, es), strict) && OwnerOf(k) in suppliers
    ensures Learned(es, k) == Executed(es, k)
  {
    var st := Run(suppliers, strict, es);
    LogsHold(suppliers, strict, es);
    MatchingLogs(st, strict);
    hide *;
    LearnedIsHeard(es, k);
    ExecutedIsPrinted(es, suppliers.Keys, k);
    LogsSplit(st, es, suppliers.Keys);
    SamePieces(Heard(es), Printed(es, suppliers.Keys), st.observed, st.actual);
    SumOfPermutation(Share(k), Heard(es), Printed(es, suppliers.Keys));
  }

  lemma LogsSplit(st: State, es: seq<Event>, audited: set<Participant>)
    requires LogsKept(st, es, audited)
    ensures Records(Heard(es), st.observed) && Records(Printed(es, audited), st.actual)
  {
  }

  lemma MatchingLogs(st: State, strict: bool)
    requires FillsMatch(st, strict)
    ensures st.observed.Keys == st.actual.Keys
    ensures forall k :: k in st.observed ==> st.observed[k].fill.qty == st.actual[k].fill.qty
  {
    hide TradeAgrees;
    assert forall k :: k in st.observed ==> Confirmed(st, k);
    assert forall k :: k in st.actual ==> Explained(st, strict, k);
  }

  /** In strict mode the supplier's live quote is then what rests at the exchange. */
  lemma LiveQuotesAgree(suppliers: map<Participant, Supplier>, es: seq<Event>, p: Participant)
    requires Idle(suppliers) && Run(suppliers, true, es).checks == 0 && FillsMatch(Run(suppliers, true, es), true)
    requires p in suppliers && p in Run(suppliers, true, es).core.suppliers
    requires Run(suppliers, true, es).core.suppliers[p].quote.order != 0
    ensures var st := Run(suppliers, true, es).core;
            var k := QuoteKey(p, st.suppliers[p].quote);
            Known(st, k) && st.suppliers[p].quote.qty == OrderAt(st, k).remaining
  {
    QuoteLagsByUnlearnedFills(suppliers, true, es, p);
    LearnedIsExecuted(suppliers, true, es, QuoteKey(p, Run(suppliers, true, es).core.suppliers[p].quote));
    hide Run, FillsMatch, Executed, Learned, Early, Known;
  }

  /** The test of captured quotes never fails by itself: in a clean strict run whose fills match, it holds. */
  lemma CapturedQuotesAreDrawn(suppliers: map<Participant, Supplier>, es: seq<Event>)
    requires Idle(suppliers) && Run(suppliers, true, es).checks == 0 && FillsMatch(Run(suppliers, true, es), true)
    ensures QuotesDrawn(Run(suppliers, true, es))
  {
    var st := Run(suppliers, true, es);
    hide Run, FillsMatch, Executed, Learned;
    forall k | k in st.core.terminal
      ensures Drawn(st.core.terminal[k])
    {
      if st.core.terminal[k].local.Some? {
        EndedOrdersAreAudited(suppliers, es, k);
        CapturedQuoteLags(suppliers, es, k);
        LearnedIsExecuted(suppliers, true, es, k);
      }
    }
  }

  lemma EndedOrdersAreAudited(suppliers: map<Participant, Supplier>, es: seq<Event>, k: OrderKey)
    requires Idle(suppliers) && Run(suppliers, true, es).checks == 0 && k in Run(suppliers, true, es).core.terminal
    ensures OwnerOf(k) in suppliers
  {
    CleanRunsHold(suppliers, true, es);
    NoneCensored(suppliers, true, es, OwnerOf(k));
    hide Run, Indexed, Balanced, Counted, Quoted, Strict;
    assert Known(Run(suppliers, true, es).core, k);
  }

  // ----- closing what is still open -----

  lemma ResolvedOnlyGrows(st: State, strict: bool, k: OrderKey, end: int64)
    requires k in st.core.orders
    ensures Resolved(st, strict, k, end).checks >= st.checks
  {
    if CanCensor(st, strict, k) {
      EndNeverUnchecks(st, k, st.core.orders[k], st.core.suppliers[OwnerOf(k)], end, "censored");
    }
    hide Ended, CanCensor;
  }

  /** Censoring an open order keeps the whole invariant. */
  lemma CensorKeeps(st: State, k: OrderKey, end: int64, es: seq<Event>)
    requires Invariant(st.core, true, es) && k in st.core.orders && Resolved(st, true, k, end).checks == st.checks
    ensures Invariant(Resolved(st, true, k, end).core, true, es)
    ensures Resolved(st, true, k, end).core.orders == st.core.orders - {k}
  {
    var st', o, p := Resolved(st, true, k, end).core, st.core.orders[k], OwnerOf(k);
    assert CanCensor(st, true, k);
    LiveOrderFacts(st.core, k, es);
    hide CanCensor, Ended, Closed, Indexed, Apart, Balanced, Counted, Quoted, Strict, Sound, Executed, CapturedAddsUp;
    EndMoves(st, k, o, st.core.suppliers[p], end, "censored");
    assert st'.orders == st.core.orders - {k};
    hide Moved;
    ClosedCountsOne(st.core.suppliers[p], o, end, "censored");
    CensorMoves(st, st', k, o, es, Closed(st.core.suppliers[p], o, end, "censored").value);
  }

  lemma CensorMoves(st: State, st': Core, k: OrderKey, o: Order, es: seq<Event>, closed: Supplier)
    requires Invariant(st.core, true, es) && Moved(st.core, st', k, o.(ended := "censored")) && o == st.core.orders[k]
    requires OwnerOf(k) in st.core.suppliers && st'.suppliers == st.core.suppliers[OwnerOf(k) := closed]
    requires Sound(o) && o.filled == Executed(es, k) && o.local.None?
    requires EndCount(closed) == EndCount(st.core.suppliers[OwnerOf(k)]) + 1
    requires closed.accepted == st.core.suppliers[OwnerOf(k)].accepted && closed.quote == st.core.suppliers[OwnerOf(k)].quote
    ensures Invariant(st', true, es)
  {
    var after := o.(ended := "censored");
    assert Sound(after);
    NothingNew(es, k);
    hide Moved, Indexed, Apart, Balanced, Counted, Quoted, Strict, Executed, CapturedAddsUp, EndCount, Sound, QuotesKept;
    hide ExecutedOnly, Quiet;
    MoveKeepsCounts(st.core, st', k, after, st.core.suppliers[OwnerOf(k)], closed);
    QuoteOfOne(st.core, st', OwnerOf(k), closed);
    MoveKeepsInvariant(st.core, st', true, k, after, es, es);
  }

  lemma NothingNew(es: seq<Event>, k: OrderKey)
    ensures ExecutedOnly(es, es, k) && Quiet(es, es)
  {
  }

  lemma LiveOrderFacts(st: Core, k: OrderKey, es: seq<Event>)
    requires Apart(st) && Balanced(st, es) && k in st.orders
    ensures OwnerOf(k) in st.suppliers && Sound(st.orders[k]) && st.orders[k].filled == Executed(es, k) && st.orders[k].local.None?
  {
    hide Executed;
    assert Known(st, k) && OrderAt(st, k) == st.orders[k];
  }

  /** `st'` is `st` with the listed orders ended. */
  ghost predicate Closing(st: Core, st': Core, ks: seq<OrderKey>, es: seq<Event>) {
    Invariant(st', true, es) && st'.orders.Keys == st.orders.Keys - Members(ks)
  }

  lemma CloseNone(st: Core, es: seq<Event>)
    requires Invariant(st, true, es)
    ensures Closing(st, st, [], es)
  {
    hide Invariant;
  }

  lemma CloseOne(st: Core, before: Core, after: Core, ks: seq<OrderKey>, k: OrderKey, es: seq<Event>)
    requires Closing(st, before, ks, es) && Invariant(after, true, es) && after.orders == before.orders - {k}
    ensures Closing(st, after, ks + [k], es)
  {
    hide Invariant;
    assert forall x :: x in ks + [k] <==> x in ks || x == k;
  }

  lemma {:induction false} ResolveAllKeeps(st: State, ks: seq<OrderKey>, end: int64, es: seq<Event>)
    requires Invariant(st.core, true, es) && ResolveAll(st, true, ks, end).checks == st.checks
    requires Distinct(ks) && forall k :: k in ks ==> k in st.core.orders
    ensures Closing(st.core, ResolveAll(st, true, ks, end).core, ks, es)
  {
    hide *;
    if ks == [] {
      ResolveNothing(st, true, end);
      CloseNone(st.core, es);
    } else {
      var front, k := ks[..|ks| - 1], ks[|ks| - 1];
      LastMember(ks);
      ResolvedOnly(st, true, front, end, k);
      var before := ResolveAll(st, true, front, end);
      ResolveOneMore(st, true, front, end, k);
      assert ks == front + [k];
      ResolvesOnlyGrow(st, true, front, end);
      ResolvedOnlyGrows(before, true, k, end);
      ResolveAllKeeps(st, front, end, es);
      ClosingHolds(st.core, before.core, front, es);
      CensorKeeps(before, k, end, es);
      CloseOne(st.core, before.core, Resolved(before, true, k, end).core, front, k, es);
    }
  }

  lemma ClosingHolds(st: Core, st': Core, ks: seq<OrderKey>, es: seq<Event>)
    requires Closing(st, st', ks, es)
    ensures Invariant(st', true, es) && st'.orders.Keys == st.orders.Keys - Members(ks)
  {
  }

  ghost predicate Distinct(ks: seq<OrderKey>) {
    forall i, j :: 0 <= i < j < |ks| ==> ks[i] != ks[j]
  }

  ghost function Members(ks: seq<OrderKey>): set<OrderKey> {
    set k | k in ks
  }

  lemma LastMember(ks: seq<OrderKey>)
    requires ks != [] && Distinct(ks)
    ensures var front, k := ks[..|ks| - 1], ks[|ks| - 1];
            k !in front && k in ks && Distinct(front) && forall x :: x in front ==> x in ks
  {
  }

  lemma {:induction false} ResolvesOnlyGrow(st: State, strict: bool, ks: seq<OrderKey>, end: int64)
    ensures ResolveAll(st, strict, ks, end).checks >= st.checks
  {
    if ks != [] {
      var before, k := ResolveAll(st, strict, ks[..|ks| - 1], end), ks[|ks| - 1];
      ResolvesOnlyGrow(st, strict, ks[..|ks| - 1], end);
      if k in before.core.orders {
        ResolvedOnlyGrows(before, strict, k, end);
      }
      hide Resolved;
    }
  }

  /** No order is open, no supplier has one, and every supplier's accepted orders are its filled, cancelled, forcibly
      cancelled and censored ones, in the width the counter has. */
  ghost predicate AllEnded(st: Core) {
    && st.orders == map[] && st.live == map[]
    && forall p :: p in st.suppliers ==>
         var sup := st.suppliers[p];
         sup.accepted == Wrap(sup.filled + sup.cancelled + sup.forced + sup.censored)
  }

  /** After a clean strict run whose open orders are resolved without a check, in whatever order, every accepted order has
      ended. */
  lemma EveryAcceptedOrderEnds(suppliers: map<Participant, Supplier>, es: seq<Event>, ks: seq<OrderKey>, end: int64)
    requires Idle(suppliers) && Run(suppliers, true, es).checks == 0
    requires Lists(ks, Run(suppliers, true, es).core.orders.Keys)
    requires ResolveAll(Run(suppliers, true, es), true, ks, end).checks == 0
    ensures AllEnded(ResolveAll(Run(suppliers, true, es), true, ks, end).core)
  {
    var st := Run(suppliers, true, es);
    ListsMembers(ks, st.core.orders.Keys);
    hide *;
    CleanRunsHold(suppliers, true, es);
    ResolveAllKeeps(st, ks, end, es);
    ClosingHolds(st.core, ResolveAll(st, true, ks, end).core, ks, es);
    NothingOpen(ResolveAll(st, true, ks, end).core, es);
  }

  lemma ListsMembers(ks: seq<OrderKey>, s: set<OrderKey>)
    requires Lists(ks, s)
    ensures Members(ks) == s && Distinct(ks) && forall k :: k in ks ==> k in s
  {
  }

  lemma NothingOpen(st: Core, es: seq<Event>)
    requires Invariant(st, true, es) && st.orders.Keys == {}
    ensures AllEnded(st)
  {
    hide Apart, Balanced, Quoted, Strict, Wrap;
    assert forall p :: p in st.live ==> st.live[p] in st.orders;
    forall p | p in st.suppliers
      ensures var sup := st.suppliers[p];
              sup.accepted == Wrap(sup.filled + sup.cancelled + sup.forced + sup.censored)
    {
      assert CountsAddUp(st, p);
    }
  }
}
