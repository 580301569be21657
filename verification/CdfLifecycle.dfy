/** What every clean run of the supplier order audit keeps: the live index, the quantities, the counters and the lag between
the exchange's view of a quote and the supplier's (analysis/cdf_activation.go).  A run is clean when it has no check. */
module CdfLifecycle {
  import opened Int64
  import opened CdfOrders

  // ----- what the records say -----

  /** Quantity the exchange logged as executed for an order. */
  function Executed(es: seq<Event>, k: OrderKey): int {
    if es == [] then 0
    else
      var e := es[|es| - 1];
      Executed(es[..|es| - 1], k) + if e.ExchangeFill? && KeyOf(e.stamp, e.fill.order) == k then e.fill.qty else 0
  }

  /** Quantity the supplier has learned was filled for an order. */
  function Learned(es: seq<Event>, k: OrderKey): int {
    if es == [] then 0
    else
      var e := es[|es| - 1];
      Learned(es[..|es| - 1], k) + if e.SupplierFill? && KeyOf(e.stamp, e.fill.order) == k then e.fill.qty else 0
  }

  /** Quantity the supplier logged for an order before the order was accepted. */
  function Early(es: seq<Event>, k: OrderKey): int {
    if es == [] then 0
    else
      var e, before := es[|es| - 1], es[..|es| - 1];
      if e.Accept? && KeyOf(e.stamp, e.order) == k then Learned(before, k) else Early(before, k)
  }

  lemma TalliesStep(es: seq<Event>, e: Event, k: OrderKey)
    ensures Executed(es + [e], k) == Executed(es, k) + if e.ExchangeFill? && KeyOf(e.stamp, e.fill.order) == k then e.fill.qty else 0
    ensures Learned(es + [e], k) == Learned(es, k) + if e.SupplierFill? && KeyOf(e.stamp, e.fill.order) == k then e.fill.qty else 0
    ensures Early(es + [e], k) == if e.Accept? && KeyOf(e.stamp, e.order) == k then Learned(es, k) else Early(es, k)
  {
    assert (es + [e])[..|es|] == es;
  }

  // ----- invariants -----

  predicate Known(st: Core, k: OrderKey) {
    k in st.orders || k in st.terminal
  }

  function OrderAt(st: Core, k: OrderKey): Order
    requires Known(st, k)
  {
    if k in st.orders then st.orders[k] else st.terminal[k]
  }

  /** The live index holds exactly one entry per supplier with a live order, and it is that order. */
  ghost predicate Indexed(st: Core) {
    && (forall p :: p in st.live ==> st.live[p] in st.orders && OwnerOf(st.live[p]) == p)
    && (forall k :: k in st.orders ==> OwnerOf(k) in st.live && st.live[OwnerOf(k)] == k)
  }

  /** Live and ended orders are different orders, all of audited suppliers; live ones have not ended. */
  ghost predicate Apart(st: Core) {
    && (forall k :: k in st.orders ==> k !in st.terminal && st.orders[k].ended == "" && st.orders[k].local.None?)
    && (forall k :: Known(st, k) ==> OwnerOf(k) in st.suppliers)
  }

  predicate Sound(o: Order) {
    o.filled + o.remaining == o.original
  }

  /** Every order adds up, and what it says was filled is what the exchange logged. */
  ghost predicate Balanced(st: Core, es: seq<Event>) {
    && (forall k :: Known(st, k) ==> Sound(OrderAt(st, k)) && OrderAt(st, k).filled == Executed(es, k))
    && (forall k :: OwnerOf(k) in st.suppliers && !Known(st, k) ==> Executed(es, k) == 0)
  }

  function LiveCount(st: Core, p: Participant): int {
    if p in st.live then 1 else 0
  }

  function EndCount(sup: Supplier): int {
    sup.filled + sup.cancelled + sup.forced + sup.censored
  }

  predicate CountsAddUp(st: Core, p: Participant)
    requires p in st.suppliers
  {
    var sup := st.suppliers[p];
    sup.accepted == Wrap(LiveCount(st, p) + EndCount(sup))
  }

  ghost predicate Counted(st: Core) {
    forall p :: p in st.suppliers ==> CountsAddUp(st, p)
  }

  /** What is left of a quote, plus what the supplier learned since the acceptance, is the original quantity. */
  predicate QuoteAddsUp(st: Core, es: seq<Event>, k: OrderKey, q: Quote) {
    Known(st, k) && q.qty + Learned(es, k) == OrderAt(st, k).original + Early(es, k)
  }

  function QuoteKey(p: Participant, q: Quote): OrderKey {
    OrderKey(p.venue, p.client, q.order)
  }

  ghost predicate Quoted(st: Core, es: seq<Event>) {
    forall p :: p in st.suppliers && st.suppliers[p].quote.order != 0 ==>
      QuoteAddsUp(st, es, QuoteKey(p, st.suppliers[p].quote), st.suppliers[p].quote)
  }

  /** In strict mode: learned fills belong to known orders, none came early, and a quote captured at a cancellation
      still adds up and is no longer the supplier's live one. */
  ghost predicate Strict(st: Core, es: seq<Event>) {
    && (forall k :: Learned(es, k) != 0 ==> Known(st, k))
    && (forall k :: Early(es, k) == 0)
    && (forall k :: k in st.terminal && st.terminal[k].local.Some? ==> CapturedAddsUp(st, es, k))
  }

  predicate CapturedAddsUp(st: Core, es: seq<Event>, k: OrderKey)
    requires k in st.terminal && st.terminal[k].local.Some?
  {
    var q := st.terminal[k].local.value;
    && q.order == k.order != 0 && q.qty + Learned(es, k) == st.terminal[k].original && k !in st.orders
    && OwnerOf(k) in st.suppliers && st.suppliers[OwnerOf(k)].quote.order != k.order
  }

  ghost predicate Invariant(st: Core, strict: bool, es: seq<Event>) {
    && Indexed(st) && Apart(st) && Balanced(st, es) && Counted(st) && Quoted(st, es) && (strict ==> Strict(st, es))
  }

  // ----- acceptance -----

  /** An unknown order of a supplier without live orders becomes live. */
  ghost predicate Added(st: Core, st': Core, key: OrderKey, o: Order) {
    && st'.orders == st.orders[key := o] && st'.terminal == st.terminal && st'.live == st.live[OwnerOf(key) := key]
    && st'.suppliers.Keys == st.suppliers.Keys
    && !Known(st, key) && OwnerOf(key) !in st.live && OwnerOf(key) in st.suppliers && o.ended == "" && o.local.None?
  }

  lemma AddKeepsOrders(st: Core, st': Core, key: OrderKey, o: Order, es: seq<Event>, es': seq<Event>)
    requires Added(st, st', key, o) && Sound(o) && o.filled == 0
    requires Indexed(st) && Apart(st) && Balanced(st, es) && SameExecuted(es, es')
    ensures Indexed(st') && Apart(st') && Balanced(st', es')
  {
    AddKeepsIndex(st, st', key, o);
    AddKeepsApart(st, st', key, o);
    hide Added, Indexed, Apart, Balanced, SameExecuted, Sound;
    AddKeepsBalance(st, st', key, o, es, es');
  }

  lemma AddKeepsApart(st: Core, st': Core, key: OrderKey, o: Order)
    requires Added(st, st', key, o) && Apart(st)
    ensures Apart(st')
  {
    forall k | Known(st', k)
      ensures OwnerOf(k) in st'.suppliers
    {
      assert k != key ==> Known(st, k);
    }
  }

  lemma AddKeepsBalance(st: Core, st': Core, key: OrderKey, o: Order, es: seq<Event>, es': seq<Event>)
    requires Added(st, st', key, o) && Sound(o) && o.filled == 0 && Balanced(st, es) && SameExecuted(es, es')
    ensures Balanced(st', es')
  {
    hide Executed, Sound;
    forall k | Known(st', k)
      ensures Sound(OrderAt(st', k)) && OrderAt(st', k).filled == Executed(es', k)
    {
      assert k != key ==> Known(st, k);
    }
    forall k | !Known(st', k)
      ensures !Known(st, k)
    {
    }
  }

  lemma AddKeepsIndex(st: Core, st': Core, key: OrderKey, o: Order)
    requires Added(st, st', key, o) && Indexed(st)
    ensures Indexed(st')
  {
    forall k | k in st'.orders
      ensures OwnerOf(k) in st'.live && st'.live[OwnerOf(k)] == k
    {
      assert k != key ==> k in st.orders;
    }
  }

  ghost predicate SameExecuted(es: seq<Event>, es': seq<Event>) {
    forall k :: Executed(es', k) == Executed(es, k)
  }

  lemma NothingExecuted(es: seq<Event>, e: Event)
    requires !e.ExchangeFill?
    ensures SameExecuted(es, es + [e])
  {
    forall k
      ensures Executed(es + [e], k) == Executed(es, k)
    {
      TalliesStep(es, e, k);
    }
  }

  lemma AcceptKeepsOrders(st: State, strict: bool, e: Event, es: seq<Event>)
    requires e.Accept? && Owner(e.stamp) in st.core.suppliers && CanAccept(st, strict, e)
    requires Indexed(st.core) && Apart(st.core) && Balanced(st.core, es)
    ensures var st' := Accepted(st, strict, e).core; Indexed(st') && Apart(st') && Balanced(st', es + [e])
  {
    NothingExecuted(es, e);
    assert Added(st.core, Accepted(st, strict, e).core, KeyOf(e.stamp, e.order), NewOrder(e));
    hide Accepted, CanAccept, Added, Indexed, Apart, Balanced, SameExecuted;
    AddKeepsOrders(st.core, Accepted(st, strict, e).core, KeyOf(e.stamp, e.order), NewOrder(e), es, es + [e]);
  }

  lemma AcceptKeepsCounts(st: State, strict: bool, e: Event)
    requires e.Accept? && Owner(e.stamp) in st.core.suppliers && CanAccept(st, strict, e) && Counted(st.core)
    ensures Counted(Accepted(st, strict, e).core)
  {
    var st' := Accepted(st, strict, e).core;
    var p := Owner(e.stamp);
    var sup := st.core.suppliers[p];
    assert CountsAddUp(st.core, p);
    WrapAdds(EndCount(sup), 1);
    hide Wrap, MatchesSubmission;
    forall q | q in st'.suppliers
      ensures CountsAddUp(st', q)
    {
      assert CountsAddUp(st.core, q);
    }
  }

  lemma AcceptKeepsQuotes(st: State, strict: bool, e: Event, es: seq<Event>)
    requires e.Accept? && Owner(e.stamp) in st.core.suppliers && CanAccept(st, strict, e) && Quoted(st.core, es)
    ensures Quoted(Accepted(st, strict, e).core, es + [e])
  {
    var st' := Accepted(st, strict, e).core;
    forall p | p in st'.suppliers && st'.suppliers[p].quote.order != 0
      ensures QuoteAddsUp(st', es + [e], QuoteKey(p, st'.suppliers[p].quote), st'.suppliers[p].quote)
    {
      TalliesStep(es, e, QuoteKey(p, st'.suppliers[p].quote));
      assert p != Owner(e.stamp) ==> QuoteAddsUp(st.core, es, QuoteKey(p, st.core.suppliers[p].quote), st.core.suppliers[p].quote);
    }
  }

  lemma AcceptKeepsStrict(st: State, strict: bool, e: Event, es: seq<Event>)
    requires e.Accept? && Owner(e.stamp) in st.core.suppliers && CanAccept(st, strict, e) && Strict(st.core, es)
    ensures Strict(Accepted(st, strict, e).core, es + [e])
  {
    var st' := Accepted(st, strict, e).core;
    forall k
      ensures Learned(es + [e], k) == Learned(es, k) && Early(es + [e], k) == 0
    {
      TalliesStep(es, e, k);
      assert !Known(st.core, KeyOf(e.stamp, e.order));
    }
    hide MatchesSubmission, Learned, Early;
    forall k | k in st'.terminal && st'.terminal[k].local.Some?
      ensures CapturedAddsUp(st', es + [e], k)
    {
      assert CapturedAddsUp(st.core, es, k);
    }
  }

  // ----- ending an order -----

  /** A live order becomes an ended one. */
  ghost predicate Moved(st: Core, st': Core, key: OrderKey, o: Order) {
    && key in st.orders && key !in st.terminal && st'.orders == st.orders - {key} && st'.terminal == st.terminal[key := o]
    && OwnerOf(key) in st.live && st.live[OwnerOf(key)] == key && st'.live == st.live - {OwnerOf(key)}
    && st'.suppliers.Keys == st.suppliers.Keys
  }

  lemma MoveKeepsIndex(st: Core, st': Core, key: OrderKey, o: Order)
    requires Moved(st, st', key, o) && Indexed(st)
    ensures Indexed(st')
  {
    forall k | k in st'.orders
      ensures OwnerOf(k) in st'.live && st'.live[OwnerOf(k)] == k
    {
      assert k in st.orders && k != key;
    }
    forall p | p in st'.live
      ensures st'.live[p] in st'.orders
    {
      assert st.live[p] in st.orders && OwnerOf(st.live[p]) == p;
    }
  }

  lemma MoveKeepsApart(st: Core, st': Core, key: OrderKey, o: Order)
    requires Moved(st, st', key, o) && Apart(st)
    ensures Apart(st')
  {
    forall k | Known(st', k)
      ensures OwnerOf(k) in st'.suppliers
    {
      assert Known(st, k);
    }
  }

  lemma MoveKeepsBalance(st: Core, st': Core, key: OrderKey, o: Order, es: seq<Event>, es': seq<Event>)
    requires Moved(st, st', key, o) && Balanced(st, es) && Sound(o) && o.filled == Executed(es', key)
    requires ExecutedOnly(es, es', key)
    ensures Balanced(st', es')
  {
    hide Executed;
    forall k | Known(st', k)
      ensures Sound(OrderAt(st', k)) && OrderAt(st', k).filled == Executed(es', k)
    {
      assert Known(st, k);
    }
    forall k | !Known(st', k)
      ensures !Known(st, k)
    {
    }
  }

  /** With no new check, ending an order is a move and one of the supplier's counters rises by one. */
  lemma EndMoves(st: State, key: OrderKey, o: Order, sup: Supplier, at: int64, kind: string)
    requires Indexed(st.core) && Apart(st.core) && key in st.core.orders
    requires Ended(st, key, o, sup, at, kind).checks == st.checks
    ensures Moved(st.core, Ended(st, key, o, sup, at, kind).core, key, o.(ended := kind))
    ensures Closed(sup, o, at, kind).Some?
    ensures Ended(st, key, o, sup, at, kind).core.suppliers == st.core.suppliers[OwnerOf(key) := Closed(sup, o, at, kind).value]
  {
    hide Closed;
    assert Known(st.core, key);
  }

  lemma ClosedCountsOne(sup: Supplier, o: Order, at: int64, kind: string)
    requires Closed(sup, o, at, kind).Some?
    ensures var c := Closed(sup, o, at, kind).value;
            && EndCount(c) == EndCount(sup) + 1
            && c.accepted == sup.accepted && c.quote == sup.quote && c.contract == sup.contract
  {
  }

  lemma MoveKeepsCounts(st: Core, st': Core, key: OrderKey, o: Order, was: Supplier, now: Supplier)
    requires Moved(st, st', key, o) && Counted(st) && OwnerOf(key) in st.suppliers && was == st.suppliers[OwnerOf(key)]
    requires st'.suppliers == st.suppliers[OwnerOf(key) := now] && now.accepted == was.accepted
    requires EndCount(now) == EndCount(was) + 1
    ensures Counted(st')
  {
    hide Wrap;
    assert CountsAddUp(st, OwnerOf(key));
    forall p | p in st'.suppliers
      ensures CountsAddUp(st', p)
    {
      assert CountsAddUp(st, p);
    }
  }

  // ----- quotes across a step -----

  /** Orders stay known with the quantity they were accepted for. */
  ghost predicate OriginalsKept(st: Core, st': Core) {
    forall k :: Known(st, k) ==> Known(st', k) && OrderAt(st', k).original == OrderAt(st, k).original
  }

  ghost predicate QuotesKept(st: Core, st': Core) {
    && st'.suppliers.Keys == st.suppliers.Keys
    && forall p :: p in st.suppliers ==> st'.suppliers[p].quote == st.suppliers[p].quote || st'.suppliers[p].quote.order == 0
  }

  /** The supplier learned nothing and no order was accepted. */
  ghost predicate Quiet(es: seq<Event>, es': seq<Event>) {
    forall k :: Learned(es', k) == Learned(es, k) && Early(es', k) == Early(es, k)
  }

  lemma QuietStep(es: seq<Event>, e: Event)
    requires !e.SupplierFill? && !e.Accept?
    ensures Quiet(es, es + [e])
  {
    forall k
      ensures Learned(es + [e], k) == Learned(es, k) && Early(es + [e], k) == Early(es, k)
    {
      TalliesStep(es, e, k);
    }
  }

  lemma QuotesSurvive(st: Core, st': Core, es: seq<Event>, es': seq<Event>)
    requires Quoted(st, es) && OriginalsKept(st, st') && QuotesKept(st, st') && Quiet(es, es')
    ensures Quoted(st', es')
  {
    hide Learned, Early;
    forall p | p in st'.suppliers && st'.suppliers[p].quote.order != 0
      ensures QuoteAddsUp(st', es', QuoteKey(p, st'.suppliers[p].quote), st'.suppliers[p].quote)
    {
      assert QuoteAddsUp(st, es, QuoteKey(p, st.suppliers[p].quote), st.suppliers[p].quote);
    }
  }

  lemma StrictSurvives(st: Core, st': Core, es: seq<Event>, es': seq<Event>)
    requires Strict(st, es) && OriginalsKept(st, st') && QuotesKept(st, st') && Quiet(es, es')
    requires forall k :: k in st'.terminal && st'.terminal[k].local.Some? ==>
               (k in st.terminal && st'.terminal[k] == st.terminal[k] && k !in st'.orders) || CapturedAddsUp(st', es', k)
    ensures Strict(st', es')
  {
    hide Learned, Early;
    forall k | k in st'.terminal && st'.terminal[k].local.Some?
      ensures CapturedAddsUp(st', es', k)
    {
      if k in st.terminal && st'.terminal[k] == st.terminal[k] && k !in st'.orders {
        assert CapturedAddsUp(st, es, k);
        assert st'.suppliers[OwnerOf(k)].quote == st.suppliers[OwnerOf(k)].quote || st'.suppliers[OwnerOf(k)].quote.order == 0;
      }
    }
  }

  // ----- exchange fills -----

  /** A live order changed in place. */
  ghost predicate Updated(st: Core, st': Core, key: OrderKey, o: Order) {
    && key in st.orders && st'.orders == st.orders[key := o] && st'.terminal == st.terminal && st'.live == st.live
    && st'.suppliers.Keys == st.suppliers.Keys && o.ended == "" && o.local.None?
  }

  lemma UpdateKeepsIndex(st: Core, st': Core, key: OrderKey, o: Order)
    requires Updated(st, st', key, o) && Indexed(st) && Apart(st)
    ensures Indexed(st') && Apart(st')
  {
    assert st'.orders.Keys == st.orders.Keys;
    forall k | Known(st', k)
      ensures OwnerOf(k) in st'.suppliers
    {
      assert Known(st, k);
    }
  }

  lemma UpdateKeepsBalance(st: Core, st': Core, key: OrderKey, o: Order, es: seq<Event>, es': seq<Event>)
    requires Updated(st, st', key, o) && Balanced(st, es) && Sound(o) && o.filled == Executed(es', key)
    requires ExecutedOnly(es, es', key)
    ensures Balanced(st', es')
  {
    hide Executed;
    forall k | Known(st', k)
      ensures Sound(OrderAt(st', k)) && OrderAt(st', k).filled == Executed(es', k)
    {
      assert Known(st, k);
    }
    forall k | !Known(st', k)
      ensures !Known(st, k)
    {
    }
  }

  /** What a fill does to the order it hits. */
  lemma FillMovesQuantity(o: Order, strict: bool, e: Event)
    requires e.ExchangeFill? && MatchesOrder(o, strict, e)
    ensures Sound(FilledOrder(o, e)) && FilledOrder(o, e).filled == o.filled + e.fill.qty
    ensures FilledOrder(o, e) == o.(remaining := FilledOrder(o, e).remaining, filled := FilledOrder(o, e).filled,
                                   fillCount := FilledOrder(o, e).fillCount)
  {
  }

  lemma ExecutedStep(es: seq<Event>, e: Event)
    requires e.ExchangeFill?
    ensures Executed(es + [e], KeyOf(e.stamp, e.fill.order)) == Executed(es, KeyOf(e.stamp, e.fill.order)) + e.fill.qty
    ensures ExecutedOnly(es, es + [e], KeyOf(e.stamp, e.fill.order))
  {
    forall k
      ensures Executed(es + [e], k) == Executed(es, k) + if KeyOf(e.stamp, e.fill.order) == k then e.fill.qty else 0
    {
      TalliesStep(es, e, k);
    }
  }

  ghost predicate ExecutedOnly(es: seq<Event>, es': seq<Event>, key: OrderKey) {
    forall k :: k != key ==> Executed(es', k) == Executed(es, k)
  }

  /** An update leaves every order's accepted quantity and every ended order alone. */
  lemma UpdateKeepsOriginals(st: Core, st': Core, key: OrderKey, o: Order)
    requires Updated(st, st', key, o) && o.original == st.orders[key].original && Apart(st')
    ensures OriginalsKept(st, st') && st'.terminal == st.terminal
    ensures forall k :: k in st'.terminal ==> k !in st'.orders
  {
    forall k | Known(st, k)
      ensures Known(st', k) && OrderAt(st', k).original == OrderAt(st, k).original
    {
    }
  }

  lemma UpdateKeepsInvariant(st: Core, st': Core, strict: bool, key: OrderKey, o: Order, es: seq<Event>, es': seq<Event>)
    requires Invariant(st, strict, es) && Updated(st, st', key, o) && Sound(o) && o.original == st.orders[key].original
    requires o.filled == Executed(es', key) && ExecutedOnly(es, es', key) && Counted(st') && QuotesKept(st, st') && Quiet(es, es')
    ensures Invariant(st', strict, es')
  {
    hide Executed, Sound, Updated, Indexed, Apart, Balanced, Counted, OriginalsKept, QuotesKept, Quiet, Quoted, Strict, ExecutedOnly;
    hide CapturedAddsUp;
    UpdateKeepsIndex(st, st', key, o);
    UpdateKeepsBalance(st, st', key, o, es, es');
    UpdateKeepsOriginals(st, st', key, o);
    QuotesSurvive(st, st', es, es');
    if strict {
      StrictSurvives(st, st', es, es');
    }
  }

  lemma PartialFillShape(st: State, strict: bool, e: Event)
    requires e.ExchangeFill? && Owner(e.stamp) in st.core.suppliers && CanFill(st, strict, e) && e.remaining != 0 && Apart(st.core)
    ensures var key, p, st' := KeyOf(e.stamp, e.fill.order), Owner(e.stamp), Filled(st, strict, e).core;
            && Updated(st.core, st', key, FilledOrder(st.core.orders[key], e))
            && st'.suppliers == st.core.suppliers[p := Booked(st.core.suppliers[p], e.fill)]
  {
    hide Booked, Priced;
  }

  /** What the exchange fill does to the order it hits, in the order's terms and in the log's. */
  lemma FillTallies(st: State, strict: bool, e: Event, es: seq<Event>)
    requires e.ExchangeFill? && Owner(e.stamp) in st.core.suppliers && CanFill(st, strict, e)
    requires Apart(st.core) && Balanced(st.core, es)
    ensures var key := KeyOf(e.stamp, e.fill.order);
            var o := FilledOrder(st.core.orders[key], e);
            && Sound(o) && o.original == st.core.orders[key].original && o.filled == Executed(es + [e], key) && o.local.None?
            && ExecutedOnly(es, es + [e], key) && Quiet(es, es + [e])
  {
    var key := KeyOf(e.stamp, e.fill.order);
    FillMovesQuantity(st.core.orders[key], strict, e);
    assert Known(st.core, key);
    hide FilledOrder, MatchesOrder, Executed, ExecutedOnly, Quiet, Priced;
    ExecutedStep(es, e);
    QuietStep(es, e);
  }

  lemma PartialFillKeeps(st: State, strict: bool, e: Event, es: seq<Event>)
    requires e.ExchangeFill? && Owner(e.stamp) in st.core.suppliers && CanFill(st, strict, e) && e.remaining != 0
    requires Invariant(st.core, strict, es)
    ensures Invariant(Filled(st, strict, e).core, strict, es + [e])
  {
    var st', key, p := Filled(st, strict, e).core, KeyOf(e.stamp, e.fill.order), Owner(e.stamp);
    FillMeans(st, strict, e);
    hide Filled, FilledOrder, CanFill, CanSettle, Executed, Booked, Indexed, Apart, Balanced, Counted, Quoted, Strict, Updated;
    hide Sound, Quiet, QuotesKept, ExecutedOnly;
    PartialFillShape(st, strict, e);
    FillTallies(st, strict, e, es);
    UpdatedLive(st.core, st', key, FilledOrder(st.core.orders[key], e));
    BookKeeps(st.core, st', p, e.fill);
    UpdateKeepsInvariant(st.core, st', strict, key, FilledOrder(st.core.orders[key], e), es, es + [e]);
  }

  lemma FillMeans(st: State, strict: bool, e: Event)
    requires e.ExchangeFill? && Owner(e.stamp) in st.core.suppliers && CanFill(st, strict, e)
    ensures KeyOf(e.stamp, e.fill.order) in st.core.orders && MatchesOrder(st.core.orders[KeyOf(e.stamp, e.fill.order)], strict, e)
    ensures CanSettle(st.core.suppliers[Owner(e.stamp)], e.fill)
  {
  }

  lemma UpdatedLive(st: Core, st': Core, key: OrderKey, o: Order)
    requires Updated(st, st', key, o)
    ensures st'.live == st.live
  {
  }

  lemma ApartFacts(st: Core)
    requires Apart(st)
    ensures forall k :: k in st.terminal ==> k !in st.orders
  {
  }

  /** Booking an execution touches only the supplier's balances. */
  lemma BookKeeps(st: Core, st': Core, p: Participant, f: Fill)
    requires p in st.suppliers && st'.live == st.live && Counted(st)
    requires CanSettle(st.suppliers[p], f)
    requires st'.suppliers == st.suppliers[p := Booked(st.suppliers[p], f)]
    ensures Counted(st') && QuotesKept(st, st')
  {
    hide Priced, Wrap;
    forall q | q in st'.suppliers
      ensures CountsAddUp(st', q)
    {
      assert CountsAddUp(st, q);
    }
  }

  lemma MoveKeepsOriginals(st: Core, st': Core, key: OrderKey, o: Order)
    requires Moved(st, st', key, o) && o.original == st.orders[key].original
    ensures OriginalsKept(st, st')
  {
    forall k | Known(st, k)
      ensures Known(st', k) && OrderAt(st', k).original == OrderAt(st, k).original
    {
    }
  }

  lemma MoveKeepsInvariant(st: Core, st': Core, strict: bool, key: OrderKey, o: Order, es: seq<Event>, es': seq<Event>)
    requires Invariant(st, strict, es) && Moved(st, st', key, o) && Sound(o) && o.original == st.orders[key].original
    requires o.filled == Executed(es', key) && ExecutedOnly(es, es', key) && Counted(st') && QuotesKept(st, st') && Quiet(es, es')
    requires strict && o.local.Some? ==> key in st'.terminal && st'.terminal[key] == o && CapturedAddsUp(st', es', key)
    ensures Invariant(st', strict, es')
  {
    hide Executed, Learned, Early, Sound, CapturedAddsUp;
    MoveKeepsIndex(st, st', key, o);
    MoveKeepsApart(st, st', key, o);
    MoveKeepsBalance(st, st', key, o, es, es');
    MoveKeepsOriginals(st, st', key, o);
    ApartFacts(st');
    assert st'.terminal == st.terminal[key := o];
    hide Moved, Indexed, Apart, Balanced, Counted, OriginalsKept, QuotesKept, Quiet, Quoted, Strict;
    QuotesSurvive(st, st', es, es');
    if strict {
      StrictSurvives(st, st', es, es');
    }
  }

  lemma FullFillShape(st: State, strict: bool, e: Event)
    requires e.ExchangeFill? && Owner(e.stamp) in st.core.suppliers && CanFill(st, strict, e) && e.remaining == 0
    requires Indexed(st.core) && Apart(st.core) && Filled(st, strict, e).checks == st.checks
    ensures var key, p, st' := KeyOf(e.stamp, e.fill.order), Owner(e.stamp), Filled(st, strict, e).core;
            var o := FilledOrder(st.core.orders[key], e);
            var closed := Closed(Booked(st.core.suppliers[p], e.fill), o, e.stamp.at, "filled");
            && closed.Some? && Moved(st.core, st', key, o.(ended := "filled"))
            && st'.suppliers == st.core.suppliers[p := closed.value]
  {
    var key, p := KeyOf(e.stamp, e.fill.order), Owner(e.stamp);
    var o, sup := FilledOrder(st.core.orders[key], e), Booked(st.core.suppliers[p], e.fill);
    assert Filled(st, strict, e) == Ended(Logged(st, e), key, o, sup, e.stamp.at, "filled");
    hide Filled, Ended, Closed, Booked, Priced, Indexed, Apart, FilledOrder, CanFill;
    EndMoves(Logged(st, e), key, o, sup, e.stamp.at, "filled");
  }

  lemma BookedKeeps(sup: Supplier, f: Fill)
    requires CanSettle(sup, f)
    ensures var b := Booked(sup, f);
            b == sup.(exchangeBase := b.exchangeBase, exchangeQuote := b.exchangeQuote)
  {
  }

  /** Only one supplier's quote can change, and only by disappearing. */
  lemma QuoteOfOne(st: Core, st': Core, p: Participant, sup: Supplier)
    requires p in st.suppliers && st'.suppliers == st.suppliers[p := sup]
    requires sup.quote == st.suppliers[p].quote || sup.quote.order == 0
    ensures QuotesKept(st, st')
  {
  }

  /** The supplier whose order a fill ends: counted once more, its quote as before. */
  lemma FullFillCounts(st: Core, st': Core, key: OrderKey, o: Order, f: Fill, at: int64)
    requires OwnerOf(key) in st.suppliers && CanSettle(st.suppliers[OwnerOf(key)], f) && Counted(st)
    requires Closed(Booked(st.suppliers[OwnerOf(key)], f), o, at, "filled").Some? && Moved(st, st', key, o.(ended := "filled"))
    requires st'.suppliers == st.suppliers[OwnerOf(key) := Closed(Booked(st.suppliers[OwnerOf(key)], f), o, at, "filled").value]
    ensures Counted(st') && QuotesKept(st, st')
  {
    var p := OwnerOf(key);
    var sup := Booked(st.suppliers[p], f);
    BookedKeeps(st.suppliers[p], f);
    ClosedCountsOne(sup, o, at, "filled");
    var closed := Closed(sup, o, at, "filled").value;
    hide Closed, Booked, CanSettle, Moved, Counted, QuotesKept;
    MoveKeepsCounts(st, st', key, o.(ended := "filled"), st.suppliers[p], closed);
    QuoteOfOne(st, st', p, closed);
  }

  lemma FullFillKeeps(st: State, strict: bool, e: Event, es: seq<Event>)
    requires e.ExchangeFill? && Owner(e.stamp) in st.core.suppliers && CanFill(st, strict, e) && e.remaining == 0
    requires Invariant(st.core, strict, es) && Filled(st, strict, e).checks == st.checks
    ensures Invariant(Filled(st, strict, e).core, strict, es + [e])
  {
    var st', key := Filled(st, strict, e).core, KeyOf(e.stamp, e.fill.order);
    FillMeans(st, strict, e);
    assert Indexed(st.core) && Apart(st.core) && Balanced(st.core, es) && Counted(st.core);
    assert OwnerOf(key) == Owner(e.stamp);
    hide *;
    FullFillShape(st, strict, e);
    FillTallies(st, strict, e, es);
    var o := FilledOrder(st.core.orders[key], e);
    FullFillCounts(st.core, st', key, o, e.fill, e.stamp.at);
    StillSound(o, "filled");
    MoveKeepsInvariant(st.core, st', strict, key, o.(ended := "filled"), es, es + [e]);
  }

  lemma StillSound(o: Order, kind: string)
    requires Sound(o)
    ensures Sound(o.(ended := kind))
  {
  }

  lemma NotedKeeps(st: State, strict: bool, e: Event)
    requires e.Cancel? && Owner(e.stamp) in st.core.suppliers && CanCancel(st, strict, e)
    ensures var n := Noted(st, strict, e);
            && n == st.(withdrawals := n.withdrawals, checks := n.checks) && n.checks >= st.checks
            && (n.checks == st.checks && strict ==>
                  Coherent(st.core.orders[KeyOf(e.stamp, e.order)], st.core.suppliers[Owner(e.stamp)].quote, e.order))
  {
  }

  lemma EndNeverUnchecks(st: State, key: OrderKey, o: Order, sup: Supplier, at: int64, kind: string)
    ensures Ended(st, key, o, sup, at, kind).checks >= st.checks
  {
  }

  lemma CancelShape(st: State, strict: bool, e: Event)
    requires e.Cancel? && Owner(e.stamp) in st.core.suppliers && CanCancel(st, strict, e)
    requires Indexed(st.core) && Apart(st.core) && Cancelled(st, strict, e).checks == st.checks
    ensures var key, p, st' := KeyOf(e.stamp, e.order), Owner(e.stamp), Cancelled(st, strict, e).core;
            var o := Captured(st.core.orders[key], st.core.suppliers[p].quote, strict, e);
            var closed := Closed(st.core.suppliers[p].(quote := NoQuote()), o, e.stamp.at, CancelKind(e));
            && closed.Some? && Moved(st.core, st', key, o.(ended := CancelKind(e))) && st'.suppliers == st.core.suppliers[p := closed.value]
            && (strict ==> Coherent(st.core.orders[key], st.core.suppliers[p].quote, e.order))
  {
    var key, p, noted := KeyOf(e.stamp, e.order), Owner(e.stamp), Noted(st, strict, e);
    var o, sup := Captured(st.core.orders[key], st.core.suppliers[p].quote, strict, e), st.core.suppliers[p].(quote := NoQuote());
    assert Cancelled(st, strict, e) == Ended(noted, key, o, sup, e.stamp.at, CancelKind(e));
    hide Cancelled, Ended, Closed, Indexed, Apart, Captured, Coherent, Noted, ForcedOk, RequestedOk, CancelKind;
    NotedKeeps(st, strict, e);
    EndNeverUnchecks(noted, key, o, sup, e.stamp.at, CancelKind(e));
    EndMoves(noted, key, o, sup, e.stamp.at, CancelKind(e));
  }

  /** A capture changes nothing but the end stamp and the remembered quote. */
  lemma CapturedKeeps(o: Order, q: Quote, strict: bool, e: Event)
    requires e.Cancel? && o.local.None? && (strict ==> Coherent(o, q, e.order))
    ensures var c := Captured(o, q, strict, e);
            && c == o.(endedAt := c.endedAt, endedFrame := c.endedFrame, local := c.local)
            && c.local == if strict then Some(q) else None
  {
  }

  lemma LiveFacts(st: Core, strict: bool, es: seq<Event>, key: OrderKey)
    requires Invariant(st, strict, es) && key in st.orders
    ensures st.orders[key].local.None? && OwnerOf(key) in st.suppliers && key !in st.terminal
    ensures Sound(st.orders[key]) && st.orders[key].filled == Executed(es, key)
  {
    hide Executed, Sound;
    assert Known(st, key);
  }

  lemma CancelKeeps(st: State, strict: bool, e: Event, es: seq<Event>)
    requires e.Cancel? && Owner(e.stamp) in st.core.suppliers && CanCancel(st, strict, e)
    requires Invariant(st.core, strict, es) && Cancelled(st, strict, e).checks == st.checks
    ensures Invariant(Cancelled(st, strict, e).core, strict, es + [e])
  {
    var st', key, p := Cancelled(st, strict, e).core, KeyOf(e.stamp, e.order), Owner(e.stamp);
    hide Cancelled, Captured, Executed, Learned, Early, Indexed, Counted, Moved, Closed, ForcedOk, RequestedOk, CancelKind,
         Apart, Balanced, Quoted, Strict, Sound;
    CancelShape(st, strict, e);
    var o, sup := Captured(st.core.orders[key], st.core.suppliers[p].quote, strict, e), st.core.suppliers[p].(quote := NoQuote());
    var final := o.(ended := CancelKind(e));
    LiveFacts(st.core, strict, es, key);
    CapturedKeeps(st.core.orders[key], st.core.suppliers[p].quote, strict, e);
    NothingExecuted(es, e);
    QuietStep(es, e);
    ClosedCountsOne(sup, o, e.stamp.at, CancelKind(e));
    var closed := Closed(sup, o, e.stamp.at, CancelKind(e)).value;
    MoveKeepsCounts(st.core, st', key, final, st.core.suppliers[p], closed);
    QuoteOfOne(st.core, st', p, closed);
    if strict {
      CaptureAddsUp(st.core, st', e, es, key, final, closed);
    }
    assert Sound(final) by { SoundIgnoresTheEnd(st.core.orders[key], final); }
    assert ExecutedOnly(es, es + [e], key);
    hide Quiet, QuotesKept, CanCancel, Coherent, SameExecuted, ExecutedOnly, CapturedAddsUp;
    MoveKeepsInvariant(st.core, st', strict, key, final, es, es + [e]);
  }

  lemma SoundIgnoresTheEnd(o: Order, o': Order)
    requires Sound(o) && o'.filled == o.filled && o'.remaining == o.remaining && o'.original == o.original
    ensures Sound(o')
  {
  }

  lemma CaptureAddsUp(st: Core, st': Core, e: Event, es: seq<Event>, key: OrderKey, o: Order, closed: Supplier)
    requires e.Cancel? && key == KeyOf(e.stamp, e.order) && Moved(st, st', key, o) && e.order != 0
    requires OwnerOf(key) in st.suppliers && st'.suppliers == st.suppliers[OwnerOf(key) := closed] && closed.quote.order == 0
    requires Quoted(st, es) && Strict(st, es) && Quiet(es, es + [e])
    requires o.local == Some(st.suppliers[OwnerOf(key)].quote) && o.local.value.order == e.order
    requires o.original == st.orders[key].original
    ensures key in st'.terminal && st'.terminal[key] == o && CapturedAddsUp(st', es + [e], key)
  {
    var p := OwnerOf(key);
    assert QuoteAddsUp(st, es, QuoteKey(p, st.suppliers[p].quote), st.suppliers[p].quote);
    assert QuoteKey(p, st.suppliers[p].quote) == key;
    hide Learned, Early;
  }

  // ----- the supplier learns of a fill -----

  /** Nothing but the supplier's view changed: one supplier, and at most what a cancelled order remembers of its quote. */
  ghost predicate Viewed(st: Core, st': Core, p: Participant, key: OrderKey, sup: Supplier) {
    && p in st.suppliers && st'.suppliers == st.suppliers[p := sup] && st'.orders == st.orders && st'.live == st.live
    && st'.terminal.Keys == st.terminal.Keys
    && (forall k :: k in st.terminal && k != key ==> st'.terminal[k] == st.terminal[k])
    && (key in st.terminal ==> st'.terminal[key] == st.terminal[key].(local := st'.terminal[key].local))
    && sup.accepted == st.suppliers[p].accepted && EndCount(sup) == EndCount(st.suppliers[p])
  }

  lemma ViewKeepsOrders(st: Core, st': Core, p: Participant, key: OrderKey, sup: Supplier, es: seq<Event>, es': seq<Event>)
    requires Viewed(st, st', p, key, sup) && SameExecuted(es, es')
    requires Indexed(st) && Apart(st) && Balanced(st, es)
    ensures Indexed(st') && Apart(st') && Balanced(st', es')
  {
    hide Executed;
    forall k
      ensures Known(st', k) <==> Known(st, k)
      ensures Known(st, k) ==> OrderAt(st', k) == OrderAt(st, k).(local := OrderAt(st', k).local)
    {
    }
  }

  lemma ViewKeepsCounts(st: Core, st': Core, p: Participant, key: OrderKey, sup: Supplier)
    requires Viewed(st, st', p, key, sup) && Counted(st)
    ensures Counted(st')
  {
    hide Wrap;
    forall q | q in st'.suppliers
      ensures CountsAddUp(st', q)
    {
      assert CountsAddUp(st, q);
    }
  }

  lemma LearnStep(es: seq<Event>, e: Event)
    requires e.SupplierFill?
    ensures forall k :: Early(es + [e], k) == Early(es, k)
    ensures forall k :: Learned(es + [e], k) == Learned(es, k) + if KeyOf(e.stamp, e.fill.order) == k then e.fill.qty else 0
  {
    forall k
      ensures Early(es + [e], k) == Early(es, k)
      ensures Learned(es + [e], k) == Learned(es, k) + if KeyOf(e.stamp, e.fill.order) == k then e.fill.qty else 0
    {
      TalliesStep(es, e, k);
    }
  }

  lemma NoticeShape(st: State, strict: bool, e: Event)
    requires e.SupplierFill? && Owner(e.stamp) in st.core.suppliers && CanNotice(st, strict, e)
    ensures var p, key, st' := Owner(e.stamp), KeyOf(e.stamp, e.fill.order), Noticed(st, strict, e).core;
            var q := st.core.suppliers[p].quote;
            && Viewed(st.core, st', p, key, st'.suppliers[p]) && e.fill.qty > 0 && key.order != 0
            && (q.order != 0 ==> FitsQuote(e.fill, q) && st'.suppliers[p].quote == Reduced(q, e.fill) && st'.terminal == st.core.terminal)
            && (q.order == 0 ==> st'.suppliers[p].quote == q)
            && (q.order == 0 && !strict ==> st'.terminal == st.core.terminal)
            && (q.order == 0 && strict ==>
                  && key in st.core.terminal && st.core.terminal[key].local.Some? && FitsQuote(e.fill, st.core.terminal[key].local.value)
                  && st'.terminal[key].local
                     == if e.fill.isFull then None else Some(Reduced(st.core.terminal[key].local.value, e.fill)))
  {
    hide Priced, PositionOk;
  }

  lemma NoticeKeepsQuotes(st: Core, st': Core, e: Event, es: seq<Event>)
    requires e.SupplierFill? && Quoted(st, es) && e.fill.qty > 0
    requires var p := Owner(e.stamp); p in st'.suppliers && Viewed(st, st', p, KeyOf(e.stamp, e.fill.order), st'.suppliers[p])
    requires var p := Owner(e.stamp);
             var q := st.suppliers[p].quote;
             && (q.order != 0 ==> FitsQuote(e.fill, q) && st'.suppliers[p].quote == Reduced(q, e.fill))
             && (q.order == 0 ==> st'.suppliers[p].quote == q)
    ensures Quoted(st', es + [e])
  {
    LearnStep(es, e);
    hide Learned, Early;
    forall p | p in st'.suppliers && st'.suppliers[p].quote.order != 0
      ensures QuoteAddsUp(st', es + [e], QuoteKey(p, st'.suppliers[p].quote), st'.suppliers[p].quote)
    {
      var q := st.suppliers[p].quote;
      assert QuoteAddsUp(st, es, QuoteKey(p, q), q);
      assert Known(st', QuoteKey(p, q)) && OrderAt(st', QuoteKey(p, q)).original == OrderAt(st, QuoteKey(p, q)).original;
    }
  }

  lemma NoticeKeepsKnown(st: Core, st': Core, e: Event, es: seq<Event>)
    requires e.SupplierFill? && Quoted(st, es) && Strict(st, es)
    requires var p := Owner(e.stamp); p in st'.suppliers && Viewed(st, st', p, KeyOf(e.stamp, e.fill.order), st'.suppliers[p])
    requires var p, key := Owner(e.stamp), KeyOf(e.stamp, e.fill.order);
             (st.suppliers[p].quote.order != 0 && FitsQuote(e.fill, st.suppliers[p].quote)) || key in st.terminal
    ensures forall k :: Learned(es + [e], k) != 0 ==> Known(st', k)
    ensures forall k :: Early(es + [e], k) == 0
  {
    LearnStep(es, e);
    hide Learned, Early;
    var p, key := Owner(e.stamp), KeyOf(e.stamp, e.fill.order);
    if key !in st.terminal {
      assert QuoteAddsUp(st, es, QuoteKey(p, st.suppliers[p].quote), st.suppliers[p].quote);
      assert QuoteKey(p, st.suppliers[p].quote) == key;
    }
    assert Known(st, key);
    forall k | Known(st, k)
      ensures Known(st', k)
    {
    }
  }

  /** A quote captured at a cancellation keeps adding up. */
  lemma CapturedStaysTrue(st: Core, st': Core, e: Event, es: seq<Event>, k: OrderKey)
    requires e.SupplierFill? && k in st.terminal && st.terminal[k].local.Some? && CapturedAddsUp(st, es, k)
    requires k in st'.terminal && st'.terminal[k].local.Some? && st'.orders == st.orders
    requires st'.terminal[k] == st.terminal[k].(local := st'.terminal[k].local)
    requires OwnerOf(k) in st'.suppliers && st'.suppliers[OwnerOf(k)].quote.order in {st.suppliers[OwnerOf(k)].quote.order, 0}
    requires var q, q' := st.terminal[k].local.value, st'.terminal[k].local.value;
             q'.order == q.order && q'.qty == q.qty - if KeyOf(e.stamp, e.fill.order) == k then e.fill.qty else 0
    ensures CapturedAddsUp(st', es + [e], k)
  {
    TalliesStep(es, e, k);
    hide Learned, Early, Executed;
  }

  /** What a notice does to one captured quote. */
  lemma NoticeDrains(st: State, strict: bool, e: Event, k: OrderKey)
    requires strict && e.SupplierFill? && Owner(e.stamp) in st.core.suppliers && CanNotice(st, strict, e)
    requires k in st.core.terminal && st.core.terminal[k].local.Some?
    requires OwnerOf(k) in st.core.suppliers && st.core.suppliers[OwnerOf(k)].quote.order != k.order
    requires var st' := Noticed(st, strict, e).core; k in st'.terminal && st'.terminal[k].local.Some?
    ensures var st' := Noticed(st, strict, e).core;
            var q, q' := st.core.terminal[k].local.value, st'.terminal[k].local.value;
            && q'.order == q.order && q'.qty == q.qty - (if KeyOf(e.stamp, e.fill.order) == k then e.fill.qty else 0)
            && OwnerOf(k) in st'.suppliers && st'.suppliers[OwnerOf(k)].quote.order in {st.core.suppliers[OwnerOf(k)].quote.order, 0}
  {
    NoticeShape(st, strict, e);
    hide Noticed, CanNotice;
  }

  lemma NoticeKeepsCaptured(st: State, strict: bool, e: Event, es: seq<Event>, k: OrderKey)
    requires strict && e.SupplierFill? && Owner(e.stamp) in st.core.suppliers && CanNotice(st, strict, e) && Strict(st.core, es)
    requires var st' := Noticed(st, strict, e).core; k in st'.terminal && st'.terminal[k].local.Some?
    ensures CapturedAddsUp(Noticed(st, strict, e).core, es + [e], k)
  {
    var st' := Noticed(st, strict, e).core;
    NoticeShape(st, strict, e);
    assert k in st.core.terminal && st.core.terminal[k].local.Some? && st'.orders == st.core.orders
           && st'.terminal[k] == st.core.terminal[k].(local := st'.terminal[k].local);
    assert CapturedAddsUp(st.core, es, k);
    assert OwnerOf(k) in st.core.suppliers && st.core.suppliers[OwnerOf(k)].quote.order != k.order;
    hide *;
    NoticeDrains(st, strict, e, k);
    CapturedStaysTrue(st.core, st', e, es, k);
  }

  lemma NoticeKeepsStrict(st: State, strict: bool, e: Event, es: seq<Event>)
    requires strict && e.SupplierFill? && Owner(e.stamp) in st.core.suppliers && CanNotice(st, strict, e)
    requires Quoted(st.core, es) && Strict(st.core, es)
    ensures Strict(Noticed(st, strict, e).core, es + [e])
  {
    var st' := Noticed(st, strict, e).core;
    NoticeShape(st, strict, e);
    hide Noticed, CanNotice, Learned, Early, Viewed, Quoted, CapturedAddsUp;
    NoticeKeepsKnown(st.core, st', e, es);
    forall k | k in st'.terminal && st'.terminal[k].local.Some?
      ensures CapturedAddsUp(st', es + [e], k)
    {
      NoticeKeepsCaptured(st, strict, e, es, k);
    }
  }

  lemma NoticeKeeps(st: State, strict: bool, e: Event, es: seq<Event>)
    requires e.SupplierFill? && Owner(e.stamp) in st.core.suppliers && CanNotice(st, strict, e) && Invariant(st.core, strict, es)
    ensures Invariant(Noticed(st, strict, e).core, strict, es + [e])
  {
    var st', p, key := Noticed(st, strict, e).core, Owner(e.stamp), KeyOf(e.stamp, e.fill.order);
    hide Noticed, CanNotice, Viewed, Indexed, Apart, Balanced, Counted, Quoted, SameExecuted, Strict;
    NoticeShape(st, strict, e);
    NothingExecuted(es, e);
    ViewKeepsOrders(st.core, st', p, key, st'.suppliers[p], es, es + [e]);
    ViewKeepsCounts(st.core, st', p, key, st'.suppliers[p]);
    NoticeKeepsQuotes(st.core, st', e, es);
    if strict {
      NoticeKeepsStrict(st, strict, e, es);
    }
  }

  // ----- every step, every run -----

  /** For audited suppliers, the step adds nothing to what was executed, learned or early. */
  ghost predicate SilentFor(st: Core, es: seq<Event>, es': seq<Event>) {
    forall k :: OwnerOf(k) in st.suppliers ==>
      Executed(es', k) == Executed(es, k) && Learned(es', k) == Learned(es, k) && Early(es', k) == Early(es, k)
  }

  lemma SilentKeeps(st: Core, strict: bool, es: seq<Event>, es': seq<Event>)
    requires SilentFor(st, es, es') && Invariant(st, strict, es)
    requires strict ==> forall k :: OwnerOf(k) !in st.suppliers ==> Learned(es', k) == Learned(es, k)
    requires strict ==> forall k :: OwnerOf(k) !in st.suppliers ==> Early(es', k) == Early(es, k) || Early(es', k) == Learned(es, k)
    ensures Invariant(st, strict, es')
  {
    hide Executed, Learned, Early;
    assert forall k :: Known(st, k) ==> OwnerOf(k) in st.suppliers;
    assert Balanced(st, es');
    hide Balanced;
    forall p | p in st.suppliers && st.suppliers[p].quote.order != 0
      ensures QuoteAddsUp(st, es', QuoteKey(p, st.suppliers[p].quote), st.suppliers[p].quote)
    {
      assert QuoteAddsUp(st, es, QuoteKey(p, st.suppliers[p].quote), st.suppliers[p].quote);
    }
    if strict {
      SilentKeepsStrict(st, es, es');
    }
  }

  lemma SilentKeepsStrict(st: Core, es: seq<Event>, es': seq<Event>)
    requires SilentFor(st, es, es') && Strict(st, es) && Apart(st)
    requires forall k :: OwnerOf(k) !in st.suppliers ==> Learned(es', k) == Learned(es, k)
    requires forall k :: OwnerOf(k) !in st.suppliers ==> Early(es', k) == Early(es, k) || Early(es', k) == Learned(es, k)
    ensures Strict(st, es')
  {
    hide Executed, Learned, Early;
    forall k
      ensures Learned(es', k) == Learned(es, k) && Early(es', k) == 0
    {
      assert Known(st, k) ==> OwnerOf(k) in st.suppliers;
    }
    forall k | k in st.terminal && st.terminal[k].local.Some?
      ensures CapturedAddsUp(st, es', k)
    {
      assert CapturedAddsUp(st, es, k);
    }
  }

  lemma SilentEvent(st: Core, e: Event, es: seq<Event>)
    requires (!e.Accept? && !e.ExchangeFill? && !e.SupplierFill?) || (!e.SupplierFill? && Owner(e.stamp) !in st.suppliers)
    ensures SilentFor(st, es, es + [e])
    ensures forall k :: Learned(es + [e], k) == Learned(es, k)
    ensures forall k :: Early(es + [e], k) == Early(es, k) || Early(es + [e], k) == Learned(es, k)
  {
    forall k
      ensures Learned(es + [e], k) == Learned(es, k)
      ensures Early(es + [e], k) == Early(es, k) || Early(es + [e], k) == Learned(es, k)
      ensures OwnerOf(k) in st.suppliers ==> Executed(es + [e], k) == Executed(es, k) && Early(es + [e], k) == Early(es, k)
    {
      TalliesStep(es, e, k);
    }
  }

  lemma AcceptKeeps(st: State, strict: bool, e: Event, es: seq<Event>)
    requires e.Accept? && Owner(e.stamp) in st.core.suppliers && CanAccept(st, strict, e) && Invariant(st.core, strict, es)
    ensures Invariant(Accepted(st, strict, e).core, strict, es + [e])
  {
    hide Accepted, CanAccept, Indexed, Apart, Balanced, Counted, Quoted, Strict, Learned, Early, Executed;
    AcceptKeepsOrders(st, strict, e, es);
    AcceptKeepsCounts(st, strict, e);
    AcceptKeepsQuotes(st, strict, e, es);
    if strict {
      AcceptKeepsStrict(st, strict, e, es);
    }
  }

  /** An exchange fill that fits: the log grows, and the order shrinks or ends. */
  lemma FilledShape(st: State, strict: bool, e: Event)
    requires e.ExchangeFill? && Owner(e.stamp) in st.core.suppliers && CanFill(st, strict, e)
    ensures var p, key, logged := Owner(e.stamp), KeyOf(e.stamp, e.fill.order), Logged(st, e);
            var o, sup := FilledOrder(st.core.orders[key], e), Booked(st.core.suppliers[p], e.fill);
            && key in st.core.orders && sup.censored == st.core.suppliers[p].censored
            && Filled(st, strict, e)
               == if o.remaining == 0 then Ended(logged, key, o, sup, e.stamp.at, "filled")
                  else logged.(core := st.core.(suppliers := st.core.suppliers[p := sup], orders := st.core.orders[key := o]))
  {
    hide Priced, FilledOrder, Ended, Logged, MatchesOrder;
  }

  lemma FilledOnlyGrows(st: State, strict: bool, e: Event)
    requires e.ExchangeFill?
    ensures Filled(st, strict, e).checks >= st.checks
  {
    if Owner(e.stamp) in st.core.suppliers && CanFill(st, strict, e) {
      var key, p := KeyOf(e.stamp, e.fill.order), Owner(e.stamp);
      FilledShape(st, strict, e);
      hide Filled, Priced, Booked, FilledOrder, Ended;
      EndNeverUnchecks(Logged(st, e), key, FilledOrder(st.core.orders[key], e), Booked(st.core.suppliers[p], e.fill), e.stamp.at, "filled");
    }
  }

  lemma CancelledOnlyGrows(st: State, strict: bool, e: Event)
    requires e.Cancel?
    ensures Cancelled(st, strict, e).checks >= st.checks
  {
    if Owner(e.stamp) in st.core.suppliers && CanCancel(st, strict, e) {
      var key, p := KeyOf(e.stamp, e.order), Owner(e.stamp);
      NotedKeeps(st, strict, e);
      EndNeverUnchecks(Noted(st, strict, e), key, Captured(st.core.orders[key], st.core.suppliers[p].quote, strict, e),
                       st.core.suppliers[p].(quote := NoQuote()), e.stamp.at, CancelKind(e));
    }
    hide Noted, Ended, Captured, ForcedOk, RequestedOk;
  }

  lemma NoticedOnlyGrows(st: State, strict: bool, e: Event)
    requires e.SupplierFill?
    ensures Noticed(st, strict, e).checks >= st.checks
  {
    hide Priced, PositionOk, Queued;
  }

  /** A bookkeeping step: orders and suppliers untouched, at most a new check. */
  ghost predicate Calm(st: State, st': State) {
    st'.core == st.core && st'.observed == st.observed && st'.actual == st.actual && st'.checks >= st.checks
  }

  lemma SubmittedIsCalm(st: State, e: Event)
    requires e.Submit?
    ensures Calm(st, Submitted(st, e))
  {
  }

  lemma WithdrewIsCalm(st: State, e: Event)
    requires e.Withdraw?
    ensures Calm(st, Withdrew(st, e))
  {
  }

  lemma RejectedIsCalm(st: State, strict: bool, e: Event)
    requires e.Reject?
    ensures Calm(st, Rejected(st, strict, e))
  {
  }

  lemma CancelRejectedIsCalm(st: State, strict: bool, e: Event)
    requires e.CancelReject?
    ensures Calm(st, CancelRejected(st, strict, e))
  {
  }

  lemma TradedIsCalm(st: State, strict: bool, e: Event)
    requires e.TradeSeen?
    ensures Calm(st, Traded(st, strict, e))
  {
  }

  lemma AcceptedOnlyGrows(st: State, strict: bool, e: Event)
    requires e.Accept?
    ensures Accepted(st, strict, e).checks >= st.checks
    ensures Owner(e.stamp) !in st.core.suppliers ==> Accepted(st, strict, e) == st
  {
    hide MatchesSubmission, NoneLive, Wrap;
  }

  predicate Bookkeeping(e: Event) {
    e.Submit? || e.Withdraw? || e.Reject? || e.CancelReject? || e.TradeSeen? || e.Unreadable?
  }

  lemma BookkeepingIsCalm(st: State, strict: bool, e: Event)
    requires Bookkeeping(e)
    ensures Calm(st, Step(st, strict, e))
  {
    hide Submitted, Withdrew, Rejected, CancelRejected, Traded, Accepted, Filled, Cancelled, Noticed;
    if e.Submit? {
      SubmittedIsCalm(st, e);
    } else if e.Withdraw? {
      WithdrewIsCalm(st, e);
    } else if e.Reject? {
      RejectedIsCalm(st, strict, e);
    } else if e.CancelReject? {
      CancelRejectedIsCalm(st, strict, e);
    } else if e.TradeSeen? {
      TradedIsCalm(st, strict, e);
    } else {
      assert e.Unreadable?;
    }
  }

  /** A step never removes a check. */
  lemma ChecksOnlyGrow(st: State, strict: bool, e: Event)
    ensures Step(st, strict, e).checks >= st.checks
  {
    hide Submitted, Withdrew, Rejected, CancelRejected, Traded, Accepted, Filled, Cancelled, Noticed;
    if e.ExchangeFill? {
      FilledOnlyGrows(st, strict, e);
    } else if e.Cancel? {
      CancelledOnlyGrows(st, strict, e);
    } else if e.SupplierFill? {
      NoticedOnlyGrows(st, strict, e);
    } else if e.Accept? {
      AcceptedOnlyGrows(st, strict, e);
    } else {
      BookkeepingIsCalm(st, strict, e);
    }
  }

  /** Events that fit the state change it as proved above; the rest leave orders and suppliers alone. */
  lemma QuietEventKeeps(st: State, strict: bool, e: Event, es: seq<Event>)
    requires Invariant(st.core, strict, es) && Step(st, strict, e).checks == st.checks
    requires (!e.Accept? && !e.ExchangeFill? && !e.SupplierFill? && !e.Cancel?)
             || (!e.SupplierFill? && Owner(e.stamp) !in st.core.suppliers)
    ensures Invariant(Step(st, strict, e).core, strict, es + [e])
  {
    hide Invariant, Step, SilentFor, Learned, Early;
    TouchesNothing(st, strict, e);
    SilentEvent(st.core, e, es);
    SilentKeeps(st.core, strict, es, es + [e]);
  }

  lemma TouchesNothing(st: State, strict: bool, e: Event)
    requires (!e.Accept? && !e.ExchangeFill? && !e.SupplierFill? && !e.Cancel?)
             || (!e.SupplierFill? && Owner(e.stamp) !in st.core.suppliers)
    ensures Step(st, strict, e).core == st.core
  {
    if Bookkeeping(e) {
      BookkeepingIsCalm(st, strict, e);
    } else {
      UnauditedIsIgnored(st, strict, e);
    }
    hide Step;
  }

  lemma UnauditedIsIgnored(st: State, strict: bool, e: Event)
    requires (e.Accept? || e.ExchangeFill? || e.Cancel?) && Owner(e.stamp) !in st.core.suppliers
    ensures Step(st, strict, e) == st
  {
    if e.Accept? {
      AcceptedOnlyGrows(st, strict, e);
    }
    hide Accepted, CanFill, CanCancel, Ended, Noted, Captured, Booked;
  }

  lemma StepKeeps(st: State, strict: bool, e: Event, es: seq<Event>)
    requires Invariant(st.core, strict, es) && Step(st, strict, e).checks == st.checks
    ensures Invariant(Step(st, strict, e).core, strict, es + [e])
  {
    hide Invariant, CanAccept, CanFill, CanCancel, CanNotice;
    if e.SupplierFill? {
      NoticeKeeps(st, strict, e, es);
    } else if Owner(e.stamp) !in st.core.suppliers {
      QuietEventKeeps(st, strict, e, es);
    } else if e.Accept? {
      AcceptKeeps(st, strict, e, es);
    } else if e.Cancel? {
      CancelKeeps(st, strict, e, es);
    } else if e.ExchangeFill? {
      if e.remaining == 0 {
        FullFillKeeps(st, strict, e, es);
      } else {
        PartialFillKeeps(st, strict, e, es);
      }
    } else {
      QuietEventKeeps(st, strict, e, es);
    }
  }

  /** Suppliers as the audit starts them: no quote, no orders counted. */
  ghost predicate Idle(suppliers: map<Participant, Supplier>) {
    forall p :: p in suppliers ==>
      && suppliers[p].quote.order == 0 && suppliers[p].accepted == 0
      && suppliers[p].filled == 0 && suppliers[p].cancelled == 0 && suppliers[p].forced == 0 && suppliers[p].censored == 0
  }

  lemma StartHolds(suppliers: map<Participant, Supplier>, strict: bool)
    requires Idle(suppliers)
    ensures Invariant(Start(suppliers).core, strict, [])
  {
    var st := Start(suppliers);
    forall p | p in st.core.suppliers
      ensures CountsAddUp(st.core, p)
    {
      assert Fits(0);
    }
  }

  /** Over every clean run, in either mode, the lifecycle invariant holds. */
  lemma {:induction false} CleanRunsHold(suppliers: map<Participant, Supplier>, strict: bool, es: seq<Event>)
    requires Idle(suppliers) && Run(suppliers, strict, es).checks == 0
    ensures Invariant(Run(suppliers, strict, es).core, strict, es)
  {
    if es == [] {
      StartHolds(suppliers, strict);
    } else {
      var before, e := es[..|es| - 1], es[|es| - 1];
      ChecksOnlyGrow(Run(suppliers, strict, before), strict, e);
      assert es == before + [e];
      hide Invariant, Step;
      CleanRunsHold(suppliers, strict, before);
      StepKeeps(Run(suppliers, strict, before), strict, e, before);
    }
  }

  // ----- what a clean run promises -----

  /** The live index agrees with a scan of all live orders: one order or none per supplier. */
  lemma LiveIndexIsTheScan(suppliers: map<Participant, Supplier>, strict: bool, es: seq<Event>, p: Participant)
    requires Idle(suppliers) && Run(suppliers, strict, es).checks == 0
    ensures var st := Run(suppliers, strict, es).core;
            (set k | k in st.orders && OwnerOf(k) == p) == (if p in st.live then {st.live[p]} else {})
  {
    CleanRunsHold(suppliers, strict, es);
    hide Run;
  }

  /** No order is both live and ended, and every order's fills and remainder make up its original quantity; what it says
      was filled is what the exchange logged. */
  lemma OrdersAddUp(suppliers: map<Participant, Supplier>, strict: bool, es: seq<Event>)
    requires Idle(suppliers) && Run(suppliers, strict, es).checks == 0
    ensures var st := Run(suppliers, strict, es).core;
            && st.orders.Keys !! st.terminal.Keys
            && forall k :: Known(st, k) ==>
                 var o := OrderAt(st, k); o.filled + o.remaining == o.original && o.filled == Executed(es, k)
  {
    CleanRunsHold(suppliers, strict, es);
    hide Run, Executed;
  }

  /** The same suppliers throughout, and no order censored before the run has ended. */
  ghost predicate SameRoster(st: Core, st': Core) {
    && st'.suppliers.Keys == st.suppliers.Keys
    && forall p :: p in st.suppliers ==> st'.suppliers[p].censored == st.suppliers[p].censored
  }

  lemma EndKeepsRoster(st: State, key: OrderKey, o: Order, sup: Supplier, at: int64, kind: string)
    requires OwnerOf(key) in st.core.suppliers && sup.censored == st.core.suppliers[OwnerOf(key)].censored && kind != "censored"
    ensures SameRoster(st.core, Ended(st, key, o, sup, at, kind).core)
  {
    assert Closed(sup, o, at, kind).Some? ==> Closed(sup, o, at, kind).value.censored == sup.censored;
    hide Closed;
  }

  lemma OneSupplierChanges(st: Core, st': Core, p: Participant, sup: Supplier)
    requires p in st.suppliers && st'.suppliers == st.suppliers[p := sup] && sup.censored == st.suppliers[p].censored
    ensures SameRoster(st, st')
  {
  }

  lemma FillKeepsRoster(st: State, strict: bool, e: Event)
    requires e.ExchangeFill?
    ensures SameRoster(st.core, Filled(st, strict, e).core)
  {
    if Owner(e.stamp) in st.core.suppliers && CanFill(st, strict, e) {
      var key, p := KeyOf(e.stamp, e.fill.order), Owner(e.stamp);
      FilledShape(st, strict, e);
      var o, sup := FilledOrder(st.core.orders[key], e), Booked(st.core.suppliers[p], e.fill);
      hide Filled, CanFill, Booked, FilledOrder, Ended, SameRoster;
      if o.remaining == 0 {
        EndKeepsRoster(Logged(st, e), key, o, sup, e.stamp.at, "filled");
      } else {
        OneSupplierChanges(st.core, Filled(st, strict, e).core, p, sup);
      }
    }
  }

  lemma CancelKeepsRoster(st: State, strict: bool, e: Event)
    requires e.Cancel?
    ensures SameRoster(st.core, Cancelled(st, strict, e).core)
  {
    if Owner(e.stamp) in st.core.suppliers && CanCancel(st, strict, e) {
      var key, p := KeyOf(e.stamp, e.order), Owner(e.stamp);
      NotedKeeps(st, strict, e);
      hide Noted, Captured;
      EndKeepsRoster(Noted(st, strict, e), key, Captured(st.core.orders[key], st.core.suppliers[p].quote, strict, e),
                     st.core.suppliers[p].(quote := NoQuote()), e.stamp.at, CancelKind(e));
    }
    hide Ended, CanCancel;
  }

  lemma AcceptKeepsRoster(st: State, strict: bool, e: Event)
    requires e.Accept?
    ensures SameRoster(st.core, Accepted(st, strict, e).core)
  {
    if Owner(e.stamp) in st.core.suppliers && CanAccept(st, strict, e) {
      var p := Owner(e.stamp);
      var st' := Accepted(st, strict, e).core;
      hide CanAccept, Wrap, NewOrder, SameRoster;
      OneSupplierChanges(st.core, st', p, st'.suppliers[p]);
    } else {
      hide CanAccept;
    }
  }

  lemma NoticeKeepsRoster(st: State, strict: bool, e: Event)
    requires e.SupplierFill?
    ensures SameRoster(st.core, Noticed(st, strict, e).core)
  {
    if Owner(e.stamp) in st.core.suppliers && CanNotice(st, strict, e) {
      NoticeMeans(st, strict, e);
      hide CanNotice, Priced, Drained, CanBook;
      OneSupplierChanges(st.core, Noticed(st, strict, e).core, Owner(e.stamp), Told(st.core.suppliers[Owner(e.stamp)], e));
    }
  }

  lemma StepKeepsRoster(st: State, strict: bool, e: Event)
    ensures SameRoster(st.core, Step(st, strict, e).core)
  {
    hide Filled, Cancelled, Accepted, Noticed, SameRoster;
    if e.ExchangeFill? {
      FillKeepsRoster(st, strict, e);
    } else if e.Cancel? {
      CancelKeepsRoster(st, strict, e);
    } else if e.Accept? {
      AcceptKeepsRoster(st, strict, e);
    } else if e.SupplierFill? {
      NoticeKeepsRoster(st, strict, e);
    } else {
      hide Step;
      CalmKeepsRoster(st, strict, e);
    }
  }

  lemma CalmKeepsRoster(st: State, strict: bool, e: Event)
    requires Bookkeeping(e)
    ensures SameRoster(st.core, Step(st, strict, e).core)
  {
    BookkeepingIsCalm(st, strict, e);
    hide Step;
  }

  lemma {:induction false} NoneCensored(suppliers: map<Participant, Supplier>, strict: bool, es: seq<Event>, p: Participant)
    requires Idle(suppliers)
    ensures Run(suppliers, strict, es).core.suppliers.Keys == suppliers.Keys
    ensures p in suppliers ==> Run(suppliers, strict, es).core.suppliers[p].censored == 0
  {
    if es != [] {
      NoneCensored(suppliers, strict, es[..|es| - 1], p);
      StepKeepsRoster(Run(suppliers, strict, es[..|es| - 1]), strict, es[|es| - 1]);
      hide Step;
    }
  }

  /** Accepted orders are the live, filled, cancelled and forcibly cancelled ones, in the width the counter has. */
  lemma AcceptedAreAccountedFor(suppliers: map<Participant, Supplier>, strict: bool, es: seq<Event>, p: Participant)
    requires Idle(suppliers) && Run(suppliers, strict, es).checks == 0 && p in Run(suppliers, strict, es).core.suppliers
    ensures var st := Run(suppliers, strict, es).core;
            var sup := st.suppliers[p];
            sup.accepted == Wrap(|set k | k in st.orders && OwnerOf(k) == p| + sup.filled + sup.cancelled + sup.forced)
  {
    hide *;
    CleanRunsHold(suppliers, strict, es);
    LiveIndexIsTheScan(suppliers, strict, es, p);
    NoneCensored(suppliers, strict, es, p);
    CountsOf(Run(suppliers, strict, es).core, strict, es, p);
  }

  lemma CountsOf(st: Core, strict: bool, es: seq<Event>, p: Participant)
    requires Invariant(st, strict, es) && p in st.suppliers && st.suppliers[p].censored == 0
    requires (set k | k in st.orders && OwnerOf(k) == p) == (if p in st.live then {st.live[p]} else {})
    ensures var sup := st.suppliers[p];
            sup.accepted == Wrap(|set k | k in st.orders && OwnerOf(k) == p| + sup.filled + sup.cancelled + sup.forced)
  {
    hide Indexed, Apart, Balanced, Quoted, Strict, Wrap;
    assert CountsAddUp(st, p);
    assert |set k | k in st.orders && OwnerOf(k) == p| == LiveCount(st, p);
  }

  /** How far the supplier's quote lags the exchange: by the fills it has not learned of, plus anything it logged before
      the order was accepted.  Strict mode rules the latter out. */
  lemma QuoteLagsByUnlearnedFills(suppliers: map<Participant, Supplier>, strict: bool, es: seq<Event>, p: Participant)
    requires Idle(suppliers) && Run(suppliers, strict, es).checks == 0 && p in Run(suppliers, strict, es).core.suppliers
    requires Run(suppliers, strict, es).core.suppliers[p].quote.order != 0
    ensures var st := Run(suppliers, strict, es).core;
            var k := QuoteKey(p, st.suppliers[p].quote);
            && Known(st, k)
            && (st.suppliers[p].quote.qty - OrderAt(st, k).remaining == Executed(es, k) - Learned(es, k) <==> Early(es, k) == 0)
            && (strict ==> Early(es, k) == 0)
  {
    CleanRunsHold(suppliers, strict, es);
    var st := Run(suppliers, strict, es).core;
    hide Run, Executed, Learned, Early;
    assert QuoteAddsUp(st, es, QuoteKey(p, st.suppliers[p].quote), st.suppliers[p].quote);
  }

  /** In strict mode the quote a cancellation captured lags in the same way, for as long as it is remembered. */
  lemma CapturedQuoteLags(suppliers: map<Participant, Supplier>, es: seq<Event>, k: OrderKey)
    requires Idle(suppliers) && Run(suppliers, true, es).checks == 0
    requires var st := Run(suppliers, true, es).core; k in st.terminal && st.terminal[k].local.Some?
    ensures var o := Run(suppliers, true, es).core.terminal[k];
            o.local.value.qty - o.remaining == Executed(es, k) - Learned(es, k)
  {
    CleanRunsHold(suppliers, true, es);
    var st := Run(suppliers, true, es).core;
    hide Run, Executed, Learned, Early;
    assert CapturedAddsUp(st, es, k);
    assert Known(st, k) && OrderAt(st, k) == st.terminal[k];
  }
}
