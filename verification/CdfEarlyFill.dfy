/** Outside strict mode a supplier may log a fill of an order before the order is accepted: a run of the supplier order audit
that stays clean to the end and passes the final reconciliation, though on its way the supplier's quote does not lag by the
unlearned fills (analysis/cdf_activation.go). */
module CdfEarlyFill {
  import opened Int64
  import opened CdfOrders
  import opened CdfLifecycle

  function Maker(): Participant {
    Participant("V", 1)
  }

  function Key(): OrderKey {
    OrderKey("V", 1, 7)
  }

  function TheFill(): Fill {
    Fill(7, 1, "BUY", 1, 1, 0, "USD", false)
  }

  function At(at: int64): Stamp {
    Stamp("V", 1, at, 0)
  }

  /** The fill is logged first; the order it belongs to is then submitted, accepted, filled and withdrawn. */
  function Record(i: nat): Event
    requires i < 6
  {
    match i
    case 0 => SupplierFill(At(1), TheFill(), 1, "r", true, 1, 0, 1)
    case 1 => Submit(At(2), 1, "BUY", 1, 2)
    case 2 => Accept(At(3), 1, 7, 1, true, "BUY", 1, 2)
    case 3 => ExchangeFill(At(4), TheFill(), 1, 1)
    case 4 => Withdraw(At(5), 2, 7)
    case _ => Cancel(At(6), 7, 1, 2, "")
  }

  function Events(n: nat): seq<Event>
    requires n <= 6
  {
    seq(n, i requires 0 <= i < 6 => Record(i))
  }

  function Idler(): Supplier {
    Supplier(Contract("USD", 1, 0, 0, 10, 10), "r", NoQuote(), 0, 0, 0, 0, 0, 0, 0, 0, 0, 0, 0, 0, 0)
  }

  function Roster(): map<Participant, Supplier> {
    map[Maker() := Idler()]
  }

  function Aware(): Supplier {
    Idler().(position := 1, fillBase := 1, fillQuote := -1)
  }

  function Quoting(): Supplier {
    Aware().(quote := Quote(7, "BUY", 1, 2), accepted := 1)
  }

  function Executing(): Supplier {
    Quoting().(exchangeBase := 1, exchangeQuote := -1)
  }

  function Done(): Supplier {
    Executing().(quote := NoQuote(), cancelled := 1, totalLifetime := 3, maxLifetime := 3)
  }

  function Open(): Order {
    Order("BUY", 1, 2, 0, 2, 3, 0, 0, "", 0, 0, None)
  }

  function Partial(): Order {
    Open().(filled := 1, remaining := 1, fillCount := 1)
  }

  function Asked(accepted: bool): map<RequestKey, Submission> {
    map[RequestKey("V", 1, 1) := Submission("BUY", 1, 2, 2, 0, accepted, false)]
  }

  function Pulled(closed: bool): map<RequestKey, Withdrawal> {
    map[RequestKey("V", 1, 2) := Withdrawal(7, 5, 0, closed, false)]
  }

  function Log(at: int64): map<FillKey, Execution> {
    map[FillKey("V", 1, 7, 1) := Execution(TheFill(), at, 0)]
  }

  /** The audit's state after the first `n` records. */
  function Reached(n: nat): State
    requires n <= 6
  {
    match n
    case 0 => Start(Roster())
    case 1 => State(Core(map[Maker() := Aware()], map[], map[], map[]), map[], map[], Log(1), map[], map[], 0)
    case 2 => State(Core(map[Maker() := Aware()], map[], map[], map[]), Asked(false), map[], Log(1), map[], map[], 0)
    case 3 => State(Core(map[Maker() := Quoting()], map[Key() := Open()], map[], map[Maker() := Key()]),
                    Asked(true), map[], Log(1), map[], map[], 0)
    case 4 => State(Core(map[Maker() := Executing()], map[Key() := Partial()], map[], map[Maker() := Key()]),
                    Asked(true), map[], Log(1), Log(4), map[], 0)
    case 5 => State(Core(map[Maker() := Executing()], map[Key() := Partial()], map[], map[Maker() := Key()]),
                    Asked(true), Pulled(false), Log(1), Log(4), map[], 0)
    case _ => State(Core(map[Maker() := Done()], map[], map[Key() := Partial().(ended := "cancelled")], map[]),
                    Asked(true), Pulled(true), Log(1), Log(4), map[], 0)
  }

  lemma FillMoves()
    ensures Priced(Idler().contract, TheFill()) == Some(Move(1, -1))
  {
    FillWorth();
    FillFee();
    hide Notional, Fee;
    assert BalanceMove("BUY", 1, 1, 0) == Some(Move(1, -1));
  }

  lemma FillWorth()
    ensures Notional(1, 1, 1) == Some(1)
  {
    assert 1 * 1 == 1 && Quo(1, 1) == 1;
  }

  lemma FillFee()
    ensures Fee(1, 0) == Some(0)
  {
    assert 1 * 0 == 0 && Quo(0, 10_000) == 0;
  }

  lemma Learns()
    ensures Step(Reached(0), false, Record(0)) == Reached(1)
  {
    FillMoves();
    hide Priced;
    assert CanBook(Idler(), TheFill()) && PositionOk(Idler(), Record(0));
    assert Told(Idler(), Record(0)) == Aware();
    hide CanBook, PositionOk, Told, Queued, Absorbs, Drained;
    assert CanNotice(Reached(0), false, Record(0));
  }

  lemma Submits()
    ensures Step(Reached(1), false, Record(1)) == Reached(2)
  {
  }

  lemma MayAccept()
    ensures CanAccept(Reached(2), false, Record(2)) && Wrap(0 + 1) == 1 && NewOrder(Record(2)) == Open()
  {
  }

  lemma IsAccepted()
    ensures Step(Reached(2), false, Record(2)) == Reached(3)
  {
    MayAccept();
    hide Wrap, CanAccept, NewOrder, Open;
  }

  lemma FillSettles()
    ensures CanSettle(Quoting(), TheFill()) && Booked(Quoting(), TheFill()) == Executing()
  {
    FillMoves();
    hide Priced;
  }

  lemma FillFits()
    ensures MatchesOrder(Open(), false, Record(3)) && FilledOrder(Open(), Record(3)) == Partial()
  {
  }

  lemma Trades()
    ensures Step(Reached(3), false, Record(3)) == Reached(4)
  {
    FillSettles();
    FillFits();
    hide CanSettle, Booked, MatchesOrder, FilledOrder, Quoting, Executing, Open, Partial, Ended, Asked;
    assert Partial().remaining != 0 by { OneLeft(); }
    assert CanFill(Reached(3), false, Record(3));
    hide CanFill;
    assert map[Maker() := Quoting()][Maker() := Executing()] == map[Maker() := Executing()];
    assert map[Key() := Open()][Key() := Partial()] == map[Key() := Partial()];
  }

  lemma OneLeft()
    ensures Partial().remaining == 1
  {
  }

  lemma Withdraws()
    ensures Step(Reached(4), false, Record(4)) == Reached(5)
  {
  }

  lemma Closes()
    ensures Closed(Executing().(quote := NoQuote()), Partial(), 6, "cancelled") == Some(Done())
  {
  }

  lemma CancelIsNoted()
    ensures CanCancel(Reached(5), false, Record(5))
    ensures Noted(Reached(5), false, Record(5)) == Reached(5).(withdrawals := Pulled(true))
  {
  }

  lemma Retires(st: State)
    requires st == Reached(5).(withdrawals := Pulled(true))
    ensures Ended(st, Key(), Partial(), Executing().(quote := NoQuote()), 6, "cancelled") == Reached(6)
  {
    Closes();
    hide Closed, Executing, Partial, Done, Asked, Pulled, Log;
    assert map[Key() := Partial()] - {Key()} == map[] && map[Maker() := Key()] - {Maker()} == map[];
    assert map[Maker() := Executing()][Maker() := Done()] == map[Maker() := Done()];
  }

  /** Outside strict mode a cancellation captures nothing. */
  lemma PlainCancel(st: State, e: Event)
    requires e.Cancel? && Owner(e.stamp) in st.core.suppliers && CanCancel(st, false, e)
    ensures Cancelled(st, false, e)
            == Ended(Noted(st, false, e), KeyOf(e.stamp, e.order), st.core.orders[KeyOf(e.stamp, e.order)],
                     st.core.suppliers[Owner(e.stamp)].(quote := NoQuote()), e.stamp.at, CancelKind(e))
  {
    hide Noted, Ended;
  }

  lemma CancelMeans()
    ensures var st, e := Reached(5), Record(5);
            && e.Cancel? && Owner(e.stamp) == Maker() && KeyOf(e.stamp, e.order) == Key() && e.stamp.at == 6
            && CancelKind(e) == "cancelled" && Step(st, false, e) == Cancelled(st, false, e)
            && st.core.suppliers == map[Maker() := Executing()] && st.core.orders == map[Key() := Partial()]
  {
    hide Cancelled, Executing, Partial;
  }

  lemma IsCancelled()
    ensures Step(Reached(5), false, Record(5)) == Reached(6)
  {
    hide *;
    CancelMeans();
    CancelIsNoted();
    PlainCancel(Reached(5), Record(5));
    Retires(Reached(5).(withdrawals := Pulled(true)));
  }

  lemma Steps(n: nat)
    requires n < 6
    ensures Step(Reached(n), false, Record(n)) == Reached(n + 1)
  {
    hide *;
    if n == 0 {
      Learns();
    } else if n == 1 {
      Submits();
    } else if n == 2 {
      IsAccepted();
    } else if n == 3 {
      Trades();
    } else if n == 4 {
      Withdraws();
    } else {
      IsCancelled();
    }
  }

  lemma OneMore(n: nat)
    requires n < 6
    ensures Run(Roster(), false, Events(n + 1)) == Step(Run(Roster(), false, Events(n)), false, Record(n))
  {
    hide Step, Record, Roster;
    var es := Events(n + 1);
    assert es[..n] == Events(n) && es[n] == Record(n);
  }

  lemma {:induction false} Runs(n: nat)
    requires n <= 6
    ensures Run(Roster(), false, Events(n)) == Reached(n)
  {
    if n > 0 {
      hide *;
      OneMore(n - 1);
      Runs(n - 1);
      Steps(n - 1);
    }
  }

  lemma Tallies()
    ensures Executed(Events(3), Key()) == 0 && Learned(Events(3), Key()) == 1
  {
    var a, b, c := Record(0), Record(1), Record(2);
    assert Events(3) == [a, b, c];
    TalliesStep([], a, Key());
    TalliesStep([a], b, Key());
    TalliesStep([a, b], c, Key());
    assert [] + [a] == [a] && [a] + [b] == [a, b] && [a, b] + [c] == [a, b, c];
    hide Executed, Learned;
  }

  /** The supplier's live quote does not exceed the exchange's remainder by what was executed less what was learned. */
  ghost predicate Misstated(st: Core, es: seq<Event>, p: Participant, k: OrderKey) {
    && p in st.suppliers && k in st.orders && QuoteKey(p, st.suppliers[p].quote) == k && k.order != 0
    && st.suppliers[p].quote.qty - st.orders[k].remaining != Executed(es, k) - Learned(es, k)
  }

  /** No check, no order open, and the final reconciliation passes. */
  ghost predicate Reconciled(st: State) {
    st.checks == 0 && st.core.orders == map[] && FillsMatch(st, false)
  }

  /** A run that is clean to its end and reconciles, in which the quote is misstated just after the acceptance. */
  lemma LagFailsOutsideStrictMode() returns (suppliers: map<Participant, Supplier>, es: seq<Event>, cut: nat, p: Participant, k: OrderKey)
    ensures Idle(suppliers) && Reconciled(Run(suppliers, false, es))
    ensures cut <= |es| && Misstated(Run(suppliers, false, es[..cut]).core, es[..cut], p, k)
  {
    suppliers, es, cut, p, k := Roster(), Events(6), 3, Maker(), Key();
    assert es[..cut] == Events(3);
    Overstates();
    Ends();
    hide Run, Misstated, Reconciled, Reached, Record, Events;
    Runs(3);
    Runs(6);
  }

  lemma Overstates()
    ensures Misstated(Reached(3).core, Events(3), Maker(), Key())
  {
    Tallies();
    hide Executed, Learned, Record;
  }

  lemma Ends()
    ensures Reconciled(Reached(6))
  {
    var st, k := Reached(6), FillKey("V", 1, 7, 1);
    assert st.observed == Log(1) && st.actual == Log(4) && Maker() in st.core.suppliers;
    assert st.checks == 0 && st.core.orders == map[];
    hide Reached;
    assert Confirmed(st, k) && Explained(st, false, k);
    hide Confirmed, Explained;
  }
}
