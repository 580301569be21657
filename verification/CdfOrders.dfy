/** The supplier order audit (analysis/cdf_activation.go): acceptances, exchange fills, cancellations and the supplier's
own, later view of its fills.

A record that does not fit the state is a check.  `strict` is the audit's strict mechanics mode. */
module CdfOrders {
  import opened Int64

  datatype Participant = Participant(venue: string, client: uint64)

  datatype OrderKey = OrderKey(venue: string, client: uint64, order: uint64)

  datatype RequestKey = RequestKey(venue: string, client: uint64, request: uint64)

  datatype FillKey = FillKey(venue: string, client: uint64, order: uint64, trade: uint64)

  datatype TradeKey = TradeKey(venue: string, trade: uint64)

  /** Where a record comes from: venue, client, simulated time and global frame. */
  datatype Stamp = Stamp(venue: string, client: uint64, at: int64, frame: uint64)

  datatype Contract = Contract(quoteAsset: string, basePrecision: int64, makerFeeBps: int64, initialBase: int64,
                               maxPosition: int64, maxInventory: int64)

  /** A quote as the supplier believes it to rest; order zero means none. */
  datatype Quote = Quote(order: uint64, side: string, price: int64, qty: int64)

  datatype Supplier = Supplier(contract: Contract, role: string, quote: Quote, position: int64, fillBase: int64,
                               fillQuote: int64, exchangeBase: int64, exchangeQuote: int64, accepted: int64,
                               filled: int64, cancelled: int64, forced: int64, censored: int64, totalLifetime: int64,
                               maxLifetime: int64, censoredLifetime: int64)

  datatype Submission = Submission(side: string, price: int64, qty: int64, at: int64, frame: uint64, accepted: bool, rejected: bool)

  datatype Withdrawal = Withdrawal(order: uint64, at: int64, frame: uint64, closed: bool, cancelRejected: bool)

  datatype Order = Order(side: string, price: int64, original: int64, filled: int64, remaining: int64, acceptedAt: int64,
                         acceptedFrame: uint64, fillCount: int64, ended: string, endedAt: int64, endedFrame: uint64,
                         local: Option<Quote>)

  /** One fill, as the exchange or the supplier logged it. */
  datatype Fill = Fill(order: uint64, trade: uint64, side: string, price: int64, qty: int64, fee: int64,
                       feeAsset: string, isFull: bool)

  datatype Execution = Execution(fill: Fill, at: int64, frame: uint64)

  datatype Trade = Trade(price: int64, qty: int64, side: string, maker: uint64, taker: uint64, frame: uint64)

  /** Suppliers and their orders: live, ended, and the index of live ones. */
  datatype Core = Core(suppliers: map<Participant, Supplier>, orders: map<OrderKey, Order>, terminal: map<OrderKey, Order>,
                       live: map<Participant, OrderKey>)

  datatype State = State(core: Core, submissions: map<RequestKey, Submission>, withdrawals: map<RequestKey, Withdrawal>,
                         observed: map<FillKey, Execution>, actual: map<FillKey, Execution>, trades: map<TradeKey, Trade>,
                         checks: nat)

  datatype Event =
    | Submit(stamp: Stamp, request: uint64, side: string, price: int64, qty: int64)
    | Withdraw(stamp: Stamp, request: uint64, order: uint64)
    | Accept(stamp: Stamp, request: uint64, order: uint64, clientId: uint64, passive: bool, side: string, price: int64, qty: int64)
    | Reject(stamp: Stamp, request: uint64, success: bool, error: string)
    | ExchangeFill(stamp: Stamp, fill: Fill, filled: int64, remaining: int64)
    | Cancel(stamp: Stamp, order: uint64, remaining: int64, request: uint64, reason: string)
    | CancelReject(stamp: Stamp, order: uint64, request: uint64, success: bool, error: string)
    | SupplierFill(stamp: Stamp, fill: Fill, clientId: uint64, role: string, symbolOk: bool, timestamp: int64,
                   before: int64, after: int64)
    | TradeSeen(stamp: Stamp, trade: uint64, price: int64, qty: int64, side: string, maker: uint64, taker: uint64)
    | Unreadable(stamp: Stamp)

  function Owner(s: Stamp): Participant {
    Participant(s.venue, s.client)
  }

  function KeyOf(s: Stamp, order: uint64): OrderKey {
    OrderKey(s.venue, s.client, order)
  }

  function OwnerOf(k: OrderKey): Participant {
    Participant(k.venue, k.client)
  }

  function RequestOf(s: Stamp, request: uint64): RequestKey {
    RequestKey(s.venue, s.client, request)
  }

  function FillKeyOf(s: Stamp, f: Fill): FillKey {
    FillKey(s.venue, s.client, f.order, f.trade)
  }

  function NoQuote(): Quote {
    Quote(0, "", 0, 0)
  }

  function Check(st: State): State {
    st.(checks := st.checks + 1)
  }

  predicate After(s: Stamp, at: int64, frame: uint64) {
    if frame != 0 && s.frame != 0 then s.frame > frame else s.at > at
  }

  /** Strict mechanics order by frame; otherwise time may tie. */
  predicate Follows(strict: bool, s: Stamp, at: int64, frame: uint64) {
    if strict then After(s, at, frame) else s.at >= at
  }

  function Notional(price: int64, qty: int64, precision: int64): Option<int64> {
    if price <= 0 || qty <= 0 || precision <= 0 || !Fits(Quo(price * qty, precision)) then None
    else Some(Quo(price * qty, precision))
  }

  function Fee(notional: int64, bps: int64): Option<int64> {
    if notional < 0 || bps < 0 || bps > 10_000 || !Fits(Quo(notional * bps, 10_000)) then None
    else Some(Quo(notional * bps, 10_000))
  }

  datatype Move = Move(base: int64, quote: int64)

  function BalanceMove(side: string, notional: int64, qty: int64, fee: int64): Option<Move> {
    if notional < 0 || qty <= 0 || fee < 0 then None
    else if side == "BUY" then
      match TryAdd(notional, fee)
      case None => None
      case Some(cash) => if cash <= 0 then None else Some(Move(qty, -(cash as int)))
    else if side == "SELL" then
      match CheckedSub(notional, fee)
      case None => None
      case Some(cash) => Some(Move(-(qty as int), cash))
    else None
  }

  /** A fill priced by the contract: its fee is the registered maker fee and its move is representable. */
  function Priced(c: Contract, f: Fill): Option<Move> {
    if f.fee < 0 || f.feeAsset != c.quoteAsset then None
    else
      match Notional(f.price, f.qty, c.basePrecision)
      case None => None
      case Some(notional) =>
        if Fee(notional, c.makerFeeBps) != Some(f.fee) then None else BalanceMove(f.side, notional, f.qty, f.fee)
  }

  // ----- decisions -----

  function Submitted(st: State, e: Event): State
    requires e.Submit?
  {
    var key := RequestOf(e.stamp, e.request);
    if Owner(e.stamp) !in st.core.suppliers || key in st.submissions then Check(st)
    else st.(submissions := st.submissions[key := Submission(e.side, e.price, e.qty, e.stamp.at, e.stamp.frame, false, false)])
  }

  function Withdrew(st: State, e: Event): State
    requires e.Withdraw?
  {
    var key := RequestOf(e.stamp, e.request);
    if Owner(e.stamp) !in st.core.suppliers || e.order == 0 || e.request == 0 || key in st.withdrawals then Check(st)
    else st.(withdrawals := st.withdrawals[key := Withdrawal(e.order, e.stamp.at, e.stamp.frame, false, false)])
  }

  // ----- acceptance -----

  predicate MatchesSubmission(st: State, strict: bool, e: Event)
    requires e.Accept?
  {
    var key := RequestOf(e.stamp, e.request);
    && key in st.submissions && e.clientId == e.stamp.client && e.order != 0 && e.passive
    && e.side == st.submissions[key].side && e.price == st.submissions[key].price && e.qty == st.submissions[key].qty
    && Follows(strict, e.stamp, st.submissions[key].at, st.submissions[key].frame)
    && !st.submissions[key].accepted && !st.submissions[key].rejected
  }

  /** No live order of this supplier, by a scan of all live orders. */
  predicate NoneLive(orders: map<OrderKey, Order>, p: Participant) {
    forall k :: k in orders ==> OwnerOf(k) != p
  }

  predicate CanAccept(st: State, strict: bool, e: Event)
    requires e.Accept?
  {
    var key := KeyOf(e.stamp, e.order);
    && MatchesSubmission(st, strict, e) && key !in st.core.orders && Owner(e.stamp) !in st.core.live
    && NoneLive(st.core.orders, Owner(e.stamp)) && key !in st.core.terminal
  }

  function NewOrder(e: Event): Order
    requires e.Accept?
  {
    Order(e.side, e.price, e.qty, 0, e.qty, e.stamp.at, e.stamp.frame, 0, "", 0, 0, None)
  }

  function Accepted(st: State, strict: bool, e: Event): State
    requires e.Accept?
  {
    var p, key, request := Owner(e.stamp), KeyOf(e.stamp, e.order), RequestOf(e.stamp, e.request);
    if p !in st.core.suppliers then st
    else if !CanAccept(st, strict, e) then Check(st)
    else
      var sup := st.core.suppliers[p];
      st.(submissions := st.submissions[request := st.submissions[request].(accepted := true)],
          core := st.core.(
            orders := st.core.orders[key := NewOrder(e)],
            live := st.core.live[p := key],
            suppliers := st.core.suppliers[p := sup.(quote := Quote(e.order, e.side, e.price, e.qty), accepted := Wrap(sup.accepted + 1))]))
  }

  predicate CanReject(st: State, strict: bool, e: Event)
    requires e.Reject?
  {
    var key := RequestOf(e.stamp, e.request);
    && key in st.submissions && !e.success && e.error != ""
    && Follows(strict, e.stamp, st.submissions[key].at, st.submissions[key].frame)
    && !st.submissions[key].accepted && !st.submissions[key].rejected
  }

  function Rejected(st: State, strict: bool, e: Event): State
    requires e.Reject?
  {
    var key := RequestOf(e.stamp, e.request);
    if Owner(e.stamp) !in st.core.suppliers then st
    else if !CanReject(st, strict, e) then Check(st)
    else st.(submissions := st.submissions[key := st.submissions[key].(rejected := true)])
  }

  // ----- closing an order -----

  /** The supplier's counters after one of its orders ended; none if a time or a counter does not fit. */
  function Closed(sup: Supplier, o: Order, at: int64, kind: string): Option<Supplier> {
    if o.ended != "" then None
    else
      match CheckedSub(at, o.acceptedAt)
      case None => None
      case Some(duration) =>
        if duration < 0 then None
        else
          match TryAdd(sup.totalLifetime, duration)
          case None => None
          case Some(total) =>
            var timed := sup.(totalLifetime := total, maxLifetime := Max(sup.maxLifetime, duration));
            if kind == "filled" then
              if sup.filled == MAX then None else Some(timed.(filled := sup.filled + 1))
            else if kind == "cancelled" then
              if sup.cancelled == MAX then None else Some(timed.(cancelled := sup.cancelled + 1))
            else if kind == "forced_cancelled" then
              if sup.forced == MAX then None else Some(timed.(forced := sup.forced + 1))
            else if kind == "censored" then
              match TryAdd(sup.censoredLifetime, duration)
              case None => None
              case Some(open) =>
                if sup.censored == MAX then None else Some(timed.(censored := sup.censored + 1, censoredLifetime := open))
            else None
  }

  /** Moves an order from live to terminal; a counter that does not fit is a check. */
  function Ended(st: State, key: OrderKey, o: Order, sup: Supplier, at: int64, kind: string): State {
    var p := OwnerOf(key);
    var closed := Closed(sup, o, at, kind);
    st.(checks := st.checks + if closed.Some? then 0 else 1,
        core := Core(st.core.suppliers[p := if closed.Some? then closed.value else sup],
                     st.core.orders - {key},
                     if key in st.core.terminal then st.core.terminal else st.core.terminal[key := o.(ended := kind)],
                     if p in st.core.live && st.core.live[p] == key then st.core.live - {p} else st.core.live))
  }

  // ----- exchange fills -----

  predicate MatchesOrder(o: Order, strict: bool, e: Event)
    requires e.ExchangeFill?
  {
    && e.fill.side == o.side && e.fill.price == o.price && 0 < e.fill.qty <= o.remaining && e.filled > 0 && e.remaining >= 0
    && Follows(strict, e.stamp, o.acceptedAt, o.acceptedFrame)
    && CheckedSub(o.remaining, e.fill.qty) == Some(e.remaining) && TryAdd(o.filled, e.fill.qty) == Some(e.filled)
    && TryAdd(e.filled, e.remaining) == Some(o.original) && (e.fill.isFull <==> e.remaining == 0)
    && o.fillCount < MAX
  }

  /** The execution's balance moves can be computed and added to what the exchange has settled. */
  predicate CanSettle(sup: Supplier, f: Fill) {
    && Priced(sup.contract, f).Some?
    && TryAdd(sup.exchangeBase, Priced(sup.contract, f).value.base).Some?
    && TryAdd(sup.exchangeQuote, Priced(sup.contract, f).value.quote).Some?
  }

  predicate CanFill(st: State, strict: bool, e: Event)
    requires e.ExchangeFill? && Owner(e.stamp) in st.core.suppliers
  {
    var key, sup := KeyOf(e.stamp, e.fill.order), st.core.suppliers[Owner(e.stamp)];
    && key in st.core.orders && MatchesOrder(st.core.orders[key], strict, e) && FillKeyOf(e.stamp, e.fill) !in st.actual
    && CanSettle(sup, e.fill)
  }

  function Booked(sup: Supplier, f: Fill): Supplier
    requires CanSettle(sup, f)
  {
    var move := Priced(sup.contract, f).value;
    sup.(exchangeBase := sup.exchangeBase + move.base, exchangeQuote := sup.exchangeQuote + move.quote)
  }

  function FilledOrder(o: Order, e: Event): Order
    requires e.ExchangeFill? && o.fillCount < MAX
  {
    o.(remaining := e.remaining, filled := e.filled, fillCount := o.fillCount + 1)
  }

  function Logged(st: State, e: Event): State
    requires e.ExchangeFill?
  {
    st.(actual := st.actual[FillKeyOf(e.stamp, e.fill) := Execution(e.fill, e.stamp.at, e.stamp.frame)])
  }

  function Filled(st: State, strict: bool, e: Event): State
    requires e.ExchangeFill?
  {
    var p, key := Owner(e.stamp), KeyOf(e.stamp, e.fill.order);
    if p !in st.core.suppliers then st
    else if !CanFill(st, strict, e) then Check(st)
    else
      var sup, o := Booked(st.core.suppliers[p], e.fill), FilledOrder(st.core.orders[key], e);
      if o.remaining == 0 then Ended(Logged(st, e), key, o, sup, e.stamp.at, "filled")
      else Logged(st, e).(core := st.core.(suppliers := st.core.suppliers[p := sup], orders := st.core.orders[key := o]))
  }

  // ----- cancellations -----

  predicate HasForcedPrefix(reason: string) {
    "EXCHANGE_FORCED_" <= reason
  }

  predicate ForcedOk(o: Order, strict: bool, e: Event)
    requires e.Cancel?
  {
    HasForcedPrefix(e.reason) && (strict ==> After(e.stamp, o.acceptedAt, o.acceptedFrame))
  }

  predicate RequestedOk(st: State, strict: bool, e: Event)
    requires e.Cancel?
  {
    var key := RequestOf(e.stamp, e.request);
    && key in st.withdrawals && st.withdrawals[key].order == e.order
    && Follows(strict, e.stamp, st.withdrawals[key].at, st.withdrawals[key].frame)
    && !st.withdrawals[key].closed && !st.withdrawals[key].cancelRejected
  }

  predicate CanCancel(st: State, strict: bool, e: Event)
    requires e.Cancel?
  {
    var key := KeyOf(e.stamp, e.order);
    && key in st.core.orders && e.order != 0 && e.remaining == st.core.orders[key].remaining
    && (strict ==> e.request != 0 || e.reason != "")
    && (e.request == 0 ==> ForcedOk(st.core.orders[key], strict, e))
    && (e.request != 0 ==> RequestedOk(st, strict, e))
  }

  /** The supplier's quote still rests on this order, with at least the exchange's remainder. */
  predicate Coherent(o: Order, q: Quote, order: uint64) {
    q.order == order && q.side == o.side && q.price == o.price && q.qty >= o.remaining
  }

  /** In strict mode a cancelled order keeps the quote the supplier still believed in. */
  function Captured(o: Order, q: Quote, strict: bool, e: Event): Order
    requires e.Cancel?
  {
    if !strict then o
    else
      var stamped := o.(endedAt := e.stamp.at, endedFrame := e.stamp.frame);
      if Coherent(o, q, e.order) then stamped.(local := Some(q)) else stamped
  }

  function CancelKind(e: Event): string
    requires e.Cancel?
  {
    if e.request == 0 then "forced_cancelled" else "cancelled"
  }

  /** Closes the withdrawal that asked for it; an incoherent quote is a check in strict mode. */
  function Noted(st: State, strict: bool, e: Event): State
    requires e.Cancel? && Owner(e.stamp) in st.core.suppliers && CanCancel(st, strict, e)
  {
    var request, sup, o := RequestOf(e.stamp, e.request), st.core.suppliers[Owner(e.stamp)], st.core.orders[KeyOf(e.stamp, e.order)];
    st.(withdrawals := if e.request == 0 then st.withdrawals
                       else st.withdrawals[request := st.withdrawals[request].(closed := true)],
        checks := st.checks + if strict && !Coherent(o, sup.quote, e.order) then 1 else 0)
  }

  function Cancelled(st: State, strict: bool, e: Event): State
    requires e.Cancel?
  {
    var p, key := Owner(e.stamp), KeyOf(e.stamp, e.order);
    if p !in st.core.suppliers then st
    else if !CanCancel(st, strict, e) then Check(st)
    else
      var sup, o := st.core.suppliers[p], st.core.orders[key];
      Ended(Noted(st, strict, e), key, Captured(o, sup.quote, strict, e), sup.(quote := NoQuote()), e.stamp.at, CancelKind(e))
  }

  predicate CanRejectCancel(st: State, strict: bool, e: Event)
    requires e.CancelReject?
  {
    var key, request := KeyOf(e.stamp, e.order), RequestOf(e.stamp, e.request);
    var gone := e.error == "ORDER_NOT_FOUND" || e.error == "ORDER_ALREADY_FILLED";
    && request in st.withdrawals && e.order != 0 && e.request != 0 && !e.success && e.error != ""
    && st.withdrawals[request].order == e.order
    && Follows(strict, e.stamp, st.withdrawals[request].at, st.withdrawals[request].frame)
    && !st.withdrawals[request].closed && !st.withdrawals[request].cancelRejected
    && (key in st.core.orders ==> !gone)
    && (key !in st.core.orders ==> gone && key in st.core.terminal)
    && (key !in st.core.orders ==> st.core.terminal[key].ended == "filled" || st.core.terminal[key].ended == "forced_cancelled")
  }

  function CancelRejected(st: State, strict: bool, e: Event): State
    requires e.CancelReject?
  {
    var request := RequestOf(e.stamp, e.request);
    if Owner(e.stamp) !in st.core.suppliers then st
    else if !CanRejectCancel(st, strict, e) then Check(st)
    else st.(withdrawals := st.withdrawals[request := st.withdrawals[request].(cancelRejected := true)])
  }

  // ----- the supplier's own fills -----

  predicate AbsExceeds(value: int64, limit: int64) {
    limit < 0 || Abs(value) > limit
  }

  predicate PositionOk(sup: Supplier, e: Event)
    requires e.SupplierFill?
  {
    var expected := if e.fill.side == "BUY" then TryAdd(e.before, e.fill.qty)
                    else if e.fill.side == "SELL" then CheckedSub(e.before, e.fill.qty)
                    else None;
    var gross := TryAdd(sup.contract.initialBase, e.after);
    && expected == Some(e.after) && e.before == sup.position && gross.Some?
    && !AbsExceeds(e.after, sup.contract.maxPosition) && 0 <= gross.value <= sup.contract.maxInventory
  }

  /** The fill's balance moves can be computed and added to what the supplier has booked. */
  predicate CanBook(sup: Supplier, f: Fill) {
    && Priced(sup.contract, f).Some?
    && TryAdd(sup.fillBase, Priced(sup.contract, f).value.base).Some?
    && TryAdd(sup.fillQuote, Priced(sup.contract, f).value.quote).Some?
  }

  predicate NoticeOk(st: State, e: Event)
    requires e.SupplierFill? && Owner(e.stamp) in st.core.suppliers
  {
    var sup := st.core.suppliers[Owner(e.stamp)];
    && e.clientId == e.stamp.client && e.role == sup.role && e.symbolOk && e.timestamp == e.stamp.at
    && FillKeyOf(e.stamp, e.fill) !in st.observed
    && e.fill.order != 0 && e.fill.price > 0 && e.fill.qty > 0 && PositionOk(sup, e) && CanBook(sup, e.fill)
  }

  /** A fill fits a quote when it takes part of it, and takes all of it exactly when marked full. */
  predicate FitsQuote(f: Fill, q: Quote) {
    q.order == f.order && q.side == f.side && q.price == f.price && f.qty <= q.qty && (f.isFull <==> f.qty == q.qty)
  }

  function Reduced(q: Quote, f: Fill): Quote
    requires FitsQuote(f, q) && f.qty > 0
  {
    if f.isFull then NoQuote() else q.(qty := q.qty - f.qty)
  }

  function Opposite(side: string): string {
    if side == "BUY" then "SELL" else if side == "SELL" then "BUY" else ""
  }

  /** The queued-fill exception: the exact exchange fill and its trade precede the cancellation that captured the quote. */
  predicate Queued(st: State, e: Event)
    requires e.SupplierFill?
  {
    var key, fk, tk := KeyOf(e.stamp, e.fill.order), FillKeyOf(e.stamp, e.fill), TradeKey(e.stamp.venue, e.fill.trade);
    && key in st.core.terminal && (st.core.terminal[key].ended == "cancelled" || st.core.terminal[key].ended == "forced_cancelled")
    && st.core.terminal[key].local.Some? && st.core.terminal[key].local.value.qty >= st.core.terminal[key].remaining
    && st.core.terminal[key].endedAt > 0 && st.core.terminal[key].endedFrame != 0
    && fk in st.actual && st.actual[fk].fill == e.fill
    && 0 < st.actual[fk].frame < st.core.terminal[key].endedFrame && st.actual[fk].at != 0
    && e.timestamp == st.actual[fk].at <= st.core.terminal[key].endedAt && st.actual[fk].frame < e.stamp.frame
    && tk in st.trades && 0 < st.trades[tk].frame < st.actual[fk].frame
    && st.trades[tk].price == e.fill.price && st.trades[tk].qty == e.fill.qty
    && st.trades[tk].side == Opposite(e.fill.side) && st.trades[tk].maker == e.fill.order
    && st.trades[tk].taker != 0 && st.trades[tk].taker != e.fill.order
  }

  /** The captured quote absorbs the queued fill without dropping below the exchange's remainder. */
  predicate Absorbs(o: Order, f: Fill) {
    && o.local.Some? && FitsQuote(f, o.local.value)
    && o.local.value.qty - (if f.isFull then 0 else f.qty) >= o.remaining
  }

  predicate CanNotice(st: State, strict: bool, e: Event)
    requires e.SupplierFill? && Owner(e.stamp) in st.core.suppliers
  {
    var q := st.core.suppliers[Owner(e.stamp)].quote;
    && NoticeOk(st, e)
    && (q.order != 0 ==> FitsQuote(e.fill, q))
    && (q.order == 0 && strict ==> Queued(st, e) && Absorbs(st.core.terminal[KeyOf(e.stamp, e.fill.order)], e.fill))
  }

  /** The supplier after it hears of a fill. */
  function Told(sup: Supplier, e: Event): Supplier
    requires e.SupplierFill? && e.fill.qty > 0 && CanBook(sup, e.fill)
    requires sup.quote.order != 0 ==> FitsQuote(e.fill, sup.quote)
  {
    var move := Priced(sup.contract, e.fill).value;
    sup.(quote := if sup.quote.order != 0 then Reduced(sup.quote, e.fill) else sup.quote, position := e.after,
         fillBase := sup.fillBase + move.base, fillQuote := sup.fillQuote + move.quote)
  }

  /** A cancelled order after its captured quote absorbs a queued fill. */
  function Drained(o: Order, f: Fill): Order
    requires f.qty > 0 && Absorbs(o, f)
  {
    o.(local := if f.isFull then None else Some(Reduced(o.local.value, f)))
  }

  function Noticed(st: State, strict: bool, e: Event): State
    requires e.SupplierFill?
  {
    var p, key := Owner(e.stamp), KeyOf(e.stamp, e.fill.order);
    if p !in st.core.suppliers || !CanNotice(st, strict, e) then Check(st)
    else
      var sup := st.core.suppliers[p];
      var terminal := if sup.quote.order != 0 || !strict then st.core.terminal
                      else st.core.terminal[key := Drained(st.core.terminal[key], e.fill)];
      st.(core := st.core.(suppliers := st.core.suppliers[p := Told(sup, e)], terminal := terminal),
          observed := st.observed[FillKeyOf(e.stamp, e.fill) := Execution(e.fill, e.stamp.at, e.stamp.frame)])
  }

  lemma NoticeMeans(st: State, strict: bool, e: Event)
    requires e.SupplierFill? && Owner(e.stamp) in st.core.suppliers && CanNotice(st, strict, e)
    ensures var sup, key := st.core.suppliers[Owner(e.stamp)], KeyOf(e.stamp, e.fill.order);
            && e.fill.qty > 0 && CanBook(sup, e.fill)
            && (sup.quote.order != 0 ==> FitsQuote(e.fill, sup.quote))
            && (sup.quote.order == 0 && strict ==> key in st.core.terminal && Absorbs(st.core.terminal[key], e.fill))
  {
    hide CanBook, PositionOk, FitsQuote, Absorbs;
  }

  predicate TradeOk(strict: bool, e: Event)
    requires e.TradeSeen?
  {
    && e.price > 0 && e.qty > 0 && (e.side == "BUY" || e.side == "SELL")
    && (strict ==> e.maker != 0 && e.taker != 0 && e.maker != e.taker)
  }

  function Traded(st: State, strict: bool, e: Event): State
    requires e.TradeSeen?
  {
    var key := TradeKey(e.stamp.venue, e.trade);
    if !TradeOk(strict, e) || key in st.trades then Check(st)
    else st.(trades := st.trades[key := Trade(e.price, e.qty, e.side, e.maker, e.taker, e.stamp.frame)])
  }

  // ----- runs -----

  function Step(st: State, strict: bool, e: Event): State {
    match e
    case Submit(_, _, _, _, _) => Submitted(st, e)
    case Withdraw(_, _, _) => Withdrew(st, e)
    case Accept(_, _, _, _, _, _, _, _) => Accepted(st, strict, e)
    case Reject(_, _, _, _) => Rejected(st, strict, e)
    case ExchangeFill(_, _, _, _) => Filled(st, strict, e)
    case Cancel(_, _, _, _, _) => Cancelled(st, strict, e)
    case CancelReject(_, _, _, _, _) => CancelRejected(st, strict, e)
    case SupplierFill(_, _, _, _, _, _, _, _) => Noticed(st, strict, e)
    case TradeSeen(_, _, _, _, _, _, _) => Traded(st, strict, e)
    case Unreadable(s) => if Owner(s) in st.core.suppliers then Check(st) else st
  }

  // ----- the end of the run -----

  function OwnerOfFill(k: FillKey): Participant {
    Participant(k.venue, k.client)
  }

  predicate SameTerms(f: Fill, g: Fill) {
    && f.side == g.side && f.price == g.price && f.qty == g.qty
    && f.fee == g.fee && f.feeAsset == g.feeAsset && f.isFull == g.isFull
  }

  /** A fill the supplier logged: its own, and the exchange logged the same. */
  predicate Confirmed(st: State, k: FillKey)
    requires k in st.observed
  {
    OwnerOfFill(k) in st.core.suppliers && k in st.actual && SameTerms(st.actual[k].fill, st.observed[k].fill)
  }

  predicate TradeAgrees(t: Trade, f: Fill) {
    && t.price == f.price && t.qty == f.qty && t.side == Opposite(f.side)
    && t.maker == f.order && t.taker != 0 && t.taker != f.order
  }

  /** A fill the exchange logged: an audited supplier heard of it and, in strict mode, one trade explains it and the three
      records come in the order trade, exchange, supplier. */
  predicate Explained(st: State, strict: bool, k: FillKey)
    requires k in st.actual
  {
    var t := TradeKey(k.venue, k.trade);
    && OwnerOfFill(k) in st.core.suppliers && k in st.observed
    && (strict ==>
        && t in st.trades && TradeAgrees(st.trades[t], st.actual[k].fill)
        && 0 < st.trades[t].frame < st.actual[k].frame < st.observed[k].frame)
  }

  /** The quote a cancellation captured is down to what the exchange cancelled. */
  predicate Drawn(o: Order) {
    (o.ended == "cancelled" || o.ended == "forced_cancelled") && o.local.Some? ==> o.local.value.qty == o.remaining
  }

  ghost predicate FillsMatch(st: State, strict: bool) {
    && (forall k :: k in st.observed ==> Confirmed(st, k))
    && (forall k :: k in st.actual ==> Explained(st, strict, k))
  }

  ghost predicate QuotesDrawn(st: State) {
    forall k :: k in st.core.terminal ==> Drawn(st.core.terminal[k])
  }

  predicate CanCensor(st: State, strict: bool, k: OrderKey)
    requires k in st.core.orders
  {
    var o := st.core.orders[k];
    strict && OwnerOf(k) in st.core.suppliers && 0 < o.remaining <= o.original && o.filled >= 0
  }

  /** An order still live when the run ends: censored in strict mode, a failure otherwise. */
  function Resolved(st: State, strict: bool, k: OrderKey, end: int64): State
    requires k in st.core.orders
  {
    if CanCensor(st, strict, k) then Ended(st, k, st.core.orders[k], st.core.suppliers[OwnerOf(k)], end, "censored")
    else Check(st)
  }

  /** All of them, in some order. */
  function ResolveAll(st: State, strict: bool, ks: seq<OrderKey>, end: int64): State {
    if ks == [] then st
    else
      var before, k := ResolveAll(st, strict, ks[..|ks| - 1], end), ks[|ks| - 1];
      if k in before.core.orders then Resolved(before, strict, k, end) else before
  }

  /** `ks` lists each member of `s` once. */
  ghost predicate Lists<T(!new)>(ks: seq<T>, s: set<T>) {
    && (forall i, j :: 0 <= i < j < |ks| ==> ks[i] != ks[j])
    && (forall k :: k in s <==> k in ks)
  }

  /** The next live order is still live: only listed ones have been resolved. */
  lemma {:induction false} ResolvedOnly(st: State, strict: bool, ks: seq<OrderKey>, end: int64, k: OrderKey)
    requires k in st.core.orders && k !in ks
    ensures k in ResolveAll(st, strict, ks, end).core.orders
  {
    if ks != [] {
      ResolvedOnly(st, strict, ks[..|ks| - 1], end, k);
      hide Closed, CanCensor;
    }
  }

  lemma ResolveNothing(st: State, strict: bool, end: int64)
    ensures ResolveAll(st, strict, [], end) == st
  {
  }

  lemma ResolveOneMore(st: State, strict: bool, ks: seq<OrderKey>, end: int64, k: OrderKey)
    requires k in ResolveAll(st, strict, ks, end).core.orders
    ensures ResolveAll(st, strict, ks + [k], end) == Resolved(ResolveAll(st, strict, ks, end), strict, k, end)
  {
    hide Resolved;
    assert (ks + [k])[..|ks|] == ks;
  }

  lemma ListOneMore<T(!new)>(ks: seq<T>, all: set<T>, rest: set<T>, k: T)
    requires rest <= all && Lists(ks, all - rest) && k in rest
    ensures Lists(ks + [k], all - (rest - {k}))
  {
    assert k !in ks;
    assert forall x :: x in ks + [k] <==> x in ks || x == k;
  }

  function Start(suppliers: map<Participant, Supplier>): State {
    State(Core(suppliers, map[], map[], map[]), map[], map[], map[], map[], map[], 0)
  }

  function Run(suppliers: map<Participant, Supplier>, strict: bool, es: seq<Event>): State {
    if es == [] then Start(suppliers) else Step(Run(suppliers, strict, es[..|es| - 1]), strict, es[|es| - 1])
  }

  /** The audit's state, updated in place record by record. */
  class CdfAudit {
    const strict: bool
    var suppliers: map<Participant, Supplier>
    var submissions: map<RequestKey, Submission>
    var withdrawals: map<RequestKey, Withdrawal>
    var orders: map<OrderKey, Order>
    var terminal: map<OrderKey, Order>
    var live: map<Participant, OrderKey>
    var observed: map<FillKey, Execution>
    var actual: map<FillKey, Execution>
    var trades: map<TradeKey, Trade>
    var checks: nat

    ghost function Value(): State
      reads this
    {
      State(Core(suppliers, orders, terminal, live), submissions, withdrawals, observed, actual, trades, checks)
    }

    constructor (strict: bool, suppliers: map<Participant, Supplier>)
      ensures this.strict == strict && Value() == Start(suppliers)
    {
      this.strict, this.suppliers := strict, suppliers;
      submissions, withdrawals, orders, terminal, live := map[], map[], map[], map[], map[];
      observed, actual, trades, checks := map[], map[], map[], 0;
    }

    method AddCheck()
      modifies this`checks
      ensures Value() == Check(old(Value()))
    {
      checks := checks + 1;
    }

    /** Counts the end of an order, all or nothing. */
    method RecordOrderClosure(p: Participant, o: Order, at: int64, kind: string) returns (ok: bool)
      requires p in suppliers
      modifies this`suppliers
      ensures ok <==> Closed(old(suppliers)[p], o, at, kind).Some?
      ensures suppliers == if ok then old(suppliers)[p := Closed(old(suppliers)[p], o, at, kind).value] else old(suppliers)
    {
      var sup := suppliers[p];
      if o.ended != "" {
        return false;
      }
      var duration := CheckedSub(at, o.acceptedAt);
      if duration.None? || duration.value < 0 {
        return false;
      }
      var total := TryAdd(sup.totalLifetime, duration.value);
      if total.None? {
        return false;
      }
      var longest := if duration.value > sup.maxLifetime then duration.value else sup.maxLifetime;
      var next := sup.(totalLifetime := total.value, maxLifetime := longest);
      if kind == "filled" {
        if sup.filled == MAX {
          return false;
        }
        next := next.(filled := sup.filled + 1);
      } else if kind == "cancelled" {
        if sup.cancelled == MAX {
          return false;
        }
        next := next.(cancelled := sup.cancelled + 1);
      } else if kind == "forced_cancelled" {
        if sup.forced == MAX {
          return false;
        }
        next := next.(forced := sup.forced + 1);
      } else if kind == "censored" {
        var open := TryAdd(sup.censoredLifetime, duration.value);
        if sup.censored == MAX || open.None? {
          return false;
        }
        next := next.(censored := sup.censored + 1, censoredLifetime := open.value);
      } else {
        return false;
      }
      suppliers := suppliers[p := next];
      return true;
    }

    method RememberTerminalOrder(key: OrderKey, o: Order)
      modifies this`terminal
      ensures terminal == if key in old(terminal) then old(terminal) else old(terminal)[key := o]
    {
      if key !in terminal {
        terminal := terminal[key := o];
      }
    }

    method ForgetLiveOrder(p: Participant, key: OrderKey)
      modifies this`live
      ensures live == if p in old(live) && old(live)[p] == key then old(live) - {p} else old(live)
    {
      if p in live && live[p] == key {
        live := live - {p};
      }
    }

    /** The supplier's new state with the closure counted in; one that does not fit is a check. */
    method CloseSupplier(p: Participant, o: Order, sup: Supplier, at: int64, kind: string)
      modifies this`suppliers, this`checks
      ensures var closed := Closed(sup, o, at, kind);
              && suppliers == old(suppliers)[p := if closed.Some? then closed.value else sup]
              && checks == old(checks) + if closed.Some? then 0 else 1
    {
      hide Closed;
      ghost var was := suppliers;
      suppliers := suppliers[p := sup];
      var ok := RecordOrderClosure(p, o, at, kind);
      if ok {
        assert suppliers == was[p := Closed(sup, o, at, kind).value];
      } else {
        checks := checks + 1;
      }
    }

    /** The supplier, the terminal book, the live book and the live index, in that order. */
    method EndOrder(key: OrderKey, o: Order, sup: Supplier, at: int64, kind: string)
      modifies this`suppliers, this`terminal, this`orders, this`live, this`checks
      ensures Value() == Ended(old(Value()), key, o, sup, at, kind)
    {
      hide Closed;
      CloseSupplier(OwnerOf(key), o, sup, at, kind);
      Retire(key, o.(ended := kind));
    }

    /** The order leaves the live books and is remembered as ended. */
    method Retire(key: OrderKey, o: Order)
      modifies this`terminal, this`orders, this`live
      ensures terminal == if key in old(terminal) then old(terminal) else old(terminal)[key := o]
      ensures orders == old(orders) - {key}
      ensures var p := OwnerOf(key);
              live == if p in old(live) && old(live)[p] == key then old(live) - {p} else old(live)
    {
      RememberTerminalOrder(key, o);
      orders := orders - {key};
      ForgetLiveOrder(OwnerOf(key), key);
    }

    method FindLive(p: Participant) returns (none: bool)
      ensures none <==> NoneLive(orders, p)
    {
      var rest := orders.Keys;
      while rest != {}
        invariant rest <= orders.Keys && forall k :: k in orders && k !in rest ==> OwnerOf(k) != p
      {
        var k :| k in rest;
        if OwnerOf(k) == p {
          return false;
        }
        rest := rest - {k};
      }
      return true;
    }

    method ProcessAccepted(e: Event)
      requires e.Accept?
      modifies this
      ensures Value() == Accepted(old(Value()), strict, e)
    {
      var p, key := Owner(e.stamp), KeyOf(e.stamp, e.order);
      if p !in suppliers {
        return;
      }
      hide MatchesSubmission, NoneLive;
      var matches := SubmissionMatches(e);
      if !matches || key in orders || p in live {
        AddCheck();
        return;
      }
      var none := FindLive(p);
      if !none || key in terminal {
        AddCheck();
        return;
      }
      AdmitOrder(e);
    }

    method AdmitOrder(e: Event)
      requires e.Accept? && Owner(e.stamp) in suppliers && CanAccept(Value(), strict, e)
      modifies this`submissions, this`orders, this`live, this`suppliers
      ensures Value() == Accepted(old(Value()), strict, e)
    {
      var p, key, request := Owner(e.stamp), KeyOf(e.stamp, e.order), RequestOf(e.stamp, e.request);
      assert request in submissions;
      hide CanAccept, Wrap;
      submissions := submissions[request := submissions[request].(accepted := true)];
      orders := orders[key := NewOrder(e)];
      live := live[p := key];
      var sup := suppliers[p];
      suppliers := suppliers[p := sup.(quote := Quote(e.order, e.side, e.price, e.qty), accepted := Wrap(sup.accepted + 1))];
    }

    method SubmissionMatches(e: Event) returns (ok: bool)
      requires e.Accept?
      ensures ok <==> MatchesSubmission(Value(), strict, e)
    {
      var request := RequestOf(e.stamp, e.request);
      if request !in submissions || e.clientId != e.stamp.client || e.order == 0 || !e.passive {
        return false;
      }
      var sub := submissions[request];
      if e.side != sub.side || e.price != sub.price || e.qty != sub.qty || !Follows(strict, e.stamp, sub.at, sub.frame) {
        return false;
      }
      return !sub.accepted && !sub.rejected;
    }

    method ProcessOrderFill(e: Event)
      requires e.ExchangeFill?
      modifies this
      ensures Value() == Filled(old(Value()), strict, e)
    {
      var p, key, fk := Owner(e.stamp), KeyOf(e.stamp, e.fill.order), FillKeyOf(e.stamp, e.fill);
      if p !in suppliers {
        return;
      }
      if !CanFill(State(Core(suppliers, orders, terminal, live), submissions, withdrawals, observed, actual, trades, checks), strict, e) {
        AddCheck();
        return;
      }
      var o := FilledOrder(orders[key], e);
      var sup := Booked(suppliers[p], e.fill);
      hide Priced, Booked, FilledOrder, CanFill, Closed;
      actual := actual[fk := Execution(e.fill, e.stamp.at, e.stamp.frame)];
      if o.remaining == 0 {
        EndOrder(key, o, sup, e.stamp.at, "filled");
      } else {
        suppliers := suppliers[p := sup];
        orders := orders[key := o];
      }
    }

    method ProcessCancelled(e: Event)
      requires e.Cancel?
      modifies this
      ensures Value() == Cancelled(old(Value()), strict, e)
    {
      var p, key, request := Owner(e.stamp), KeyOf(e.stamp, e.order), RequestOf(e.stamp, e.request);
      if p !in suppliers {
        return;
      }
      var cancellable := CheckCancel(e);
      if !cancellable {
        AddCheck();
        return;
      }
      hide Closed, ForcedOk, RequestedOk;
      var sup, o := suppliers[p], orders[key];
      if e.request != 0 {
        withdrawals := withdrawals[request := withdrawals[request].(closed := true)];
      }
      if strict && !Coherent(o, sup.quote, e.order) {
        checks := checks + 1;
      }
      assert Value() == Noted(old(Value()), strict, e);
      hide Noted, Ended, Captured;
      EndOrder(key, Captured(o, sup.quote, strict, e), sup.(quote := NoQuote()), e.stamp.at, CancelKind(e));
    }

    method CheckCancel(e: Event) returns (ok: bool)
      requires e.Cancel?
      ensures ok <==> CanCancel(Value(), strict, e)
    {
      var key, request := KeyOf(e.stamp, e.order), RequestOf(e.stamp, e.request);
      if key !in orders || e.order == 0 || e.remaining != orders[key].remaining || (strict && e.request == 0 && e.reason == "") {
        return false;
      }
      if e.request == 0 {
        return HasForcedPrefix(e.reason) && (!strict || After(e.stamp, orders[key].acceptedAt, orders[key].acceptedFrame));
      }
      if request !in withdrawals || withdrawals[request].order != e.order ||
         !Follows(strict, e.stamp, withdrawals[request].at, withdrawals[request].frame) {
        return false;
      }
      return !withdrawals[request].closed && !withdrawals[request].cancelRejected;
    }

    method ProcessFill(e: Event)
      requires e.SupplierFill?
      modifies this
      ensures Value() == Noticed(old(Value()), strict, e)
    {
      if Owner(e.stamp) !in suppliers ||
         !CanNotice(State(Core(suppliers, orders, terminal, live), submissions, withdrawals, observed, actual, trades, checks), strict, e) {
        AddCheck();
        return;
      }
      hide CanNotice;
      ApplyFill(e);
    }

    /** The accepted fill: the supplier's view moves, and a queued fill drains what the cancellation captured. */
    method ApplyFill(e: Event)
      requires e.SupplierFill? && Owner(e.stamp) in suppliers && CanNotice(Value(), strict, e)
      modifies this`suppliers, this`terminal, this`observed
      ensures Value() == Noticed(old(Value()), strict, e)
    {
      var p, key := Owner(e.stamp), KeyOf(e.stamp, e.fill.order);
      NoticeMeans(Value(), strict, e);
      hide CanNotice, CanBook, FitsQuote, Absorbs, Told, Drained;
      var sup := suppliers[p];
      var after := TellSupplier(sup, e);
      if sup.quote.order == 0 && strict {
        AbsorbQueued(key, e.fill);
      }
      suppliers := suppliers[p := after];
      observed := observed[FillKeyOf(e.stamp, e.fill) := Execution(e.fill, e.stamp.at, e.stamp.frame)];
    }

    method TellSupplier(sup: Supplier, e: Event) returns (after: Supplier)
      requires e.SupplierFill? && e.fill.qty > 0 && CanBook(sup, e.fill)
      requires sup.quote.order != 0 ==> FitsQuote(e.fill, sup.quote)
      ensures after == Told(sup, e)
    {
      hide Priced;
      var move := Priced(sup.contract, e.fill).value;
      var quote := sup.quote;
      if quote.order != 0 {
        quote := ReduceQuote(quote, e.fill);
      }
      return sup.(quote := quote, position := e.after, fillBase := sup.fillBase + move.base, fillQuote := sup.fillQuote + move.quote);
    }

    /** The quote a cancelled order remembers absorbs a queued fill. */
    method AbsorbQueued(key: OrderKey, f: Fill)
      requires key in terminal && Absorbs(terminal[key], f) && f.qty > 0
      modifies this`terminal
      ensures terminal == old(terminal)[key := Drained(old(terminal)[key], f)]
    {
      var o := terminal[key];
      var local: Option<Quote> := None;
      if !f.isFull {
        var rest := ReduceQuote(o.local.value, f);
        local := Some(rest);
      }
      terminal := terminal[key := o.(local := local)];
    }

    /** A full fill clears a quote, a partial one shrinks it. */
    method ReduceQuote(q: Quote, f: Fill) returns (r: Quote)
      requires FitsQuote(f, q) && f.qty > 0
      ensures r == Reduced(q, f)
    {
      if f.isFull {
        r := NoQuote();
      } else {
        r := q.(qty := q.qty - f.qty);
      }
    }

    method CountUnconfirmed() returns (n: nat)
      ensures n == 0 <==> forall k :: k in observed ==> Confirmed(Value(), k)
    {
      hide Confirmed;
      n := 0;
      var rest := observed.Keys;
      while rest != {}
        invariant rest <= observed.Keys
        invariant n == 0 <==> forall k :: k in observed && k !in rest ==> Confirmed(Value(), k)
      {
        var k :| k in rest;
        var agrees := Confirms(k);
        if !agrees {
          n := n + 1;
        }
        rest := rest - {k};
      }
    }

    method Confirms(k: FillKey) returns (ok: bool)
      requires k in observed
      ensures ok <==> Confirmed(Value(), k)
    {
      return OwnerOfFill(k) in suppliers && k in actual && SameTerms(actual[k].fill, observed[k].fill);
    }

    method CountUnexplained() returns (n: nat)
      ensures n == 0 <==> forall k :: k in actual ==> Explained(Value(), strict, k)
    {
      hide Explained;
      n := 0;
      var rest := actual.Keys;
      while rest != {}
        invariant rest <= actual.Keys
        invariant n == 0 <==> forall k :: k in actual && k !in rest ==> Explained(Value(), strict, k)
      {
        var k :| k in rest;
        var failures := Unexplained(k);
        n := n + failures;
        rest := rest - {k};
      }
    }

    /** Up to three checks for one exchange fill; one is enough if its supplier is unknown. */
    method Unexplained(k: FillKey) returns (n: nat)
      requires k in actual
      ensures n == 0 <==> Explained(Value(), strict, k)
    {
      hide TradeAgrees;
      if OwnerOfFill(k) !in suppliers {
        return 1;
      }
      n := 0;
      if k !in observed {
        n := n + 1;
      }
      var t := TradeKey(k.venue, k.trade);
      if strict {
        if t !in trades || !TradeAgrees(trades[t], actual[k].fill) {
          n := n + 1;
        }
        var traded, heard: uint64 := 0, 0;
        if t in trades {
          traded := trades[t].frame;
        }
        if k in observed {
          heard := observed[k].frame;
        }
        if !(0 < traded < actual[k].frame < heard) {
          n := n + 1;
        }
      }
    }

    method CountUndrawn() returns (n: nat)
      ensures n == 0 <==> QuotesDrawn(Value())
    {
      n := 0;
      var rest := terminal.Keys;
      while rest != {}
        invariant rest <= terminal.Keys
        invariant n == 0 <==> forall k :: k in terminal && k !in rest ==> Drawn(terminal[k])
      {
        var k :| k in rest;
        if !Drawn(terminal[k]) {
          n := n + 1;
        }
        rest := rest - {k};
      }
    }

    /** The final pass over fills, captured quotes and orders still live: `n` checks for the first two, and the live orders
        in the order `ks` in which the map yields them. */
    method ReconcileFills(end: int64) returns (ghost n: nat, ghost ks: seq<OrderKey>)
      modifies this
      ensures Lists(ks, old(orders).Keys)
      ensures n == 0 <==> FillsMatch(old(Value()), strict) && (strict ==> QuotesDrawn(old(Value())))
      ensures Value() == ResolveAll(old(Value()).(checks := old(checks) + n), strict, ks, end)
    {
      hide *;
      var failures := CountMismatches();
      n := failures;
      AddChecks(failures);
      ks := ResolveOrders(end);
    }

    method CountMismatches() returns (n: nat)
      ensures n == 0 <==> FillsMatch(Value(), strict) && (strict ==> QuotesDrawn(Value()))
    {
      hide Explained, Confirmed, QuotesDrawn;
      var unconfirmed := CountUnconfirmed();
      var unexplained := CountUnexplained();
      var undrawn := 0;
      if strict {
        undrawn := CountUndrawn();
      }
      return unconfirmed + unexplained + undrawn;
    }

    method AddChecks(n: nat)
      modifies this`checks
      ensures Value() == old(Value()).(checks := old(checks) + n)
    {
      checks := checks + n;
    }

    method ResolveOrders(end: int64) returns (ghost ks: seq<OrderKey>)
      modifies this
      ensures Lists(ks, old(orders).Keys) && Value() == ResolveAll(old(Value()), strict, ks, end)
    {
      ghost var was := Value();
      var rest := orders.Keys;
      ks := [];
      hide ResolveAll;
      assert Value() == ResolveAll(was, strict, ks, end) by { ResolveNothing(was, strict, end); }
      while rest != {}
        invariant rest <= was.core.orders.Keys && Lists(ks, was.core.orders.Keys - rest)
        invariant Value() == ResolveAll(was, strict, ks, end)
        decreases rest
      {
        var k :| k in rest;
        ResolvedOnly(was, strict, ks, end, k);
        ResolveOrder(k, end);
        ResolveOneMore(was, strict, ks, end, k);
        ListOneMore(ks, was.core.orders.Keys, rest, k);
        ks := ks + [k];
        rest := rest - {k};
      }
      assert was.core.orders.Keys - rest == was.core.orders.Keys;
    }

    method ResolveOrder(k: OrderKey, end: int64)
      requires k in orders
      modifies this
      ensures Value() == Resolved(old(Value()), strict, k, end)
    {
      hide Ended;
      var o := orders[k];
      if OwnerOf(k) !in suppliers || o.remaining <= 0 || o.remaining > o.original || o.filled < 0 || !strict {
        AddCheck();
        return;
      }
      EndOrder(k, o, suppliers[OwnerOf(k)], end, "censored");
    }
  }
}
