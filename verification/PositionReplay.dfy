/** The exact cost-basis ledger of one position (analysis/exact_position_replay.go).

`ExactPositionReplay` is the in-place ledger; its methods are proved against the functions `Apply`,
`Close`, `EntryPrice` and `Unrealized` on a snapshot of its fields.  The theorems are about every run of
successful trades: rounding never accumulates, no matter how many lifecycles were opened, partly closed,
flipped and reopened. */
module PositionReplay {
  import opened Int64

  datatype Ledger = Ledger(size: int64, basis: int, realized: int, cash: int64, carry: int64)

  function Flat(): Ledger {
    Ledger(0, 0, 0, 0, 0)
  }

  datatype Trade = Trade(oldSize: int64, oldEntry: int64, newSize: int64, newEntry: int64,
                         qty: int64, price: int64, side: string, positionSide: string)

  datatype Failure =
    | InvalidPrecision | InvalidQuantity | InvalidSide | InvalidPositionSide
    | OldSizeMismatch | OldEntryUnrepresentable | OldEntryMismatch
    | SizeOverflow | LongBelowZero | ShortAboveZero
    | CashUnrepresentable | NewSizeMismatch | NewEntryUnrepresentable | NewEntryMismatch

  /** What `apply` returns beside the state it leaves: some errors come with a payment already made. */
  datatype Outcome = Outcome(ledger: Ledger, paid: int64, failure: Option<Failure>)

  function Delta(t: Trade): int {
    if t.side == "SELL" then -(t.qty as int) else t.qty as int
  }

  function Value(t: Trade): int {
    Delta(t) * t.price
  }

  predicate SameSign(a: int, b: int) {
    (a > 0 && b > 0) || (a < 0 && b < 0)
  }

  function EntryPrice(l: Ledger): Option<int64> {
    if l.size == 0 then Some(0)
    else if Fits(Quo(l.basis, l.size)) then Some(Quo(l.basis, l.size)) else None
  }

  function Truncate(numerator: int, precision: int64): Option<int64> {
    if precision <= 0 then None
    else if Fits(Quo(numerator, precision)) then Some(Quo(numerator, precision)) else None
  }

  function ExactSub(a: int64, b: int64): Option<int64> {
    if Fits(a - b) then Some(a - b) else None
  }

  function Unrealized(l: Ledger, mark: int64, precision: int64): Option<int64> {
    match Truncate(l.realized + (l.size * mark - l.basis) + l.carry, precision)
    case None => None
    case Some(target) => ExactSub(target, l.cash)
  }

  /** The sub-unit part of `total` that `target` units of cash leave unpaid. */
  function Finish(l: Ledger, total: int, target: int64, precision: int64): Option<Ledger> {
    if Fits(total - target * precision) then Some(Flat().(carry := total - target * precision)) else None
  }

  /** Adds a realized value to the lifecycle and pays the whole units of what it now owes. */
  function Settle(l: Ledger, newBasis: int, value: int, precision: int64): (Ledger, Option<int64>) {
    var touched := l.(realized := l.realized + (newBasis - l.basis - value));
    match Truncate(touched.realized + l.carry, precision)
    case None => (touched, None)
    case Some(target) =>
      match ExactSub(target, l.cash)
      case None => (touched, None)
      case Some(paid) => (touched.(cash := target), Some(paid))
  }

  /** `applyNonOpeningTrade`: the ledger it leaves, and the cash it pays unless a value is unrepresentable. */
  function Close(l: Ledger, delta: int64, newSize: int64, price: int64, precision: int64): (Ledger, Option<int64>)
    requires l.size != 0 && l.size != MIN
  {
    var kept := SameSign(l.size, newSize);
    var newBasis := if kept then Quo(l.basis * Abs(newSize), Abs(l.size)) else 0;
    var realizedDelta := if kept then delta else -l.size;
    var (settled, paid) := Settle(l, newBasis, realizedDelta * price, precision);
    if paid.None? then
      (settled, None)
    else if newSize != 0 && Abs(delta) <= Abs(l.size) then
      (settled.(basis := newBasis, size := newSize), paid)
    else
      match Finish(settled, settled.realized + l.carry, settled.cash, precision)
      case None => (settled, None)
      case Some(flat) => (if newSize == 0 then flat else flat.(basis := newSize * price, size := newSize), paid)
  }

  function Refuse(l: Ledger, t: Trade, precision: int64): Option<Failure> {
    if precision <= 0 then Some(InvalidPrecision)
    else if t.qty <= 0 then Some(InvalidQuantity)
    else if t.side != "BUY" && t.side != "SELL" then Some(InvalidSide)
    else if t.positionSide !in {"", "BOTH", "LONG", "SHORT"} then Some(InvalidPositionSide)
    else if t.oldSize == MIN || t.oldSize != l.size then Some(OldSizeMismatch)
    else if EntryPrice(l).None? then Some(OldEntryUnrepresentable)
    else if t.oldEntry != EntryPrice(l).value then Some(OldEntryMismatch)
    else
      var newSize := l.size + Delta(t);
      if !Fits(newSize) || newSize == MIN then Some(SizeOverflow)
      else if t.positionSide == "LONG" && (t.oldSize < 0 || newSize < 0) then Some(LongBelowZero)
      else if t.positionSide == "SHORT" && (t.oldSize > 0 || newSize > 0) then Some(ShortAboveZero)
      else None
  }

  function Confirm(l: Ledger, t: Trade): Option<Failure> {
    if l.size != t.newSize then Some(NewSizeMismatch)
    else if EntryPrice(l).None? then Some(NewEntryUnrepresentable)
    else if EntryPrice(l).value != t.newEntry then Some(NewEntryMismatch)
    else None
  }

  function Apply(l: Ledger, t: Trade, precision: int64): Outcome {
    match Refuse(l, t, precision)
    case Some(f) => Outcome(l, 0, Some(f))
    case None =>
      var delta := Delta(t);
      if l.size == 0 || SameSign(l.size, delta) then
        var base := if l.size == 0 then Flat().(carry := l.carry) else l;
        var grown := base.(basis := base.basis + delta * t.price, size := l.size + delta);
        Outcome(grown, 0, Confirm(grown, t))
      else
        var (closed, paid) := Close(l, delta, l.size + delta, t.price, precision);
        match paid
        case None => Outcome(closed, 0, Some(CashUnrepresentable))
        case Some(cash) => Outcome(closed, cash, Confirm(closed, t))
  }

  /** The mutable ledger. */
  class ExactPositionReplay {
    var size: int64
    var basisNumerator: int
    var realizedNumerator: int
    var realizedCash: int64
    var carryNumerator: int64

    constructor ()
      ensures State() == Flat()
    {
      size, basisNumerator, realizedNumerator, realizedCash, carryNumerator := 0, 0, 0, 0, 0;
    }

    function State(): Ledger
      reads this
    {
      Ledger(size, basisNumerator, realizedNumerator, realizedCash, carryNumerator)
    }

    method AddBasis(quantity: int64, price: int64)
      modifies this
      ensures State() == old(State()).(basis := old(basisNumerator) + quantity * price)
    {
      basisNumerator := basisNumerator + quantity * price;
    }

    method ResetCurrentLifecycle()
      modifies this
      ensures State() == Flat().(carry := old(carryNumerator))
    {
      size, basisNumerator, realizedNumerator, realizedCash := 0, 0, 0, 0;
    }

    method FinishLifecycle(total: int, target: int64, precision: int64) returns (ok: bool)
      modifies this
      ensures ok == Finish(old(State()), total, target, precision).Some?
      ensures State() == if ok then Finish(old(State()), total, target, precision).value else old(State())
    {
      var unpaid := total - target * precision;
      if !Fits(unpaid) {
        return false;
      }
      carryNumerator := unpaid;
      ResetCurrentLifecycle();
      return true;
    }

    /** Books the realized value of a trade and pays out its whole units. */
    method Realize(newBasis: int, tradeValue: int, precision: int64) returns (paid: Option<int64>)
      modifies this`realizedNumerator, this`realizedCash
      ensures (State(), paid) == Settle(old(State()), newBasis, tradeValue, precision)
    {
      realizedNumerator := realizedNumerator + (newBasis - basisNumerator - tradeValue);
      var target := Truncate(realizedNumerator + carryNumerator, precision);
      if target.None? {
        return None;
      }
      paid := ExactSub(target.value, realizedCash);
      if paid.Some? {
        realizedCash := target.value;
      }
    }

    method ApplyNonOpeningTrade(delta: int64, newSize: int64, price: int64, precision: int64)
      returns (paid: Option<int64>)
      requires size != 0 && size != MIN
      modifies this
      ensures (State(), paid) == Close(old(State()), delta, newSize, price, precision)
    {
      hide Quo, Truncate, Settle;
      var oldSize := size;
      var sameDirection := SameSign(oldSize, newSize);
      var newBasis := 0;
      if sameDirection {
        newBasis := Quo(basisNumerator * Abs(newSize), Abs(oldSize));
      }
      var realizedDelta := delta;
      if !sameDirection {
        realizedDelta := -oldSize;
      }
      paid := Realize(newBasis, realizedDelta * price, precision);
      if paid.None? {
        return;
      }
      if newSize == 0 {
        var ok := FinishLifecycle(realizedNumerator + carryNumerator, realizedCash, precision);
        if !ok { paid := None; }
        return;
      }
      if Abs(delta) > Abs(oldSize) {
        var ok := FinishLifecycle(realizedNumerator + carryNumerator, realizedCash, precision);
        if !ok {
          return None;
        }
        AddBasis(newSize, price);
        size := newSize;
        return;
      }
      basisNumerator := newBasis;
      size := newSize;
    }

    method ApplyTrade(t: Trade, precision: int64) returns (paid: int64, failure: Option<Failure>)
      modifies this
      ensures Outcome(State(), paid, failure) == Apply(old(State()), t, precision)
    {
      failure := Refuse(State(), t, precision);
      if failure.Some? {
        return 0, failure;
      }
      var delta := Delta(t);
      var newSize := size + delta;
      if size == 0 {
        ResetCurrentLifecycle();
        AddBasis(delta, t.price);
        size := delta;
        paid := 0;
      } else if SameSign(size, delta) {
        AddBasis(delta, t.price);
        size := newSize;
        paid := 0;
      } else {
        var cash := ApplyNonOpeningTrade(delta, newSize, t.price, precision);
        if cash.None? {
          return 0, Some(CashUnrepresentable);
        }
        paid := cash.value;
      }
      failure := Confirm(State(), t);
    }
  }

  // ----- whole runs -----

  /** A ledger after a run of successful trades, with all the cash the run paid out. */
  datatype Run = Run(ledger: Ledger, cash: int)

  function Replay(trades: seq<Trade>, precision: int64): Option<Run> {
    if trades == [] then Some(Run(Flat(), 0))
    else
      match Replay(trades[..|trades| - 1], precision)
      case None => None
      case Some(r) =>
        var o := Apply(r.ledger, trades[|trades| - 1], precision);
        if o.failure.None? then Some(Run(o.ledger, r.cash + o.paid)) else None
  }

  /** Net quantity traded, and the exact value exchanged for it. */
  function Position(trades: seq<Trade>): int {
    if trades == [] then 0 else Position(trades[..|trades| - 1]) + Delta(trades[|trades| - 1])
  }

  function Spent(trades: seq<Trade>): int {
    if trades == [] then 0
    else Spent(trades[..|trades| - 1]) + Value(trades[|trades| - 1])
  }

  /** The inductive core: cash paid for finished lifecycles, the carry between them and the two numerators of
      the current lifecycle account for every unit of value ever traded, exactly. */
  ghost predicate Exact(r: Run, spent: int, precision: int64)
    requires 0 < precision
  {
    var l := r.ledger;
    && l.size != MIN
    && precision * (r.cash - l.cash) + l.carry + l.realized - l.basis == -spent
    && -precision < l.carry < precision
    && l.cash == Quo(l.realized + l.carry, precision)
    && (l.size == 0 ==> l.basis == 0 && l.realized == 0 && l.cash == 0)
  }

  /** Paying the truncated total moves value from the numerators to cash without losing any of it. */
  lemma SettleIsExact(r: Run, newBasis: int, value: int, spent: int, precision: int64)
    requires 0 < precision && Exact(r, spent, precision)
    ensures var (l, paid) := Settle(r.ledger, newBasis, value, precision);
            paid.Some? ==>
              && l.cash == Quo(l.realized + l.carry, precision)
              && precision * (r.cash + paid.value - l.cash) + l.carry + l.realized - newBasis == -(spent + value)
  {
    var (l, paid) := Settle(r.ledger, newBasis, value, precision);
    if paid.Some? {
      assert r.cash + paid.value - l.cash == r.cash - r.ledger.cash;
    }
  }

  /** Closing a lifecycle turns its unpaid sub-unit into carry for the next one. */
  lemma DrainIsExact(cash: int, l: Ledger, precision: int64)
    requires 0 < precision && l.cash == Quo(l.realized + l.carry, precision)
    ensures var carry := l.realized + l.carry - l.cash * precision;
            && -precision < carry < precision
            && Quo(carry, precision) == 0
            && precision * cash + carry == precision * (cash - l.cash) + l.carry + l.realized
  {
    QuoRemainder(l.realized + l.carry, precision);
    QuoSmall(l.realized + l.carry - l.cash * precision, precision);
    Distribute(precision, cash - l.cash, l.cash);
  }

  lemma CloseIsExact(r: Run, spent: int, delta: int64, price: int64, precision: int64)
    requires 0 < precision && Exact(r, spent, precision)
    requires r.ledger.size != 0 && delta != 0 && !SameSign(r.ledger.size, delta)
    requires Fits(r.ledger.size + delta) && r.ledger.size + delta != MIN
    ensures var (l, paid) := Close(r.ledger, delta, r.ledger.size + delta, price, precision);
            paid.Some? ==>
              l.size == r.ledger.size + delta && Exact(Run(l, r.cash + paid.value), spent + delta * price, precision)
  {
    hide Settle, Quo;
    var l := r.ledger;
    var newSize := l.size + delta;
    var (l', paid) := Close(l, delta, newSize, price, precision);
    if paid.Some? {
      SettleKeepsRest(l, l'.basis, delta * price, precision);
      if SameSign(l.size, newSize) {
        SettleIsExact(r, l'.basis, delta * price, spent, precision);
      } else {
        var value := -l.size * price;
        SettleKeepsRest(l, 0, value, precision);
        SettleIsExact(r, 0, value, spent, precision);
        DrainIsExact(r.cash + paid.value, Settle(l, 0, value, precision).0, precision);
        assert newSize * price == delta * price - value;
      }
    }
  }

  lemma SettleKeepsRest(l: Ledger, newBasis: int, value: int, precision: int64)
    ensures var l' := Settle(l, newBasis, value, precision).0;
            l'.size == l.size && l'.basis == l.basis && l'.carry == l.carry
  {
  }

  lemma ApplyIsExact(r: Run, spent: int, t: Trade, precision: int64)
    requires 0 < precision && Exact(r, spent, precision)
    requires Apply(r.ledger, t, precision).failure.None?
    ensures var o := Apply(r.ledger, t, precision);
            && o.ledger.size == r.ledger.size + Delta(t)
            && Exact(Run(o.ledger, r.cash + o.paid), spent + Value(t), precision)
  {
    if r.ledger.size == 0 || SameSign(r.ledger.size, Delta(t)) {
      OpenIsExact(r, spent, t, precision);
    } else {
      hide Close, Exact;
      CloseIsExact(r, spent, Delta(t), t.price, precision);
    }
  }

  lemma OpenIsExact(r: Run, spent: int, t: Trade, precision: int64)
    requires 0 < precision && Exact(r, spent, precision)
    requires r.ledger.size == 0 || SameSign(r.ledger.size, Delta(t))
    requires Apply(r.ledger, t, precision).failure.None?
    ensures var o := Apply(r.ledger, t, precision);
            && o.ledger.size == r.ledger.size + Delta(t)
            && Exact(Run(o.ledger, r.cash + o.paid), spent + Value(t), precision)
  {
    hide Close, Confirm;
  }

  lemma FlatIsExact(precision: int64)
    requires 0 < precision
    ensures Exact(Run(Flat(), 0), 0, precision)
  {
    QuoSmall(0, precision);
  }

  lemma {:induction false} ReplayIsExact(trades: seq<Trade>, precision: int64)
    requires 0 < precision && Replay(trades, precision).Some?
    ensures Exact(Replay(trades, precision).value, Spent(trades), precision)
    ensures Replay(trades, precision).value.ledger.size == Position(trades)
  {
    hide Apply, Value, Exact;
    if trades == [] {
      FlatIsExact(precision);
    } else {
      var before := trades[..|trades| - 1];
      ReplayIsExact(before, precision);
      ApplyIsExact(Replay(before, precision).value, Spent(before), trades[|trades| - 1], precision);
    }
  }

  /** Rounding never accumulates.  After any successful run, at any mark, the cash paid so far plus the marked
      profit is within one unit of the exact rational value of everything traded. */
  lemma NoDrift(trades: seq<Trade>, precision: int64, mark: int64)
    requires Replay(trades, precision).Some?
    requires Unrealized(Replay(trades, precision).value.ledger, mark, precision).Some?
    ensures var r := Replay(trades, precision).value;
            var value := r.cash + Unrealized(r.ledger, mark, precision).value;
            -precision < precision * value - (Position(trades) * mark - Spent(trades)) < precision
  {
    assert 0 < precision;
    hide Replay, Unrealized, Position, Spent;
    ReplayIsExact(trades, precision);
    MarkIsExact(Replay(trades, precision).value, Spent(trades), mark, precision);
  }

  lemma MarkIsExact(r: Run, spent: int, mark: int64, precision: int64)
    requires 0 < precision && Exact(r, spent, precision)
    requires Unrealized(r.ledger, mark, precision).Some?
    ensures var value := r.cash + Unrealized(r.ledger, mark, precision).value;
            -precision < precision * value - (r.ledger.size * mark - spent) < precision
  {
    var l := r.ledger;
    var total := l.realized + (l.size * mark - l.basis) + l.carry;
    var target := Quo(total, precision);
    QuoRemainder(total, precision);
    Distribute(precision, r.cash - l.cash, target);
  }

  lemma Distribute(p: int, a: int, b: int)
    ensures p * (a + b) == p * a + b * p
  {
  }

  // ----- entry prices -----

  /** The prices that opened or extended the lifecycle a run is in: a trade through zero starts afresh, a
      partial close adds nothing. */
  ghost function LifecyclePrices(trades: seq<Trade>): set<int64> {
    if trades == [] then {}
    else
      var before, t := trades[..|trades| - 1], trades[|trades| - 1];
      NextPrices(LifecyclePrices(before), Position(before), t)
  }

  ghost function NextPrices(prices: set<int64>, size: int, t: Trade): set<int64> {
    var newSize := size + Delta(t);
    if newSize == 0 then {}
    else if !SameSign(size, newSize) then {t.price}
    else if SameSign(size, Delta(t)) then prices + {t.price}
    else prices
  }

  /** The basis of `size` lies between that position valued at `lo` and at `hi`. */
  ghost predicate BasisWithin(size: int, basis: int, lo: int, hi: int) {
    if size >= 0 then lo * size <= basis <= hi * size else hi * size <= basis <= lo * size
  }

  ghost predicate Bounds(lo: int, prices: set<int64>, hi: int) {
    forall p :: p in prices ==> lo <= p <= hi
  }

  lemma EntryWithin(l: Ledger, lo: int, hi: int)
    requires l.size != 0 && BasisWithin(l.size, l.basis, lo, hi)
    ensures lo <= Quo(l.basis, l.size) <= hi
  {
    if l.size > 0 {
      QuoBetween(l.basis, l.size, lo, hi);
    } else {
      var size: int := l.size;
      QuoNegates(l.basis, size);
      QuoBetween(-l.basis, -size, lo, hi);
    }
  }

  lemma NegateBoth(x: int, y: int)
    ensures (-x) * (-y) == x * y
  {
  }

  /** Truncating the basis on a partial close keeps it inside the same price band. */
  lemma ScaledBasisWithin(basis: int, oldSize: int, newSize: int, lo: int, hi: int)
    requires SameSign(oldSize, newSize)
    requires BasisWithin(oldSize, basis, lo, hi)
    ensures BasisWithin(newSize, Quo(basis * Abs(newSize), Abs(oldSize)), lo, hi)
  {
    hide Quo;
    if oldSize > 0 {
      ScaledBetween(basis, oldSize, newSize, lo, hi);
    } else {
      NegateBoth(hi, oldSize);
      NegateBoth(lo, oldSize);
      NegateBoth(hi, newSize);
      NegateBoth(lo, newSize);
      ScaledBetween(basis, -oldSize, -newSize, -hi, -lo);
    }
  }

  lemma ScaledBetween(basis: int, m: int, m': int, lo: int, hi: int)
    requires 0 < m && 0 <= m' && lo * m <= basis <= hi * m
    ensures lo * m' <= Quo(basis * m', m) <= hi * m'
  {
    MulOrder(lo * m, basis, m');
    MulOrder(basis, hi * m, m');
    SwapFactors(lo, m, m');
    SwapFactors(hi, m, m');
    QuoBetween(basis * m', m, lo * m', hi * m');
  }

  lemma SwapFactors(x: int, y: int, z: int)
    ensures (x * y) * z == (x * z) * y
  {
  }

  lemma MulOrder(x: int, y: int, k: int)
    requires x <= y && 0 <= k
    ensures x * k <= y * k
  {
  }

  lemma TradeWithin(size: int, basis: int, qty: int, price: int, lo: int, hi: int)
    requires lo <= price <= hi && (size == 0 || SameSign(size, qty))
    requires BasisWithin(size, basis, lo, hi)
    ensures BasisWithin(size + qty, basis + qty * price, lo, hi)
  {
    if qty >= 0 {
      MulOrder(lo, price, qty);
      MulOrder(price, hi, qty);
    } else {
      MulOrder(lo, price, -qty);
      MulOrder(price, hi, -qty);
    }
    assert lo * (size + qty) == lo * size + lo * qty && hi * (size + qty) == hi * size + hi * qty;
  }

  /** One accepted trade, confirmed or not, keeps the basis inside any band around the lifecycle's prices. */
  lemma StepKeepsBand(l: Ledger, prices: set<int64>, t: Trade, precision: int64, lo: int, hi: int)
    requires l.size != MIN && (l.size == 0 ==> l.basis == 0)
    requires Refuse(l, t, precision).None?
    requires Apply(l, t, precision).failure != Some(CashUnrepresentable)
    requires Bounds(lo, NextPrices(prices, l.size, t), hi)
    requires SameSign(l.size, l.size + Delta(t)) ==> BasisWithin(l.size, l.basis, lo, hi)
    ensures var l' := Apply(l, t, precision).ledger;
            l'.size == l.size + Delta(t) && (l'.size != 0 ==> BasisWithin(l'.size, l'.basis, lo, hi))
  {
    var delta := Delta(t);
    var newSize := l.size + delta;
    if l.size == 0 || SameSign(l.size, delta) {
      assert t.price in NextPrices(prices, l.size, t);
      TradeWithin(l.size, l.basis, delta, t.price, lo, hi);
    } else if SameSign(l.size, newSize) {
      ScaledBasisWithin(l.basis, l.size, newSize, lo, hi);
    } else if newSize != 0 {
      assert t.price in NextPrices(prices, l.size, t);
      TradeWithin(0, 0, newSize, t.price, lo, hi);
    }
  }

  lemma {:induction false} BandHolds(trades: seq<Trade>, precision: int64, lo: int, hi: int)
    requires 0 < precision && Replay(trades, precision).Some?
    requires Position(trades) != 0 && Bounds(lo, LifecyclePrices(trades), hi)
    ensures var l := Replay(trades, precision).value.ledger;
            l.size == Position(trades) && BasisWithin(l.size, l.basis, lo, hi)
  {
    var before, t := trades[..|trades| - 1], trades[|trades| - 1];
    ReplayIsExact(before, precision);
    var l := Replay(before, precision).value.ledger;
    if SameSign(l.size, l.size + Delta(t)) {
      BandHolds(before, precision, lo, hi);
    }
    StepKeepsBand(l, LifecyclePrices(before), t, precision, lo, hi);
  }

  lemma {:induction false} LifecycleHasPrices(trades: seq<Trade>)
    requires Position(trades) != 0
    ensures LifecyclePrices(trades) != {}
  {
    var before, t := trades[..|trades| - 1], trades[|trades| - 1];
    if SameSign(Position(before), Position(trades)) {
      LifecycleHasPrices(before);
    } else {
      assert t.price in LifecyclePrices(trades);
    }
  }

  /** In every reachable open position the rounded entry price is representable and lies between the lowest and
      the highest price that opened or extended the current lifecycle. */
  lemma EntryIsBetween(trades: seq<Trade>, precision: int64, lo: int, hi: int)
    requires 0 < precision && Replay(trades, precision).Some?
    requires Position(trades) != 0 && Bounds(lo, LifecyclePrices(trades), hi)
    ensures LifecyclePrices(trades) != {}
    ensures var entry := EntryPrice(Replay(trades, precision).value.ledger);
            entry.Some? && lo <= entry.value <= hi
  {
    LifecycleHasPrices(trades);
    BandHolds(trades, precision, MIN, MAX);
    BandHolds(trades, precision, lo, hi);
    var l := Replay(trades, precision).value.ledger;
    EntryWithin(l, MIN, MAX);
    EntryWithin(l, lo, hi);
  }

  /** No trade offered to a reachable ledger can meet an unrepresentable entry price, before or after it. */
  lemma EntryNeverUnrepresentable(trades: seq<Trade>, t: Trade, precision: int64)
    requires 0 < precision && Replay(trades, precision).Some?
    ensures var o := Apply(Replay(trades, precision).value.ledger, t, precision);
            o.failure != Some(OldEntryUnrepresentable) && o.failure != Some(NewEntryUnrepresentable)
  {
    var l := Replay(trades, precision).value.ledger;
    ReplayIsExact(trades, precision);
    if l.size != 0 {
      BandHolds(trades, precision, MIN, MAX);
    }
    hide Replay;
    EntryStaysRepresentable(l, LifecyclePrices(trades), t, precision);
  }

  lemma EntryStaysRepresentable(l: Ledger, prices: set<int64>, t: Trade, precision: int64)
    requires l.size != MIN && (l.size == 0 ==> l.basis == 0)
    requires l.size != 0 ==> BasisWithin(l.size, l.basis, MIN, MAX)
    ensures var o := Apply(l, t, precision);
            o.failure != Some(OldEntryUnrepresentable) && o.failure != Some(NewEntryUnrepresentable)
  {
    hide Close, Quo, BasisWithin;
    if l.size != 0 {
      EntryWithin(l, MIN, MAX);
    }
    var o := Apply(l, t, precision);
    if Refuse(l, t, precision).None? && o.failure != Some(CashUnrepresentable) {
      StepKeepsBand(l, prices, t, precision, MIN, MAX);
      if o.ledger.size != 0 {
        EntryWithin(o.ledger, MIN, MAX);
      }
    }
  }

  /** The remainder test at the end of a lifecycle can never fail: a close is refused only because its cash does
      not fit, never because its carry does not. */
  lemma CloseFailsOnlyOnCash(l: Ledger, delta: int64, newSize: int64, price: int64, precision: int64)
    requires 0 < precision && l.size != 0 && l.size != MIN
    ensures var (l', paid) := Close(l, delta, newSize, price, precision);
            var target := Quo(l'.realized + l'.carry, precision);
            paid.None? ==> l'.cash == l.cash && !(Fits(target) && Fits(target - l.cash))
  {
    hide Quo, Settle;
    var kept := SameSign(l.size, newSize);
    var newBasis := if kept then Quo(l.basis * Abs(newSize), Abs(l.size)) else 0;
    var value := (if kept then delta else -l.size) * price;
    SettleLeavesRemainder(l, newBasis, value, precision);
    assert (Close(l, delta, newSize, price, precision).1.None?
            ==> Close(l, delta, newSize, price, precision).0 == Settle(l, newBasis, value, precision).0);
  }

  lemma SettleLeavesRemainder(l: Ledger, newBasis: int, value: int, precision: int64)
    requires 0 < precision
    ensures var (l', paid) := Settle(l, newBasis, value, precision);
            var target := Quo(l'.realized + l'.carry, precision);
            && l'.carry == l.carry
            && (paid.Some? ==> Fits(l'.realized + l.carry - l'.cash * precision))
            && (paid.None? ==> l'.cash == l.cash && !(Fits(target) && Fits(target - l.cash)))
  {
    QuoRemainder(Settle(l, newBasis, value, precision).0.realized + l.carry, precision);
  }

  // ----- many accounts, one contract -----

  /** A match between two of the accounts: each side's own record of the same quantity at the same price. */
  datatype Match = Match(buyer: nat, seller: nat, bought: Trade, sold: Trade)

  predicate Matched(m: Match) {
    && m.bought.side == "BUY" && m.sold.side == "SELL"
    && m.bought.qty == m.sold.qty && m.bought.price == m.sold.price
  }

  function Records(history: seq<Match>, account: nat): seq<Trade> {
    if history == [] then []
    else
      var m := history[|history| - 1];
      Records(history[..|history| - 1], account)
        + (if m.buyer == account then [m.bought] else [])
        + (if m.seller == account then [m.sold] else [])
  }

  ghost predicate Closed(history: seq<Match>, accounts: nat) {
    forall m :: m in history ==> Matched(m) && m.buyer < accounts && m.seller < accounts
  }

  ghost function TotalPosition(history: seq<Match>, accounts: nat): int {
    if accounts == 0 then 0
    else TotalPosition(history, accounts - 1) + Position(Records(history, accounts - 1))
  }

  ghost function TotalSpent(history: seq<Match>, accounts: nat): int {
    if accounts == 0 then 0
    else TotalSpent(history, accounts - 1) + Spent(Records(history, accounts - 1))
  }

  /** Cash paid to an account plus its profit at `mark`. */
  ghost function Worth(trades: seq<Trade>, precision: int64, mark: int64): Option<int> {
    match Replay(trades, precision)
    case None => None
    case Some(r) =>
      match Unrealized(r.ledger, mark, precision)
      case None => None
      case Some(u) => Some(r.cash + u)
  }

  ghost function Sum(s: seq<int>): int {
    if s == [] then 0 else Sum(s[..|s| - 1]) + s[|s| - 1]
  }

  lemma AppendTrade(trades: seq<Trade>, t: Trade)
    ensures Position(trades + [t]) == Position(trades) + Delta(t)
    ensures Spent(trades + [t]) == Spent(trades) + Value(t)
  {
    assert (trades + [t])[..|trades + [t]| - 1] == trades;
  }

  /** What a match adds to a group holding the buying leg, the selling leg, both or neither. */
  ghost function Legs(buys: bool, sells: bool, amount: int): int {
    (if buys then amount else 0) - (if sells then amount else 0)
  }

  lemma SoldValue(m: Match)
    requires Matched(m)
    ensures Value(m.sold) == -Value(m.bought)
  {
  }

  lemma AccountStep(history: seq<Match>, account: nat)
    requires history != [] && Matched(history[|history| - 1])
    ensures var m, before := history[|history| - 1], history[..|history| - 1];
            && Position(Records(history, account))
               == Position(Records(before, account)) + Legs(m.buyer == account, m.seller == account, m.bought.qty)
            && Spent(Records(history, account))
               == Spent(Records(before, account))
                  + Legs(m.buyer == account, m.seller == account, Value(m.bought))
  {
    hide Value;
    var m, before := history[|history| - 1], history[..|history| - 1];
    var r := Records(before, account);
    var r' := r + (if m.buyer == account then [m.bought] else []);
    AppendTrade(r, m.bought);
    AppendTrade(r', m.sold);
    assert r + [] == r && r' + [] == r';
    SoldValue(m);
  }

  lemma {:induction false} MatchTotals(history: seq<Match>, accounts: nat)
    requires history != [] && Matched(history[|history| - 1])
    ensures var m, before := history[|history| - 1], history[..|history| - 1];
            && TotalPosition(history, accounts)
               == TotalPosition(before, accounts) + Legs(m.buyer < accounts, m.seller < accounts, m.bought.qty)
            && TotalSpent(history, accounts)
               == TotalSpent(before, accounts)
                  + Legs(m.buyer < accounts, m.seller < accounts, Value(m.bought))
  {
    hide Value, Matched, Records, Position, Spent;
    if accounts != 0 {
      MatchTotals(history, accounts - 1);
      AccountStep(history, accounts - 1);
    }
  }

  lemma {:induction false} ClosedMarketNetsOut(history: seq<Match>, accounts: nat)
    requires Closed(history, accounts)
    ensures TotalPosition(history, accounts) == 0 && TotalSpent(history, accounts) == 0
  {
    if history == [] {
      NoHistoryNoTotals(accounts);
    } else {
      ClosedMarketNetsOut(history[..|history| - 1], accounts);
      MatchTotals(history, accounts);
    }
  }

  lemma {:induction false} NoHistoryNoTotals(accounts: nat)
    ensures TotalPosition([], accounts) == 0 && TotalSpent([], accounts) == 0
  {
    if accounts != 0 {
      NoHistoryNoTotals(accounts - 1);
    }
  }

  /** `worth` differs from the exact marked value by less than `units`. */
  ghost predicate Near(units: nat, precision: int, mark: int, worth: int, position: int, spent: int) {
    var gap := precision * worth - (position * mark - spent);
    if units == 0 then gap == 0 else Abs(gap) < units * precision
  }

  lemma NearAdds(n: nat, precision: int, mark: int, w: int, w': int, p: int, p': int, s: int, s': int)
    requires 0 < precision
    requires Near(n, precision, mark, w, p, s) && Near(1, precision, mark, w', p', s')
    ensures Near(n + 1, precision, mark, w + w', p + p', s + s')
  {
    assert precision * (w + w') == precision * w + precision * w';
    assert (p + p') * mark == p * mark + p' * mark;
    assert (n + 1) * precision == n * precision + precision;
  }

  lemma NearNothing(precision: int, mark: int)
    ensures Near(0, precision, mark, 0, 0, 0)
  {
  }

  lemma NearZero(n: nat, precision: int, mark: int, w: int)
    requires 0 < n && 0 < precision && Near(n, precision, mark, w, 0, 0)
    ensures Abs(w) < n
  {
    AbsMul(precision, w);
    CancelFactor(Abs(w), n, precision);
  }

  lemma WorthIsNear(trades: seq<Trade>, precision: int64, mark: int64)
    requires 0 < precision && Worth(trades, precision, mark).Some?
    ensures Near(1, precision, mark, Worth(trades, precision, mark).value, Position(trades), Spent(trades))
  {
    hide Replay, Unrealized, Position, Spent;
    NoDrift(trades, precision, mark);
  }

  lemma {:induction false} SumIsNear(history: seq<Match>, worths: seq<int>, precision: int, mark: int)
    requires 0 < precision
    requires forall i :: 0 <= i < |worths| ==>
               Near(1, precision, mark, worths[i], Position(Records(history, i)), Spent(Records(history, i)))
    ensures Near(|worths|, precision, mark, Sum(worths),
                 TotalPosition(history, |worths|), TotalSpent(history, |worths|))
  {
    if worths == [] {
      NearNothing(precision, mark);
    } else {
      var n := |worths| - 1;
      SumIsNear(history, worths[..n], precision, mark);
      NearAdds(n, precision, mark, Sum(worths[..n]), worths[n],
               TotalPosition(history, n), Position(Records(history, n)),
               TotalSpent(history, n), Spent(Records(history, n)));
    }
  }

  /** Any number of accounts trading one contract only with each other create and destroy less than one unit of
      cash per account between them, whatever the history and the common mark. */
  lemma ZeroSumAcrossAccounts(history: seq<Match>, worths: seq<int>, precision: int64, mark: int64)
    requires 0 < precision && worths != [] && Closed(history, |worths|)
    requires forall i :: 0 <= i < |worths| ==> Worth(Records(history, i), precision, mark) == Some(worths[i])
    ensures Abs(Sum(worths)) < |worths|
  {
    forall i | 0 <= i < |worths|
      ensures Near(1, precision, mark, worths[i], Position(Records(history, i)), Spent(Records(history, i)))
    {
      WorthIsNear(Records(history, i), precision, mark);
    }
    SumIsNear(history, worths, precision, mark);
    ClosedMarketNetsOut(history, |worths|);
    NearZero(|worths|, precision, mark, Sum(worths));
  }
}
