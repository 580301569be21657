/** Liquidation value of one venue-local inventory against the displayed book (analysis/crossvenue_closeout.go). */
module Closeout {
  import opened Int64
  import opened BookReplay
  import Sorting

  datatype Input = Input(baseDelta: int64, quoteDelta: int64, basePrecision: int64, takerFeeBps: int64,
                         bids: seq<Level>, asks: seq<Level>)

  datatype Reason =
    | InvalidConvention | QuantityOverflow | NoExecutableSide | InvalidBook
    | ArithmeticOverflow | InsufficientVisibleDepth

  datatype Result =
    | Unavailable(reason: Reason)
    | Available(required: int64, covered: int64, gross: int64, fees: int64, value: int64)

  predicate Selling(input: Input) {
    input.baseDelta > 0
  }

  function Levels(input: Input): seq<Level> {
    if Selling(input) then input.bids else input.asks
  }

  function Required(input: Input): int {
    Abs(input.baseDelta)
  }

  // ----- sorting -----

  /** Best price first: the order in which the walk takes levels. */
  predicate Before(a: Level, b: Level, selling: bool) {
    if selling then a.price >= b.price else a.price <= b.price
  }

  function Priority(selling: bool): (Level, Level) -> bool {
    (a, b) => Before(a, b, selling)
  }

  ghost predicate Ordered(levels: seq<Level>, selling: bool) {
    Sorting.Sorted(Priority(selling), levels)
  }

  /** A sorted copy of the displayed levels. */
  ghost predicate SortedCopy(ordered: seq<Level>, levels: seq<Level>, selling: bool) {
    Sorting.SortedCopy(Priority(selling), ordered, levels)
  }

  // ----- the walk -----

  function Capacity(levels: seq<Level>): int {
    if levels == [] then 0 else Capacity(levels[..|levels| - 1]) + levels[|levels| - 1].visible
  }

  /** What a walk over these levels covers of a requirement. */
  function Covered(levels: seq<Level>, required: int): int {
    Min(required, Capacity(levels))
  }

  /** What the walk takes from the last of these levels. */
  function TakenLast(levels: seq<Level>, required: int): int
    requires levels != []
  {
    Covered(levels, required) - Covered(levels[..|levels| - 1], required)
  }

  /** Integer notionals added up, one truncation per level. */
  function Notional(levels: seq<Level>, required: int, precision: int): int
    requires precision > 0
  {
    if levels == [] then 0
    else
      Notional(levels[..|levels| - 1], required, precision)
      + Quo(TakenLast(levels, required) * levels[|levels| - 1].price, precision)
  }

  /** Fees added up, one truncation per level. */
  function Fees(levels: seq<Level>, required: int, precision: int, bps: int): int
    requires precision > 0
  {
    if levels == [] then 0
    else
      Fees(levels[..|levels| - 1], required, precision, bps)
      + Quo(Quo(TakenLast(levels, required) * levels[|levels| - 1].price, precision) * bps, 10000)
  }

  predicate ValidLevels(levels: seq<Level>) {
    && (forall i :: 0 <= i < |levels| ==> levels[i].price > 0 && levels[i].visible >= 0 && levels[i].hidden >= 0)
    && (forall i :: 0 < i < |levels| ==> levels[i].price != levels[i - 1].price)
  }

  /** Running totals of the walk. */
  datatype Walk = Walk(covered: int64, gross: int64, fees: int64)

  function Step(w: Walk, l: Level, required: int64, precision: int64, bps: int64, selling: bool): Option<Walk>
    requires precision > 0 && 0 <= w.covered <= required && l.visible >= 0
    ensures Step(w, l, required, precision, bps, selling).Some? ==>
              Step(w, l, required, precision, bps, selling).value.covered == Min(required, w.covered + l.visible)
  {
    if l.visible == 0 || w.covered == required then Some(w)
    else
      var quantity := Min(required - w.covered, l.visible);
      match TryMulDiv(quantity, l.price, precision)
      case None => None
      case Some(notional) =>
        match TryMulBps(notional, bps)
        case None => None
        case Some(fee) =>
          match (SignedAdd(w.gross, notional, selling), TryAdd(w.fees, fee))
          case (Some(gross), Some(fees)) => Some(Walk(w.covered + quantity, gross, fees))
          case _ => None
  }

  /** Adds a sale's notional, or subtracts a purchase's. */
  function SignedAdd(gross: int64, notional: int64, selling: bool): Option<int64> {
    if selling then TryAdd(gross, notional)
    else if notional == MIN then TryAdd(gross, MIN)
    else TryAdd(gross, -notional)
  }

  /** Everything the loop keeps: the totals are those of the levels walked so far. */
  ghost predicate Walked(w: Walk, levels: seq<Level>, required: int64, precision: int64, bps: int64, selling: bool)
    requires precision > 0
  {
    && w.covered == Covered(levels, required)
    && w.gross == Signed(Notional(levels, required, precision), selling)
    && w.fees == Fees(levels, required, precision, bps)
  }

  function Signed(x: int, selling: bool): int {
    if selling then x else -x
  }

  predicate NextTotalsFit(levels: seq<Level>, required: int, precision: int, bps: int, selling: bool)
    requires precision > 0 && levels != []
  {
    var notional := Quo(TakenLast(levels, required) * levels[|levels| - 1].price, precision);
    && Fits(notional) && Fits(Quo(notional * bps, 10000))
    && Fits(Signed(Notional(levels, required, precision), selling)) && Fits(Fees(levels, required, precision, bps))
  }

  lemma {:induction false} CapacityIsNat(levels: seq<Level>)
    requires forall i :: 0 <= i < |levels| ==> levels[i].visible >= 0
    ensures Capacity(levels) >= 0
  {
    if levels != [] {
      CapacityIsNat(levels[..|levels| - 1]);
    }
  }

  /** One step in numbers: a quantity, its notional and its fee. */
  lemma StepInNumbers(w: Walk, l: Level, required: int64, precision: int64, bps: int64, selling: bool)
    requires precision > 0 && bps >= 0 && 0 <= w.covered <= required && l.visible >= 0 && l.price > 0
    ensures var r := Step(w, l, required, precision, bps, selling);
            var quantity := Min(required - w.covered, l.visible);
            var notional := Quo(quantity * l.price, precision);
            var fee := Quo(notional * bps, 10000);
            && (r.Some? <==> Fits(notional) && Fits(fee) && Fits(w.gross + Signed(notional, selling)) && Fits(w.fees + fee))
            && (r.Some? ==> r.value == Walk(w.covered + quantity, w.gross + Signed(notional, selling), w.fees + fee))
  {
    var quantity := Min(required - w.covered, l.visible);
    if quantity == 0 {
      assert quantity * l.price == 0;
      QuoSmall(0, precision);
      QuoSmall(0 * bps, 10000);
    } else {
      SortedWalkIsNonNegative(quantity, l.price, precision, bps);
    }
  }

  /** One step of the loop computes the next totals, or overflows exactly when they do not fit. */
  lemma StepWalks(w: Walk, levels: seq<Level>, required: int64, precision: int64, bps: int64, selling: bool)
    requires precision > 0 && bps >= 0 && required >= 0 && levels != [] && ValidLevels(levels)
    requires Walked(w, levels[..|levels| - 1], required, precision, bps, selling)
    requires 0 <= w.covered <= required
    ensures var r := Step(w, levels[|levels| - 1], required, precision, bps, selling);
            && (r.Some? <==> NextTotalsFit(levels, required, precision, bps, selling))
            && (r.Some? ==> Walked(r.value, levels, required, precision, bps, selling))
  {
    var l := levels[|levels| - 1];
    CapacityIsNat(levels[..|levels| - 1]);
    assert TakenLast(levels, required) == Min(required - w.covered, l.visible);
    assert Covered(levels, required) == w.covered + TakenLast(levels, required);
    StepInNumbers(w, l, required, precision, bps, selling);
    hide Covered, TakenLast, ValidLevels, Step, Quo;
  }

  lemma SortedWalkIsNonNegative(quantity: int, price: int, precision: int, bps: int)
    requires quantity >= 0 && price > 0 && precision > 0 && bps >= 0
    ensures Quo(quantity * price, precision) >= 0
    ensures Quo(Quo(quantity * price, precision) * bps, 10000) >= 0
  {
    QuoRemainder(quantity * price, precision);
    QuoRemainder(Quo(quantity * price, precision) * bps, 10000);
  }

  /** Totals never shrink, so if the final ones fit then so did every earlier one. */
  lemma {:induction false} TotalsGrow(levels: seq<Level>, required: int, precision: int, bps: int, k: nat)
    requires precision > 0 && bps >= 0 && required >= 0 && ValidLevels(levels) && k <= |levels|
    ensures 0 <= Notional(levels[..k], required, precision) <= Notional(levels, required, precision)
    ensures 0 <= Fees(levels[..k], required, precision, bps) <= Fees(levels, required, precision, bps)
    decreases |levels|
  {
    if levels != [] {
      var front := levels[..|levels| - 1];
      CapacityIsNat(front);
      assert 0 <= TakenLast(levels, required);
      SortedWalkIsNonNegative(TakenLast(levels, required), levels[|levels| - 1].price, precision, bps);
      assert ValidLevels(front) by {
        assert forall i :: 0 <= i < |front| ==> front[i] == levels[i];
      }
      hide Quo, TakenLast, ValidLevels;
      TotalsGrow(front, required, precision, bps, if k < |levels| then k else k - 1);
      assert k < |levels| ==> front[..k] == levels[..k];
      assert k == |levels| ==> levels[..k] == levels && front[..k - 1] == front;
    } else {
      assert levels[..k] == levels;
    }
  }

  /** Each level's notional fits in 64 bits. */
  ghost predicate LevelsFit(levels: seq<Level>, required: int, precision: int)
    requires precision > 0
  {
    forall k :: 0 < k <= |levels| ==> Fits(LastNotional(levels[..k], required, precision))
  }

  function LastNotional(levels: seq<Level>, required: int, precision: int): int
    requires precision > 0 && levels != []
  {
    Quo(TakenLast(levels, required) * levels[|levels| - 1].price, precision)
  }

  // ----- the valuation -----

  /** When a closeout exists: a valid book deep enough to cover the position, and amounts that fit. */
  ghost predicate Executable(input: Input, ordered: seq<Level>) {
    && input.basePrecision > 0 && input.takerFeeBps >= 0 && input.baseDelta != MIN
    && (input.baseDelta != 0 ==>
      && ValidLevels(ordered) && Capacity(ordered) >= Required(input)
      && AmountsFit(input, ordered))
  }

  ghost predicate AmountsFit(input: Input, ordered: seq<Level>)
    requires input.basePrecision > 0
  {
    var gross := Signed(Notional(ordered, Required(input), input.basePrecision), Selling(input));
    var fees := Fees(ordered, Required(input), input.basePrecision, input.takerFeeBps);
    && LevelsFit(ordered, Required(input), input.basePrecision)
    && Fits(gross) && Fits(fees) && Fits(gross - fees) && Fits(input.quoteDelta + (gross - fees))
  }

  /** The value it then has. */
  ghost function Valuation(input: Input, ordered: seq<Level>): Result
    requires Executable(input, ordered)
  {
    if input.baseDelta == 0 then Available(0, 0, 0, 0, input.quoteDelta)
    else
      var gross := Signed(Notional(ordered, Required(input), input.basePrecision), Selling(input));
      var fees := Fees(ordered, Required(input), input.basePrecision, input.takerFeeBps);
      Available(Required(input), Required(input), gross, fees, input.quoteDelta + (gross - fees))
  }

  /** What a reason tells the caller. */
  ghost predicate Explains(reason: Reason, input: Input, ordered: seq<Level>) {
    match reason
    case InvalidConvention => input.basePrecision <= 0 || input.takerFeeBps < 0
    case QuantityOverflow => input.baseDelta == MIN
    case NoExecutableSide => Levels(input) == []
    case InvalidBook => !ValidLevels(ordered)
    case InsufficientVisibleDepth => ValidLevels(ordered) && Capacity(ordered) < Required(input)
    case ArithmeticOverflow => input.basePrecision > 0 && (!ValidLevels(ordered) || !AmountsFit(input, ordered))
  }

  lemma OverflowIsFinal(input: Input, ordered: seq<Level>, k: nat)
    requires input.basePrecision > 0 && input.takerFeeBps >= 0 && k < |ordered| && ValidLevels(ordered)
    requires !NextTotalsFit(ordered[..k + 1], Required(input), input.basePrecision, input.takerFeeBps, Selling(input))
    ensures !AmountsFit(input, ordered)
  {
    var required, precision, bps := Required(input), input.basePrecision, input.takerFeeBps;
    var upTo := ordered[..k + 1];
    assert ValidLevels(upTo) by {
      assert forall i :: 0 <= i <= k ==> upTo[i] == ordered[i];
    }
    assert LevelsFit(ordered, required, precision) ==> Fits(LastNotional(upTo, required, precision));
    hide ValidLevels, LevelsFit, Notional, Fees, Quo;
    TotalsGrow(ordered, required, precision, bps, k + 1);
    LastFeeWithin(upTo, required, precision, bps);
  }

  /** The last level's fee is part of the total. */
  lemma LastFeeWithin(levels: seq<Level>, required: int, precision: int, bps: int)
    requires precision > 0 && bps >= 0 && required >= 0 && levels != [] && ValidLevels(levels)
    ensures 0 <= Quo(LastNotional(levels, required, precision) * bps, 10000) <= Fees(levels, required, precision, bps)
  {
    var n := |levels| - 1;
    CapacityIsNat(levels[..n]);
    SortedWalkIsNonNegative(TakenLast(levels, required), levels[n].price, precision, bps);
    TotalsGrow(levels, required, precision, bps, n);
    assert Fees(levels, required, precision, bps)
           == Fees(levels[..n], required, precision, bps) + Quo(LastNotional(levels, required, precision) * bps, 10000);
    hide Fees, Quo, ValidLevels;
  }

  lemma BadLevelIsFinal(ordered: seq<Level>, k: nat)
    requires k < |ordered|
    requires ordered[k].price <= 0 || ordered[k].visible < 0 || ordered[k].hidden < 0
             || (k > 0 && ordered[k].price == ordered[k - 1].price)
    ensures !ValidLevels(ordered)
  {
  }

  /** Everything the walk keeps after `k` levels. */
  ghost predicate WalkedTo(w: Walk, input: Input, ordered: seq<Level>, k: nat)
    requires k <= |ordered| && input.basePrecision > 0 && input.baseDelta != MIN
  {
    && ValidLevels(ordered[..k]) && LevelsFit(ordered[..k], Required(input), input.basePrecision)
    && 0 <= w.covered <= Required(input)
    && Walked(w, ordered[..k], Required(input), input.basePrecision, input.takerFeeBps, Selling(input))
  }

  /** A valid level is walked over, or its totals do not fit. */
  lemma WalkStep(w: Walk, input: Input, ordered: seq<Level>, k: nat)
    requires input.basePrecision > 0 && input.takerFeeBps >= 0 && input.baseDelta != MIN
    requires k < |ordered| && WalkedTo(w, input, ordered, k)
    requires ordered[k].price > 0 && ordered[k].visible >= 0 && ordered[k].hidden >= 0
    requires k > 0 ==> ordered[k].price != ordered[k - 1].price
    ensures var next := Step(w, ordered[k], Required(input), input.basePrecision, input.takerFeeBps, Selling(input));
            && (next.None? ==> !ValidLevels(ordered) || !AmountsFit(input, ordered))
            && (next.Some? ==> WalkedTo(next.value, input, ordered, k + 1))
  {
    var required, precision, bps, selling := Required(input), input.basePrecision, input.takerFeeBps, Selling(input);
    var upTo := ordered[..k + 1];
    ValidStep(ordered, k);
    assert upTo[..|upTo| - 1] == ordered[..k];
    CoveredInRange(w, ordered[k], required, precision, bps, selling);
    hide Walked, ValidLevels, NextTotalsFit, LevelsFit, Step, AmountsFit;
    StepWalks(w, upTo, required, precision, bps, selling);
    if Step(w, ordered[k], required, precision, bps, selling).None? {
      NextOverflows(input, ordered, k);
    } else {
      LevelsFitStep(ordered, required, precision, bps, selling, k);
    }
  }

  lemma CoveredInRange(w: Walk, l: Level, required: int64, precision: int64, bps: int64, selling: bool)
    requires precision > 0 && bps >= 0 && 0 <= w.covered <= required && l.visible >= 0 && l.price > 0
    ensures var r := Step(w, l, required, precision, bps, selling);
            r.Some? ==> 0 <= r.value.covered <= required
  {
    StepInNumbers(w, l, required, precision, bps, selling);
    hide Step, Quo;
  }

  /** The loop over the sorted levels. */
  method WalkLevels(input: Input, ordered: seq<Level>) returns (w: Walk, failure: Option<Reason>)
    requires input.basePrecision > 0 && input.takerFeeBps >= 0 && input.baseDelta != MIN && input.baseDelta != 0
    ensures failure.None? ==> ValidLevels(ordered)
    ensures failure.None? ==> LevelsFit(ordered, Required(input), input.basePrecision)
    ensures failure.None? ==> Walked(w, ordered, Required(input), input.basePrecision, input.takerFeeBps, Selling(input))
    ensures failure.Some? ==> failure.value.InvalidBook? || failure.value.ArithmeticOverflow?
    ensures failure.Some? && failure.value.InvalidBook? ==> !ValidLevels(ordered)
    ensures failure.Some? ==> !ValidLevels(ordered) || !AmountsFit(input, ordered)
  {
    w, failure := Walk(0, 0, 0), None;
    var prior: int64 := 0;
    assert WalkedTo(w, input, ordered, 0);
    hide AmountsFit, ValidLevels, LevelsFit, Walked, Step;
    for k := 0 to |ordered|
      invariant failure.None? && WalkedTo(w, input, ordered, k) && (k > 0 ==> prior == ordered[k - 1].price)
    {
      var l := ordered[k];
      if l.price <= 0 || l.visible < 0 || l.hidden < 0 || (k > 0 && l.price == prior) {
        BadLevelIsFinal(ordered, k);
        return w, Some(InvalidBook);
      }
      prior := l.price;
      WalkStep(w, input, ordered, k);
      hide WalkedTo;
      var next := Step(w, l, Required(input), input.basePrecision, input.takerFeeBps, input.baseDelta > 0);
      if next.None? {
        return w, Some(ArithmeticOverflow);
      }
      w := next.value;
    }
    assert ordered[..|ordered|] == ordered;
  }

  lemma NextOverflows(input: Input, ordered: seq<Level>, k: nat)
    requires input.basePrecision > 0 && input.takerFeeBps >= 0 && k < |ordered|
    requires !NextTotalsFit(ordered[..k + 1], Required(input), input.basePrecision, input.takerFeeBps, Selling(input))
    ensures !ValidLevels(ordered) || !AmountsFit(input, ordered)
  {
    hide NextTotalsFit, AmountsFit;
    if ValidLevels(ordered) {
      OverflowIsFinal(input, ordered, k);
    }
  }

  lemma ValidStep(ordered: seq<Level>, k: nat)
    requires k < |ordered| && ValidLevels(ordered[..k])
    requires ordered[k].price > 0 && ordered[k].visible >= 0 && ordered[k].hidden >= 0
    requires k > 0 ==> ordered[k].price != ordered[k - 1].price
    ensures ValidLevels(ordered[..k + 1])
  {
    var before, after := ordered[..k], ordered[..k + 1];
    assert forall i :: 0 <= i < k ==> before[i] == after[i];
    assert after[k] == ordered[k] && (k > 0 ==> after[k - 1] == ordered[k - 1]);
  }

  lemma LevelsFitStep(ordered: seq<Level>, required: int, precision: int, bps: int, selling: bool, k: nat)
    requires precision > 0 && k < |ordered| && LevelsFit(ordered[..k], required, precision)
    requires NextTotalsFit(ordered[..k + 1], required, precision, bps, selling)
    ensures LevelsFit(ordered[..k + 1], required, precision)
  {
    var before, after := ordered[..k], ordered[..k + 1];
    forall n | 0 < n <= |after|
      ensures Fits(LastNotional(after[..n], required, precision))
    {
      if n == k + 1 {
        assert after[..n] == after;
      } else {
        assert after[..n] == before[..n];
      }
    }
  }

  ghost predicate Answers(r: Result, input: Input, ordered: seq<Level>) {
    && (r.Available? <==> Executable(input, ordered))
    && (r.Available? ==> r == Valuation(input, ordered))
    && (r.Unavailable? ==> Explains(r.reason, input, ordered))
  }

  /** After the walk: depth, then the final checked sums. */
  method Settle(input: Input, ordered: seq<Level>, w: Walk) returns (r: Result)
    requires input.basePrecision > 0 && input.takerFeeBps >= 0 && input.baseDelta != MIN && input.baseDelta != 0
    requires ValidLevels(ordered) && LevelsFit(ordered, Required(input), input.basePrecision)
    requires Walked(w, ordered, Required(input), input.basePrecision, input.takerFeeBps, Selling(input))
    ensures Answers(r, input, ordered)
  {
    FeesAreNat(input, ordered);
    hide ValidLevels, LevelsFit, Notional, Fees, Capacity;
    if w.covered != Required(input) {
      return Unavailable(InsufficientVisibleDepth);
    }
    var cash := TrySub(w.gross, w.fees);
    if cash.None? {
      return Unavailable(ArithmeticOverflow);
    }
    var value := TryAdd(input.quoteDelta, cash.value);
    if value.None? {
      return Unavailable(ArithmeticOverflow);
    }
    r := Available(Required(input), w.covered, w.gross, w.fees, value.value);
  }

  /** Answers for one sorted copy of the displayed levels: available exactly when executable there, and then worth the
      valuation.  Only levels of equal price, which are refused, can make the copy ambiguous. */
  method ValueVenueLocalInventory(input: Input) returns (r: Result)
    ensures exists ordered :: SortedCopy(ordered, Levels(input), Selling(input)) && Answers(r, input, ordered)
  {
    ghost var ordered := Sorting.SortExists(Priority(Selling(input)), Levels(input));
    if input.basePrecision <= 0 || input.takerFeeBps < 0 {
      r := Unavailable(InvalidConvention);
      assert SortedCopy(ordered, Levels(input), Selling(input)) && Answers(r, input, ordered);
      return;
    }
    if input.baseDelta == MIN {
      r := Unavailable(QuantityOverflow);
      assert SortedCopy(ordered, Levels(input), Selling(input)) && Answers(r, input, ordered);
      return;
    }
    if input.baseDelta == 0 {
      r := Available(0, 0, 0, 0, input.quoteDelta);
      assert SortedCopy(ordered, Levels(input), Selling(input)) && Answers(r, input, ordered);
      return;
    }
    var levels := Levels(input);
    if levels == [] {
      r := Unavailable(NoExecutableSide);
      NothingToSort(ordered);
      assert SortedCopy(ordered, Levels(input), Selling(input)) && Answers(r, input, ordered);
      return;
    }
    hide ValidLevels, LevelsFit, AmountsFit, Capacity, Walked, SortedCopy;
    var sorted := Sorting.Sort(Priority(Selling(input)), levels);
    assert SortedCopy(sorted, levels, Selling(input)) by { Copies(sorted, levels, Selling(input)); }
    var w, failure := WalkLevels(input, sorted);
    if failure.Some? {
      r := Unavailable(failure.value);
      assert Answers(r, input, sorted);
      return;
    }
    r := Settle(input, sorted, w);
  }

  lemma Copies(ordered: seq<Level>, levels: seq<Level>, selling: bool)
    requires Sorting.SortedCopy(Priority(selling), ordered, levels)
    ensures SortedCopy(ordered, levels, selling)
  {
  }

  lemma NothingToSort(ordered: seq<Level>)
    requires multiset(ordered) == multiset([])
    ensures Capacity(ordered) == 0
  {
    assert |multiset(ordered)| == 0;
  }

  lemma FeesAreNat(input: Input, ordered: seq<Level>)
    requires input.basePrecision > 0 && input.takerFeeBps >= 0 && ValidLevels(ordered)
    ensures Fees(ordered, Required(input), input.basePrecision, input.takerFeeBps) >= 0
  {
    TotalsGrow(ordered, Required(input), input.basePrecision, input.takerFeeBps, |ordered|);
  }

  // ----- distinct prices: the input order does not matter -----

  lemma LevelIn(levels: seq<Level>, other: seq<Level>, i: nat) returns (j: nat)
    requires multiset(levels) == multiset(other) && i < |levels|
    ensures j < |other| && other[j] == levels[i]
  {
    assert levels[i] in multiset(levels);
    assert levels[i] in other;
    j :| 0 <= j < |other| && other[j] == levels[i];
  }

  lemma HeadsAgree(a: seq<Level>, b: seq<Level>, selling: bool)
    requires Ordered(a, selling) && Ordered(b, selling) && multiset(a) == multiset(b) && DistinctPrices(a)
    requires a != []
    ensures b != [] && a[0] == b[0]
  {
    var j := LevelIn(a, b, 0);
    var i := LevelIn(b, a, 0);
    assert Before(a[0], a[i], selling) && Before(b[0], b[j], selling);
    assert a[0].price == a[i].price;
  }

  lemma TailsAgree(a: seq<Level>, b: seq<Level>)
    requires multiset(a) == multiset(b) && a != [] && b != [] && a[0] == b[0]
    ensures multiset(a[1..]) == multiset(b[1..])
  {
    assert a == [a[0]] + a[1..] && b == [b[0]] + b[1..];
    assert multiset(a[1..]) == multiset(a) - multiset{a[0]};
  }

  /** Distinct prices have one sorted order. */
  lemma {:induction false} SortIsUnique(a: seq<Level>, b: seq<Level>, selling: bool)
    requires Ordered(a, selling) && Ordered(b, selling) && multiset(a) == multiset(b) && DistinctPrices(a)
    ensures a == b
    decreases |a|
  {
    if a == [] {
      assert |multiset(a)| == |multiset(b)|;
    } else {
      HeadsAgree(a, b, selling);
      TailsAgree(a, b);
      SortIsUnique(a[1..], b[1..], selling);
      assert a == [a[0]] + a[1..] && b == [b[0]] + b[1..];
    }
  }

  lemma DistinctSurvives(a: seq<Level>, b: seq<Level>)
    requires multiset(a) == multiset(b) && DistinctPrices(a)
    ensures DistinctPrices(b)
  {
    forall i, j | 0 <= i < j < |b|
      ensures b[i].price != b[j].price
    {
      var p := LevelIn(b, a, i);
      var q := LevelIn(b, a, j);
      if p == q {
        DuplicateCounts(b, i, j);
        SingleCounts(a, p);
      }
    }
  }

  lemma DuplicateCounts(b: seq<Level>, i: nat, j: nat)
    requires i < j < |b| && b[i] == b[j]
    ensures multiset(b)[b[i]] >= 2
  {
    assert b == b[..i] + [b[i]] + b[i + 1..j] + [b[j]] + b[j + 1..];
  }

  lemma {:induction false} AbsentCounts(a: seq<Level>, l: Level)
    requires forall k :: 0 <= k < |a| ==> a[k] != l
    ensures multiset(a)[l] == 0
  {
    assert l !in a;
  }

  lemma SingleCounts(a: seq<Level>, p: nat)
    requires p < |a| && DistinctPrices(a)
    ensures multiset(a)[a[p]] == 1
  {
    assert a == a[..p] + [a[p]] + a[p + 1..];
    AbsentCounts(a[..p], a[p]);
    AbsentCounts(a[p + 1..], a[p]);
  }

  /** Two listings of the same distinct-price book give one valuation. */
  lemma ValuationIgnoresListing(input: Input, input': Input, ordered: seq<Level>, ordered': seq<Level>)
    requires input' == input.(bids := input'.bids, asks := input'.asks)
    requires multiset(input.bids) == multiset(input'.bids) && multiset(input.asks) == multiset(input'.asks)
    requires DistinctPrices(Levels(input))
    requires SortedCopy(ordered, Levels(input), Selling(input)) && SortedCopy(ordered', Levels(input'), Selling(input'))
    ensures ordered == ordered'
    ensures Executable(input, ordered) <==> Executable(input', ordered')
    ensures Executable(input, ordered) ==> Valuation(input, ordered) == Valuation(input', ordered')
  {
    DistinctSurvives(Levels(input), ordered);
    SortIsUnique(ordered, ordered', Selling(input));
    hide Notional, Fees, Capacity, ValidLevels, LevelsFit;
  }

  // ----- optimality of the walk -----

  /** What one unit at this level brings in (negative when buying). */
  function Worth(l: Level, selling: bool): int {
    Signed(l.price, selling)
  }

  /** The exact value of the walk, before any truncation. */
  function Exact(levels: seq<Level>, required: int, selling: bool): int {
    if levels == [] then 0
    else
      Exact(levels[..|levels| - 1], required, selling)
      + TakenLast(levels, required) * Worth(levels[|levels| - 1], selling)
  }

  /** Any other way to spread a quantity over the levels. */
  ghost predicate Allocation(xs: seq<int>, levels: seq<Level>) {
    |xs| == |levels| && forall i :: 0 <= i < |xs| ==> 0 <= xs[i] <= levels[i].visible
  }

  function Total(xs: seq<int>): int {
    if xs == [] then 0 else Total(xs[..|xs| - 1]) + xs[|xs| - 1]
  }

  function Brings(xs: seq<int>, levels: seq<Level>, selling: bool): int
    requires |xs| == |levels|
  {
    if xs == [] then 0
    else Brings(xs[..|xs| - 1], levels[..|xs| - 1], selling) + xs[|xs| - 1] * Worth(levels[|xs| - 1], selling)
  }

  lemma {:induction false} AllocationFits(xs: seq<int>, levels: seq<Level>)
    requires Allocation(xs, levels)
    ensures 0 <= Total(xs) <= Capacity(levels)
  {
    if xs != [] {
      AllocationFits(xs[..|xs| - 1], levels[..|xs| - 1]);
    }
  }

  lemma ScaleDown(more: int, w: int, floor: int)
    requires more >= 0 && w >= floor
    ensures more * w >= more * floor
  {
  }

  lemma SplitProduct(a: int, b: int, w: int)
    ensures (a + b) * w == a * w + b * w
  {
  }

  /** Covering more within the same levels brings at least the worst of them per extra unit. */
  lemma {:induction false} ExtraUnits(levels: seq<Level>, required: int, more: int, selling: bool, floor: int)
    requires 0 <= required && 0 <= more && required + more <= Capacity(levels)
    requires forall i :: 0 <= i < |levels| ==> levels[i].visible >= 0 && Worth(levels[i], selling) >= floor
    ensures Exact(levels, required + more, selling) >= Exact(levels, required, selling) + more * floor
  {
    if levels == [] {
      assert more == 0;
    } else {
      var front, l := levels[..|levels| - 1], levels[|levels| - 1];
      var w := Worth(l, selling);
      var early := Max(0, Min(required + more, Capacity(front)) - Min(required, Capacity(front)));
      var late := more - early;
      CapacityIsNat(front);
      var r0 := Min(required, Capacity(front));
      ExtraUnits(front, r0, early, selling, floor);
      ExactCaps(front, required, selling);
      ExactCaps(front, required + more, selling);
      assert TakenLast(levels, required + more) == TakenLast(levels, required) + late;
      SplitProduct(TakenLast(levels, required), late, w);
      SplitProduct(early, late, floor);
      ScaleDown(late, w, floor);
    }
  }

  /** Asking for more than the levels hold changes nothing. */
  lemma {:induction false} ExactCaps(levels: seq<Level>, required: int, selling: bool)
    requires forall i :: 0 <= i < |levels| ==> levels[i].visible >= 0
    ensures Exact(levels, Min(required, Capacity(levels)), selling) == Exact(levels, required, selling)
  {
    if levels != [] {
      var front := levels[..|levels| - 1];
      var capped := Min(required, Capacity(levels));
      ExactCaps(front, capped, selling);
      ExactCaps(front, required, selling);
      assert Min(capped, Capacity(front)) == Min(required, Capacity(front));
      assert TakenLast(levels, capped) == TakenLast(levels, required);
    }
  }

  /** In walking order the last level is the worst. */
  lemma LastIsWorst(levels: seq<Level>, selling: bool)
    requires Ordered(levels, selling) && levels != []
    ensures var n := |levels| - 1;
            Ordered(levels[..n], selling) && forall i :: 0 <= i < n ==> Worth(levels[..n][i], selling) >= Worth(levels[n], selling)
  {
    var n := |levels| - 1;
    forall i | 0 <= i < n
      ensures Worth(levels[..n][i], selling) >= Worth(levels[n], selling)
    {
      assert Priority(selling)(levels[i], levels[n]);
    }
  }

  /** Moving units from the last level into the others, as the walk does, never lowers the proceeds. */
  lemma FillTheFrontFirst(front: seq<Level>, selling: bool, total: int, required: int, more: int, w: int)
    requires 0 <= total && 0 <= more && total + more == Min(required, Capacity(front))
    requires forall i :: 0 <= i < |front| ==> front[i].visible >= 0 && Worth(front[i], selling) >= w
    ensures Exact(front, total, selling) + more * w <= Exact(front, required, selling)
  {
    ExtraUnits(front, total, more, selling, w);
    ExactCaps(front, required, selling);
  }

  /** No allocation of the covered quantity beats the walk. */
  lemma {:induction false} WalkIsOptimal(levels: seq<Level>, selling: bool, xs: seq<int>)
    requires Ordered(levels, selling) && Allocation(xs, levels)
    ensures Brings(xs, levels, selling) <= Exact(levels, Total(xs), selling)
  {
    if xs != [] {
      var n := |xs| - 1;
      var front, required := levels[..n], Total(xs);
      var w, more := Worth(levels[n], selling), xs[n] - TakenLast(levels, required);
      LastIsWorst(levels, selling);
      hide Ordered, Worth;
      WalkIsOptimal(front, selling, xs[..n]);
      AllocationFits(xs[..n], front);
      AllocationFits(xs, levels);
      FillTheFrontFirst(front, selling, Total(xs[..n]), required, more, w);
      SplitProduct(TakenLast(levels, required), more, w);
    }
  }

  /** How many levels the walk takes something from. */
  function Consumed(levels: seq<Level>, required: int): nat {
    if levels == [] then 0
    else Consumed(levels[..|levels| - 1], required) + if TakenLast(levels, required) > 0 then 1 else 0
  }

  /** Truncation loses less than one unit of quote per level consumed, always in the conservative direction for a
      sale and the generous one for a purchase. */
  lemma {:induction false} GrossIsNear(levels: seq<Level>, required: int, precision: int, selling: bool)
    requires precision > 0 && required >= 0 && ValidLevels(levels)
    ensures var n, exact := Notional(levels, required, precision), Signed(Exact(levels, required, selling), selling);
            && n * precision <= exact <= (n + Consumed(levels, required)) * precision
            && (Consumed(levels, required) > 0 ==> exact < (n + Consumed(levels, required)) * precision)
  {
    if levels != [] {
      var front, l := levels[..|levels| - 1], levels[|levels| - 1];
      var taken := TakenLast(levels, required);
      CapacityIsNat(front);
      assert taken >= 0;
      GrossIsNear(front, required, precision, selling);
      var q := Quo(taken * l.price, precision);
      OneLevelIsNear(taken, l.price, precision);
      hide Quo, ValidLevels;
      var n, c := Notional(front, required, precision), Consumed(front, required);
      SignedProduct(taken, l.price, selling);
      NearSum(n, c, Signed(Exact(front, required, selling), selling), q, taken * l.price, taken > 0, precision);
    }
  }

  lemma OneLevelIsNear(taken: int, price: int, b: int)
    requires taken >= 0 && price > 0 && b > 0
    ensures var q, x := Quo(taken * price, b), taken * price;
            q * b <= x < q * b + b && (taken == 0 ==> x == 0 && q == 0)
  {
    QuoRemainder(taken * price, b);
    if taken == 0 {
      assert taken * price == 0;
      QuoSmall(0, b);
    } else {
      assert taken * price > 0;
    }
  }

  lemma SignedProduct(taken: int, price: int, selling: bool)
    ensures Signed(taken * Signed(price, selling), selling) == taken * price
  {
  }

  lemma NearSum(n: int, c: int, exact: int, q: int, x: int, some: bool, b: int)
    requires b > 0 && c >= 0 && n * b <= exact <= (n + c) * b && (c > 0 ==> exact < (n + c) * b)
    requires q * b <= x && (some ==> x < q * b + b) && (!some ==> x == 0 && q == 0)
    ensures var c' := c + if some then 1 else 0;
            && (n + q) * b <= exact + x <= (n + q + c') * b
            && (c' > 0 ==> exact + x < (n + q + c') * b)
  {
    assert (n + q) * b == n * b + q * b;
    assert (n + q + c) * b == (n + c) * b + q * b;
    assert (n + q + (c + 1)) * b == (n + c) * b + q * b + b;
  }

  /** An available closeout covers the whole position, and no other allocation of it brings in more. */
  lemma CloseoutIsBest(input: Input, ordered: seq<Level>, xs: seq<int>)
    requires SortedCopy(ordered, Levels(input), Selling(input)) && Executable(input, ordered) && input.baseDelta != 0
    requires Allocation(xs, ordered) && Total(xs) == Required(input)
    ensures Covered(ordered, Required(input)) == Required(input)
    ensures Brings(xs, ordered, Selling(input)) <= Exact(ordered, Required(input), Selling(input))
  {
    WalkIsOptimal(ordered, Selling(input), xs);
  }

  /** Its gross differs from the exact value by less than one unit per level consumed. */
  lemma CloseoutIsNearExact(input: Input, ordered: seq<Level>)
    requires Executable(input, ordered) && input.baseDelta != 0
    ensures Abs(Valuation(input, ordered).gross * input.basePrecision - Exact(ordered, Required(input), Selling(input)))
            < Consumed(ordered, Required(input)) * input.basePrecision
  {
    GrossIsNear(ordered, Required(input), input.basePrecision, Selling(input));
    SomethingConsumed(ordered, Required(input));
    hide Capacity, ValidLevels, AmountsFit, Exact, Notional, Fees, Consumed;
    NearSigned(Notional(ordered, Required(input), input.basePrecision), Consumed(ordered, Required(input)),
               Exact(ordered, Required(input), Selling(input)), input.basePrecision, Selling(input));
  }

  lemma NearSigned(n: int, c: int, exact: int, b: int, selling: bool)
    requires b > 0 && n * b <= Signed(exact, selling) < (n + c) * b
    ensures Abs(Signed(n, selling) * b - exact) < c * b
  {
    SplitProduct(n, c, b);
    assert (-n) * b == -(n * b);
  }

  lemma {:induction false} SomethingConsumed(levels: seq<Level>, required: int)
    requires 0 < required <= Capacity(levels)
    ensures Consumed(levels, required) > 0
  {
    if levels != [] {
      var front := levels[..|levels| - 1];
      if required <= Capacity(front) {
        SomethingConsumed(front, required);
      }
    }
  }
}
