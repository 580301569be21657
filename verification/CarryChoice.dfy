/** The dated-carry candidate choice (analysis/dated_carry_p5.go).

Each direction's net carry is an integer numerator over that direction's own denominator, spot times a year.  The
auditor compares the two numerators directly and tests only the winner against its minimum. */
module CarryChoice {
  import opened Int64

  const YEAR: int := 365 * 24 * 60 * 60 * 1_000_000_000

  datatype Direction = CheapFuture | RichFuture

  datatype Policy = Policy(takerFeeBps: int64, longSpotFundingBps: int64, shortSpotBorrowBps: int64,
                           balanceSheetBps: int64, marginRiskBps: int64, legRiskBps: int64,
                           settlementMismatchBps: int64, postSettlementExitBps: int64, minNetCarryBps: int64,
                           minTimeToExpiry: int64, maxMarketAge: int64)

  datatype Quote = Quote(price: int64, present: bool)

  datatype Decision = Decision(hasSpotBook: bool, hasFutureBook: bool, timeToExpiry: int64, decisionTime: int64,
                               spotPublishedAt: int64, futurePublishedAt: int64, spotAge: int64, futureAge: int64,
                               spotBid: Quote, spotAsk: Quote, futureBid: Quote, futureAsk: Quote)

  datatype Financials = Financials(direction: Direction, grossSpread: int, gross: int, fees: int, financing: int,
                                   balance: int, margin: int, leg: int, settlement: int, exit: int, net: int,
                                   minimum: int, denominator: int)

  /** The components the manifest check refuses when negative. */
  predicate ValidPolicy(p: Policy) {
    && p.takerFeeBps >= 0 && p.longSpotFundingBps >= 0 && p.shortSpotBorrowBps >= 0 && p.balanceSheetBps >= 0
    && p.marginRiskBps >= 0 && p.legRiskBps >= 0 && p.settlementMismatchBps >= 0 && p.postSettlementExitBps >= 0
    && p.minNetCarryBps >= 0 && p.minTimeToExpiry > 0 && p.maxMarketAge > 0
  }

  function FinancingRate(p: Policy, d: Direction): int64 {
    if d.CheapFuture? then p.shortSpotBorrowBps else p.longSpotFundingBps
  }

  /** Four taker fees, multiplied in int64 before the arithmetic becomes exact. */
  function FeeBps(p: Policy): int64 {
    Wrap(4 * p.takerFeeBps)
  }

  function Spread(d: Direction, spot: int, future: int): int {
    if d.CheapFuture? then spot - future else future - spot
  }

  function FinancialsFor(p: Policy, d: Direction, spot: int64, future: int64, tte: int64): Financials {
    var denominator := spot * YEAR;
    var grossSpread := Spread(d, spot, future);
    var gross := grossSpread * 10_000 * YEAR;
    var fees, financing := FeeBps(p) * denominator, FinancingRate(p, d) * tte * spot;
    var balance, margin, leg := p.balanceSheetBps * denominator, p.marginRiskBps * denominator, p.legRiskBps * denominator;
    var settlement, exit := p.settlementMismatchBps * denominator, p.postSettlementExitBps * denominator;
    var net := gross - fees - financing - balance - margin - leg - settlement - exit;
    Financials(d, grossSpread, gross, fees, financing, balance, margin, leg, settlement, exit, net,
               p.minNetCarryBps * denominator, denominator)
  }

  predicate Eligible(f: Financials) {
    f.net >= f.minimum
  }

  function Rich(p: Policy, d: Decision): Financials {
    FinancialsFor(p, RichFuture, d.spotAsk.price, d.futureBid.price, d.timeToExpiry)
  }

  function Cheap(p: Policy, d: Decision): Financials {
    FinancialsFor(p, CheapFuture, d.spotBid.price, d.futureAsk.price, d.timeToExpiry)
  }

  predicate HasRich(d: Decision) {
    d.spotAsk.present && d.futureBid.present && d.spotAsk.price > 0
  }

  predicate HasCheap(d: Decision) {
    d.spotBid.present && d.futureAsk.present && d.spotBid.price > 0
  }

  predicate InputsOk(p: Policy, d: Decision) {
    && d.hasSpotBook && d.hasFutureBook && d.timeToExpiry > 0 && d.timeToExpiry >= p.minTimeToExpiry
    && d.spotPublishedAt <= d.decisionTime && d.futurePublishedAt <= d.decisionTime
    && Wrap(d.decisionTime - d.spotPublishedAt) == d.spotAge
    && Wrap(d.decisionTime - d.futurePublishedAt) == d.futureAge
    && d.spotAge <= p.maxMarketAge && d.futureAge <= p.maxMarketAge
    && !(d.spotBid.present && d.spotAsk.present && d.spotBid.price > d.spotAsk.price)
    && !(d.futureBid.present && d.futureAsk.present && d.futureBid.price > d.futureAsk.price)
  }

  /** The candidates in the order they are appended. */
  function Candidates(p: Policy, d: Decision): seq<Financials> {
    (if HasRich(d) then [Rich(p, d)] else []) + (if HasCheap(d) then [Cheap(p, d)] else [])
  }

  /** Larger net numerator first; "CHEAP_FUTURE" sorts before "RICH_FUTURE". */
  predicate Precedes(a: Financials, b: Financials) {
    a.net > b.net || (a.net == b.net && a.direction.CheapFuture? && b.direction.RichFuture?)
  }

  /** The head of the sorted candidates. */
  function Recompute(p: Policy, d: Decision): Option<Financials> {
    if !InputsOk(p, d) then None
    else
      var cs := Candidates(p, d);
      if cs == [] then None
      else if |cs| == 2 && Precedes(cs[1], cs[0]) then Some(cs[1])
      else Some(cs[0])
  }

  // ----- what a numerator means -----

  ghost function CostBps(p: Policy): int {
    FeeBps(p) + p.balanceSheetBps + p.marginRiskBps + p.legRiskBps + p.settlementMismatchBps + p.postSettlementExitBps
  }

  /** Net carry in basis points a year, as an exact rational. */
  ghost function NetBps(p: Policy, d: Direction, spot: int64, future: int64, tte: int64): real
    requires spot > 0
  {
    (Spread(d, spot, future) * 10_000) as real / spot as real
    - CostBps(p) as real - (FinancingRate(p, d) * tte) as real / YEAR as real
  }

  lemma CollectCosts(p: Policy, denominator: int)
    ensures FeeBps(p) * denominator + p.balanceSheetBps * denominator + p.marginRiskBps * denominator
            + p.legRiskBps * denominator + p.settlementMismatchBps * denominator + p.postSettlementExitBps * denominator
            == CostBps(p) * denominator
  {
  }

  lemma NetSplits(p: Policy, d: Direction, spot: int64, future: int64, tte: int64)
    ensures FinancialsFor(p, d, spot, future, tte).net
            == Spread(d, spot, future) * 10_000 * YEAR - CostBps(p) * (spot * YEAR) - FinancingRate(p, d) * tte * spot
  {
    hide FeeBps, CostBps, Spread, FinancingRate;
    CollectCosts(p, spot * YEAR);
  }

  lemma ScaleQuotient(a: real, s: real, y: real)
    requires s > 0.0
    ensures (a / s) * (s * y) == a * y
  {
    assert (a / s) * s == a;
  }

  lemma CompareScaled(x: real, m: real, k: real)
    requires k > 0.0
    ensures x * k >= m * k <==> x >= m
  {
    if x >= m {
      assert (x - m) * k >= 0.0;
    } else {
      assert (m - x) * k > 0.0;
    }
  }

  lemma DistributeScale(q: real, c: real, r: real, k: real)
    ensures (q - c - r) * k == q * k - c * k - r * k
  {
  }

  lemma ClearDenominators(a: real, b: real, c: real, m: real, s: real, y: real)
    requires s > 0.0 && y > 0.0
    ensures a / s - c - b / y >= m <==> a * y - c * (s * y) - b * s >= m * (s * y)
  {
    ScaleQuotient(a, s, y);
    ScaleQuotient(b, y, s);
    DistributeScale(a / s, c, b / y, s * y);
    CompareScaled(a / s - c - b / y, m, s * y);
  }

  lemma ProductAsReal(a: int, b: int)
    ensures (a * b) as real == a as real * b as real
  {
  }

  lemma NumeratorsCompare(a: int, b: int, c: int, m: int, s: int, y: int)
    requires s > 0 && y > 0
    ensures a as real / s as real - c as real - b as real / y as real >= m as real
            <==> a * y - c * (s * y) - b * s >= m * (s * y)
  {
    ClearDenominators(a as real, b as real, c as real, m as real, s as real, y as real);
    ProductAsReal(a, y);
    ProductAsReal(s, y);
    ProductAsReal(c, s * y);
    ProductAsReal(b, s);
    ProductAsReal(m, s * y);
  }

  /** A numerator passes its minimum exactly when the exact rational net carry reaches the required one. */
  lemma EligibleIsNetBps(p: Policy, d: Direction, spot: int64, future: int64, tte: int64)
    requires spot > 0
    ensures Eligible(FinancialsFor(p, d, spot, future, tte)) <==> NetBps(p, d, spot, future, tte) >= p.minNetCarryBps as real
  {
    NetSplits(p, d, spot, future, tte);
    assert FinancialsFor(p, d, spot, future, tte).minimum == p.minNetCarryBps * (spot * YEAR);
    hide FinancialsFor, FinancingRate, CostBps, Spread, FeeBps;
    NumeratorsCompare(Spread(d, spot, future) * 10_000, FinancingRate(p, d) * tte, CostBps(p), p.minNetCarryBps, spot, YEAR);
  }

  // ----- the choice -----

  ghost predicate SomeEligible(p: Policy, d: Decision) {
    (HasRich(d) && Eligible(Rich(p, d))) || (HasCheap(d) && Eligible(Cheap(p, d)))
  }

  /** The chosen candidate is eligible exactly when some available direction is. */
  ghost predicate ChoiceIsFair(p: Policy, d: Decision) {
    Recompute(p, d).Some? ==> (Eligible(Recompute(p, d).value) <==> SomeEligible(p, d))
  }

  lemma ProductSign(a: int, b: int)
    requires a >= 0 && b >= 0
    ensures a * b >= 0
  {
  }

  lemma ProductZero(a: int, b: int)
    requires a >= 0 && b > 0
    ensures a * b >= 0 && (a * b == 0 ==> a == 0)
  {
    if a > 0 {
      assert a * b >= b;
    }
  }

  /** Costs only lower the net, and the minimum is a non-negative multiple of the denominator. */
  lemma CostsLower(p: Policy, d: Direction, spot: int64, future: int64, tte: int64)
    requires ValidPolicy(p) && FeeBps(p) >= 0 && spot > 0 && tte > 0
    ensures var f := FinancialsFor(p, d, spot, future, tte);
            && f.net <= Spread(d, spot, future) * 10_000 * YEAR
            && 0 <= f.minimum && (f.minimum == 0 ==> p.minNetCarryBps == 0)
  {
    NetSplits(p, d, spot, future, tte);
    ProductSign(CostBps(p), spot * YEAR);
    ProductSign(FinancingRate(p, d), tte);
    ProductSign(FinancingRate(p, d) * tte, spot);
    ProductZero(p.minNetCarryBps, spot * YEAR);
  }

  /** With uncrossed books the two gross spreads cannot both be positive. */
  lemma OneSidedGross(p: Policy, d: Decision)
    requires InputsOk(p, d) && HasRich(d) && HasCheap(d)
    ensures Spread(RichFuture, d.spotAsk.price, d.futureBid.price) + Spread(CheapFuture, d.spotBid.price, d.futureAsk.price) <= 0
  {
  }

  /** Numbers behind the choice between two candidates. */
  lemma WinnerIsEligible(best: Financials, other: Financials, spread: int, spread': int, minNet: int)
    requires best.net >= other.net && other.net >= other.minimum >= 0
    requires best.net <= spread * 10_000 * YEAR && other.net <= spread' * 10_000 * YEAR && spread + spread' <= 0
    requires (minNet == 0 ==> best.minimum == 0) && (other.minimum == 0 ==> minNet == 0)
    ensures best.net >= best.minimum
  {
  }

  /** The manifest's checks and an unwrapped fee make the choice fair for every decision. */
  lemma FairWhenFeeIsNonNegative(p: Policy, d: Decision)
    requires ValidPolicy(p) && FeeBps(p) >= 0
    ensures ChoiceIsFair(p, d)
  {
    if Recompute(p, d).Some? && HasRich(d) && HasCheap(d) {
      var rich, cheap := Rich(p, d), Cheap(p, d);
      CostsLower(p, RichFuture, d.spotAsk.price, d.futureBid.price, d.timeToExpiry);
      CostsLower(p, CheapFuture, d.spotBid.price, d.futureAsk.price, d.timeToExpiry);
      OneSidedGross(p, d);
      assert Candidates(p, d) == [rich, cheap];
      var r := Spread(RichFuture, d.spotAsk.price, d.futureBid.price);
      var c := Spread(CheapFuture, d.spotBid.price, d.futureAsk.price);
      assert p.minNetCarryBps == 0 ==> rich.minimum == 0 && cheap.minimum == 0;
      hide FinancialsFor, InputsOk, ValidPolicy, FeeBps, Spread;
      if Eligible(cheap) && rich.net >= cheap.net {
        WinnerIsEligible(rich, cheap, r, c, p.minNetCarryBps);
      }
      if Eligible(rich) && cheap.net >= rich.net {
        WinnerIsEligible(cheap, rich, c, r, p.minNetCarryBps);
      }
    }
  }

  /** A policy whose four fees wrap below zero, everything else free, and the books on which the choice goes wrong. */
  ghost function WrappedPolicy(taker: int64): Policy
    requires Wrap(4 * taker) < 0
  {
    Policy(taker, 0, 0, 0, 0, 0, 0, 0, Max(0, -(Wrap(4 * taker) as int) - 1), 1, 1)
  }

  function WrappedDecision(): Decision {
    Decision(true, true, 1, 0, 0, 0, 0, 0, Quote(99_980_000, true), Quote(100_000_000, true),
             Quote(99_989_998, true), Quote(99_989_998, true))
  }

  lemma WrapsByFours(taker: int64)
    requires Wrap(4 * taker) < 0
    ensures Wrap(4 * taker) <= -4
  {
    var w := Wrap(4 * taker) as int;
    assert (w - 4 * taker) % WORD == 0;
    var q := (w - 4 * taker) / WORD;
    assert w == 4 * taker + q * WORD;
    assert w == 4 * (taker + q * (WORD / 4));
  }

  lemma WrappedNumbers(k: int)
    requires k >= 4
    ensures var cheap := (99_980_000 - 99_989_998) * 10_000 * YEAR + k * (99_980_000 * YEAR);
            var rich := (99_989_998 - 100_000_000) * 10_000 * YEAR + k * (100_000_000 * YEAR);
            && cheap >= (k - 1) * (99_980_000 * YEAR)
            && rich > cheap
            && rich < (k - 1) * (100_000_000 * YEAR)
  {
  }

  lemma UnfairWhenFeeWraps(taker: int64)
    requires taker >= 0 && Wrap(4 * taker) < 0
    ensures ValidPolicy(WrappedPolicy(taker)) && !ChoiceIsFair(WrappedPolicy(taker), WrappedDecision())
  {
    var p, d := WrappedPolicy(taker), WrappedDecision();
    var k: int := -(Wrap(4 * taker) as int);
    WrapsByFours(taker);
    WrappedNumbers(k);
    NetSplits(p, RichFuture, d.spotAsk.price, d.futureBid.price, d.timeToExpiry);
    NetSplits(p, CheapFuture, d.spotBid.price, d.futureAsk.price, d.timeToExpiry);
    assert CostBps(p) == -k && p.minNetCarryBps == k - 1;
    assert InputsOk(p, d) && HasRich(d) && HasCheap(d);
    assert Candidates(p, d) == [Rich(p, d), Cheap(p, d)];
    hide FinancialsFor, InputsOk, FeeBps;
    assert Recompute(p, d) == Some(Rich(p, d));
  }

  /** For a taker fee, the choice is fair under every admissible policy and every decision exactly when four fees do
      not wrap below zero. */
  lemma FairIffFourFeesStayNonNegative(taker: int64)
    requires taker >= 0
    ensures Wrap(4 * taker) >= 0
            <==> forall p: Policy, d: Decision :: ValidPolicy(p) && p.takerFeeBps == taker ==> ChoiceIsFair(p, d)
  {
    if Wrap(4 * taker) >= 0 {
      forall p: Policy, d: Decision | ValidPolicy(p) && p.takerFeeBps == taker
        ensures ChoiceIsFair(p, d)
      {
        FairWhenFeeIsNonNegative(p, d);
      }
    } else {
      UnfairWhenFeeWraps(taker);
    }
  }

  /** Whatever the fees, the choice is one of the available directions and none has a larger numerator. */
  lemma ChoiceIsLargest(p: Policy, d: Decision)
    ensures Recompute(p, d).Some? <==> InputsOk(p, d) && (HasRich(d) || HasCheap(d))
    ensures Recompute(p, d).Some? ==>
              var best := Recompute(p, d).value;
              && (HasRich(d) ==> Rich(p, d).net <= best.net) && (HasCheap(d) ==> Cheap(p, d).net <= best.net)
              && ((HasRich(d) && best == Rich(p, d)) || (HasCheap(d) && best == Cheap(p, d)))
  {
    if HasRich(d) && HasCheap(d) {
      assert Candidates(p, d) == [Rich(p, d), Cheap(p, d)];
    }
  }
}
