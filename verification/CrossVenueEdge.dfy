/** The fee-aware one-lot edge between two venues (analysis/crossvenue_opportunity.go). */
module CrossVenueEdge {
  import opened Int64

  datatype Pair<T> = Pair(first: T, second: T) {
    function At(i: int): T {
      if i == 0 then first else second
    }

    function Swap(): Pair<T> {
      Pair(second, first)
    }
  }

  datatype Touch = Touch(bid: int64, bidQty: int64, ask: int64, askQty: int64, hasBid: bool, hasAsk: bool)

  datatype Status =
    | InvalidConvention
    | MissingSide | InsufficientDepth | OutOfDomain | ArithmeticOverflow | NonpositiveEdge | PositiveEdge

  datatype Convention = Convention(lotQty: int64, basePrecision: int64, feeBps: int64)

  datatype Direction = Direction(buyVenue: string, sellVenue: string, status: Status, edge: int64)

  function NoDirection(): Direction {
    Direction("", "", MissingSide, 0)
  }

  /** The verdict a caller acts on: the status and, when positive, the route and its edge. */
  datatype Verdict = Verdict(status: Status, buyVenue: string, sellVenue: string, edge: int64)

  datatype Edge = Edge(verdict: Verdict, directions: Pair<Direction>)

  predicate ValidConvention(venues: Pair<string>, c: Convention) {
    && venues.first != "" && venues.second != "" && venues.first != venues.second
    && c.lotQty > 0 && c.basePrecision > 0 && c.feeBps >= 0
  }

  function Rank(s: Status): int {
    match s
    case InvalidConvention => 0
    case MissingSide => 0
    case InsufficientDepth => 1
    case OutOfDomain => 2
    case ArithmeticOverflow => 3
    case NonpositiveEdge => 4
    case PositiveEdge => 5
  }

  /** Lexicographic order, as Go compares strings (`<` on Dafny strings is proper prefix). */
  predicate Less(a: string, b: string) {
    if b == "" then false
    else if a == "" then true
    else a[0] < b[0] || (a[0] == b[0] && Less(a[1..], b[1..]))
  }

  lemma {:induction false} LessIsTotal(a: string, b: string)
    ensures Less(a, b) ==> !Less(b, a)
    ensures a != b ==> Less(a, b) || Less(b, a)
  {
    if a != "" && b != "" {
      LessIsTotal(a[1..], b[1..]);
      assert a == [a[0]] + a[1..] && b == [b[0]] + b[1..];
    }
  }

  /** Proceeds of selling one lot minus cost of buying it, after taker fees; `None` if any step overflows. */
  function Net(bid: int64, ask: int64, c: Convention): Option<int64> {
    match (TryMulDiv(c.lotQty, bid, c.basePrecision), TryMulDiv(c.lotQty, ask, c.basePrecision))
    case (Some(sellNotional), Some(buyNotional)) => (
      match (TryMulBps(sellNotional, c.feeBps), TryMulBps(buyNotional, c.feeBps))
      case (Some(sellFee), Some(buyFee)) => (
        match (TrySub(sellNotional, sellFee), TryAdd(buyNotional, buyFee))
        case (Some(proceeds), Some(cost)) => TrySub(proceeds, cost)
        case _ => None)
      case _ => None)
    case _ => None
  }

  /** Buying one lot from `buy` and selling it to `sell`. */
  function Assess(buy: Touch, sell: Touch, c: Convention, twoSided: bool): (Status, int64) {
    if !buy.hasAsk || !sell.hasBid || (twoSided && (!buy.hasBid || !sell.hasAsk)) then (MissingSide, 0)
    else if buy.ask <= 0 || sell.bid <= 0 then (OutOfDomain, 0)
    else if buy.askQty < c.lotQty || sell.bidQty < c.lotQty then (InsufficientDepth, 0)
    else
      match Net(sell.bid, buy.ask, c)
      case None => (ArithmeticOverflow, 0)
      case Some(edge) => (if edge > 0 then PositiveEdge else NonpositiveEdge, edge)
  }

  function DirectionOf(venues: Pair<string>, books: Pair<Touch>, buyer: int, c: Convention, twoSided: bool): Direction {
    var (status, edge) := Assess(books.At(buyer), books.At(1 - buyer), c, twoSided);
    Direction(venues.At(buyer), venues.At(1 - buyer), status, edge)
  }

  predicate Beats(d: Direction, e: Direction) {
    || d.edge > e.edge
    || (d.edge == e.edge
        && (Less(d.buyVenue, e.buyVenue) || (d.buyVenue == e.buyVenue && Less(d.sellVenue, e.sellVenue))))
  }

  /** The better of two directions: the larger positive edge, ties broken by venue name, otherwise the
      status that came closest to an edge. */
  function Best(d: Direction, e: Direction): Verdict {
    if d.status.PositiveEdge? && !(e.status.PositiveEdge? && Beats(e, d)) then
      Verdict(PositiveEdge, d.buyVenue, d.sellVenue, d.edge)
    else if e.status.PositiveEdge? then
      Verdict(PositiveEdge, e.buyVenue, e.sellVenue, e.edge)
    else
      Verdict(if Rank(e.status) > Rank(d.status) then e.status else d.status, "", "", 0)
  }

  function Evaluate(venues: Pair<string>, books: Pair<Touch>, c: Convention, twoSided: bool): Edge {
    if !ValidConvention(venues, c) then
      Edge(Verdict(InvalidConvention, "", "", 0), Pair(NoDirection(), NoDirection()))
    else
      var d, e := DirectionOf(venues, books, 0, c, twoSided), DirectionOf(venues, books, 1, c, twoSided);
      Edge(Best(d, e), Pair(d, e))
  }

  /** The evaluator's loop over the buying venue. */
  method EvaluateOneLotEdge(venues: Pair<string>, books: Pair<Touch>, c: Convention, twoSided: bool) returns (r: Edge)
    ensures r == Evaluate(venues, books, c, twoSided)
  {
    if !ValidConvention(venues, c) {
      return Edge(Verdict(InvalidConvention, "", "", 0), Pair(NoDirection(), NoDirection()));
    }
    var result := Verdict(MissingSide, "", "", 0);
    var directions := Pair(NoDirection(), NoDirection());
    var buyIndex := 0;
    while buyIndex < 2
      invariant 0 <= buyIndex <= 2
      invariant buyIndex == 0 ==> result == Verdict(MissingSide, "", "", 0)
      invariant buyIndex >= 1 ==> directions.first == DirectionOf(venues, books, 0, c, twoSided)
      invariant buyIndex == 1 ==>
        var d := directions.first;
        result == if d.status.PositiveEdge? then Verdict(PositiveEdge, d.buyVenue, d.sellVenue, d.edge)
                  else Verdict(d.status, "", "", 0)
      invariant buyIndex == 2 ==>
        directions.second == DirectionOf(venues, books, 1, c, twoSided)
        && result == Best(directions.first, directions.second)
    {
      var sellIndex := 1 - buyIndex;
      var buy, sell := books.At(buyIndex), books.At(sellIndex);
      var buyVenue, sellVenue := venues.At(buyIndex), venues.At(sellIndex);
      var status, edge := NonpositiveEdge, 0;
      if !buy.hasAsk || !sell.hasBid || (twoSided && (!buy.hasBid || !sell.hasAsk)) {
        status := MissingSide;
      } else if buy.ask <= 0 || sell.bid <= 0 {
        status := OutOfDomain;
      } else if buy.askQty < c.lotQty || sell.bidQty < c.lotQty {
        status := InsufficientDepth;
      } else {
        var net := Net(sell.bid, buy.ask, c);
        if net.None? {
          status := ArithmeticOverflow;
        } else {
          edge := net.value;
          if edge > 0 {
            status := PositiveEdge;
            if result.status != status || edge > result.edge
              || (edge == result.edge
                  && (Less(buyVenue, result.buyVenue)
                      || (buyVenue == result.buyVenue && Less(sellVenue, result.sellVenue)))) {
              result := Verdict(status, buyVenue, sellVenue, edge);
            }
          }
        }
      }
      var direction := Direction(buyVenue, sellVenue, status, edge);
      directions := if buyIndex == 0 then directions.(first := direction) else directions.(second := direction);
      if status != PositiveEdge && Rank(status) > Rank(result.status) {
        result := result.(status := status);
      }
      buyIndex := buyIndex + 1;
    }
    return Edge(result, directions);
  }

  predicate Positive(e: Edge) {
    e.verdict.status.PositiveEdge?
  }

  /** Direction `i` wins: it is positive and strictly better than the other, by edge and then by buying venue. */
  predicate Wins(e: Edge, i: int) {
    var d, other := e.directions.At(i), e.directions.At(1 - i);
    && d.status.PositiveEdge? && e.verdict == Verdict(PositiveEdge, d.buyVenue, d.sellVenue, d.edge)
    && (other.status.PositiveEdge? ==> d.edge > other.edge || (d.edge == other.edge && Less(d.buyVenue, other.buyVenue)))
  }

  /** The verdict is positive exactly when some direction is, and then it is the winning one; otherwise it is the status
      that came closest, with no route. */
  lemma VerdictIsTheBestDirection(venues: Pair<string>, books: Pair<Touch>, c: Convention, twoSided: bool)
    requires ValidConvention(venues, c)
    ensures var e := Evaluate(venues, books, c, twoSided);
            var d, d' := e.directions.first, e.directions.second;
            && (Positive(e) <==> d.status.PositiveEdge? || d'.status.PositiveEdge?)
            && (Positive(e) ==> Wins(e, 0) || Wins(e, 1))
            && (!Positive(e) ==> e.verdict.buyVenue == "" && e.verdict.sellVenue == "" && e.verdict.edge == 0)
            && (!Positive(e) ==> e.verdict.status in {d.status, d'.status})
            && (!Positive(e) ==> Rank(d.status) <= Rank(e.verdict.status) && Rank(d'.status) <= Rank(e.verdict.status))
  {
    LessIsTotal(venues.first, venues.second);
  }

  /** A valid convention always yields a real status, so the reconstruction's convention error on books
      cannot be reached. */
  lemma ValidConventionYieldsStatus(venues: Pair<string>, books: Pair<Touch>, c: Convention, twoSided: bool)
    requires ValidConvention(venues, c)
    ensures Evaluate(venues, books, c, twoSided).verdict.status != InvalidConvention
  {
  }

  /** The verdict does not depend on which venue is listed first; only the directions change places. */
  lemma SwapInvariant(venues: Pair<string>, books: Pair<Touch>, c: Convention, twoSided: bool)
    ensures var e, e' := Evaluate(venues, books, c, twoSided), Evaluate(venues.Swap(), books.Swap(), c, twoSided);
            e'.verdict == e.verdict && e'.directions == e.directions.Swap()
  {
    LessIsTotal(venues.first, venues.second);
    var d, e := DirectionOf(venues, books, 0, c, twoSided), DirectionOf(venues, books, 1, c, twoSided);
    assert d.status != e.status && !d.status.PositiveEdge? && !e.status.PositiveEdge?
           ==> Rank(d.status) != Rank(e.status);
  }

  /** Dropping the two-sidedness rule only adds opportunities, and never changes an edge that was there. */
  lemma StrictImpliesLegSide(venues: Pair<string>, books: Pair<Touch>, c: Convention)
    requires Positive(Evaluate(venues, books, c, true))
    ensures Positive(Evaluate(venues, books, c, false))
    ensures forall i :: 0 <= i < 2 ==>
              var d := DirectionOf(venues, books, i, c, true);
              d.status.PositiveEdge? ==> DirectionOf(venues, books, i, c, false) == d
  {
  }

  /** Truncation and fees can only shrink an edge: a positive one forces a gross crossing of the touches. */
  lemma PositiveEdgeCrosses(buy: Touch, sell: Touch, c: Convention, twoSided: bool)
    requires c.lotQty > 0 && c.basePrecision > 0 && c.feeBps >= 0
    requires Assess(buy, sell, c, twoSided).0.PositiveEdge?
    ensures buy.hasAsk && sell.hasBid && 0 < buy.ask < sell.bid
    ensures buy.askQty >= c.lotQty && sell.bidQty >= c.lotQty
  {
    hide Net;
    if sell.bid <= buy.ask {
      UncrossedNetIsNotPositive(sell.bid, buy.ask, c);
    }
  }

  lemma UncrossedNetIsNotPositive(bid: int64, ask: int64, c: Convention)
    requires c.lotQty > 0 && c.basePrecision > 0 && c.feeBps >= 0
    requires 0 < bid <= ask
    ensures Net(bid, ask, c).Some? ==> Net(bid, ask, c).value <= 0
  {
    hide Quo;
    NotionalNonNegative(c.lotQty, bid, c.basePrecision);
    NotionalNonNegative(c.lotQty, ask, c.basePrecision);
    FeeNonNegative(Quo(c.lotQty * bid, c.basePrecision), c.feeBps);
    FeeNonNegative(Quo(c.lotQty * ask, c.basePrecision), c.feeBps);
    NotionalMonotone(c.lotQty, bid, ask, c.basePrecision);
  }

  lemma NotionalNonNegative(qty: int, p: int, precision: int)
    requires 0 <= qty && 0 <= p && 0 < precision
    ensures 0 <= Quo(qty * p, precision)
  {
    assert 0 <= qty * p;
    QuoRemainder(qty * p, precision);
  }

  lemma FeeNonNegative(notional: int, bps: int)
    requires 0 <= notional && 0 <= bps
    ensures 0 <= Quo(notional * bps, 10000)
  {
    assert 0 <= notional * bps;
    QuoRemainder(notional * bps, 10000);
  }

  lemma NotionalMonotone(qty: int, p: int, p': int, precision: int)
    requires 0 <= qty && p <= p' && 0 < precision
    ensures Quo(qty * p, precision) <= Quo(qty * p', precision)
  {
    assert qty * p <= qty * p';
    QuoMonotone(qty * p, qty * p', precision);
  }
}
