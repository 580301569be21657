/** The venue-movement part of the conservation audit (analysis/conservation.go): movements are accumulated per asset
and chained per bucket, then both are compared with the terminal venue ledgers. */
module Conservation {
  import opened Int64
  import Sorting
  import Sums

  datatype AssetKey = AssetKey(venue: string, asset: string)

  datatype BucketKey = BucketKey(venue: string, bucket: string, asset: string, symbol: string)

  datatype Edge = Edge(sequence: uint64, oldBalance: int64, newBalance: int64)

  datatype Movement = Movement(venue: string, readable: bool, eventTime: int64, timestamp: int64, sequence: uint64,
                               bucket: string, asset: string, hasTradeId: bool, tradeId: uint64, oldBalance: int64,
                               newBalance: int64, delta: int64, symbol: string, reason: string)

  datatype Reserve = Reserve(asset: string, sourceId: string, initial: int64, balance: int64, endowmentSeq: uint64)

  datatype Ledger = Ledger(venue: string, feeRevenue: map<string, int64>, insurance: map<string, int64>,
                           reserves: map<string, Reserve>)

  const FEE := "fee_revenue"
  const INSURANCE := "insurance_fund"
  const RESERVE := "funding_rounding_reserve"

  function Asset(k: BucketKey): AssetKey {
    AssetKey(k.venue, k.asset)
  }

  function FeeKey(k: AssetKey): BucketKey {
    BucketKey(k.venue, FEE, k.asset, "")
  }

  /** A missing key reads as zero. */
  function Get<K>(m: map<K, int64>, k: K): int64 {
    if k in m then m[k] else 0
  }

  /** Adds to one accumulator, or leaves it alone when the sum does not fit. */
  function AddValue<K(!new)>(m: map<K, int64>, k: K, amount: int64): (r: Option<map<K, int64>>)
    ensures r.Some? <==> Fits(Get(m, k) + amount)
    ensures r.Some? ==> forall k' :: Get(r.value, k') == if k' == k then Get(m, k) + amount else Get(m, k')
  {
    match TryAdd(Get(m, k), amount)
    case None => None
    case Some(next) => Some(m[k := next])
  }

  // ----- what counts as a movement -----

  predicate ReserveShape(m: Movement) {
    m.bucket == RESERVE ==>
      && m.symbol != "" && m.tradeId == 0 && (m.reason == "external_endowment" || m.reason == "scheduled_funding_rounding")
      && (m.reason == "external_endowment" ==> m.oldBalance == 0 && m.delta > 0)
  }

  predicate TimeShape(m: Movement) {
    && m.timestamp == m.eventTime
    && (m.timestamp == 0 ==> m.bucket == RESERVE && m.reason == "external_endowment")
  }

  predicate FeeShape(m: Movement) {
    m.bucket == FEE ==>
      && (m.reason == "funding_remainder" ==> m.symbol != "" && m.delta != 0)
      && (m.reason == "taker_fee" || m.reason == "maker_fee" ==> m.hasTradeId && m.symbol != "" && m.delta != 0)
  }

  predicate WellFormed(m: Movement) {
    && m.venue != "" && m.readable && m.sequence != 0 && m.asset != "" && m.bucket != ""
    && (m.bucket == FEE || m.bucket == INSURANCE || m.bucket == RESERVE)
    && ReserveShape(m) && TimeShape(m) && FeeShape(m)
  }

  /** A movement the accumulators see. */
  predicate Good(m: Movement) {
    WellFormed(m) && m.oldBalance + m.delta == m.newBalance
  }

  predicate Audited(reason: string) {
    reason in {"taker_fee", "maker_fee", "margin_interest", "funding_remainder", "position_rounding"}
  }

  function BucketOf(m: Movement): BucketKey {
    BucketKey(m.venue, m.bucket, m.asset, if m.bucket == RESERVE then m.symbol else "")
  }

  function EdgeOf(m: Movement): Edge {
    Edge(m.sequence, m.oldBalance, m.newBalance)
  }

  // ----- the accumulators -----

  datatype Audit = Audit(recorded: map<AssetKey, int64>, fees: map<AssetKey, int64>,
                         transitions: map<BucketKey, seq<Edge>>, arithmetic: nat, malformed: nat, unsupported: nat)

  function Start(): Audit {
    Audit(map[], map[], map[], 0, 0, 0)
  }

  function Edges(t: map<BucketKey, seq<Edge>>, k: BucketKey): seq<Edge> {
    if k in t then t[k] else []
  }

  function Record(a: Audit, m: Movement): Audit {
    match AddValue(a.recorded, Asset(BucketOf(m)), m.delta)
    case None => a.(arithmetic := a.arithmetic + 1)
    case Some(recorded) => a.(recorded := recorded)
  }

  function Link(a: Audit, m: Movement): Audit {
    a.(transitions := a.transitions[BucketOf(m) := Edges(a.transitions, BucketOf(m)) + [EdgeOf(m)]])
  }

  function RecordFee(a: Audit, m: Movement): Audit {
    if m.bucket != FEE then a
    else if !Audited(m.reason) then a.(unsupported := a.unsupported + 1)
    else
      match AddValue(a.fees, Asset(BucketOf(m)), m.delta)
      case None => a.(arithmetic := a.arithmetic + 1)
      case Some(fees) => a.(fees := fees)
  }

  function Observed(a: Audit, m: Movement): Audit {
    if !WellFormed(m) then a.(malformed := a.malformed + 1)
    else if TryAdd(m.oldBalance, m.delta).None? then a.(arithmetic := a.arithmetic + 1)
    else if TryAdd(m.oldBalance, m.delta) != Some(m.newBalance) then a.(malformed := a.malformed + 1)
    else RecordFee(Link(Record(a, m), m), m)
  }

  function ObserveAll(ms: seq<Movement>): Audit {
    if ms == [] then Start() else Observed(ObserveAll(ms[..|ms| - 1]), ms[|ms| - 1])
  }

  /** The accumulators, updated movement by movement in whatever order the scan delivers them. */
  class VenueAudit {
    var recorded: map<AssetKey, int64>
    var fees: map<AssetKey, int64>
    var transitions: map<BucketKey, seq<Edge>>
    var arithmetic: nat
    var malformed: nat
    var unsupported: nat

    ghost function State(): Audit
      reads this
    {
      Audit(recorded, fees, transitions, arithmetic, malformed, unsupported)
    }

    constructor ()
      ensures State() == Start()
    {
      recorded, fees, transitions := map[], map[], map[];
      arithmetic, malformed, unsupported := 0, 0, 0;
    }

    /** A well-formed movement that adds up: its asset's total, then its link. */
    method RecordMovement(m: Movement)
      modifies this`recorded, this`arithmetic, this`transitions
      ensures State() == Link(Record(old(State()), m), m)
    {
      hide AddValue, Edges, EdgeOf;
      var sum := AddValue(recorded, AssetKey(m.venue, m.asset), m.delta);
      if sum.None? {
        arithmetic := arithmetic + 1;
      } else {
        recorded := sum.value;
      }
      var key := BucketOf(m);
      transitions := transitions[key := Edges(transitions, key) + [EdgeOf(m)]];
    }

    method RecordRevenue(m: Movement)
      modifies this`fees, this`arithmetic, this`unsupported
      ensures State() == RecordFee(old(State()), m)
    {
      hide AddValue, Audited;
      if m.bucket == FEE {
        if !Audited(m.reason) {
          unsupported := unsupported + 1;
        } else {
          var fee := AddValue(fees, AssetKey(m.venue, m.asset), m.delta);
          if fee.None? {
            arithmetic := arithmetic + 1;
          } else {
            fees := fee.value;
          }
        }
      }
    }

    method Observe(m: Movement)
      modifies this
      ensures State() == Observed(old(State()), m)
    {
      hide WellFormed, Record, Link, RecordFee;
      if !WellFormed(m) {
        malformed := malformed + 1;
        return;
      }
      var expected := TryAdd(m.oldBalance, m.delta);
      if expected.None? {
        arithmetic := arithmetic + 1;
        return;
      }
      if expected.value != m.newBalance {
        malformed := malformed + 1;
        return;
      }
      RecordMovement(m);
      RecordRevenue(m);
    }
  }

  // ----- sums over bucket entries -----

  /** An amount booked to a bucket: a movement's delta or a reported balance. */
  datatype Entry = Entry(key: BucketKey, amount: int)

  function Sum(es: seq<Entry>, k: BucketKey): int {
    if es == [] then 0 else Sum(es[..|es| - 1], k) + if es[|es| - 1].key == k then es[|es| - 1].amount else 0
  }

  function AssetSum(es: seq<Entry>, k: AssetKey): int {
    if es == [] then 0 else AssetSum(es[..|es| - 1], k) + if Asset(es[|es| - 1].key) == k then es[|es| - 1].amount else 0
  }

  function Without(es: seq<Entry>, k: BucketKey): seq<Entry> {
    if es == [] then []
    else Without(es[..|es| - 1], k) + if es[|es| - 1].key == k then [] else [es[|es| - 1]]
  }

  lemma SumAppend(es: seq<Entry>, e: Entry, k: BucketKey, a: AssetKey)
    ensures Sum(es + [e], k) == Sum(es, k) + if e.key == k then e.amount else 0
    ensures AssetSum(es + [e], a) == AssetSum(es, a) + if Asset(e.key) == a then e.amount else 0
  {
    assert (es + [e])[..|es|] == es;
  }

  lemma {:induction false} WithoutSplits(es: seq<Entry>, k: BucketKey, b: BucketKey, a: AssetKey)
    ensures Sum(Without(es, k), b) == if b == k then 0 else Sum(es, b)
    ensures AssetSum(Without(es, k), a) == AssetSum(es, a) - if Asset(k) == a then Sum(es, k) else 0
    ensures |Without(es, k)| <= |es|
  {
    if es != [] {
      var front, e := es[..|es| - 1], es[|es| - 1];
      WithoutSplits(front, k, b, a);
      if e.key == k {
        assert Without(es, k) == Without(front, k);
      } else {
        SumAppend(Without(front, k), e, b, a);
      }
    }
  }

  lemma WithoutShrinks(es: seq<Entry>, i: nat)
    requires i == |es| - 1
    ensures |Without(es, es[i].key)| < |es|
  {
    WithoutSplits(es[..i], es[i].key, es[i].key, Asset(es[i].key));
  }

  /** If every bucket sums to zero then so does every asset. */
  lemma {:induction false} ZeroBucketsZeroAsset(es: seq<Entry>, a: AssetKey)
    requires forall k :: Sum(es, k) == 0
    ensures AssetSum(es, a) == 0
    decreases |es|
  {
    if es != [] {
      var k := es[|es| - 1].key;
      var rest := Without(es, k);
      WithoutShrinks(es, |es| - 1);
      forall b
        ensures Sum(rest, b) == 0
      {
        WithoutSplits(es, k, b, a);
      }
      WithoutSplits(es, k, k, a);
      ZeroBucketsZeroAsset(rest, a);
    }
  }

  function Negated(es: seq<Entry>): seq<Entry> {
    if es == [] then [] else Negated(es[..|es| - 1]) + [Entry(es[|es| - 1].key, -es[|es| - 1].amount)]
  }

  lemma {:induction false} NegatedSums(es: seq<Entry>, k: BucketKey, a: AssetKey)
    ensures Sum(Negated(es), k) == -Sum(es, k) && AssetSum(Negated(es), a) == -AssetSum(es, a)
  {
    if es != [] {
      var front, e := es[..|es| - 1], es[|es| - 1];
      NegatedSums(front, k, a);
      SumAppend(Negated(front), Entry(e.key, -e.amount), k, a);
    }
  }

  lemma {:induction false} SumConcat(x: seq<Entry>, y: seq<Entry>, k: BucketKey, a: AssetKey)
    ensures Sum(x + y, k) == Sum(x, k) + Sum(y, k) && AssetSum(x + y, a) == AssetSum(x, a) + AssetSum(y, a)
  {
    if y == [] {
      assert x + y == x;
    } else {
      var front, e := y[..|y| - 1], y[|y| - 1];
      SumConcat(x, front, k, a);
      assert x + y == (x + front) + [e] && y == front + [e];
      SumAppend(x + front, e, k, a);
      SumAppend(front, e, k, a);
    }
  }

  /** Two ledgers that agree bucket by bucket agree asset by asset. */
  lemma EqualBucketsEqualAssets(x: seq<Entry>, y: seq<Entry>, a: AssetKey)
    requires forall k :: Sum(x, k) == Sum(y, k)
    ensures AssetSum(x, a) == AssetSum(y, a)
  {
    var d := x + Negated(y);
    forall k
      ensures Sum(d, k) == 0
    {
      SumConcat(x, Negated(y), k, a);
      NegatedSums(y, k, a);
    }
    ZeroBucketsZeroAsset(d, a);
    SumConcat(x, Negated(y), FeeKey(a), a);
    NegatedSums(y, FeeKey(a), a);
  }

  // ----- what the accumulators hold -----

  function Entries(ms: seq<Movement>): seq<Entry> {
    if ms == [] then []
    else Entries(ms[..|ms| - 1]) + if Good(ms[|ms| - 1]) then [Entry(BucketOf(ms[|ms| - 1]), ms[|ms| - 1].delta)] else []
  }

  /** The edges of one bucket, in arrival order. */
  function EdgesOf(ms: seq<Movement>, k: BucketKey): seq<Edge> {
    if ms == [] then []
    else EdgesOf(ms[..|ms| - 1], k) + if Good(ms[|ms| - 1]) && BucketOf(ms[|ms| - 1]) == k then [EdgeOf(ms[|ms| - 1])] else []
  }

  ghost predicate Accounts(a: Audit, ms: seq<Movement>) {
    && (forall k :: Edges(a.transitions, k) == EdgesOf(ms, k) && (k in a.transitions <==> EdgesOf(ms, k) != []))
    && (a.arithmetic == 0 ==> forall k :: Get(a.recorded, k) == AssetSum(Entries(ms), k))
    && (a.arithmetic == 0 && a.unsupported == 0 ==> forall k :: Get(a.fees, k) == Sum(Entries(ms), FeeKey(k)))
  }

  lemma SkippedStep(a: Audit, a': Audit, ms: seq<Movement>, m: Movement)
    requires Accounts(a, ms) && !Good(m)
    requires a' == a.(arithmetic := a'.arithmetic, malformed := a'.malformed) && a'.arithmetic >= a.arithmetic
    ensures Accounts(a', ms + [m])
  {
    assert (ms + [m])[..|ms|] == ms;
    assert Entries(ms + [m]) == Entries(ms);
    forall k
      ensures EdgesOf(ms + [m], k) == EdgesOf(ms, k)
    {
    }
    hide Entries, EdgesOf, Sum, AssetSum;
  }

  lemma GoodEntries(ms: seq<Movement>, m: Movement)
    requires Good(m)
    ensures Entries(ms + [m]) == Entries(ms) + [Entry(BucketOf(m), m.delta)]
    ensures forall k :: EdgesOf(ms + [m], k) == EdgesOf(ms, k) + if BucketOf(m) == k then [EdgeOf(m)] else []
  {
    assert (ms + [m])[..|ms|] == ms;
  }

  /** The maps after a good movement, named apart from how they were computed. */
  ghost predicate Grown(a: Audit, a': Audit, ms: seq<Movement>, m: Movement) {
    && a'.transitions == a.transitions[BucketOf(m) := Edges(a.transitions, BucketOf(m)) + [EdgeOf(m)]]
    && (a'.arithmetic == 0 ==> forall k :: Get(a'.recorded, k) == AssetSum(Entries(ms + [m]), k))
    && (a'.arithmetic == 0 && a'.unsupported == 0 ==> forall k :: Get(a'.fees, k) == Sum(Entries(ms + [m]), FeeKey(k)))
  }

  lemma EdgesGrow(t: map<BucketKey, seq<Edge>>, ms: seq<Movement>, m: Movement)
    requires Good(m) && forall k :: Edges(t, k) == EdgesOf(ms, k) && (k in t <==> EdgesOf(ms, k) != [])
    ensures var t' := t[BucketOf(m) := Edges(t, BucketOf(m)) + [EdgeOf(m)]];
            forall k :: Edges(t', k) == EdgesOf(ms + [m], k) && (k in t' <==> EdgesOf(ms + [m], k) != [])
  {
    GoodEntries(ms, m);
    hide EdgesOf, Entries, Good, BucketOf, EdgeOf;
  }

  lemma GoodStep(a: Audit, ms: seq<Movement>, m: Movement)
    requires Accounts(a, ms) && Good(m)
    ensures Accounts(RecordFee(Link(Record(a, m), m), m), ms + [m])
  {
    hide Record, RecordFee, Link, Good, Entries, EdgesOf, Sum, AssetSum, Get, Edges, BucketOf, EdgeOf;
    EdgesGrow(a.transitions, ms, m);
    GrowsBy(a, ms, m);
  }

  lemma GrowsBy(a: Audit, ms: seq<Movement>, m: Movement)
    requires Accounts(a, ms) && Good(m)
    ensures Grown(a, RecordFee(Link(Record(a, m), m), m), ms, m)
  {
    var a' := RecordFee(Link(Record(a, m), m), m);
    FeeLeavesTheRest(Link(Record(a, m), m), m);
    hide Accounts, RecordFee, Good, Entries, Sum, AssetSum;
    if a'.arithmetic == 0 {
      RecordStep(a, ms, m);
      if a'.unsupported == 0 {
        FeeAccumulates(a, ms, m);
      }
    }
  }

  lemma FeeLeavesTheRest(a: Audit, m: Movement)
    ensures var a' := RecordFee(a, m);
            a'.recorded == a.recorded && a'.transitions == a.transitions && a'.arithmetic >= a.arithmetic
            && a'.unsupported >= a.unsupported
  {
  }

  lemma RecordStep(a: Audit, ms: seq<Movement>, m: Movement)
    requires Accounts(a, ms) && Good(m) && Record(a, m).arithmetic == 0
    ensures forall k :: Get(Record(a, m).recorded, k) == AssetSum(Entries(ms + [m]), k)
  {
    GoodEntries(ms, m);
    forall k
      ensures AssetSum(Entries(ms + [m]), k) == AssetSum(Entries(ms), k) + if Asset(BucketOf(m)) == k then m.delta else 0
    {
      SumAppend(Entries(ms), Entry(BucketOf(m), m.delta), FeeKey(k), k);
    }
    hide Entries, EdgesOf, Sum, AssetSum, Good;
  }

  lemma FeeAccumulates(a: Audit, ms: seq<Movement>, m: Movement)
    requires Accounts(a, ms) && Good(m)
    requires var a' := RecordFee(Link(Record(a, m), m), m); a'.arithmetic == 0 && a'.unsupported == 0
    ensures forall k :: Get(RecordFee(Link(Record(a, m), m), m).fees, k) == Sum(Entries(ms + [m]), FeeKey(k))
  {
    FeeLeavesTheRest(Link(Record(a, m), m), m);
    var linked := Link(Record(a, m), m);
    assert linked.fees == a.fees && linked.arithmetic == 0 && a.arithmetic == 0 && a.unsupported == 0;
    assert forall k :: Get(a.fees, k) == Sum(Entries(ms), FeeKey(k));
    hide Accounts, Record, Link;
    FeeSums(ms, m);
    FeeAdds(linked, m);
    FeeStep(m);
    hide Entries, Sum, Good, RecordFee;
  }

  lemma FeeSums(ms: seq<Movement>, m: Movement)
    requires Good(m)
    ensures forall k :: Sum(Entries(ms + [m]), FeeKey(k)) == Sum(Entries(ms), FeeKey(k)) + if BucketOf(m) == FeeKey(k) then m.delta else 0
  {
    GoodEntries(ms, m);
    forall k
      ensures Sum(Entries(ms + [m]), FeeKey(k)) == Sum(Entries(ms), FeeKey(k)) + if BucketOf(m) == FeeKey(k) then m.delta else 0
    {
      SumAppend(Entries(ms), Entry(BucketOf(m), m.delta), FeeKey(k), k);
    }
  }

  lemma FeeAdds(a: Audit, m: Movement)
    requires RecordFee(a, m).arithmetic == a.arithmetic == 0 && RecordFee(a, m).unsupported == a.unsupported == 0
    ensures forall k :: Get(RecordFee(a, m).fees, k) == Get(a.fees, k) + if m.bucket == FEE && k == Asset(BucketOf(m)) then m.delta else 0
  {
  }

  /** A good movement of the fee bucket is booked under its asset's fee key, and no other is. */
  lemma FeeStep(m: Movement)
    requires Good(m)
    ensures forall k :: BucketOf(m) == FeeKey(k) <==> m.bucket == FEE && k == Asset(BucketOf(m))
  {
    forall k
      ensures BucketOf(m) == FeeKey(k) <==> m.bucket == FEE && k == Asset(BucketOf(m))
    {
      assert FEE != RESERVE;
    }
  }

  lemma {:induction false} ObserveAllAccounts(ms: seq<Movement>)
    ensures Accounts(ObserveAll(ms), ms)
  {
    if ms != [] {
      var front, m := ms[..|ms| - 1], ms[|ms| - 1];
      ObserveAllAccounts(front);
      assert ms == front + [m];
      var a := ObserveAll(front);
      if Good(m) {
        GoodStep(a, front, m);
      } else {
        SkippedStep(a, Observed(a, m), front, m);
      }
    }
  }

  // ----- chains -----

  function BySequence(): (Edge, Edge) -> bool {
    (a: Edge, b: Edge) => a.sequence <= b.sequence
  }

  ghost predicate SortedCopy(order: seq<Edge>, es: seq<Edge>) {
    Sorting.SortedCopy(BySequence(), order, es)
  }

  /** The balance after the first `i` edges. */
  function BalanceAt(es: seq<Edge>, i: nat): int64
    requires i <= |es|
  {
    if i == 0 then 0 else es[i - 1].newBalance
  }

  /** Each edge starts where the previous one ended, from zero to the terminal balance. */
  predicate Chained(es: seq<Edge>, terminal: int64) {
    (forall i :: 0 <= i < |es| ==> es[i].oldBalance == BalanceAt(es, i)) && terminal == BalanceAt(es, |es|)
  }

  function Gain(e: Edge): int {
    e.newBalance - e.oldBalance
  }

  function Rise(es: seq<Edge>): int {
    Sums.Sum(Gain, es)
  }

  /** A chain telescopes. */
  lemma {:induction false} ChainTelescopes(es: seq<Edge>, terminal: int64)
    requires Chained(es, terminal)
    ensures Rise(es) == terminal
  {
    if es != [] {
      var n := |es| - 1;
      ShorterChain(es, terminal);
      hide Chained;
      ChainTelescopes(es[..n], es[n].oldBalance);
    }
  }

  lemma ShorterChain(es: seq<Edge>, terminal: int64)
    requires es != [] && Chained(es, terminal)
    ensures var last := es[|es| - 1];
            Chained(es[..|es| - 1], last.oldBalance) && last.newBalance == terminal
  {
    var n := |es| - 1;
    var front := es[..n];
    assert forall i :: 0 <= i < n ==> front[i] == es[i] && BalanceAt(front, i) == BalanceAt(es, i);
    assert BalanceAt(front, n) == BalanceAt(es, n) == es[n].oldBalance;
  }

  lemma {:induction false} RiseIsBucketSum(ms: seq<Movement>, k: BucketKey)
    ensures Rise(EdgesOf(ms, k)) == Sum(Entries(ms), k)
  {
    if ms != [] {
      var front, m := ms[..|ms| - 1], ms[|ms| - 1];
      RiseIsBucketSum(front, k);
      if Good(m) {
        SumAppend(Entries(front), Entry(BucketOf(m), m.delta), k, Asset(k));
      }
      var es := EdgesOf(front, k);
      if Good(m) && BucketOf(m) == k {
        assert (es + [EdgeOf(m)])[..|es|] == es;
      } else {
        assert EdgesOf(ms, k) == es;
      }
      if !Good(m) {
        assert Entries(ms) == Entries(front);
      }
    }
  }

  // ----- the reported side -----

  datatype Reported = Reported(venue: map<AssetKey, int64>, fees: map<AssetKey, int64>, buckets: map<BucketKey, int64>,
                               failures: nat)

  function Book(r: Reported, e: Entry): Reported
    requires Fits(e.amount)
  {
    var venue := AddValue(r.venue, Asset(e.key), e.amount);
    var fees := if e.key.bucket == FEE then AddValue(r.fees, Asset(e.key), e.amount) else Some(r.fees);
    var buckets := AddValue(r.buckets, e.key, e.amount);
    Reported(if venue.Some? then venue.value else r.venue, if fees.Some? then fees.value else r.fees,
             if buckets.Some? then buckets.value else r.buckets,
             r.failures + (if venue.Some? then 0 else 1) + (if fees.Some? then 0 else 1) + (if buckets.Some? then 0 else 1))
  }

  /** While nothing overflowed, the reported maps are the sums of what was booked; fee entries carry no symbol. */
  ghost predicate Books(r: Reported, es: seq<Entry>) {
    && (forall i :: 0 <= i < |es| ==> (es[i].key.bucket == FEE ==> es[i].key.symbol == ""))
    && (r.failures == 0 ==>
        && (forall a :: Get(r.venue, a) == AssetSum(es, a) && Get(r.fees, a) == Sum(es, FeeKey(a)))
        && (forall k :: Get(r.buckets, k) == Sum(es, k)))
  }

  lemma BookStep(r: Reported, es: seq<Entry>, e: Entry)
    requires Books(r, es) && Fits(e.amount) && (e.key.bucket == FEE ==> e.key.symbol == "")
    ensures Books(Book(r, e), es + [e])
  {
    forall k
      ensures Sum(es + [e], k) == Sum(es, k) + if e.key == k then e.amount else 0
    {
      SumAppend(es, e, k, Asset(k));
    }
    forall a
      ensures AssetSum(es + [e], a) == AssetSum(es, a) + if Asset(e.key) == a then e.amount else 0
    {
      SumAppend(es, e, FeeKey(a), a);
    }
    hide Sum, AssetSum;
    assert e.key.bucket == FEE ==> forall a :: e.key == FeeKey(a) <==> Asset(e.key) == a;
    assert forall i :: 0 <= i < |es| ==> (es + [e])[i] == es[i];
  }

  predicate ReserveOk(symbol: string, r: Reserve) {
    symbol != "" && r.asset != "" && r.sourceId != "" && r.initial > 0 && r.balance >= 0 && r.endowmentSeq != 0
  }

  /** What one ledger reports for a bucket. */
  function LedgerAmount(l: Ledger, k: BucketKey): int64 {
    if k.venue != l.venue then 0
    else if k.bucket == FEE && k.symbol == "" then Get(l.feeRevenue, k.asset)
    else if k.bucket == INSURANCE && k.symbol == "" then Get(l.insurance, k.asset)
    else if k.bucket == RESERVE && k.symbol in l.reserves && ReserveOk(k.symbol, l.reserves[k.symbol])
            && l.reserves[k.symbol].asset == k.asset then l.reserves[k.symbol].balance
    else 0
  }

  /** What the ledgers report: the first one for each named venue counts. */
  function ReportedAmount(ls: seq<Ledger>, k: BucketKey): int64 {
    if ls == [] then 0
    else if ls[0].venue == k.venue && k.venue != "" then LedgerAmount(ls[0], k)
    else ReportedAmount(ls[1..], k)
  }

  class VenueReport {
    var venue: map<AssetKey, int64>
    var fees: map<AssetKey, int64>
    var buckets: map<BucketKey, int64>
    var failures: nat
    ghost var booked: seq<Entry>

    ghost function State(): Reported
      reads this
    {
      Reported(venue, fees, buckets, failures)
    }

    ghost predicate Valid()
      reads this
    {
      Books(State(), booked)
    }

    constructor ()
      ensures Valid() && booked == []
    {
      venue, fees, buckets := map[], map[], map[];
      failures, booked := 0, [];
    }

    method Add(key: BucketKey, amount: int64)
      requires Valid() && (key.bucket == FEE ==> key.symbol == "")
      modifies this
      ensures Valid() && booked == old(booked) + [Entry(key, amount)]
    {
      hide Books, AddValue;
      BookStep(State(), booked, Entry(key, amount));
      ghost var after := Book(State(), Entry(key, amount));
      var v := AddValue(venue, AssetKey(key.venue, key.asset), amount);
      if v.Some? { venue := v.value; } else { failures := failures + 1; }
      if key.bucket == FEE {
        var f := AddValue(fees, AssetKey(key.venue, key.asset), amount);
        if f.Some? { fees := f.value; } else { failures := failures + 1; }
      }
      var b := AddValue(buckets, key, amount);
      if b.Some? { buckets := b.value; } else { failures := failures + 1; }
      booked := booked + [Entry(key, amount)];
      assert State() == after;
    }

    /** Books one simple bucket of a ledger, asset by asset in any order. */
    method AddBucket(venueId: string, bucket: string, amounts: map<string, int64>)
      requires Valid()
      modifies this
      ensures Valid()
      ensures forall k :: Sum(booked, k) == old(Sum(booked, k))
                          + if k.venue == venueId && k.bucket == bucket && k.symbol == "" then Get(amounts, k.asset) else 0
    {
      ghost var before := booked;
      var rest := amounts.Keys;
      while rest != {}
        invariant Valid() && rest <= amounts.Keys
        invariant forall k :: Sum(booked, k) == Sum(before, k)
                    + if k.venue == venueId && k.bucket == bucket && k.symbol == "" && k.asset in amounts && k.asset !in rest
                      then amounts[k.asset] else 0
      {
        var asset :| asset in rest;
        ghost var was := booked;
        var key := BucketKey(venueId, bucket, asset, "");
        Add(key, amounts[asset]);
        forall k
          ensures Sum(booked, k) == Sum(was, k) + if key == k then amounts[asset] else 0
        {
          SumAppend(was, Entry(key, amounts[asset]), k, Asset(k));
        }
        rest := rest - {asset};
      }
    }

    /** Books the well-formed funding reserves of a ledger. */
    method AddReserves(venueId: string, reserves: map<string, Reserve>)
      requires Valid()
      modifies this
      ensures Valid()
      ensures forall k :: Sum(booked, k) == old(Sum(booked, k))
                          + if k.venue == venueId && k.bucket == RESERVE && k.symbol in reserves && ReserveOk(k.symbol, reserves[k.symbol])
                               && reserves[k.symbol].asset == k.asset then reserves[k.symbol].balance else 0
    {
      ghost var before := booked;
      var rest := reserves.Keys;
      while rest != {}
        invariant Valid() && rest <= reserves.Keys
        invariant forall k :: Sum(booked, k) == Sum(before, k)
                    + if k.venue == venueId && k.bucket == RESERVE && k.symbol in reserves && k.symbol !in rest
                         && ReserveOk(k.symbol, reserves[k.symbol]) && reserves[k.symbol].asset == k.asset
                      then reserves[k.symbol].balance else 0
      {
        var symbol :| symbol in rest;
        var r := reserves[symbol];
        if ReserveOk(symbol, r) {
          ghost var was := booked;
          var key := BucketKey(venueId, RESERVE, r.asset, symbol);
          Add(key, r.balance);
          forall k
            ensures Sum(booked, k) == Sum(was, k) + if key == k then r.balance else 0
          {
            SumAppend(was, Entry(key, r.balance), k, Asset(k));
          }
        }
        rest := rest - {symbol};
      }
    }

    method AddLedger(l: Ledger)
      requires Valid()
      modifies this
      ensures Valid()
      ensures forall k :: Sum(booked, k) == old(Sum(booked, k)) + LedgerAmount(l, k)
    {
      AddBucket(l.venue, FEE, l.feeRevenue);
      AddBucket(l.venue, INSURANCE, l.insurance);
      AddReserves(l.venue, l.reserves);
    }

    /** Every named venue once, by its first ledger. */
    method AddLedgers(ls: seq<Ledger>)
      requires Valid() && booked == []
      modifies this
      ensures Valid()
      ensures forall k :: Sum(booked, k) == ReportedAmount(ls, k)
    {
      var seen: set<string> := {};
      for i := 0 to |ls|
        invariant Valid() && "" !in seen
        invariant forall k: BucketKey :: k.venue in seen ==> Sum(booked, k) == ReportedAmount(ls, k)
        invariant forall k: BucketKey :: k.venue !in seen ==> Sum(booked, k) == 0 && ReportedAmount(ls, k) == ReportedAmount(ls[i..], k)
      {
        var l := ls[i];
        assert ls[i..][1..] == ls[i + 1..] && ls[i..][0] == l;
        if l.venue == "" || l.venue in seen {
          continue;
        }
        ghost var before := booked;
        AddLedger(l);
        seen := seen + {l.venue};
        forall k
          ensures Sum(booked, k) == Sum(before, k) + if k.venue == l.venue then LedgerAmount(l, k) else 0
        {
        }
      }
      assert ls[|ls|..] == [];
    }
  }

  // ----- comparisons -----

  /** How many keys of either map read differently in the other. */
  method CountMapMismatches<K(==,!new)>(left: map<K, int64>, right: map<K, int64>) returns (n: nat)
    ensures n == |set k | k in left.Keys + right.Keys && Get(left, k) != Get(right, k)|
    ensures n == 0 <==> forall k :: Get(left, k) == Get(right, k)
  {
    n := 0;
    var rest := left.Keys + right.Keys;
    var bad: set<K> := {};
    while rest != {}
      invariant rest <= left.Keys + right.Keys && n == |bad|
      invariant bad == set k | k in left.Keys + right.Keys && k !in rest && Get(left, k) != Get(right, k)
    {
      var k :| k in rest;
      if Get(left, k) != Get(right, k) {
        bad := bad + {k};
        n := n + 1;
      }
      rest := rest - {k};
    }
    ghost var all := set k | k in left.Keys + right.Keys && Get(left, k) != Get(right, k);
    assert bad == all;
    if n == 0 {
      assert all == {};
      forall k
        ensures Get(left, k) == Get(right, k)
      {
        if k in left.Keys + right.Keys {
          assert k !in all;
        }
      }
    }
    if forall k :: Get(left, k) == Get(right, k) {
      assert all == {};
    }
  }

  /** Walks one bucket's edges in sequence order. */
  method WalkChain(es: seq<Edge>, terminal: int64) returns (valid: bool, ghost order: seq<Edge>)
    ensures SortedCopy(order, es) && (valid <==> Chained(order, terminal))
  {
    var sorted := Sorting.Sort(BySequence(), es);
    order := sorted;
    hide Chained;
    valid := IsChained(sorted, terminal);
  }

  method IsChained(es: seq<Edge>, terminal: int64) returns (valid: bool)
    ensures valid <==> Chained(es, terminal)
  {
    var current: int64 := 0;
    for i := 0 to |es|
      invariant current == BalanceAt(es, i)
      invariant forall j :: 0 <= j < i ==> es[j].oldBalance == BalanceAt(es, j)
    {
      if es[i].oldBalance != current {
        return false;
      }
      current := es[i].newBalance;
    }
    return current == terminal;
  }

  /** Every recorded bucket chains to its reported balance, and no reported balance lacks a chain. */
  ghost predicate ChainsHold(t: map<BucketKey, seq<Edge>>, terminal: map<BucketKey, int64>) {
    && (forall k :: k in t ==> exists order :: SortedCopy(order, t[k]) && Chained(order, Get(terminal, k)))
    && (forall k :: k in terminal && terminal[k] != 0 ==> k in t)
  }

  method CountChainMismatches(t: map<BucketKey, seq<Edge>>, terminal: map<BucketKey, int64>)
    returns (n: nat, ghost orders: map<BucketKey, seq<Edge>>)
    ensures orders.Keys == t.Keys && forall k :: k in t ==> SortedCopy(orders[k], t[k])
    ensures n == 0 <==> (forall k :: k in t ==> Chained(orders[k], Get(terminal, k)))
                        && (forall k :: k in terminal && terminal[k] != 0 ==> k in t)
    ensures n == 0 ==> ChainsHold(t, terminal)
  {
    n, orders := 0, map[];
    var rest := t.Keys;
    hide SortedCopy, Chained;
    while rest != {}
      invariant rest <= t.Keys && orders.Keys == t.Keys - rest
      invariant forall k :: k in orders ==> SortedCopy(orders[k], t[k])
      invariant n == 0 <==> forall k :: k in orders ==> Chained(orders[k], Get(terminal, k))
    {
      var k :| k in rest;
      var valid, order := WalkChain(t[k], Get(terminal, k));
      if !valid {
        n := n + 1;
      }
      orders := orders[k := order];
      rest := rest - {k};
    }
    var unlinked := CountUnlinked(t, terminal);
    n := n + unlinked;
    if n == 0 {
      forall k | k in t
        ensures exists order :: SortedCopy(order, t[k]) && Chained(order, Get(terminal, k))
      {
        assert SortedCopy(orders[k], t[k]) && Chained(orders[k], Get(terminal, k));
      }
    }
  }

  /** Terminal balances that no recorded movement leads to. */
  method CountUnlinked(t: map<BucketKey, seq<Edge>>, terminal: map<BucketKey, int64>) returns (n: nat)
    ensures n == 0 <==> forall k :: k in terminal && terminal[k] != 0 ==> k in t
  {
    n := 0;
    var rest := terminal.Keys;
    while rest != {}
      invariant rest <= terminal.Keys
      invariant n == 0 <==> forall k :: k in terminal && k !in rest && terminal[k] != 0 ==> k in t
    {
      var k :| k in rest;
      if terminal[k] != 0 && k !in t {
        n := n + 1;
      }
      rest := rest - {k};
    }
  }

  // ----- the theorem -----

  /** Chained buckets force every recorded bucket sum to its reported balance. */
  lemma ChainsFixBuckets(ms: seq<Movement>, a: Audit, terminal: map<BucketKey, int64>, k: BucketKey)
    requires Accounts(a, ms) && ChainsHold(a.transitions, terminal)
    ensures Sum(Entries(ms), k) == Get(terminal, k)
  {
    RiseIsBucketSum(ms, k);
    assert Edges(a.transitions, k) == EdgesOf(ms, k);
    if k in a.transitions {
      var order :| SortedCopy(order, a.transitions[k]) && Chained(order, Get(terminal, k));
      ChainTelescopes(order, Get(terminal, k));
      Sums.SumOfPermutation(Gain, order, a.transitions[k]);
    }
  }

  /** When no chain is broken and no sum overflowed, the recorded holdings equal the reported ones asset by asset, and so
      do fee revenues once every fee reason is an audited one. */
  lemma ChainsImplyBalances(ms: seq<Movement>, r: Reported, booked: seq<Entry>)
    requires Books(r, booked) && r.failures == 0 && ObserveAll(ms).arithmetic == 0
    requires ChainsHold(ObserveAll(ms).transitions, r.buckets)
    ensures forall k :: Get(ObserveAll(ms).recorded, k) == Get(r.venue, k)
    ensures ObserveAll(ms).unsupported == 0 ==> forall k :: Get(ObserveAll(ms).fees, k) == Get(r.fees, k)
  {
    var a := ObserveAll(ms);
    ObserveAllAccounts(ms);
    forall k
      ensures Sum(Entries(ms), k) == Sum(booked, k)
    {
      ChainsFixBuckets(ms, a, r.buckets, k);
    }
    hide ObserveAll, ChainsHold, Entries, Sum, AssetSum;
    forall k
      ensures Get(a.recorded, k) == Get(r.venue, k)
    {
      EqualBucketsEqualAssets(Entries(ms), booked, k);
    }
    if a.unsupported == 0 {
      forall k
        ensures Get(a.fees, k) == Get(r.fees, k)
      {
        assert Sum(Entries(ms), FeeKey(k)) == Sum(booked, FeeKey(k));
      }
    }
  }

  datatype Counts = Counts(arithmetic: nat, malformed: nat, unsupported: nat, balances: nat, fees: nat, chains: nat)

  /** The venue part of the audit, for movements delivered in any order. */
  method MeasureVenue(ms: seq<Movement>, ls: seq<Ledger>) returns (c: Counts)
    ensures c.malformed == ObserveAll(ms).malformed && c.unsupported == ObserveAll(ms).unsupported
    ensures c.arithmetic >= ObserveAll(ms).arithmetic
    ensures c.chains == 0 && c.arithmetic == 0 ==> c.balances == 0
    ensures c.chains == 0 && c.arithmetic == 0 && c.unsupported == 0 ==> c.fees == 0
    ensures c.chains == 0 && c.arithmetic == 0 ==> forall k :: Sum(Entries(ms), k) == ReportedAmount(ls, k)
  {
    var audit := new VenueAudit();
    for i := 0 to |ms|
      invariant fresh(audit) && audit.State() == ObserveAll(ms[..i])
    {
      assert ms[..i + 1][..i] == ms[..i];
      audit.Observe(ms[i]);
    }
    assert ms[..|ms|] == ms;
    var report := new VenueReport();
    report.AddLedgers(ls);
    hide Observed, ObserveAll, Sum, AssetSum, Books, ChainsHold;
    var balances := CountMapMismatches(audit.recorded, report.venue);
    var fees := CountMapMismatches(audit.fees, report.fees);
    var chains, orders := CountChainMismatches(audit.transitions, report.buckets);
    c := Counts(audit.arithmetic + report.failures, audit.malformed, audit.unsupported, balances, fees, chains);
    if c.chains == 0 && c.arithmetic == 0 {
      ChainsImplyBalances(ms, report.State(), report.booked);
      ReportedBuckets(ms, report.State(), report.booked, ls);
    }
  }

  lemma ReportedBuckets(ms: seq<Movement>, r: Reported, booked: seq<Entry>, ls: seq<Ledger>)
    requires Books(r, booked) && r.failures == 0 && ChainsHold(ObserveAll(ms).transitions, r.buckets)
    requires forall k :: Sum(booked, k) == ReportedAmount(ls, k)
    ensures forall k :: Sum(Entries(ms), k) == ReportedAmount(ls, k)
  {
    ObserveAllAccounts(ms);
    forall k
      ensures Sum(Entries(ms), k) == ReportedAmount(ls, k)
    {
      ChainsFixBuckets(ms, ObserveAll(ms), r.buckets, k);
    }
  }
}
