/** The first attempt's terminal state: what the exchange settled and what the delayed inbox knew
(analysis/crossvenue_terminal_groups.go). */
module TerminalGroups {
  import opened Int64
  import opened RouterEvidence
  import opened SubmissionJoin
  import PlacementJoin

  type Result = PlacementJoin.Result

  datatype Counters = Counters(submitted: int64, completed: int64, failed: int64, pending: int64)

  datatype ExchangeOutcome = MatchedFok | UnmatchedFok

  datatype ActorOutcome = TerminalUnobserved | Complete | Failed

  datatype Terminal = Terminal(generation: uint64, exchange: ExchangeOutcome, actor: ActorOutcome, missingReceipts: nat,
                               earlyReceipts: nat)

  predicate CountersOk(c: Counters, groups: nat) {
    && c.submitted == groups && c.completed >= 0 && c.failed >= 0 && c.pending >= 0
    && Wrap(Wrap(c.completed + c.failed) + c.pending) == c.submitted
  }

  // ----- one leg -----

  predicate ResultOf(r: Result, p: Placement) {
    RequestKey(r.venue, r.client, r.requestId) == KeyOf(p)
  }

  /** Result `i` is the only one for this placement. */
  ghost predicate IsOnly(results: seq<Result>, p: Placement, i: nat) {
    i < |results| && forall k :: 0 <= k < |results| ==> (ResultOf(results[k], p) <==> k == i)
  }

  method FindResult(results: seq<Result>, p: Placement) returns (index: Option<nat>)
    ensures index.Some? ==> IsOnly(results, p, index.value)
    ensures index.None? ==> forall i :: !IsOnly(results, p, i)
  {
    index := None;
    for k := 0 to |results|
      invariant index.None? ==> forall n :: 0 <= n < k ==> !ResultOf(results[n], p)
      invariant index.Some? ==> index.value < k && forall n :: 0 <= n < k ==> (ResultOf(results[n], p) <==> n == index.value)
    {
      if ResultOf(results[k], p) {
        if index.Some? {
          assert ResultOf(results[index.value], p);
          return None;
        }
        index := Some(k);
      }
    }
    if index.None? {
      NoneMatches(results, p);
    }
  }

  lemma NoneMatches(results: seq<Result>, p: Placement)
    requires forall k :: 0 <= k < |results| ==> !ResultOf(results[k], p)
    ensures forall i :: !IsOnly(results, p, i)
  {
    forall i: nat
      ensures !IsOnly(results, p, i)
    {
      assert i < |results| ==> !ResultOf(results[i], p);
    }
  }

  predicate FillOf(f: Fill, r: Result) {
    f.event.venue == r.venue && f.event.client == r.client && f.orderId == r.orderId
  }

  function Count(fs: seq<Fill>, r: Result): nat {
    if fs == [] then 0 else Count(fs[..|fs| - 1], r) + if FillOf(fs[|fs| - 1], r) then 1 else 0
  }

  function Missing(fs: seq<Fill>, r: Result): nat {
    if fs == [] then 0
    else Missing(fs[..|fs| - 1], r) + if FillOf(fs[|fs| - 1], r) && fs[|fs| - 1].receiptFrame.None? then 1 else 0
  }

  predicate IsEarly(f: Fill, r: Result) {
    FillOf(f, r) && f.receiptFrame.Some? && r.inboxFrame != 0 && f.receiptFrame.value < r.inboxFrame
  }

  function Early(fs: seq<Fill>, r: Result): nat {
    if fs == [] then 0 else Early(fs[..|fs| - 1], r) + if IsEarly(fs[|fs| - 1], r) then 1 else 0
  }

  predicate IsAccepted(r: Result) {
    r.kind == "ACCEPTED"
  }

  predicate LegOk(r: Result, p: Placement, fs: seq<Fill>, lot: int64) {
    && (r.inboxAt.None? <==> r.inboxFrame == 0)
    && r.kind == p.kind && r.orderId == p.orderId && r.side == p.side && r.exchangeAt == p.event.at
    && (r.kind == "REJECTED" ==> r.filled == 0 && r.reason == p.reason)
    && (r.kind != "REJECTED" ==> r.kind == "ACCEPTED" && r.filled == lot && r.orderId != 0 && Count(fs, r) > 0)
  }

  predicate Known(r: Result, fs: seq<Fill>) {
    if IsAccepted(r) then r.inboxFrame != 0 && Missing(fs, r) == 0 else r.inboxAt.Some?
  }

  /** Fills claimed by an accepted leg. */
  predicate Claims(r: Result, f: Fill) {
    IsAccepted(r) && FillOf(f, r)
  }

  /** Every fill belongs to exactly one accepted leg. */
  ghost predicate Partitioned(a: Result, b: Result, fs: seq<Fill>) {
    forall j :: 0 <= j < |fs| ==> (Claims(a, fs[j]) <==> !Claims(b, fs[j]))
  }

  function LegMissing(r: Result, fs: seq<Fill>): nat {
    if IsAccepted(r) then Missing(fs, r) else 0
  }

  function LegEarly(r: Result, fs: seq<Fill>): nat {
    if IsAccepted(r) then Early(fs, r) else 0
  }

  // ----- the verdict -----

  function ActorOf(a: Result, b: Result, fs: seq<Fill>): ActorOutcome {
    if !Known(a, fs) || !Known(b, fs) then TerminalUnobserved
    else if IsAccepted(a) && IsAccepted(b) then Complete
    else Failed
  }

  function TerminalOf(generation: uint64, a: Result, b: Result, fs: seq<Fill>): Terminal {
    Terminal(generation, if IsAccepted(a) && IsAccepted(b) then MatchedFok else UnmatchedFok, ActorOf(a, b, fs),
             LegMissing(a, fs) + LegMissing(b, fs), LegEarly(a, fs) + LegEarly(b, fs))
  }

  predicate CountersAgree(c: Counters, actor: ActorOutcome) {
    match actor
    case TerminalUnobserved => c.pending == 1
    case Complete => c.completed == 1
    case Failed => c.failed == 1
  }

  /** Results `i` and `j` settle the two legs of the group. */
  ghost predicate Settles(g: Group, results: seq<Result>, fs: seq<Fill>, lot: int64, i: nat, j: nat) {
    && IsOnly(results, g.buy.placement, i) && IsOnly(results, g.sell.placement, j) && i != j
    && LegOk(results[i], g.buy.placement, fs, lot) && LegOk(results[j], g.sell.placement, fs, lot)
    && Partitioned(results[i], results[j], fs)
  }

  datatype LegReport = LegReport(accepted: bool, known: bool, missing: nat, early: nat, used: set<nat>)

  ghost predicate Reports(report: LegReport, r: Result, fs: seq<Fill>) {
    && report.accepted == IsAccepted(r) && report.known == Known(r, fs)
    && report.missing == LegMissing(r, fs) && report.early == LegEarly(r, fs)
    && report.used == set j | 0 <= j < |fs| && Claims(r, fs[j])
  }

  /** One leg: its result must repeat the placement, and an accepted one gathers its fills, none of them taken. */
  method AuditLeg(r: Result, p: Placement, fs: seq<Fill>, lot: int64, used: set<nat>) returns (report: Option<LegReport>)
    ensures report.Some? ==> LegOk(r, p, fs, lot) && Reports(report.value, r, fs) && report.value.used !! used
    ensures report.None? ==> !LegOk(r, p, fs, lot) || exists j :: 0 <= j < |fs| && Claims(r, fs[j]) && j in used
  {
    if r.inboxAt.None? != (r.inboxFrame == 0) || r.kind != p.kind || r.orderId != p.orderId || r.side != p.side ||
       r.exchangeAt != p.event.at {
      return None;
    }
    if r.kind == "REJECTED" {
      if r.filled != 0 || r.reason != p.reason {
        return None;
      }
      return Some(LegReport(false, r.inboxAt.Some?, 0, 0, {}));
    }
    if r.kind != "ACCEPTED" || r.filled != lot || r.orderId == 0 {
      return None;
    }
    var count, missing, early := 0, 0, 0;
    var mine: set<nat> := {};
    for j := 0 to |fs|
      invariant count == Count(fs[..j], r) && missing == Missing(fs[..j], r) && early == Early(fs[..j], r)
      invariant mine == set n | 0 <= n < j && Claims(r, fs[n])
      invariant mine !! used
    {
      assert fs[..j + 1][..j] == fs[..j];
      if !FillOf(fs[j], r) {
        continue;
      }
      assert Claims(r, fs[j]);
      if j in used {
        return None;
      }
      mine := mine + {j};
      count := count + 1;
      if fs[j].receiptFrame.None? {
        missing := missing + 1;
      } else if r.inboxFrame != 0 && fs[j].receiptFrame.value < r.inboxFrame {
        early := early + 1;
      }
    }
    assert fs[..|fs|] == fs;
    if count == 0 {
      return None;
    }
    return Some(LegReport(true, r.inboxFrame != 0 && missing == 0, missing, early, mine));
  }

  /** The positions below `n`. */
  ghost function Below(n: nat): set<nat> {
    if n == 0 then {} else Below(n - 1) + {n - 1}
  }

  lemma {:induction false} BelowIsRange(n: nat)
    ensures |Below(n)| == n && forall j: nat :: j in Below(n) <==> j < n
  {
    if n > 0 {
      BelowIsRange(n - 1);
    }
  }

  /** Disjoint claims cover all fills exactly when they are as many. */
  lemma PartitionFromUse(a: Result, b: Result, fs: seq<Fill>, mine: set<nat>, other: set<nat>)
    requires mine == (set j | 0 <= j < |fs| && Claims(a, fs[j])) && other == (set j | 0 <= j < |fs| && Claims(b, fs[j]))
    requires mine !! other
    ensures |mine + other| == |fs| <==> Partitioned(a, b, fs)
  {
    hide Claims;
    assert forall j: nat :: j < |fs| ==> (j in mine <==> Claims(a, fs[j])) && (j in other <==> Claims(b, fs[j]));
    assert forall j :: j in mine + other ==> j < |fs|;
    CoverBySize(mine + other, |fs|);
  }

  lemma CoverBySize(used: set<nat>, n: nat)
    requires forall j :: j in used ==> j < n
    ensures |used| == n <==> forall j: nat :: j < n ==> j in used
  {
    var all := Below(n);
    BelowIsRange(n);
    if |used| == n {
      SubsetOfSameSize(used, all);
    }
    if forall j: nat :: j < n ==> j in used {
      assert used == all;
    }
  }

  lemma ClashBreaksPartition(a: Result, b: Result, fs: seq<Fill>, mine: set<nat>, j: nat)
    requires mine == (set n | 0 <= n < |fs| && Claims(a, fs[n])) && j < |fs| && Claims(b, fs[j]) && j in mine
    ensures !Partitioned(a, b, fs)
  {
  }

  /** The group settles, with some pair of results. */
  ghost predicate Settleable(g: Group, results: seq<Result>, fs: seq<Fill>, lot: int64) {
    exists i: nat, j: nat :: Settles(g, results, fs, lot, i, j)
  }

  lemma OnlyOnce(results: seq<Result>, p: Placement, i: nat, j: nat)
    requires IsOnly(results, p, i) && IsOnly(results, p, j)
    ensures i == j
  {
    assert ResultOf(results[i], p);
  }

  lemma NotSettleable(g: Group, results: seq<Result>, fs: seq<Fill>, lot: int64, i: nat, j: nat)
    requires IsOnly(results, g.buy.placement, i) && IsOnly(results, g.sell.placement, j)
    requires !Settles(g, results, fs, lot, i, j)
    ensures !Settleable(g, results, fs, lot)
  {
    hide LegOk, Partitioned, IsOnly;
    forall i': nat, j': nat | Settles(g, results, fs, lot, i', j')
      ensures false
    {
      OnlyOnce(results, g.buy.placement, i, i');
      OnlyOnce(results, g.sell.placement, j, j');
    }
  }

  /** Both legs of a group, given their results. */
  method AuditLegs(g: Group, a: Result, b: Result, fs: seq<Fill>, lot: int64) returns (t: Option<Terminal>)
    ensures t.Some? <==> LegOk(a, g.buy.placement, fs, lot) && LegOk(b, g.sell.placement, fs, lot) && Partitioned(a, b, fs)
    ensures t.Some? ==> t.value == TerminalOf(g.generation, a, b, fs)
  {
    hide LegOk, LegMissing, LegEarly, Known, IsAccepted, Claims, Partitioned;
    var first := AuditLeg(a, g.buy.placement, fs, lot, {});
    if first.None? {
      return None;
    }
    var second := AuditLeg(b, g.sell.placement, fs, lot, first.value.used);
    if second.None? {
      if n :| 0 <= n < |fs| && Claims(b, fs[n]) && n in first.value.used {
        ClashBreaksPartition(a, b, fs, first.value.used, n);
      }
      return None;
    }
    PartitionFromUse(a, b, fs, first.value.used, second.value.used);
    if |first.value.used + second.value.used| != |fs| {
      return None;
    }
    t := Some(Conclude(g.generation, first.value, second.value));
  }

  /** The verdict on two audited legs. */
  function Conclude(generation: uint64, first: LegReport, second: LegReport): Terminal {
    var actor := if !first.known || !second.known then TerminalUnobserved
                 else if first.accepted && second.accepted then Complete
                 else Failed;
    Terminal(generation, if first.accepted && second.accepted then MatchedFok else UnmatchedFok, actor,
             first.missing + second.missing, first.early + second.early)
  }

  method AuditGroup(g: Group, results: seq<Result>, fs: seq<Fill>, lot: int64)
    returns (t: Option<Terminal>, ghost i: nat, ghost j: nat)
    ensures t.Some? ==> Settles(g, results, fs, lot, i, j) && t.value == TerminalOf(g.generation, results[i], results[j], fs)
    ensures t.None? ==> !Settleable(g, results, fs, lot)
  {
    i, j := 0, 0;
    hide LegOk, IsOnly, TerminalOf, Partitioned;
    var buy := FindResult(results, g.buy.placement);
    if buy.None? {
      return None, i, j;
    }
    var sell := FindResult(results, g.sell.placement);
    if sell.None? {
      return None, i, j;
    }
    i, j := buy.value, sell.value;
    OnlyInRange(results, g.buy.placement, buy.value);
    OnlyInRange(results, g.sell.placement, sell.value);
    t := AuditLegs(g, results[buy.value], results[sell.value], fs, lot);
    if t.None? || buy.value == sell.value {
      NotSettleable(g, results, fs, lot, i, j);
      t := None;
    }
  }

  lemma OnlyInRange(results: seq<Result>, p: Placement, i: nat)
    requires IsOnly(results, p, i)
    ensures i < |results|
  {
  }

  /** Acceptable inputs of the whole step. */
  ghost predicate TerminalOk(groups: seq<Group>, results: seq<Result>, fs: seq<Fill>, c: Counters, lot: int64, i: nat, j: nat) {
    && lot > 0 && |groups| <= 1 && |results| == 2 * |groups| && CountersOk(c, |groups|)
    && (|groups| == 0 ==> fs == [])
    && (|groups| == 1 ==> Settles(groups[0], results, fs, lot, i, j) && CountersAgree(c, ActorOf(results[i], results[j], fs)))
  }

  /** The terminal verdict on at most one attempt; no attempt has no verdict. */
  method ReconcileTerminal(groups: seq<Group>, results: seq<Result>, fs: seq<Fill>, c: Counters, lot: int64)
    returns (ok: bool, t: Option<Terminal>, ghost i: nat, ghost j: nat)
    ensures ok ==> TerminalOk(groups, results, fs, c, lot, i, j) && (t.Some? <==> |groups| == 1)
    ensures ok && t.Some? ==> t.value == TerminalOf(groups[0].generation, results[i], results[j], fs)
    ensures !ok ==> forall i', j' :: !TerminalOk(groups, results, fs, c, lot, i', j')
  {
    i, j, t := 0, 0, None;
    if lot <= 0 || |groups| > 1 || |results| != 2 * |groups| || !CountersOk(c, |groups|) {
      return false, None, i, j;
    }
    if |groups| == 0 {
      return fs == [], None, i, j;
    }
    hide Settles, ActorOf, LegMissing, LegEarly, Known, CountersOk;
    t, i, j := AuditGroup(groups[0], results, fs, lot);
    if t.None? {
      return false, None, i, j;
    }
    if !CountersAgree(c, t.value.actor) {
      forall i', j' | TerminalOk(groups, results, fs, c, lot, i', j')
        ensures false
      {
        SamePair(groups[0], results, fs, lot, i, j, i', j');
      }
      return false, None, i, j;
    }
    return true, t, i, j;
  }

  lemma SamePair(g: Group, results: seq<Result>, fs: seq<Fill>, lot: int64, i: nat, j: nat, i': nat, j': nat)
    requires Settles(g, results, fs, lot, i, j) && Settles(g, results, fs, lot, i', j')
    ensures i == i' && j == j'
  {
    hide IsOnly, LegOk, Partitioned;
    OnlyOnce(results, g.buy.placement, i, i');
    OnlyOnce(results, g.sell.placement, j, j');
  }
}
