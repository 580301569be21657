/** Venue account changes explained by settled fills (analysis/crossvenue_accounts.go). */
module RouterAccounts {
  import opened Int64
  import opened RouterEvidence

  datatype Wallet = Wallet(asset: string, free: int64, locked: int64, borrowed: int64, interest: int64, netAsset: int64)

  datatype Account = Account(timestamp: int64, spot: seq<Wallet>, perpBalances: nat, borrowed: map<string, int64>, positions: nat)

  datatype Row = Row(venue: string, client: uint64, role: string, phase: string, account: Account)

  datatype Convention = Convention(symbol: string, baseAsset: string, quoteAsset: string, basePrecision: int64, takerFeeBps: int64)

  datatype Delta = Delta(venue: string, client: uint64, baseDelta: int64, quoteDelta: int64, filledBase: int64,
                         quoteFlow: int64, quoteFees: int64, fillCount: nat)

  datatype Venues = Venues(first: string, second: string)

  datatype Report = Report(initial: seq<Row>, terminal: seq<Row>)

  // ----- balances -----

  predicate WalletOk(w: Wallet, base: string, quote: string) {
    && w.borrowed == 0 && w.interest == 0 && w.locked == 0 && w.free == w.netAsset
    && (w.asset != base && w.asset != quote ==> w.netAsset == 0)
  }

  ghost predicate Unfinanced(a: Account, base: string, quote: string) {
    && a.perpBalances == 0 && a.positions == 0 && (forall k :: k in a.borrowed ==> a.borrowed[k] == 0)
    && Readable(a.spot, base, quote) && base in Assets(a.spot) && quote in Assets(a.spot)
  }

  function Assets(ws: seq<Wallet>): map<string, int64> {
    if ws == [] then map[] else Assets(ws[..|ws| - 1])[ws[|ws| - 1].asset := ws[|ws| - 1].netAsset]
  }

  method NoDebt(borrowed: map<string, int64>) returns (ok: bool)
    ensures ok <==> forall k :: k in borrowed ==> borrowed[k] == 0
  {
    var rest := borrowed.Keys;
    while rest != {}
      invariant rest <= borrowed.Keys && forall k :: k in borrowed && k !in rest ==> borrowed[k] == 0
    {
      var k :| k in rest;
      if borrowed[k] != 0 {
        return false;
      }
      rest := rest - {k};
    }
    return true;
  }

  /** Wallets that can be read off: none financed, none listed twice. */
  ghost predicate Readable(ws: seq<Wallet>, base: string, quote: string) {
    && (forall i :: 0 <= i < |ws| ==> WalletOk(ws[i], base, quote))
    && (forall i, j :: 0 <= i < j < |ws| ==> ws[i].asset != ws[j].asset)
  }

  /** After some wallets: all readable, and `balances` holds their net assets. */
  ghost predicate Tallied(ws: seq<Wallet>, base: string, quote: string, balances: map<string, int64>) {
    && Readable(ws, base, quote) && balances == Assets(ws)
    && forall k :: k in balances <==> exists n :: 0 <= n < |ws| && ws[n].asset == k
  }

  lemma TallyStep(ws: seq<Wallet>, base: string, quote: string, balances: map<string, int64>, i: nat)
    requires i < |ws| && Tallied(ws[..i], base, quote, balances)
    ensures !WalletOk(ws[i], base, quote) || ws[i].asset in balances ==> !Readable(ws, base, quote)
    ensures WalletOk(ws[i], base, quote) && ws[i].asset !in balances ==>
              Tallied(ws[..i + 1], base, quote, balances[ws[i].asset := ws[i].netAsset])
  {
    hide WalletOk;
    var before, after := ws[..i], ws[..i + 1];
    assert after[..i] == before && after[i] == ws[i];
    assert forall n :: 0 <= n < i ==> before[n] == ws[n] == after[n];
    if ws[i].asset in balances {
      var n :| 0 <= n < i && before[n].asset == ws[i].asset;
      assert ws[n].asset == ws[i].asset;
    } else {
      var balances' := balances[ws[i].asset := ws[i].netAsset];
      forall k
        ensures k in balances' <==> exists n :: 0 <= n < |after| && after[n].asset == k
      {
        if k in balances {
          var n :| 0 <= n < i && before[n].asset == k;
          assert after[n].asset == k;
        } else if k == ws[i].asset {
          assert after[i].asset == k;
        }
      }
    }
  }

  method CheckWallet(w: Wallet, base: string, quote: string) returns (ok: bool)
    ensures ok <==> WalletOk(w, base, quote)
  {
    if w.borrowed != 0 || w.interest != 0 || w.locked != 0 {
      return false;
    }
    var total := TryAdd(w.free, w.locked);
    return total == Some(w.netAsset) && !(w.asset != base && w.asset != quote && w.netAsset != 0);
  }

  method ReadWallets(ws: seq<Wallet>, base: string, quote: string) returns (r: Option<map<string, int64>>)
    ensures r.Some? <==> Readable(ws, base, quote)
    ensures r.Some? ==> r.value == Assets(ws)
  {
    var balances: map<string, int64> := map[];
    assert ws[..0] == [];
    assert Tallied(ws[..0], base, quote, balances);
    hide Readable, Assets, WalletOk;
    for i := 0 to |ws|
      invariant Tallied(ws[..i], base, quote, balances)
    {
      hide Tallied;
      TallyStep(ws, base, quote, balances, i);
      var fine := CheckWallet(ws[i], base, quote);
      if ws[i].asset in balances || !fine {
        return None;
      }
      balances := balances[ws[i].asset := ws[i].netAsset];
    }
    assert ws[..|ws|] == ws;
    return Some(balances);
  }

  /** Net holdings by asset of an account with no exposure, debt or locked inventory. */
  method Balances(a: Account, base: string, quote: string) returns (r: Option<map<string, int64>>)
    ensures r.Some? <==> Unfinanced(a, base, quote)
    ensures r.Some? ==> r.value == Assets(a.spot)
  {
    if a.perpBalances != 0 || a.positions != 0 {
      return None;
    }
    var clear := NoDebt(a.borrowed);
    if !clear {
      return None;
    }
    hide WalletOk, Assets;
    r := ReadWallets(a.spot, base, quote);
    if r.Some? && (base !in r.value || quote !in r.value) {
      return None;
    }
  }

  predicate RowOf(r: Row, venue: string, client: uint64) {
    r.venue == venue && r.client == client
  }

  /** Row `i` is the account's only one, in the phase asked for. */
  ghost predicate IsAccount(rows: seq<Row>, venue: string, client: uint64, phase: string, i: nat) {
    && i < |rows| && rows[i].phase == phase
    && forall k :: 0 <= k < |rows| ==> (RowOf(rows[k], venue, client) <==> k == i)
  }

  method OneAccount(rows: seq<Row>, venue: string, client: uint64, phase: string) returns (index: Option<nat>)
    ensures index.Some? ==> IsAccount(rows, venue, client, phase, index.value)
    ensures index.None? ==> forall i :: !IsAccount(rows, venue, client, phase, i)
  {
    index := None;
    for k := 0 to |rows|
      invariant index.None? ==> forall n :: 0 <= n < k ==> !RowOf(rows[n], venue, client)
      invariant index.Some? ==> index.value < k && rows[index.value].phase == phase
      invariant index.Some? ==> forall n :: 0 <= n < k ==> (RowOf(rows[n], venue, client) <==> n == index.value)
    {
      if !RowOf(rows[k], venue, client) {
        continue;
      }
      if index.Some? || rows[k].phase != phase {
        assert RowOf(rows[k], venue, client);
        assert index.Some? ==> RowOf(rows[index.value], venue, client);
        return None;
      }
      index := Some(k);
    }
    if index.None? {
      NoAccount(rows, venue, client, phase);
    }
  }

  lemma NoAccount(rows: seq<Row>, venue: string, client: uint64, phase: string)
    requires forall k :: 0 <= k < |rows| ==> !RowOf(rows[k], venue, client)
    ensures forall i :: !IsAccount(rows, venue, client, phase, i)
  {
    forall i: nat
      ensures !IsAccount(rows, venue, client, phase, i)
    {
      assert i < |rows| ==> !RowOf(rows[i], venue, client);
    }
  }

  /** Rows `i` and `j` are one account before and after. */
  ghost predicate Endpoints(rep: Report, venue: string, client: uint64, c: Convention, i: nat, j: nat) {
    && IsAccount(rep.initial, venue, client, "initial", i) && IsAccount(rep.terminal, venue, client, "terminal_post_mark", j)
    && EndpointsOk(rep.initial[i], rep.terminal[j], c)
  }

  ghost predicate EndpointsOk(a: Row, b: Row, c: Convention) {
    && a.role != "" && b.role == a.role && a.account.timestamp <= b.account.timestamp
    && Unfinanced(a.account, c.baseAsset, c.quoteAsset) && Unfinanced(b.account, c.baseAsset, c.quoteAsset)
    && Change(a, b, c.baseAsset).Some? && Change(a, b, c.quoteAsset).Some?
  }

  function Change(a: Row, b: Row, asset: string): Option<int64> {
    var before, after := Assets(a.account.spot), Assets(b.account.spot);
    if asset in before && asset in after then TrySub(after[asset], before[asset]) else None
  }

  ghost predicate HasEndpoints(rep: Report, venue: string, client: uint64, c: Convention) {
    exists i: nat, j: nat :: Endpoints(rep, venue, client, c, i, j)
  }

  /** The declared change of one account, whichever rows hold it. */
  ghost predicate Declares(rep: Report, d: Delta, c: Convention) {
    exists i: nat, j: nat :: Endpoints(rep, d.venue, d.client, c, i, j)
      && Change(rep.initial[i], rep.terminal[j], c.baseAsset) == Some(d.baseDelta)
      && Change(rep.initial[i], rep.terminal[j], c.quoteAsset) == Some(d.quoteDelta)
  }

  lemma SameAccount(rows: seq<Row>, venue: string, client: uint64, phase: string, i: nat, j: nat)
    requires IsAccount(rows, venue, client, phase, i) && IsAccount(rows, venue, client, phase, j)
    ensures i == j
  {
    assert RowOf(rows[i], venue, client);
  }

  lemma NoEndpoints(rep: Report, venue: string, client: uint64, c: Convention, i: nat, j: nat)
    requires IsAccount(rep.initial, venue, client, "initial", i) && IsAccount(rep.terminal, venue, client, "terminal_post_mark", j)
    requires !EndpointsOk(rep.initial[i], rep.terminal[j], c)
    ensures !HasEndpoints(rep, venue, client, c)
  {
    hide IsAccount, EndpointsOk;
    forall i': nat, j': nat
      ensures !Endpoints(rep, venue, client, c, i', j')
    {
      if Endpoints(rep, venue, client, c, i', j') {
        SameAccount(rep.initial, venue, client, "initial", i, i');
        SameAccount(rep.terminal, venue, client, "terminal_post_mark", j, j');
      }
    }
  }

  lemma AccountInRange(rows: seq<Row>, venue: string, client: uint64, phase: string, i: nat)
    requires IsAccount(rows, venue, client, phase, i)
    ensures i < |rows|
  {
  }

  /** The change of one account between its two endpoints. */
  method AccountDelta(rep: Report, venue: string, client: uint64, c: Convention) returns (d: Option<Delta>)
    ensures d.Some? <==> HasEndpoints(rep, venue, client, c)
    ensures d.Some? ==> Declares(rep, d.value, c) && d.value == Delta(venue, client, d.value.baseDelta, d.value.quoteDelta, 0, 0, 0, 0)
  {
    hide IsAccount, Unfinanced;
    var i := OneAccount(rep.initial, venue, client, "initial");
    if i.None? {
      return None;
    }
    var j := OneAccount(rep.terminal, venue, client, "terminal_post_mark");
    if j.None? {
      return None;
    }
    AccountInRange(rep.initial, venue, client, "initial", i.value);
    AccountInRange(rep.terminal, venue, client, "terminal_post_mark", j.value);
    var a, b := rep.initial[i.value], rep.terminal[j.value];
    if a.role == "" || b.role != a.role || a.account.timestamp > b.account.timestamp {
      NoEndpoints(rep, venue, client, c, i.value, j.value);
      return None;
    }
    var before := Balances(a.account, c.baseAsset, c.quoteAsset);
    var after := Balances(b.account, c.baseAsset, c.quoteAsset);
    if before.None? || after.None? {
      NoEndpoints(rep, venue, client, c, i.value, j.value);
      return None;
    }
    UnfinancedHolds(a.account, c.baseAsset, c.quoteAsset);
    UnfinancedHolds(b.account, c.baseAsset, c.quoteAsset);
    var base := TrySub(after.value[c.baseAsset], before.value[c.baseAsset]);
    var quote := TrySub(after.value[c.quoteAsset], before.value[c.quoteAsset]);
    if base.None? || quote.None? {
      NoEndpoints(rep, venue, client, c, i.value, j.value);
      return None;
    }
    assert Endpoints(rep, venue, client, c, i.value, j.value);
    d := Some(Delta(venue, client, base.value, quote.value, 0, 0, 0, 0));
  }

  lemma UnfinancedHolds(a: Account, base: string, quote: string)
    requires Unfinanced(a, base, quote)
    ensures base in Assets(a.spot) && quote in Assets(a.spot)
  {
  }

  // ----- flows -----

  function NotionalOf(f: Fill, c: Convention): Option<int64> {
    TryMulDiv(f.qty, f.price, c.basePrecision)
  }

  /** The signed base and quote a fill moves; none when the fill cannot be the router's. */
  datatype Flow = Flow(base: int64, quote: int64, fee: int64)

  function FlowOf(f: Fill, client: uint64, c: Convention): Option<Flow> {
    if f.event.client != client || f.symbol != c.symbol || f.role != "taker" || f.qty <= 0 || f.price <= 0
       || f.feeAsset != c.quoteAsset then None
    else
      match NotionalOf(f, c)
      case None => None
      case Some(notional) =>
        if TryMulBps(notional, c.takerFeeBps) != Some(f.feeAmount) then None
        else if f.side == "BUY" then
          match TryAdd(notional, f.feeAmount)
          case None => None
          case Some(paid) => if paid == MIN then Some(Flow(f.qty, MIN, f.feeAmount)) else Some(Flow(f.qty, -(paid as int), f.feeAmount))
        else if f.side == "SELL" then
          match TrySub(notional, f.feeAmount)
          case None => None
          case Some(got) => Some(Flow(-(f.qty as int), got, f.feeAmount))
        else None
  }

  function SignedQty(f: Fill): int {
    var quantity: int := f.qty;
    if f.side == "BUY" then quantity else -quantity
  }

  lemma FlowMovesTheQuantity(f: Fill, client: uint64, c: Convention)
    requires FlowOf(f, client, c).Some?
    ensures FlowOf(f, client, c).value.base == SignedQty(f)
  {
  }

  function AddFlow(d: Delta, w: Flow): Option<Delta> {
    match (TryAdd(d.filledBase, w.base), TryAdd(d.quoteFlow, w.quote), TryAdd(d.quoteFees, w.fee))
    case (Some(base), Some(quote), Some(fees)) =>
      Some(d.(filledBase := base, quoteFlow := quote, quoteFees := fees, fillCount := d.fillCount + 1))
    case _ => None
  }

  /** A row after one more fill; a fill on another venue leaves it alone. */
  function Advance(row: Delta, f: Fill, c: Convention): Option<Delta> {
    if f.event.venue != row.venue then Some(row)
    else
      match FlowOf(f, row.client, c)
      case None => None
      case Some(w) => AddFlow(row, w)
  }

  /** One venue's row after some fills; none once anything is refused. */
  function RowAfter(d: Delta, fs: seq<Fill>, c: Convention): Option<Delta> {
    if fs == [] then Some(d)
    else
      match RowAfter(d, fs[..|fs| - 1], c)
      case None => None
      case Some(row) => Advance(row, fs[|fs| - 1], c)
  }

  /** Net signed quantity of the fills on one venue. */
  function NetOn(fs: seq<Fill>, venue: string): int {
    if fs == [] then 0
    else NetOn(fs[..|fs| - 1], venue) + if fs[|fs| - 1].event.venue == venue then SignedQty(fs[|fs| - 1]) else 0
  }

  function Net(fs: seq<Fill>): int {
    if fs == [] then 0 else Net(fs[..|fs| - 1]) + SignedQty(fs[|fs| - 1])
  }

  lemma {:induction false} RowBaseIsNet(d: Delta, fs: seq<Fill>, c: Convention)
    requires RowAfter(d, fs, c).Some?
    ensures RowAfter(d, fs, c).value.filledBase == d.filledBase + NetOn(fs, d.venue)
  {
    if fs != [] {
      RowKeeps(d, fs[..|fs| - 1], c);
      RowBaseIsNet(d, fs[..|fs| - 1], c);
      var f := fs[|fs| - 1];
      if f.event.venue == d.venue {
        FlowMovesTheQuantity(f, d.client, c);
      }
      hide FlowOf;
    }
  }

  /** Quote a fill brings in: a sale's notional less its fee, or minus a purchase's notional and fee. */
  function CashOf(f: Fill, c: Convention): int
    requires c.basePrecision > 0
  {
    var notional := Quo(f.qty * f.price, c.basePrecision);
    if f.side == "BUY" then -(notional + f.feeAmount) else notional - f.feeAmount
  }

  function CashOn(fs: seq<Fill>, venue: string, c: Convention): int
    requires c.basePrecision > 0
  {
    if fs == [] then 0
    else CashOn(fs[..|fs| - 1], venue, c) + if fs[|fs| - 1].event.venue == venue then CashOf(fs[|fs| - 1], c) else 0
  }

  function Cash(fs: seq<Fill>, c: Convention): int
    requires c.basePrecision > 0
  {
    if fs == [] then 0 else Cash(fs[..|fs| - 1], c) + CashOf(fs[|fs| - 1], c)
  }

  /** A flow carries the exact cash of the fill, and its fee is the declared taker fee on the truncated notional. */
  lemma FlowMovesTheCash(f: Fill, client: uint64, c: Convention)
    requires c.basePrecision > 0 && c.takerFeeBps >= 0 && FlowOf(f, client, c).Some?
    ensures FlowOf(f, client, c).value.quote == CashOf(f, c)
    ensures f.feeAmount == Quo(Quo(f.qty * f.price, c.basePrecision) * c.takerFeeBps, 10000)
  {
    var notional := NotionalOf(f, c).value;
    QuoRemainder(f.qty * f.price, c.basePrecision);
    QuoRemainder(notional * c.takerFeeBps, 10000);
  }

  lemma {:induction false} RowQuoteIsCash(d: Delta, fs: seq<Fill>, c: Convention)
    requires c.basePrecision > 0 && c.takerFeeBps >= 0 && RowAfter(d, fs, c).Some?
    ensures RowAfter(d, fs, c).value.quoteFlow == d.quoteFlow + CashOn(fs, d.venue, c)
  {
    if fs != [] {
      RowKeeps(d, fs[..|fs| - 1], c);
      RowQuoteIsCash(d, fs[..|fs| - 1], c);
      var f := fs[|fs| - 1];
      if f.event.venue == d.venue {
        FlowMovesTheCash(f, d.client, c);
      }
      hide FlowOf, CashOf;
    }
  }

  lemma RowStep(d: Delta, fs: seq<Fill>, c: Convention, k: nat)
    requires k < |fs|
    ensures RowAfter(d, fs[..k + 1], c)
            == match RowAfter(d, fs[..k], c) case None => None case Some(row) => Advance(row, fs[k], c)
  {
    hide Advance;
    assert fs[..k + 1][..k] == fs[..k];
  }

  lemma {:induction false} RowOfPrefix(d: Delta, fs: seq<Fill>, c: Convention, k: nat)
    requires k <= |fs| && RowAfter(d, fs, c).Some?
    ensures RowAfter(d, fs[..k], c).Some?
    decreases |fs| - k
  {
    if k == |fs| {
      assert fs[..k] == fs;
    } else {
      RowOfPrefix(d, fs, c, k + 1);
      RowStep(d, fs, c, k);
    }
  }

  // ----- the reconciliation -----

  predicate ConventionOk(vs: Venues, clients: map<string, uint64>, c: Convention) {
    && vs.first != "" && vs.second != "" && vs.first != vs.second && |clients| == 2
    && vs.first in clients && clients[vs.first] != 0 && vs.second in clients && clients[vs.second] != 0
    && c.symbol != "" && c.baseAsset != "" && c.quoteAsset != "" && c.baseAsset != c.quoteAsset
    && c.basePrecision > 0 && c.takerFeeBps >= 0
  }

  ghost predicate OnVenues(fs: seq<Fill>, vs: Venues) {
    forall k :: 0 <= k < |fs| ==> fs[k].event.venue == vs.first || fs[k].event.venue == vs.second
  }

  predicate Balanced(d: Delta) {
    d.baseDelta == d.filledBase && d.quoteDelta == d.quoteFlow
  }

  /** A venue's declared change is exactly what its fills moved. */
  ghost predicate Explains(start: Delta, final: Delta, rep: Report, fs: seq<Fill>, c: Convention) {
    && Declares(rep, start, c) && start == Delta(start.venue, start.client, start.baseDelta, start.quoteDelta, 0, 0, 0, 0)
    && RowAfter(start, fs, c) == Some(final) && Balanced(final)
  }

  /** Everything the reconciliation requires, given the two declared changes. */
  ghost predicate Reconciles(rep: Report, vs: Venues, clients: map<string, uint64>, fs: seq<Fill>, c: Convention, a: Delta, b: Delta) {
    && ConventionOk(vs, clients, c) && OnVenues(fs, vs)
    && a.venue == vs.first && a.client == clients[vs.first] && b.venue == vs.second && b.client == clients[vs.second]
    && (exists a0, b0 :: Explains(a0, a, rep, fs, c) && a0.venue == a.venue && a0.client == a.client
                         && Explains(b0, b, rep, fs, c) && b0.venue == b.venue && b0.client == b.client)
  }

  /** Both rows after the first `k` fills, all of them on the two venues. */
  ghost predicate Applied(a0: Delta, b0: Delta, fs: seq<Fill>, c: Convention, k: nat, a: Delta, b: Delta)
    requires k <= |fs|
  {
    && RowAfter(a0, fs[..k], c) == Some(a) && RowAfter(b0, fs[..k], c) == Some(b)
    && forall n :: 0 <= n < k ==> fs[n].event.venue == a0.venue || fs[n].event.venue == b0.venue
  }

  lemma ApplyStep(a0: Delta, b0: Delta, fs: seq<Fill>, c: Convention, k: nat, a: Delta, b: Delta)
    requires k < |fs| && Applied(a0, b0, fs, c, k, a, b)
    requires fs[k].event.venue == a0.venue || fs[k].event.venue == b0.venue
    ensures a.venue == a0.venue && b.venue == b0.venue
    ensures Advance(a, fs[k], c).None? || Advance(b, fs[k], c).None? ==> RowAfter(a0, fs, c).None? || RowAfter(b0, fs, c).None?
    ensures Advance(a, fs[k], c).Some? && Advance(b, fs[k], c).Some? ==>
              Applied(a0, b0, fs, c, k + 1, Advance(a, fs[k], c).value, Advance(b, fs[k], c).value)
  {
    hide RowAfter, Advance;
    RowKeeps(a0, fs[..k], c);
    RowKeeps(b0, fs[..k], c);
    RowStep(a0, fs, c, k);
    RowStep(b0, fs, c, k);
    if Advance(a, fs[k], c).None? || Advance(b, fs[k], c).None? {
      Stuck(a0, b0, fs, c, k);
    }
  }

  method ApplyFills(a0: Delta, b0: Delta, fs: seq<Fill>, c: Convention) returns (ok: bool, a: Delta, b: Delta)
    requires a0.venue != b0.venue
    ensures ok <==> OnVenues(fs, Venues(a0.venue, b0.venue)) && RowAfter(a0, fs, c).Some? && RowAfter(b0, fs, c).Some?
    ensures ok ==> RowAfter(a0, fs, c) == Some(a) && RowAfter(b0, fs, c) == Some(b)
  {
    a, b := a0, b0;
    assert fs[..0] == [];
    for k := 0 to |fs|
      invariant Applied(a0, b0, fs, c, k, a, b)
    {
      hide RowAfter, Advance, Applied;
      var f := fs[k];
      if f.event.venue != a0.venue && f.event.venue != b0.venue {
        return false, a, b;
      }
      ApplyStep(a0, b0, fs, c, k, a, b);
      var first := Advance(a, f, c);
      var second := Advance(b, f, c);
      if first.None? || second.None? {
        return false, a, b;
      }
      a, b := first.value, second.value;
    }
    assert fs[..|fs|] == fs;
    return true, a, b;
  }

  lemma Stuck(a0: Delta, b0: Delta, fs: seq<Fill>, c: Convention, k: nat)
    requires k < |fs| && (RowAfter(a0, fs[..k + 1], c).None? || RowAfter(b0, fs[..k + 1], c).None?)
    ensures RowAfter(a0, fs, c).None? || RowAfter(b0, fs, c).None?
  {
    hide RowAfter;
    if RowAfter(a0, fs, c).Some? {
      RowOfPrefix(a0, fs, c, k + 1);
    }
    if RowAfter(b0, fs, c).Some? {
      RowOfPrefix(b0, fs, c, k + 1);
    }
  }

  lemma DeclaredOnce(rep: Report, d: Delta, e: Delta, c: Convention)
    requires Declares(rep, d, c) && Declares(rep, e, c) && d.venue == e.venue && d.client == e.client
    ensures d.baseDelta == e.baseDelta && d.quoteDelta == e.quoteDelta
  {
    hide EndpointsOk, Change;
    var i: nat, j: nat :| Endpoints(rep, d.venue, d.client, c, i, j)
      && Change(rep.initial[i], rep.terminal[j], c.baseAsset) == Some(d.baseDelta)
      && Change(rep.initial[i], rep.terminal[j], c.quoteAsset) == Some(d.quoteDelta);
    var i': nat, j': nat :| Endpoints(rep, e.venue, e.client, c, i', j')
      && Change(rep.initial[i'], rep.terminal[j'], c.baseAsset) == Some(e.baseDelta)
      && Change(rep.initial[i'], rep.terminal[j'], c.quoteAsset) == Some(e.quoteDelta);
    SameAccount(rep.initial, d.venue, d.client, "initial", i, i');
    SameAccount(rep.terminal, d.venue, d.client, "terminal_post_mark", j, j');
  }

  lemma DeclaredHasEndpoints(rep: Report, d: Delta, c: Convention)
    requires Declares(rep, d, c)
    ensures HasEndpoints(rep, d.venue, d.client, c)
  {
    hide Endpoints, Change;
  }

  /** Succeeds exactly when settled fills explain both accounts' changes, and returns the two rows. */
  method ReconcileAccounts(rep: Report, vs: Venues, clients: map<string, uint64>, fs: seq<Fill>, c: Convention)
    returns (ok: bool, a: Delta, b: Delta)
    ensures ok ==> Reconciles(rep, vs, clients, fs, c, a, b)
    ensures !ok ==> forall a', b' :: !Reconciles(rep, vs, clients, fs, c, a', b')
  {
    a, b := Delta("", 0, 0, 0, 0, 0, 0, 0), Delta("", 0, 0, 0, 0, 0, 0, 0);
    if !ConventionOk(vs, clients, c) {
      return false, a, b;
    }
    hide Declares, HasEndpoints, RowAfter, OnVenues;
    var first := AccountDelta(rep, vs.first, clients[vs.first], c);
    var second := AccountDelta(rep, vs.second, clients[vs.second], c);
    if first.None? || second.None? {
      Undeclared(rep, vs, clients, fs, c);
      return false, a, b;
    }
    var applied, x, y := ApplyFills(first.value, second.value, fs, c);
    if !applied || !Balanced(x) || !Balanced(y) {
      Unexplained(rep, vs, clients, fs, c, first.value, second.value);
      return false, a, b;
    }
    RowKeeps(first.value, fs, c);
    RowKeeps(second.value, fs, c);
    assert Explains(first.value, x, rep, fs, c) && Explains(second.value, y, rep, fs, c);
    return true, x, y;
  }

  lemma AdvanceKeeps(row: Delta, f: Fill, c: Convention)
    requires Advance(row, f, c).Some?
    ensures var next := Advance(row, f, c).value;
            && next.venue == row.venue && next.client == row.client
            && next.baseDelta == row.baseDelta && next.quoteDelta == row.quoteDelta
  {
    hide FlowOf;
  }

  lemma {:induction false} RowKeeps(d: Delta, fs: seq<Fill>, c: Convention)
    requires RowAfter(d, fs, c).Some?
    ensures var row := RowAfter(d, fs, c).value;
            && row.venue == d.venue && row.client == d.client && row.baseDelta == d.baseDelta && row.quoteDelta == d.quoteDelta
  {
    if fs != [] {
      hide Advance;
      RowKeeps(d, fs[..|fs| - 1], c);
      AdvanceKeeps(RowAfter(d, fs[..|fs| - 1], c).value, fs[|fs| - 1], c);
    }
  }

  lemma ReconcilesHasEndpoints(rep: Report, vs: Venues, clients: map<string, uint64>, fs: seq<Fill>, c: Convention, a: Delta, b: Delta)
    requires Reconciles(rep, vs, clients, fs, c, a, b)
    ensures HasEndpoints(rep, vs.first, clients[vs.first], c) && HasEndpoints(rep, vs.second, clients[vs.second], c)
  {
    hide Declares, HasEndpoints, RowAfter, OnVenues;
    var a0, b0 :| Explains(a0, a, rep, fs, c) && a0.venue == a.venue && a0.client == a.client
      && Explains(b0, b, rep, fs, c) && b0.venue == b.venue && b0.client == b.client;
    DeclaredHasEndpoints(rep, a0, c);
    DeclaredHasEndpoints(rep, b0, c);
  }

  lemma ReconcilesNeeds(rep: Report, vs: Venues, clients: map<string, uint64>, fs: seq<Fill>, c: Convention, a: Delta, b: Delta,
                        first: Delta, second: Delta)
    requires Reconciles(rep, vs, clients, fs, c, a, b)
    requires first == Delta(vs.first, clients[vs.first], first.baseDelta, first.quoteDelta, 0, 0, 0, 0) && Declares(rep, first, c)
    requires second == Delta(vs.second, clients[vs.second], second.baseDelta, second.quoteDelta, 0, 0, 0, 0) && Declares(rep, second, c)
    ensures OnVenues(fs, vs) && RowAfter(first, fs, c) == Some(a) && RowAfter(second, fs, c) == Some(b)
    ensures Balanced(a) && Balanced(b)
  {
    hide Declares, HasEndpoints, RowAfter, OnVenues;
    var a0, b0 :| Explains(a0, a, rep, fs, c) && a0.venue == a.venue && a0.client == a.client
      && Explains(b0, b, rep, fs, c) && b0.venue == b.venue && b0.client == b.client;
    DeclaredOnce(rep, a0, first, c);
    DeclaredOnce(rep, b0, second, c);
  }

  lemma Undeclared(rep: Report, vs: Venues, clients: map<string, uint64>, fs: seq<Fill>, c: Convention)
    requires ConventionOk(vs, clients, c)
    requires !HasEndpoints(rep, vs.first, clients[vs.first], c) || !HasEndpoints(rep, vs.second, clients[vs.second], c)
    ensures forall a, b :: !Reconciles(rep, vs, clients, fs, c, a, b)
  {
    forall a, b
      ensures !Reconciles(rep, vs, clients, fs, c, a, b)
    {
      hide *;
      if Reconciles(rep, vs, clients, fs, c, a, b) {
        ReconcilesHasEndpoints(rep, vs, clients, fs, c, a, b);
      }
    }
  }

  lemma Unexplained(rep: Report, vs: Venues, clients: map<string, uint64>, fs: seq<Fill>, c: Convention, first: Delta, second: Delta)
    requires vs.first in clients && vs.second in clients
    requires first == Delta(vs.first, clients[vs.first], first.baseDelta, first.quoteDelta, 0, 0, 0, 0) && Declares(rep, first, c)
    requires second == Delta(vs.second, clients[vs.second], second.baseDelta, second.quoteDelta, 0, 0, 0, 0) && Declares(rep, second, c)
    requires !(OnVenues(fs, vs) && RowAfter(first, fs, c).Some? && RowAfter(second, fs, c).Some?
               && Balanced(RowAfter(first, fs, c).value) && Balanced(RowAfter(second, fs, c).value))
    ensures forall a, b :: !Reconciles(rep, vs, clients, fs, c, a, b)
  {
    forall a, b
      ensures !Reconciles(rep, vs, clients, fs, c, a, b)
    {
      hide *;
      if Reconciles(rep, vs, clients, fs, c, a, b) {
        ReconcilesNeeds(rep, vs, clients, fs, c, a, b, first, second);
      }
    }
  }

  lemma {:induction false} NetSplitsByVenue(fs: seq<Fill>, vs: Venues)
    requires vs.first != vs.second && OnVenues(fs, vs)
    ensures Net(fs) == NetOn(fs, vs.first) + NetOn(fs, vs.second)
  {
    if fs != [] {
      NetSplitsByVenue(fs[..|fs| - 1], vs);
    }
  }

  /** The two base changes add up to the net signed quantity of all fills. */
  lemma BaseDeltasAreNetFills(rep: Report, vs: Venues, clients: map<string, uint64>, fs: seq<Fill>, c: Convention, a: Delta, b: Delta)
    requires Reconciles(rep, vs, clients, fs, c, a, b)
    ensures a.baseDelta + b.baseDelta == Net(fs)
  {
    hide Declares, RowAfter;
    var a0, b0 :| Explains(a0, a, rep, fs, c) && a0.venue == a.venue && a0.client == a.client
      && Explains(b0, b, rep, fs, c) && b0.venue == b.venue && b0.client == b.client;
    RowKeeps(a0, fs, c);
    RowKeeps(b0, fs, c);
    RowBaseIsNet(a0, fs, c);
    RowBaseIsNet(b0, fs, c);
    NetSplitsByVenue(fs, vs);
  }

  lemma {:induction false} CashSplitsByVenue(fs: seq<Fill>, vs: Venues, c: Convention)
    requires vs.first != vs.second && OnVenues(fs, vs) && c.basePrecision > 0
    ensures Cash(fs, c) == CashOn(fs, vs.first, c) + CashOn(fs, vs.second, c)
  {
    if fs != [] {
      hide CashOf;
      CashSplitsByVenue(fs[..|fs| - 1], vs, c);
    }
  }

  /** The two quote changes add up to the cash of all fills: sales less purchases, less every fee. */
  lemma QuoteDeltasAreNetCash(rep: Report, vs: Venues, clients: map<string, uint64>, fs: seq<Fill>, c: Convention, a: Delta, b: Delta)
    requires Reconciles(rep, vs, clients, fs, c, a, b)
    ensures a.quoteDelta + b.quoteDelta == Cash(fs, c)
  {
    hide Declares, RowAfter;
    var a0, b0 :| Explains(a0, a, rep, fs, c) && a0.venue == a.venue && a0.client == a.client
      && Explains(b0, b, rep, fs, c) && b0.venue == b.venue && b0.client == b.client;
    RowKeeps(a0, fs, c);
    RowKeeps(b0, fs, c);
    RowQuoteIsCash(a0, fs, c);
    RowQuoteIsCash(b0, fs, c);
    CashSplitsByVenue(fs, vs, c);
  }
}
