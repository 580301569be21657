/** The unordered 256-bit digest of persisted evidence records (analysis/evidenceartifact.go).

`ArtifactSum256` adds big-endian limbs with a carry; `Pool` is the worker pool that merges one part per file
into a shared total in whatever order the scheduler picks.  The record hash is any function to four limbs. */
module EvidenceDigest {
  import opened Int64
  import Sums

  const MODULUS: int := 0x1_0000_0000_0000_0000_0000_0000_0000_0000_0000_0000_0000_0000_0000_0000_0000_0000

  /** Four big-endian words: the first is the most significant. */
  type Limbs = l: seq<uint64> | |l| == 4 witness [0, 0, 0, 0]

  function Value(l: Limbs): (v: nat)
    ensures v < MODULUS
  {
    ((l[0] * WORD + l[1]) * WORD + l[2]) * WORD + l[3]
  }

  /** Distinct digests print differently: the value determines the limbs. */
  lemma ValueDeterminesLimbs(a: Limbs, b: Limbs)
    requires Value(a) == Value(b)
    ensures a == b
  {
    PeelWord((a[0] * WORD + a[1]) * WORD + a[2], a[3], (b[0] * WORD + b[1]) * WORD + b[2], b[3]);
    PeelWord(a[0] * WORD + a[1], a[2], b[0] * WORD + b[1], b[2]);
    PeelWord(a[0], a[1], b[0], b[1]);
    assert forall i :: 0 <= i < 4 ==> a[i] == b[i];
  }

  lemma PeelWord(high: int, low: uint64, high': int, low': uint64)
    requires high * WORD + low == high' * WORD + low'
    ensures high == high' && low == low'
  {
  }

  /** What a partial sum means: a residue and a record count, each as wide as the machine keeps it. */
  datatype Sum = Sum(value: int, events: int64)

  function Zero(): Sum {
    Sum(0, 0)
  }

  /** Addition of residues. */
  function ModSum(x: int, y: int): int {
    (x + y) % MODULUS
  }

  /** Addition of counts. */
  function WrapSum(x: int, y: int): int64 {
    Wrap(x + y)
  }

  function Plus(a: Sum, b: Sum): Sum {
    Sum(ModSum(a.value, b.value), WrapSum(a.events, b.events))
  }

  lemma ModAssociates(x: int, y: int, z: int)
    ensures ModSum(ModSum(x, y), z) == ModSum(x, ModSum(y, z))
  {
  }

  lemma WrapAssociates(x: int, y: int, z: int)
    ensures WrapSum(WrapSum(x, y), z) == WrapSum(x, WrapSum(y, z))
  {
    hide Wrap;
    WrapAdds(x + y, z);
    WrapAdds(y + z, x);
    assert Wrap(y + z) + x == x + Wrap(y + z) && x + y + z == y + z + x;
  }

  lemma PlusIsCommutative(a: Sum, b: Sum)
    ensures Plus(a, b) == Plus(b, a)
  {
  }

  lemma PlusIsAssociative(a: Sum, b: Sum, c: Sum)
    ensures Plus(Plus(a, b), c) == Plus(a, Plus(b, c))
  {
    hide WrapSum, ModSum;
    ModAssociates(a.value, b.value, c.value);
    WrapAssociates(a.events, b.events, c.events);
  }

  /** The accumulator: a limb array updated from the least significant end. */
  class ArtifactSum256 {
    const limbs: array<uint64>
    var events: int64

    ghost predicate Valid()
      reads this
    {
      limbs.Length == 4
    }

    ghost function Total(): Sum
      requires Valid()
      reads this, limbs
    {
      Sum(Value(limbs[..]), events)
    }

    constructor ()
      ensures Valid() && fresh(limbs) && Total() == Zero()
    {
      limbs := new uint64[4](_ => 0);
      events := 0;
      new;
      assert limbs[..] == [0, 0, 0, 0];
    }

    /** Adds four limbs, rippling the carry; the last carry out is dropped. */
    method AddLimbs(other: Limbs)
      requires Valid()
      modifies limbs
      ensures Value(limbs[..]) == (old(Value(limbs[..])) + Value(other)) % MODULUS
    {
      ghost var before := limbs[..];
      var carry: uint64 := 0;
      var i := 3;
      RippleStarts(before, other);
      hide Low, Weight, Value;
      while i >= 0
        invariant -1 <= i <= 3 && carry <= 1
        invariant limbs[..i + 1] == before[..i + 1]
        invariant Low(limbs[..], i + 1) + carry * Weight(i) == Low(before, i + 1) + Low(other, i + 1)
      {
        var withCarry, newCarry := AddWords(limbs[i], other[i], carry);
        LowStep(limbs[..], before, other, i, carry, withCarry, newCarry);
        limbs[i] := withCarry;
        carry := newCarry;
        i := i - 1;
      }
      RippleEnds(limbs[..], before, other, carry);
    }

    /** Adds one record by its hash. */
    method Add(hash: Limbs)
      requires Valid()
      modifies this, limbs
      ensures Total() == Plus(old(Total()), Sum(Value(hash), 1))
    {
      AddLimbs(hash);
      events := Wrap(events + 1);
    }

    method Merge(other: ArtifactSum256)
      requires Valid() && other.Valid() && limbs != other.limbs
      modifies this, limbs
      ensures Total() == Plus(old(Total()), old(other.Total()))
    {
      var added := other.events;
      AddLimbs(other.limbs[..]);
      events := Wrap(events + added);
    }
  }

  /** Place value of the carry out of limb `i + 1`. */
  ghost function Weight(i: int): int {
    if i == 3 then 1
    else if i == 2 then WORD
    else if i == 1 then WORD * WORD
    else if i == 0 then WORD * WORD * WORD
    else MODULUS
  }

  /** The value of limbs `i..4`. */
  ghost function Low(l: Limbs, i: nat): int
    requires i <= 4
  {
    (if i <= 3 then l[3] else 0)
    + (if i <= 2 then l[2] * WORD else 0)
    + (if i <= 1 then l[1] * (WORD * WORD) else 0)
    + (if i <= 0 then l[0] * (WORD * WORD * WORD) else 0)
  }

  lemma LowIsValue(l: Limbs)
    ensures Low(l, 0) == Value(l)
  {
  }

  lemma RippleStarts(before: Limbs, other: Limbs)
    ensures Low(before, 4) + 0 * Weight(3) == Low(before, 4) + Low(other, 4)
  {
  }

  lemma RippleEnds(l: Limbs, before: Limbs, other: Limbs, carry: int)
    requires Low(l, 0) + carry * Weight(-1) == Low(before, 0) + Low(other, 0)
    ensures Value(l) == (Value(before) + Value(other)) % MODULUS
  {
    LowIsValue(l);
    LowIsValue(before);
    LowIsValue(other);
    hide Low, Value;
    ModUnique(Value(before) + Value(other), carry, Value(l), MODULUS);
  }

  /** One word of the ripple: the sum and the carry out. */
  method AddWords(a: uint64, b: uint64, carry: uint64) returns (withCarry: uint64, newCarry: uint64)
    requires carry <= 1
    ensures newCarry <= 1 && a + b + carry == newCarry * WORD + withCarry
  {
    var sum: uint64 := (a + b) % WORD;
    newCarry := 0;
    if sum < a {
      newCarry := 1;
    }
    withCarry := (sum + carry) % WORD;
    if withCarry < carry {
      newCarry := 1;
    }
  }

  /** Each limb contributes its place value. */
  lemma LowUnfolds(l: Limbs, i: nat)
    requires i <= 3
    ensures Low(l, i) == Low(l, i + 1) + l[i] * Weight(i) && Weight(i - 1) == WORD * Weight(i)
  {
  }

  lemma LowIgnores(l: Limbs, i: nat, x: uint64)
    requires i <= 3
    ensures Low(l[i := x], i + 1) == Low(l, i + 1)
  {
  }

  lemma CarryScales(a: int, b: int, carry: int, withCarry: int, newCarry: int, w: int)
    requires a + b + carry == newCarry * WORD + withCarry
    ensures withCarry * w + newCarry * (WORD * w) == a * w + b * w + carry * w
  {
    assert (newCarry * WORD + withCarry) * w == newCarry * (WORD * w) + withCarry * w;
  }

  lemma LowStep(l: Limbs, before: Limbs, other: Limbs, i: nat, carry: int, withCarry: uint64, newCarry: int)
    requires i <= 3 && l[i] == before[i]
    requires Low(l, i + 1) + carry * Weight(i) == Low(before, i + 1) + Low(other, i + 1)
    requires before[i] + other[i] + carry == newCarry * WORD + withCarry
    ensures Low(l[i := withCarry], i) + newCarry * Weight(i - 1) == Low(before, i) + Low(other, i)
  {
    hide Low, Weight;
    LowUnfolds(l[i := withCarry], i);
    LowIgnores(l, i, withCarry);
    LowUnfolds(before, i);
    LowUnfolds(other, i);
    CarryScales(before[i], other[i], carry, withCarry, newCarry, Weight(i));
  }

  // ----- records, files, workers -----

  type Record = seq<uint64>

  /** A file as the scanner meets it: its records, and whether the scan ended cleanly. */
  datatype File = File(records: seq<Record>, clean: bool)

  predicate Readable(f: File) {
    f.clean && forall i :: 0 <= i < |f.records| ==> f.records[i] != []
  }

  function RecordSum(h: Record -> Limbs, r: Record): Sum {
    Sum(Value(h(r)), 1)
  }

  /** The digest of some records, added one by one. */
  function Digest(h: Record -> Limbs, rs: seq<Record>): Sum {
    if rs == [] then Zero() else Plus(Digest(h, rs[..|rs| - 1]), RecordSum(h, rs[|rs| - 1]))
  }

  predicate Reduced(s: Sum) {
    0 <= s.value < MODULUS
  }

  lemma {:induction false} DigestIsReduced(h: Record -> Limbs, rs: seq<Record>)
    ensures Reduced(Digest(h, rs))
  {
  }

  lemma PlusZero(a: Sum)
    requires Reduced(a)
    ensures Plus(a, Zero()) == a && Plus(Zero(), a) == a
  {
    ModUnique(a.value, 0, a.value, MODULUS);
  }

  lemma {:induction false} DigestConcat(h: Record -> Limbs, a: seq<Record>, b: seq<Record>)
    ensures Digest(h, a + b) == Plus(Digest(h, a), Digest(h, b))
  {
    if b == [] {
      assert a + b == a;
      DigestIsReduced(h, a);
      PlusZero(Digest(h, a));
    } else {
      var front, last := b[..|b| - 1], b[|b| - 1];
      assert (a + b)[..|a + b| - 1] == a + front;
      DigestConcat(h, a, front);
      PlusIsAssociative(Digest(h, a), Digest(h, front), RecordSum(h, last));
    }
  }

  lemma DigestOfOne(h: Record -> Limbs, r: Record)
    ensures Digest(h, [r]) == Plus(Zero(), RecordSum(h, r)) == RecordSum(h, r)
  {
    assert [r][..|[r]| - 1] == [];
    PlusZero(RecordSum(h, r));
  }

  lemma DigestMiddle(h: Record -> Limbs, a: seq<Record>, r: Record, b: seq<Record>)
    ensures Digest(h, a + [r] + b) == Plus(Digest(h, a + b), RecordSum(h, r))
  {
    DigestOfOne(h, r);
    hide Plus, RecordSum, Digest;
    DigestConcat(h, a + [r], b);
    DigestConcat(h, a, [r]);
    DigestConcat(h, a, b);
    PlusSwaps(Digest(h, a), RecordSum(h, r), Digest(h, b));
  }

  /** Moving one record to the end changes nothing. */
  lemma DigestMovesToEnd(h: Record -> Limbs, rs: seq<Record>, k: nat)
    requires k < |rs|
    ensures Digest(h, rs) == Plus(Digest(h, rs[..k] + rs[k + 1..]), RecordSum(h, rs[k]))
  {
    hide Plus, RecordSum, Digest;
    assert rs == rs[..k] + [rs[k]] + rs[k + 1..];
    DigestMiddle(h, rs[..k], rs[k], rs[k + 1..]);
  }

  lemma PlusSwaps(a: Sum, b: Sum, c: Sum)
    ensures Plus(Plus(a, b), c) == Plus(Plus(a, c), b)
  {
    hide Plus;
    PlusIsAssociative(a, b, c);
    PlusIsCommutative(b, c);
    PlusIsAssociative(a, c, b);
  }

  /** The digest and the count depend only on which records there are, with multiplicity: not on their order, on
      the files that hold them or on the order in which files are merged. */
  lemma {:induction false} DigestIsOfTheMultiset(h: Record -> Limbs, a: seq<Record>, b: seq<Record>)
    requires multiset(a) == multiset(b)
    ensures Digest(h, a) == Digest(h, b)
  {
    if a == [] {
      assert |multiset(a)| == |multiset(b)|;
    } else {
      hide Plus, RecordSum;
      var front, r := a[..|a| - 1], a[|a| - 1];
      assert r in multiset(b);
      var k :| 0 <= k < |b| && b[k] == r;
      RestOfTheMultiset(a, b, k);
      DigestIsOfTheMultiset(h, front, b[..k] + b[k + 1..]);
      assert Digest(h, a) == Plus(Digest(h, front), RecordSum(h, r));
      hide Digest;
      DigestMovesToEnd(h, b, k);
    }
  }

  lemma RestOfTheMultiset(a: seq<Record>, b: seq<Record>, k: nat)
    requires multiset(a) == multiset(b) && a != [] && k < |b| && b[k] == a[|a| - 1]
    ensures multiset(a[..|a| - 1]) == multiset(b[..k] + b[k + 1..])
  {
    var n := |a| - 1;
    Sums.MultisetWithout(a, n);
    Sums.MultisetWithout(b, k);
    assert Sums.Without(a, n) == a[..n];
  }

  lemma DigestStep(h: Record -> Limbs, rs: seq<Record>, i: nat)
    requires i < |rs|
    ensures Digest(h, rs[..i + 1]) == Plus(Digest(h, rs[..i]), Sum(Value(h(rs[i])), 1))
  {
    hide Plus, Value;
    assert rs[..i + 1][..i] == rs[..i];
  }

  method AddRecord(h: Record -> Limbs, rs: seq<Record>, i: nat, part: ArtifactSum256)
    requires i < |rs| && part.Valid() && part.Total() == Digest(h, rs[..i])
    modifies part, part.limbs
    ensures part.Total() == Digest(h, rs[..i + 1])
  {
    hide Plus, Digest, Value, ArtifactSum256.Total;
    DigestStep(h, rs, i);
    part.Add(h(rs[i]));
  }

  method AddRecords(h: Record -> Limbs, rs: seq<Record>, part: ArtifactSum256) returns (ok: bool)
    requires part.Valid() && part.Total() == Zero()
    modifies part, part.limbs
    ensures ok == forall k :: 0 <= k < |rs| ==> rs[k] != []
    ensures ok ==> part.Total() == Digest(h, rs)
  {
    var i := 0;
    assert Digest(h, rs[..0]) == Zero();
    hide Digest, Value, ArtifactSum256.Total;
    while i < |rs|
      invariant 0 <= i <= |rs| && part.Total() == Digest(h, rs[..i])
      invariant forall k :: 0 <= k < i ==> rs[k] != []
    {
      if rs[i] == [] {
        return false;
      }
      AddRecord(h, rs, i, part);
      i := i + 1;
    }
    assert rs[..|rs|] == rs;
    return true;
  }

  /** Hashing one file: every record added in turn, or nothing if the file is corrupt. */
  method HashFile(h: Record -> Limbs, f: File) returns (part: ArtifactSum256, ok: bool)
    ensures fresh(part) && fresh(part.limbs) && part.Valid()
    ensures ok == Readable(f)
    ensures ok ==> part.Total() == Digest(h, f.records)
  {
    part := new ArtifactSum256();
    hide Digest, Value, ArtifactSum256.Total;
    ok := AddRecords(h, f.records, part);
    ok := ok && f.clean;
  }

  /** A worker waits for a file, holds a finished part, or has returned. */
  datatype Worker = Waiting | Holding(part: Sum) | Returned

  /** The jobs channel, the workers, the shared total and the recorded failure. */
  datatype Pool = Pool(jobs: seq<File>, workers: seq<Worker>, total: Sum, failed: bool)

  datatype Move = Take(worker: nat) | Merge(worker: nat) | Exit(worker: nat)

  predicate Enabled(p: Pool, m: Move) {
    && m.worker < |p.workers|
    && match m
       case Take(w) => p.workers[w].Waiting? && p.jobs != []
       case Merge(w) => p.workers[w].Holding?
       case Exit(w) => p.workers[w].Waiting? && p.jobs == []
  }

  /** A taken file is hashed by its worker alone; only the merge touches the total, under the lock. */
  function Next(h: Record -> Limbs, p: Pool, m: Move): Pool
    requires Enabled(p, m)
  {
    match m
    case Take(w) =>
      if Readable(p.jobs[0]) then
        p.(jobs := p.jobs[1..], workers := p.workers[w := Holding(Digest(h, p.jobs[0].records))])
      else
        p.(jobs := p.jobs[1..], workers := p.workers[w := Returned], failed := true)
    case Merge(w) => p.(workers := p.workers[w := Waiting], total := Plus(p.total, p.workers[w].part))
    case Exit(w) => p.(workers := p.workers[w := Returned])
  }

  function Start(files: seq<File>, workers: nat): Pool {
    Pool(files, seq(workers, _ => Waiting), Zero(), false)
  }

  /** Where a schedule leads, if every move in it was possible when it was made. */
  function Schedule(h: Record -> Limbs, p: Pool, moves: seq<Move>): Option<Pool> {
    if moves == [] then Some(p)
    else
      match Schedule(h, p, moves[..|moves| - 1])
      case None => None
      case Some(q) => if Enabled(q, moves[|moves| - 1]) then Some(Next(h, q, moves[|moves| - 1])) else None
  }

  predicate Finished(p: Pool) {
    forall w :: 0 <= w < |p.workers| ==> p.workers[w].Returned?
  }

  function AllRecords(files: seq<File>): seq<Record> {
    if files == [] then [] else files[0].records + AllRecords(files[1..])
  }

  /** Parts computed and not yet merged. */
  ghost function Pending(workers: seq<Worker>): Sum {
    if workers == [] then Zero()
    else
      var w := workers[|workers| - 1];
      if w.Holding? then Plus(Pending(workers[..|workers| - 1]), w.part) else Pending(workers[..|workers| - 1])
  }

  ghost predicate PartsReduced(workers: seq<Worker>) {
    forall w :: 0 <= w < |workers| && workers[w].Holding? ==> Reduced(workers[w].part)
  }

  lemma {:induction false} PendingIsReduced(workers: seq<Worker>)
    requires PartsReduced(workers)
    ensures Reduced(Pending(workers))
  {
    if workers != [] {
      PendingIsReduced(workers[..|workers| - 1]);
    }
  }

  /** Replacing a worker that holds nothing by one that holds a part adds that part. */
  lemma {:induction false} PendingGains(workers: seq<Worker>, w: nat, part: Sum)
    requires w < |workers| && !workers[w].Holding? && PartsReduced(workers) && Reduced(part)
    ensures Pending(workers[w := Holding(part)]) == Plus(Pending(workers), part)
  {
    var n := |workers| - 1;
    var after := workers[w := Holding(part)];
    if w == n {
      assert after[..n] == workers[..n];
    } else {
      assert after[..n] == workers[..n][w := Holding(part)] && after[n] == workers[n];
      PendingGains(workers[..n], w, part);
      if workers[n].Holding? {
        var p := Pending(workers[..n]);
        PlusIsAssociative(p, part, workers[n].part);
        PlusIsCommutative(part, workers[n].part);
        PlusIsAssociative(p, workers[n].part, part);
      }
    }
  }

  lemma {:induction false} PendingIgnoresIdle(workers: seq<Worker>, w: nat, idle: Worker)
    requires w < |workers| && !workers[w].Holding? && !idle.Holding?
    ensures Pending(workers[w := idle]) == Pending(workers)
  {
    var n := |workers| - 1;
    if w == n {
      assert workers[w := idle][..n] == workers[..n];
    } else {
      assert workers[w := idle][..n] == workers[..n][w := idle];
      PendingIgnoresIdle(workers[..n], w, idle);
    }
  }

  /** Merged, pending and queued parts always add up to the digest of everything. */
  ghost predicate Accounted(h: Record -> Limbs, p: Pool, files: seq<File>) {
    && Reduced(p.total) && PartsReduced(p.workers)
    && Plus(Plus(p.total, Pending(p.workers)), Digest(h, AllRecords(p.jobs))) == Digest(h, AllRecords(files))
  }

  ghost predicate SomeUnreadable(files: seq<File>) {
    exists k :: 0 <= k < |files| && !Readable(files[k])
  }

  ghost predicate Reachable(h: Record -> Limbs, p: Pool, files: seq<File>) {
    && |p.jobs| <= |files| && p.jobs == files[|files| - |p.jobs|..]
    && (p.failed <==> SomeUnreadable(files[..|files| - |p.jobs|]))
    && (!p.failed ==> Accounted(h, p, files))
    && (forall w :: 0 <= w < |p.workers| && p.workers[w].Returned? ==> p.failed || p.jobs == [])
  }

  lemma RegroupTake(t: Sum, p: Sum, d: Sum, r: Sum)
    ensures Plus(Plus(t, Plus(p, d)), r) == Plus(Plus(t, p), Plus(d, r))
  {
    hide Plus;
    PlusIsAssociative(t, p, d);
    PlusIsAssociative(Plus(t, p), d, r);
  }

  lemma RegroupMerge(t: Sum, p: Sum, d: Sum)
    ensures Plus(Plus(t, d), p) == Plus(t, Plus(p, d))
  {
    hide Plus;
    PlusIsAssociative(t, d, p);
    PlusIsCommutative(d, p);
  }

  lemma TakeAccounted(h: Record -> Limbs, p: Pool, w: nat, files: seq<File>)
    requires Accounted(h, p, files) && Enabled(p, Take(w)) && Readable(p.jobs[0])
    ensures Accounted(h, Next(h, p, Take(w)), files)
  {
    var part := Digest(h, p.jobs[0].records);
    DigestIsReduced(h, p.jobs[0].records);
    PendingGains(p.workers, w, part);
    DigestConcat(h, p.jobs[0].records, AllRecords(p.jobs[1..]));
    RegroupTake(p.total, Pending(p.workers), part, Digest(h, AllRecords(p.jobs[1..])));
    hide Plus, Digest, Pending, Readable;
  }

  lemma MergeAccounted(h: Record -> Limbs, p: Pool, w: nat, files: seq<File>)
    requires Accounted(h, p, files) && Enabled(p, Merge(w))
    ensures Accounted(h, Next(h, p, Merge(w)), files)
  {
    var part, idle := p.workers[w].part, p.workers[w := Waiting];
    PendingGains(idle, w, part);
    assert idle[w := Holding(part)] == p.workers;
    RegroupMerge(p.total, Pending(idle), part);
  }

  lemma TakeChanges(h: Record -> Limbs, p: Pool, w: nat, files: seq<File>)
    requires Enabled(p, Take(w)) && |p.jobs| <= |files| && p.jobs == files[|files| - |p.jobs|..]
    ensures var p', k := Next(h, p, Take(w)), |files| - |p.jobs|;
            && p'.jobs == files[k + 1..] && p.jobs[0] == files[k] && p'.failed == (p.failed || !Readable(files[k]))
            && |p'.workers| == |p.workers|
            && forall v :: 0 <= v < |p.workers| && p'.workers[v].Returned? ==> p'.failed || p.workers[v].Returned?
  {
    hide Readable, Digest;
  }

  lemma TakeReachable(h: Record -> Limbs, p: Pool, w: nat, files: seq<File>)
    requires Reachable(h, p, files) && Enabled(p, Take(w))
    ensures Reachable(h, Next(h, p, Take(w)), files)
  {
    hide Next, Accounted, SomeUnreadable, Readable;
    TakeChanges(h, p, w, files);
    UnreadableStep(files, |files| - |p.jobs|);
    if !Next(h, p, Take(w)).failed {
      TakeAccounted(h, p, w, files);
    }
  }

  lemma MergeReachable(h: Record -> Limbs, p: Pool, w: nat, files: seq<File>)
    requires Reachable(h, p, files) && Enabled(p, Merge(w))
    ensures Reachable(h, Next(h, p, Merge(w)), files)
  {
    if !p.failed {
      MergeAccounted(h, p, w, files);
    }
    hide Accounted, SomeUnreadable, Plus;
  }

  lemma ExitReachable(h: Record -> Limbs, p: Pool, w: nat, files: seq<File>)
    requires Reachable(h, p, files) && Enabled(p, Exit(w))
    ensures Reachable(h, Next(h, p, Exit(w)), files)
  {
    PendingIgnoresIdle(p.workers, w, Returned);
    hide SomeUnreadable, Plus, Pending, Digest;
  }

  lemma NextReachable(h: Record -> Limbs, p: Pool, m: Move, files: seq<File>)
    requires Reachable(h, p, files) && Enabled(p, m)
    ensures Reachable(h, Next(h, p, m), files)
  {
    hide Reachable, Next;
    match m
    case Take(w) => TakeReachable(h, p, w, files);
    case Merge(w) => MergeReachable(h, p, w, files);
    case Exit(w) => ExitReachable(h, p, w, files);
  }

  lemma UnreadableStep(files: seq<File>, k: nat)
    requires k < |files|
    ensures SomeUnreadable(files[..k + 1]) <==> SomeUnreadable(files[..k]) || !Readable(files[k])
  {
    hide Readable;
    assert forall i :: 0 <= i < k ==> files[..k + 1][i] == files[..k][i];
    if SomeUnreadable(files[..k]) {
      var i :| 0 <= i < k && !Readable(files[..k][i]);
      assert !Readable(files[..k + 1][i]);
    }
    assert files[..k + 1][k] == files[k];
  }

  lemma {:induction false} ScheduleReachable(h: Record -> Limbs, files: seq<File>, workers: nat, moves: seq<Move>)
    requires Schedule(h, Start(files, workers), moves).Some?
    ensures Reachable(h, Schedule(h, Start(files, workers), moves).value, files)
    ensures |Schedule(h, Start(files, workers), moves).value.workers| == workers
  {
    var s := Start(files, workers);
    if moves == [] {
      assert files[|files| - |s.jobs|..] == files && files[..0] == [];
      NonePending(s.workers);
      DigestIsReduced(h, AllRecords(files));
      PlusZero(Zero());
      PlusZero(Digest(h, AllRecords(files)));
    } else {
      var before := moves[..|moves| - 1];
      ScheduleReachable(h, files, workers, before);
      var p := Schedule(h, s, before).value;
      assert Schedule(h, s, moves) == Some(Next(h, p, moves[|moves| - 1]));
      assert |Next(h, p, moves[|moves| - 1]).workers| == |p.workers|;
      hide *;
      NextReachable(h, p, moves[|moves| - 1], files);
    }
  }

  lemma {:induction false} NonePending(workers: seq<Worker>)
    requires forall w :: 0 <= w < |workers| ==> !workers[w].Holding?
    ensures Pending(workers) == Zero()
  {
    if workers != [] {
      NonePending(workers[..|workers| - 1]);
    }
  }

  /** However the workers interleave, a finished scan fails exactly when some file is corrupt, and otherwise its
      total is the digest of all records of all files. */
  lemma EverySchedulePublishesTheDigest(h: Record -> Limbs, files: seq<File>, workers: nat, moves: seq<Move>)
    requires 1 <= workers && Schedule(h, Start(files, workers), moves).Some?
    requires Finished(Schedule(h, Start(files, workers), moves).value)
    ensures var p := Schedule(h, Start(files, workers), moves).value;
            && (p.failed <==> SomeUnreadable(files))
            && (!p.failed ==> p.total == Digest(h, AllRecords(files)))
  {
    ScheduleReachable(h, files, workers, moves);
    var p := Schedule(h, Start(files, workers), moves).value;
    assert p.workers[0].Returned?;
    var taken := files[..|files| - |p.jobs|];
    if p.failed {
      var k :| 0 <= k < |taken| && !Readable(taken[k]);
      assert !Readable(files[k]);
    } else {
      assert p.jobs == [] && taken == files;
      NonePending(p.workers);
      PlusZero(p.total);
    }
  }

  // ----- every schedule ends -----

  /** How many moves a worker still owes, apart from the files it may take. */
  function Owes(w: Worker): nat {
    match w
    case Waiting => 1
    case Holding(_) => 2
    case Returned => 0
  }

  function Owed(workers: seq<Worker>): nat {
    if workers == [] then 0 else Owed(workers[..|workers| - 1]) + Owes(workers[|workers| - 1])
  }

  lemma {:induction false} OwedChanges(workers: seq<Worker>, w: nat, now: Worker)
    requires w < |workers|
    ensures Owed(workers[w := now]) == Owed(workers) - Owes(workers[w]) + Owes(now)
  {
    var n := |workers| - 1;
    if w == n {
      assert workers[w := now][..n] == workers[..n];
    } else {
      assert workers[w := now][..n] == workers[..n][w := now];
      OwedChanges(workers[..n], w, now);
    }
  }

  lemma {:induction false} AllWaitingOwed(workers: seq<Worker>)
    requires forall w :: 0 <= w < |workers| ==> workers[w].Waiting?
    ensures Owed(workers) == |workers|
  {
    if workers != [] {
      AllWaitingOwed(workers[..|workers| - 1]);
    }
  }

  /** An upper bound on the moves left: two for every file, and what the workers owe. */
  function Remaining(p: Pool): nat {
    2 * |p.jobs| + Owed(p.workers)
  }

  lemma MovesRunOut(h: Record -> Limbs, p: Pool, m: Move)
    requires Enabled(p, m)
    ensures Remaining(Next(h, p, m)) < Remaining(p)
  {
    OwedChanges(p.workers, m.worker, Next(h, p, m).workers[m.worker]);
    hide Owed, Digest, Readable, Plus;
  }

  /** A pool never gets stuck: while some worker has not returned, some move is possible. */
  lemma SomeMoveIsEnabled(p: Pool) returns (m: Move)
    requires !Finished(p)
    ensures Enabled(p, m)
  {
    var w :| 0 <= w < |p.workers| && !p.workers[w].Returned?;
    m := if p.workers[w].Holding? then Merge(w) else if p.jobs == [] then Exit(w) else Take(w);
  }

  /** No schedule is longer than two moves per file and one per worker. */
  lemma {:induction false} SchedulesAreShort(h: Record -> Limbs, files: seq<File>, workers: nat, moves: seq<Move>)
    requires Schedule(h, Start(files, workers), moves).Some?
    ensures |moves| + Remaining(Schedule(h, Start(files, workers), moves).value) <= 2 * |files| + workers
  {
    if moves == [] {
      AllWaitingOwed(Start(files, workers).workers);
    } else {
      var before := moves[..|moves| - 1];
      SchedulesAreShort(h, files, workers, before);
      MovesRunOut(h, Schedule(h, Start(files, workers), before).value, moves[|moves| - 1]);
      hide Next, Enabled, Remaining, Start;
    }
  }

  /** Nothing more can happen. */
  ghost predicate Maximal(p: Pool) {
    forall m :: !Enabled(p, m)
  }

  /** Every run of the pool ends, after a bounded number of moves, with every worker returned, and publishes: a schedule
      that cannot be continued fails exactly when some file is corrupt and otherwise totals the digest. */
  lemma EveryMaximalSchedulePublishes(h: Record -> Limbs, files: seq<File>, workers: nat, moves: seq<Move>)
    requires 1 <= workers && Schedule(h, Start(files, workers), moves).Some?
    requires Maximal(Schedule(h, Start(files, workers), moves).value)
    ensures |moves| <= 2 * |files| + workers
    ensures var p := Schedule(h, Start(files, workers), moves).value;
            && Finished(p) && (p.failed <==> SomeUnreadable(files))
            && (!p.failed ==> p.total == Digest(h, AllRecords(files)))
  {
    var p := Schedule(h, Start(files, workers), moves).value;
    SchedulesAreShort(h, files, workers, moves);
    if !Finished(p) {
      var m := SomeMoveIsEnabled(p);
    }
    EverySchedulePublishesTheDigest(h, files, workers, moves);
  }

  /** Any schedule can be completed. */
  lemma EveryScheduleCompletes(h: Record -> Limbs, files: seq<File>, workers: nat, moves: seq<Move>) returns (more: seq<Move>)
    requires Schedule(h, Start(files, workers), moves).Some?
    ensures moves <= more && Schedule(h, Start(files, workers), more).Some?
    ensures Finished(Schedule(h, Start(files, workers), more).value)
    decreases Remaining(Schedule(h, Start(files, workers), moves).value)
  {
    var p := Schedule(h, Start(files, workers), moves).value;
    if Finished(p) {
      more := moves;
    } else {
      var m := SomeMoveIsEnabled(p);
      MovesRunOut(h, p, m);
      assert (moves + [m])[..|moves + [m]| - 1] == moves;
      hide Next, Enabled, Finished, Start;
      more := EveryScheduleCompletes(h, files, workers, moves + [m]);
    }
  }

  /** Any two layouts of the same records, any numbers of workers, any two schedules: one digest, one count. */
  lemma DigestIsIndependentOfLayout(h: Record -> Limbs, files: seq<File>, workers: nat, moves: seq<Move>,
                                    files': seq<File>, workers': nat, moves': seq<Move>)
    requires multiset(AllRecords(files)) == multiset(AllRecords(files'))
    requires 1 <= workers && Schedule(h, Start(files, workers), moves).Some?
    requires 1 <= workers' && Schedule(h, Start(files', workers'), moves').Some?
    requires var p := Schedule(h, Start(files, workers), moves).value; Finished(p) && !p.failed
    requires var p := Schedule(h, Start(files', workers'), moves').value; Finished(p) && !p.failed
    ensures Schedule(h, Start(files, workers), moves).value.total == Schedule(h, Start(files', workers'), moves').value.total
  {
    EverySchedulePublishesTheDigest(h, files, workers, moves);
    EverySchedulePublishesTheDigest(h, files', workers', moves');
    DigestIsOfTheMultiset(h, AllRecords(files), AllRecords(files'));
  }
}
