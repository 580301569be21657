/** Machine integers and the checked, truncating arithmetic that every auditor shares.

Go's `/` and `big.Int.Quo` truncate toward zero; Dafny's `/` is Euclidean.  `Quo` is the truncating
quotient, and every checked operation below is stated against exact integer arithmetic. */
module Int64 {

  const MAX: int := 0x7fff_ffff_ffff_ffff
  const MIN: int := -0x8000_0000_0000_0000
  const WORD: int := 0x1_0000_0000_0000_0000

  type int64 = x: int | MIN <= x <= MAX
  type uint64 = x: int | 0 <= x < WORD

  datatype Option<+T> = None | Some(value: T)

  predicate Fits(x: int) {
    MIN <= x <= MAX
  }

  function Abs(x: int): nat {
    if x < 0 then -x else x
  }

  function Min(a: int, b: int): int {
    if a <= b then a else b
  }

  function Max(a: int, b: int): int {
    if a <= b then b else a
  }

  /** Two's-complement wrap-around: what an unchecked int64 `+=` or `*` stores. */
  function Wrap(x: int): int64 {
    (x - MIN) % WORD + MIN
  }

  /** The stored value is the one representable integer congruent to the exact one. */
  lemma WrapIsCongruent(x: int)
    ensures (Wrap(x) - x) % WORD == 0
    ensures Fits(x) ==> Wrap(x) == x
  {
    var q := (x - MIN) / WORD;
    assert x - MIN == q * WORD + (x - MIN) % WORD;
    assert Wrap(x) - x == (-q) * WORD;
  }

  lemma ModAdds(x: int, y: int, m: int)
    requires 0 < m
    ensures (x % m + y) % m == (x + y) % m
  {
    var q := x / m;
    assert x == q * m + x % m;
    ModShift(x % m + y, q, m);
  }

  lemma ModShift(x: int, k: int, m: int)
    requires 0 < m
    ensures (x + k * m) % m == x % m
  {
    var q, r := x / m, x % m;
    assert x + k * m == (q + k) * m + r;
    ModUnique(x + k * m, q + k, r, m);
  }

  lemma ModUnique(x: int, q: int, r: int, m: int)
    requires 0 <= r < m && x == q * m + r
    ensures x % m == r
  {
    var q', r' := x / m, x % m;
    assert x == q' * m + r';
    assert (q - q') * m == r' - r;
    assert 1 * m == m && (-1) * m == -m;
    CancelFactor(q - q', 1, m);
    CancelFactor(-1, q - q', m);
  }

  lemma WrapAdds(x: int, y: int)
    ensures Wrap(Wrap(x) + y) == Wrap(x + y)
  {
    ModAdds(x - MIN, y, WORD);
  }

  /** Truncation toward zero. */
  function Quo(a: int, b: int): int
    requires b != 0
  {
    var q := Abs(a) / Abs(b);
    if (a < 0) == (b < 0) then q else -q
  }

  /** The remainder left behind by a truncating division is smaller than the divisor and never
      points away from zero. */
  lemma QuoRemainder(a: int, b: int)
    requires 0 < b
    ensures -b < a - Quo(a, b) * b < b
    ensures 0 <= a ==> 0 <= a - Quo(a, b) * b && 0 <= Quo(a, b)
    ensures a <= 0 ==> a - Quo(a, b) * b <= 0 && Quo(a, b) <= 0
  {
    var m := Abs(a);
    assert m == (m / b) * b + m % b;
    assert 0 <= m / b;
    if a < 0 {
      assert Quo(a, b) * b == -((m / b) * b);
    }
  }

  lemma CancelFactor(x: int, y: int, b: int)
    requires 0 < b && x * b < y * b
    ensures x < y
  {
  }

  /** Truncation cannot leave an interval whose ends are multiples of the divisor. */
  lemma QuoBetween(a: int, b: int, lo: int, hi: int)
    requires 0 < b
    requires lo * b <= a <= hi * b
    ensures lo <= Quo(a, b) <= hi
  {
    QuoRemainder(a, b);
    var q := Quo(a, b);
    assert (lo - 1) * b == lo * b - b && (hi + 1) * b == hi * b + b;
    CancelFactor(lo - 1, q, b);
    CancelFactor(q, hi + 1, b);
  }

  lemma QuoSmall(a: int, b: int)
    requires -b < a < b
    ensures Quo(a, b) == 0
  {
    QuoRemainder(a, b);
    var q := Quo(a, b);
    assert (0 - 1) * b == -b && (0 + 1) * b == b;
    if 0 <= a { CancelFactor(q, 1, b); } else { CancelFactor(-1, q, b); }
  }

  lemma QuoMonotone(a: int, a': int, b: int)
    requires 0 < b && a <= a'
    ensures Quo(a, b) <= Quo(a', b)
  {
    QuoRemainder(a, b);
    QuoRemainder(a', b);
    if 0 <= a {
      QuoRises(a, a', Quo(a, b), Quo(a', b), b);
    } else if a' <= 0 {
      QuoRises(-a', -a, -Quo(a', b), -Quo(a, b), b);
    }
  }

  lemma QuoRises(a: int, a': int, q: int, q': int, b: int)
    requires 0 < b && a <= a' && q * b <= a && a' - q' * b < b
    ensures q <= q'
  {
    assert (q' + 1) * b == q' * b + b;
    CancelFactor(q, q' + 1, b);
  }

  lemma QuoNegates(a: int, b: int)
    requires b != 0
    ensures Quo(-a, -b) == Quo(a, b)
  {
    assert Abs(-a) == Abs(a) && Abs(-b) == Abs(b);
    if a == 0 {
      assert Abs(a) / Abs(b) == 0;
    }
  }

  function TryAdd(a: int64, b: int64): (r: Option<int64>)
    ensures r == if Fits(a + b) then Some(a + b) else None
  {
    if (b > 0 && a > MAX - b) || (b < 0 && a < MIN - b) then None else Some(a + b)
  }

  /** Refuses the most negative subtrahend outright, even where the difference is representable. */
  function TrySub(a: int64, b: int64): (r: Option<int64>)
    ensures r == if Fits(a - b) && b != MIN then Some(a - b) else None
  {
    if b == MIN then None else TryAdd(a, -b)
  }

  /** The CDF audit's subtraction has no such exception. */
  function CheckedSub(a: int64, b: int64): (r: Option<int64>)
    ensures r == if Fits(a - b) then Some(a - b) else None
  {
    if b == MIN then (if a >= 0 then None else Some(a - b)) else TryAdd(a, -b)
  }

  /** `a*b/c` through a 128-bit product split in two words. */
  function TryMulDiv(a: int64, b: int64, c: int64): (r: Option<int64>)
    ensures r == if 0 < c && Fits(Quo(a * b, c)) then Some(Quo(a * b, c)) else None
  {
    if c <= 0 then
      None
    else
      var product := Abs(a) * Abs(b);
      var hi, lo := product / WORD, product % WORD;
      MulDivFacts(a, b, c);
      if hi >= c then
        None
      else
        var quo := (hi * WORD + lo) / c;
        if (a < 0) != (b < 0) then
          if quo > MAX + 1 then None
          else if quo == MAX + 1 then Some(MIN)
          else Some(-quo)
        else if quo > MAX then None
        else Some(quo)
  }

  lemma MulDivFacts(a: int64, b: int64, c: int64)
    requires 0 < c
    ensures var product := Abs(a) * Abs(b);
            && product == (product / WORD) * WORD + product % WORD
            && (product / WORD >= c ==> product / c >= WORD)
            && Quo(a * b, c) == if (a < 0) != (b < 0) then -(product / c) else product / c
  {
    var product := Abs(a) * Abs(b);
    AbsMul(a, b);
    if product / WORD >= c {
      assert product >= (product / WORD) * WORD;
      assert product >= c * WORD;
      DivLowerBound(product, c, WORD);
    }
    if a != 0 && b != 0 {
      assert (a * b < 0) == ((a < 0) != (b < 0));
    } else {
      assert a * b == 0 && product == 0;
    }
  }

  lemma AbsMul(a: int, b: int)
    ensures Abs(a * b) == Abs(a) * Abs(b)
    ensures a != 0 && b != 0 ==> (a * b < 0 <==> (a < 0) != (b < 0))
  {
  }

  lemma DivLowerBound(x: int, c: int, k: int)
    requires 0 < c && c * k <= x
    ensures k <= x / c
  {
    assert x == (x / c) * c + x % c;
    assert (x / c + 1) * c == (x / c) * c + c;
    CancelFactor(k, x / c + 1, c);
  }

  function TryMulBps(value: int64, bps: int64): (r: Option<int64>)
    ensures r == if Fits(Quo(value * bps, 10000)) then Some(Quo(value * bps, 10000)) else None
  {
    TryMulDiv(value, bps, 10000)
  }
}
