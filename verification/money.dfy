/** Kobo arithmetic over Go's wrap-around `int64` (pkg/money/money.go).

    The operations are written the way Go evaluates them: every sum, product and
    quotient wraps, and overflow is inferred afterwards from the wrapped value.
    The lemmas state what that inference amounts to on mathematical integers. */
module Money {
  const TWO63: int := 0x8000_0000_0000_0000
  const TWO64: int := 0x1_0000_0000_0000_0000
  const MIN64: int := -TWO63
  const MAX64: int := TWO63 - 1

  type Int64 = x: int | MIN64 <= x <= MAX64

  datatype Error = Overflow | DivisionByZero

  datatype Result<+T> = Ok(value: T) | Err(error: Error)

  predicate InRange(x: int) {
    MIN64 <= x <= MAX64
  }

  // ---------- Go's integer operators ----------

  function Wrap(x: int): (r: Int64)
    ensures InRange(x) ==> r == x
  {
    (x + TWO63) % TWO64 - TWO63
  }

  function Abs(x: int): (r: nat) {
    if x < 0 then -x else x
  }

  /** Integer division truncating toward zero. */
  function TruncDiv(a: int, b: int): int
    requires b != 0
  {
    var m := Abs(a) / Abs(b);
    if (a < 0) == (b < 0) then m else -m
  }

  function GoDiv(a: Int64, b: Int64): Int64
    requires b != 0
  {
    Wrap(TruncDiv(a, b))
  }

  function GoRem(a: Int64, b: Int64): Int64
    requires b != 0
  {
    Wrap(a - b * TruncDiv(a, b))
  }

  // ---------- the operations of Kobo ----------

  function Add(k: Int64, other: Int64): (r: Result<Int64>) {
    var sum := Wrap(k + other);
    if (other > 0 && sum < k) || (other < 0 && sum > k) then Err(Overflow) else Ok(sum)
  }

  function Sub(k: Int64, other: Int64): (r: Result<Int64>) {
    var diff := Wrap(k - other);
    if (other < 0 && diff < k) || (other > 0 && diff > k) then Err(Overflow) else Ok(diff)
  }

  function MulInt(k: Int64, n: Int64): (r: Result<Int64>) {
    if k == 0 || n == 0 then Ok(0)
    else
      var product := Wrap(k * n);
      if GoDiv(product, n) != k then Err(Overflow) else Ok(product)
  }

  function Percent(k: Int64, numerator: Int64, denominator: Int64): (r: Result<Int64>) {
    if denominator == 0 then Err(DivisionByZero)
    else match MulInt(k, numerator)
      case Err(e) => Err(e)
      case Ok(scaled) =>
        Ok(RoundQuotient(GoDiv(scaled, denominator), GoRem(scaled, denominator), denominator))
  }

  /** Percent's adjustment of the truncated quotient q by its remainder r. */
  function RoundQuotient(q: Int64, r: Int64, denominator: Int64): Int64 {
    var twiceR := Wrap(2 * r);
    var away := if r > 0 then Wrap(q + 1) else Wrap(q - 1);
    if twiceR > denominator || twiceR < Wrap(0 - denominator) then away
    else if twiceR == denominator || twiceR == Wrap(0 - denominator) then
      if GoRem(q, 2) != 0 then away else q
    else q
  }

  // ---------- exactness ----------

  // The largest denominator d with 3 * d < 2^64.
  const PERCENT_LIMIT := 6_148_914_691_236_517_205

  /** What an overflow-checked operation should answer for the exact value x. */
  function Checked(x: int): Result<Int64> {
    if InRange(x) then Ok(x) else Err(Overflow)
  }

  lemma AddExact(k: Int64, other: Int64)
    ensures Add(k, other) == Checked(k + other)
  {
  }

  lemma SubExact(k: Int64, other: Int64)
    ensures Sub(k, other) == Checked(k - other)
  {
  }

  /** Add and Sub as their callers see them: exact, or an error. */
  method AddChecked(k: Int64, other: Int64) returns (r: Result<Int64>)
    ensures r == Checked(k + other)
  {
    AddExact(k, other);
    r := Add(k, other);
  }

  method SubChecked(k: Int64, other: Int64) returns (r: Result<Int64>)
    ensures r == Checked(k - other)
  {
    SubExact(k, other);
    r := Sub(k, other);
  }

  lemma NatDivision(p: nat, d: nat) returns (m: nat, r: nat)
    requires d > 0
    ensures m == p / d && p == d * m + r && r < d
  {
    m, r := p / d, p % d;
  }

  lemma TruncDivBound(a: int, b: int)
    requires b != 0
    ensures Abs(a - b * TruncDiv(a, b)) < Abs(b)
    ensures a >= 0 ==> a - b * TruncDiv(a, b) >= 0
    ensures a <= 0 ==> a - b * TruncDiv(a, b) <= 0
  {
    var m, r := NatDivision(Abs(a), Abs(b));
    SignedProducts(b, m);
  }

  lemma SignedProducts(b: int, m: int)
    ensures (0 - b) * m == 0 - b * m == b * (0 - m)
    ensures (0 - b) * (0 - m) == b * m
  {
  }

  lemma TruncDivShrinks(a: int, b: int)
    requires b != 0
    ensures Abs(TruncDiv(a, b)) <= Abs(a)
  {
    var m, r := NatDivision(Abs(a), Abs(b));
    MulGrow(Abs(b), m, m);
  }

  lemma MulGrow(b: int, d: int, m: int)
    requires b >= 1 && d >= m >= 0
    ensures b * d >= m
  {
  }

  lemma WrapMultiple(x: int) returns (j: int)
    ensures Wrap(x) == x - TWO64 * j
  {
    j := (x + TWO63) / TWO64;
  }

  /** MulInt answers exactly, or reports the overflow, on every pair but one:
      MinInt64 times -1 wraps onto itself and passes the division check. */
  lemma MulIntExact(k: Int64, n: Int64)
    ensures MulInt(k, n) == Checked(k * n) <==> !(k == MIN64 && n == -1)
  {
    if k == 0 || n == 0 {
    } else if n == -1 {
    } else {
      var product := Wrap(k * n);
      var j := WrapMultiple(k * n);
      TruncDivBound(product, n);
      TruncDivShrinks(product, n);
      var t := TruncDiv(product, n);
      assert t * n == n * t;
      if InRange(k * n) {
        QuotientOfProduct(k, n);
      } else {
        assert j != 0;
        assert n * k == k * n;
        assert t != k;
        assert n != -1 ==> InRange(t);
      }
    }
  }

  lemma QuotientOfProduct(k: int, n: int)
    requires n != 0
    ensures TruncDiv(k * n, n) == k
  {
    var a := k * n;
    TruncDivBound(a, n);
    var t := TruncDiv(a, n);
    assert a - n * t == n * (k - t);
    if k - t >= 1 || k - t <= -1 { AbsMul(n, k - t); }
  }

  lemma AbsMul(n: int, m: int)
    requires n != 0 && m != 0
    ensures Abs(n * m) >= Abs(n)
  {
    MulGrow(Abs(m), Abs(n), Abs(n));
    SignedProducts(m, n);
  }

  // ---------- banker's rounding ----------

  /** q is x/d rounded to nearest, ties to even (section 4.3.1 of IEEE 754-2019). */
  ghost predicate IsNearestEven(q: int, x: int, d: int)
    requires d > 0
  {
    && -d <= 2 * (x - q * d) <= d
    && (Abs(2 * (x - q * d)) == d ==> q % 2 == 0)
  }

  /** The exact rounding, on mathematical integers. */
  function RoundHalfEven(x: int, d: int): (q: int)
    requires d > 0
    ensures IsNearestEven(q, x, d)
  {
    var f, r := x / d, x % d;
    FloorOrNext(x, d, f, r);
    if 2 * r < d || (2 * r == d && f % 2 == 0) then f else f + 1
  }

  lemma FloorOrNext(x: int, d: int, f: int, r: int)
    requires d > 0 && x == d * f + r && 0 <= r < d
    ensures IsNearestEven(if 2 * r < d || (2 * r == d && f % 2 == 0) then f else f + 1, x, d)
  {
    assert x - f * d == r && x - (f + 1) * d == r - d;
  }

  lemma NearestEvenUnique(q1: int, q2: int, x: int, d: int)
    requires d > 0 && IsNearestEven(q1, x, d) && IsNearestEven(q2, x, d)
    ensures q1 == q2
  {
    NearestEvenOrdered(q1, x, q2, x, d);
    NearestEvenOrdered(q2, x, q1, x, d);
  }

  /** Rounding is monotone: the fact that keeps every cap and every premium ordered. */
  lemma NearestEvenOrdered(q1: int, x1: int, q2: int, x2: int, d: int)
    requires d > 0 && x1 <= x2 && IsNearestEven(q1, x1, d) && IsNearestEven(q2, x2, d)
    ensures q1 <= q2
  {
    if q1 > q2 { ProductGap(q1, q2, d); }
    OrderedByGap(q1, x1, q1 * d, q2, x2, q2 * d, d);
  }

  lemma ProductGap(q1: int, q2: int, d: int)
    requires q1 > q2 && d > 0
    ensures q1 * d >= q2 * d + d
    ensures q1 > q2 + 1 ==> q1 * d >= q2 * d + 2 * d
  {
    assert (q1 - q2) * d == q1 * d - q2 * d && (q1 - q2 - 1) * d == (q1 - q2) * d - d;
    MulAtLeast(q1 - q2, d);
    if q1 > q2 + 1 { MulAtLeast(q1 - q2 - 1, d); }
  }

  /** The multiples p1 = q1 * d and p2 = q2 * d cannot both be nearest to x1 <= x2 unless q1 <= q2. */
  lemma OrderedByGap(q1: int, x1: int, p1: int, q2: int, x2: int, p2: int, d: int)
    requires d > 0 && x1 <= x2
    requires q1 > q2 ==> p1 >= p2 + d
    requires q1 > q2 + 1 ==> p1 >= p2 + 2 * d
    requires 2 * (x1 - p1) >= -d && 2 * (x2 - p2) <= d
    requires 2 * (x1 - p1) == -d ==> q1 % 2 == 0
    requires 2 * (x2 - p2) == d ==> q2 % 2 == 0
    ensures q1 <= q2
  {
  }

  lemma MulAtLeast(n: int, d: int)
    requires n >= 1 && d >= 0
    ensures n * d >= d
  {
    assert n * d == (n - 1) * d + d;
  }

  lemma RoundMonotone(x1: int, x2: int, d: int)
    requires d > 0 && x1 <= x2
    ensures RoundHalfEven(x1, d) <= RoundHalfEven(x2, d)
  {
    NearestEvenOrdered(RoundHalfEven(x1, d), x1, RoundHalfEven(x2, d), x2, d);
  }

  lemma RoundOfMultiple(x: int, d: int)
    requires d > 0
    ensures RoundHalfEven(x * d, d) == x
  {
    assert x * d - x * d == 0;
    NearestEvenUnique(RoundHalfEven(x * d, d), x, x * d, d);
  }

  lemma MulOrdered(x: nat, a: int, b: int)
    requires a <= b
    ensures x * a <= x * b
  {
    assert x * b - x * a == x * (b - a);
  }

  /** A share of at most 100% never exceeds the whole, and is never negative. */
  lemma RoundShare(x: nat, num: nat, d: int)
    requires d > 0 && num <= d
    ensures 0 <= RoundHalfEven(x * num, d) <= x
  {
    MulOrdered(x, num, d);
    MulOrdered(x, 0, num);
    RoundWithin(x * num, x, d);
  }

  lemma RoundWithin(y: int, hi: int, d: int)
    requires d > 0 && 0 <= y <= hi * d
    ensures 0 <= RoundHalfEven(y, d) <= hi
  {
    var q := RoundHalfEven(y, d);
    assert IsNearestEven(0, 0, d) && IsNearestEven(hi, hi * d, d);
    NearestEvenOrdered(0, 0, q, y, d);
    NearestEvenOrdered(q, y, hi, hi * d, d);
  }

  /** What rounding moves the remainder to, when it moves the quotient from q to z. */
  function Residue(q: int, z: int, r: int, d: int): int {
    if z == q then r else if z == q + 1 then r - d else r + d
  }

  lemma RoundQuotientCore(q: Int64, r: Int64, d: Int64)
    requires 1 <= d <= PERCENT_LIMIT
    requires -d < r < d
    requires r != 0 ==> InRange(q - 1) && InRange(q + 1)
    ensures var z := RoundQuotient(q, r, d);
            && q - 1 <= z <= q + 1
            && -d <= 2 * Residue(q, z, r, d) <= d
            && (Abs(2 * Residue(q, z, r, d)) == d ==> z % 2 == 0)
  {
    ParityOfRem(q);
    assert Wrap(0 - d) == 0 - d;
    assert Wrap(2 * r) == if 2 * r > MAX64 then 2 * r - TWO64 else if 2 * r < MIN64 then 2 * r + TWO64 else 2 * r;
  }

  lemma RoundQuotientNearest(scaled: Int64, d: Int64)
    requires 1 <= d <= PERCENT_LIMIT
    ensures IsNearestEven(RoundQuotient(GoDiv(scaled, d), GoRem(scaled, d), d), scaled, d)
  {
    var t := TruncDiv(scaled, d);
    var r := scaled - d * t;
    TruncatedParts(scaled, d);
    RoundQuotientCore(t, r, d);
    ResidueIsNearest(scaled, t, r, d, RoundQuotient(t, r, d));
  }

  lemma ResidueIsNearest(x: int, t: int, r: int, d: int, z: int)
    requires d > 0 && r == x - d * t && t - 1 <= z <= t + 1
    requires -d <= 2 * Residue(t, z, r, d) <= d && (Abs(2 * Residue(t, z, r, d)) == d ==> z % 2 == 0)
    ensures IsNearestEven(z, x, d)
  {
    assert d * t == t * d && (t + 1) * d == t * d + d && (t - 1) * d == t * d - d;
    assert x - z * d == Residue(t, z, r, d);
  }

  /** The quotient and remainder Go computes are the truncated ones, with room to round. */
  lemma TruncatedParts(scaled: Int64, d: Int64)
    requires d >= 1
    ensures var t := TruncDiv(scaled, d);
            && InRange(t) && GoDiv(scaled, d) == t
            && var r := scaled - d * t;
            && -d < r < d && GoRem(scaled, d) == r
            && (r != 0 ==> InRange(t - 1) && InRange(t + 1))
  {
    TruncDivBound(scaled, d);
    TruncDivShrinks(scaled, d);
    if d >= 2 { HalvedByTwo(scaled, d); }
  }

  lemma HalvedByTwo(a: int, d: int)
    requires d >= 2
    ensures 2 * Abs(TruncDiv(a, d)) <= Abs(a)
  {
    var m, r := NatDivision(Abs(a), d);
    MulOrdered(m, 2, d);
    assert m * d == d * m;
  }

  lemma ParityOfRem(q: Int64)
    ensures GoRem(q, 2) != 0 <==> q % 2 != 0
  {
  }

  /** What Percent should answer: the exact quotient rounded half to even, or the error. */
  ghost function ExactPercent(k: Int64, numerator: Int64, denominator: Int64): Result<int> {
    if denominator == 0 then Err(DivisionByZero)
    else if !InRange(k * numerator) then Err(Overflow)
    else if denominator > 0 then Ok(RoundHalfEven(k * numerator, denominator))
    else Ok(RoundHalfEven(0 - k * numerator, 0 - denominator))
  }

  /** For every denominator up to a third of 2^64 and every pair that MulInt multiplies
      correctly, Percent is exact. The doubled remainder may wrap, but it then lands on the
      right side of the comparison. */
  lemma PercentExact(k: Int64, numerator: Int64, denominator: Int64)
    requires 1 <= denominator <= PERCENT_LIMIT
    requires !(k == MIN64 && numerator == -1)
    ensures Percent(k, numerator, denominator) ==
            if InRange(k * numerator) then Ok(RoundHalfEven(k * numerator, denominator)) else Err(Overflow)
  {
    MulIntExact(k, numerator);
    if InRange(k * numerator) {
      RoundQuotientNearest(k * numerator, denominator);
      NearestEvenUnique(RoundQuotient(GoDiv(k * numerator, denominator), GoRem(k * numerator, denominator), denominator),
                        RoundHalfEven(k * numerator, denominator), k * numerator, denominator);
    }
  }

  lemma PartsOfLess(a: Int64, b: Int64)
    requires b != 0 && Abs(a) < Abs(b)
    ensures GoDiv(a, b) == 0 && GoRem(a, b) == a
  {
    var m, r := NatDivision(Abs(a), Abs(b));
    if m >= 1 { MulAtLeast(m, Abs(b)); }
    assert TruncDiv(a, b) == 0;
  }

  lemma RoundedDown(d: Int64)
    requires d > PERCENT_LIMIT
    ensures RoundQuotient(0, d - 1, d) == 0
  {
    assert Wrap(2 * (d - 1)) == 2 * (d - 1) - TWO64 && Wrap(0 - d) == 0 - d;
    ParityOfRem(0);
  }

  /** Above that limit the remainder d - 1, nearly the whole, is rounded down to nothing. */
  lemma PercentLosesTheWhole(d: Int64)
    requires d > PERCENT_LIMIT
    ensures Percent(d - 1, 1, d) == Ok(0) && RoundHalfEven(d - 1, d) == 1
  {
    MulIntExact(d - 1, 1);
    PartsOfLess(d - 1, d);
    RoundedDown(d);
    NearestEvenUnique(1, RoundHalfEven(d - 1, d), d - 1, d);
  }

  lemma RoundedAway(d: Int64)
    requires d < 0
    ensures RoundQuotient(0, 0, d) == -1
  {
  }

  /** Below zero even a share of nothing is rounded away from it. */
  lemma PercentOfNothing(d: Int64)
    requires d < 0
    ensures Percent(0, 1, d) == Ok(-1) && ExactPercent(0, 1, d) == Ok(0)
  {
    PartsOfLess(0, d);
    RoundedAway(d);
    NearestEvenUnique(0, RoundHalfEven(0, 0 - d), 0, 0 - d);
  }

  ghost predicate AlwaysExact(d: Int64) {
    forall k: Int64, n: Int64 {:trigger Percent(k, n, d)} :: !(k == MIN64 && n == -1) ==> Percent(k, n, d) == ExactPercent(k, n, d)
  }

  /** A denominator is safe, whatever it is applied to, if and only if it is not negative
      and at most (2^64 - 1) / 3. */
  lemma PercentExactIff(d: Int64)
    ensures AlwaysExact(d) <==> 0 <= d <= PERCENT_LIMIT
  {
    if d > PERCENT_LIMIT {
      PercentLosesTheWhole(d);
    } else if d < 0 {
      PercentOfNothing(d);
    } else if d > 0 {
      forall k: Int64, n: Int64 | !(k == MIN64 && n == -1) ensures Percent(k, n, d) == ExactPercent(k, n, d) {
        PercentExact(k, n, d);
      }
    }
  }

  // ---------- Sum ----------

  function Total(values: seq<int>): int {
    if values == [] then 0 else Total(values[..|values| - 1]) + values[|values| - 1]
  }

  ghost predicate PrefixesInRange(values: seq<int>) {
    forall n | 0 <= n <= |values| :: InRange(Total(values[..n]))
  }

  lemma {:induction false} TotalOfConcat(a: seq<int>, b: seq<int>)
    ensures Total(a + b) == Total(a) + Total(b)
  {
    if b == [] {
      assert a + b == a;
    } else {
      assert (a + b)[..|a + b| - 1] == a + b[..|b| - 1];
      TotalOfConcat(a, b[..|b| - 1]);
    }
  }

  ghost predicate NonNegative(values: seq<int>) {
    forall i | 0 <= i < |values| :: values[i] >= 0
  }

  lemma {:induction false} TotalPrefixBound(values: seq<int>, n: nat)
    requires NonNegative(values) && n <= |values|
    ensures 0 <= Total(values[..n]) <= Total(values)
  {
    if values != [] {
      var most := values[..|values| - 1];
      if n < |values| {
        TotalPrefixBound(most, n);
        assert most[..n] == values[..n];
      } else {
        TotalPrefixBound(most, n - 1);
        assert most[..n - 1] == most && values[..n] == values;
      }
    }
  }

  /** money.Sum: the exact total, or Overflow exactly when some prefix leaves int64. */
  method Sum(values: seq<Int64>) returns (r: Result<Int64>)
    ensures r.Ok? <==> PrefixesInRange(values)
    ensures r.Ok? ==> r.value == Total(values)
    ensures r.Err? ==> r.error == Overflow
  {
    var total: Int64 := 0;
    for i := 0 to |values|
      invariant total == Total(values[..i])
      invariant forall n | 0 <= n <= i :: InRange(Total(values[..n]))
    {
      assert values[..i + 1][..i] == values[..i];
      AddExact(total, values[i]);
      var next := Add(total, values[i]);
      if next.Err? {
        assert !InRange(Total(values[..i + 1]));
        return Err(Overflow);
      }
      total := next.value;
    }
    assert values[..|values|] == values;
    return Ok(total);
  }

  /** Amounts that are never negative overflow only if their total does. */
  lemma NonNegativePrefixes(values: seq<int>)
    requires NonNegative(values)
    ensures PrefixesInRange(values) <==> InRange(Total(values))
  {
    forall n | 0 <= n <= |values| ensures 0 <= Total(values[..n]) <= Total(values) {
      TotalPrefixBound(values, n);
    }
    assert values[..|values|] == values;
  }
}
