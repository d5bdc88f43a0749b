/** IEEE 754 binary64 numbers as reals, rounding to nearest, and the default rule that a tie
    goes to the even significand. */
module Binary64 {
  const MANTISSA: int := 0x20_0000_0000_0000  // 2 to the power 53

  function Pow2(n: nat): (p: int)
    ensures p >= 1
  {
    if n == 0 then 1 else 2 * Pow2(n - 1)
  }

  /** 2 to the power `e`. */
  function Scale(e: int): (u: real)
    ensures u > 0.0
  {
    if e >= 0 then Pow2(e) as real else 1.0 / Pow2(-e) as real
  }

  /** `m` units of size `u`. */
  function At(m: int, u: real): real { m as real * u }

  /** `y` is `m * 2^e` with a 53-bit integer `m` and an exponent in range. */
  ghost predicate Represents(y: real, m: int, e: int) {
    -MANTISSA < m < MANTISSA && -1074 <= e <= 971 && y == At(m, Scale(e))
  }

  /** The finite doubles. */
  ghost predicate IsDouble(y: real) {
    exists m, e :: Represents(y, m, e)
  }

  /** Doubles whose 53-bit significand, written with the least possible exponent, is even. */
  ghost predicate EvenSignificand(y: real) {
    exists m, e :: Represents(y, m, e) && m % 2 == 0
  }

  function Gap(x: real, y: real): real { if x <= y then y - x else x - y }

  /** Far inside the largest double, so that nothing here overflows. */
  const RANGE: real := 1e60

  predicate InRange(x: real) { Gap(x, 0.0) <= RANGE }

  ghost predicate NoneNearer(x: real, q: real) {
    forall y :: IsDouble(y) ==> Gap(x, q) <= Gap(x, y)
  }

  /** `fl` rounds to a nearest double; which one a tie goes to is left open. */
  ghost predicate Nearest(fl: real -> real) {
    forall x :: InRange(x) ==> IsDouble(fl(x)) && NoneNearer(x, fl(x))
  }

  /** If another double is as near to `x` as `q`, then `q` is the even one. */
  ghost predicate TieIsEven(x: real, q: real) {
    forall y :: IsDouble(y) && y != q && Gap(x, y) == Gap(x, q) ==> EvenSignificand(q)
  }

  /** The rounding mode of Python's floats. */
  ghost predicate TiesToEven(fl: real -> real) {
    Nearest(fl) && forall x :: InRange(x) ==> TieIsEven(x, fl(x))
  }

  lemma MulMono(a: real, b: real, u: real)
    requires a <= b && u > 0.0
    ensures a * u <= b * u
    ensures a < b ==> a * u < b * u
  {
  }

  lemma AtMono(a: int, b: int, u: real)
    requires a <= b && u > 0.0
    ensures At(a, u) <= At(b, u)
    ensures a < b ==> At(a, u) < At(b, u)
  {
    MulMono(a as real, b as real, u);
  }

  lemma AtAt(a: int, b: int, u: real)
    ensures At(a, At(b, u)) == At(a * b, u)
  {
    var x, y := a as real, b as real;
    assert (a * b) as real == x * y;
    assert x * (y * u) == (x * y) * u;
  }

  // ----- Powers of two ---------------------------------------------------------------------------

  lemma {:induction false} Pow2Add(a: nat, b: nat)
    ensures Pow2(a + b) == Pow2(a) * Pow2(b)
  {
    if a > 0 {
      Pow2Add(a - 1, b);
      assert Pow2(a + b) == 2 * Pow2(a + b - 1);
      assert (a - 1) + b == a + b - 1;
    }
  }

  lemma NextScale(e: int)
    ensures Scale(e + 1) == At(2, Scale(e))
  {
    if e < 0 {
      var p := Pow2(-e - 1) as real;
      assert Pow2(-e) as real == 2.0 * p;
      assert 2.0 * (1.0 / (2.0 * p)) == 1.0 / p;
      assert e == -1 ==> Pow2(0) == 1;
    }
  }

  /** A power of two is a whole multiple of any lower one, and at least twice it. */
  lemma {:induction false} ScaleMultiple(e: int, d: nat)
    ensures Scale(e + d) == At(Pow2(d), Scale(e))
    ensures d > 0 ==> Scale(e + d) >= At(2, Scale(e))
  {
    if d > 0 {
      ScaleMultiple(e, d - 1);
      NextScale(e + d - 1);
      var p, u := Pow2(d - 1), Scale(e);
      assert Pow2(d) == 2 * p;
      hide Pow2, Scale, At;
      assert (e + (d - 1)) + 1 == e + d;
      AtAt(2, p, u);
      AtMono(2, 2 * p, u);
    } else {
      assert Pow2(0) == 1;
    }
  }

  // ----- Integers among the doubles ------------------------------------------------------------------

  lemma IntegerIsDouble(n: int)
    requires -MANTISSA <= n <= MANTISSA
    ensures IsDouble(n as real)
  {
    assert Pow2(0) == 1 && Pow2(1) == 2;
    if -MANTISSA < n < MANTISSA {
      assert Represents(n as real, n, 0);
    } else {
      assert Represents(n as real, n / 2, 1);
    }
  }

  /** Even integers are doubles up to 2^54. */
  lemma EvenIsDouble(n: int)
    requires n % 2 == 0 && -2 * MANTISSA < n < 2 * MANTISSA
    ensures IsDouble(n as real)
  {
    assert Pow2(0) == 1 && Pow2(1) == 2;
    assert Represents(n as real, n / 2, 1);
  }

  lemma SixtyFourthIsDouble(m: int)
    requires -MANTISSA < m < MANTISSA
    ensures IsDouble(m as real / 64.0)
  {
    assert Pow2(6) == 64;
    assert Represents(m as real / 64.0, m, -6);
  }

  lemma SmallFraction(m: int, p: real)
    requires p >= 1.0
    ensures Gap(m as real * (1.0 / p), 0.0) <= Gap(m as real, 0.0)
  {
    var r := 1.0 / p;
    assert 0.0 <= r <= 1.0;
    if m >= 0 { assert m as real * r <= m as real * 1.0; }
    else { assert (-m) as real * r <= (-m) as real * 1.0; }
  }

  /** A double beyond 2^53 has a positive exponent. */
  lemma BeyondMantissa(y: real, m: int, e: int) returns (half: int)
    requires Represents(y, m, e) && Gap(y, 0.0) >= MANTISSA as real
    ensures y == (2 * half) as real
    ensures m % 2 == 0 ==> half % 2 == 0
  {
    if e <= 0 { FractionsAreSmall(y, m, e); }
    var p := Pow2(e - 1);
    assert Scale(e) == (2 * p) as real;
    assert m as real * (2 * p) as real == (m * (2 * p)) as real;
    assert m * (2 * p) == 2 * (m * p);
    half := m * p;
    if m % 2 == 0 { EvenProduct(m, p); }
  }

  lemma FractionsAreSmall(y: real, m: int, e: int)
    requires Represents(y, m, e) && e <= 0
    ensures Gap(y, 0.0) < MANTISSA as real
  {
    assert Pow2(0) == 1;
    SmallFraction(m, Pow2(-e) as real);
  }

  lemma EvenProduct(m: int, p: int)
    requires m % 2 == 0
    ensures (m * p) % 2 == 0
  {
    var k := m / 2;
    assert m == 2 * k;
    assert (2 * k) * p == 2 * (k * p);
  }

  /** Doubles beyond 2^53 are even integers. */
  lemma EvenBeyondMantissa(y: real) returns (n: int)
    requires IsDouble(y) && Gap(y, 0.0) >= MANTISSA as real
    ensures y == n as real && n % 2 == 0
  {
    var m, e :| Represents(y, m, e);
    var half := BeyondMantissa(y, m, e);
    n := 2 * half;
  }

  /** With an even significand they are multiples of four. */
  lemma FourDivides(n: int)
    requires EvenSignificand(n as real) && (n >= MANTISSA || n <= -MANTISSA)
    ensures n % 4 == 0
  {
    var m, e :| Represents(n as real, m, e) && m % 2 == 0;
    hide At, Scale, Pow2;
    var half := BeyondMantissa(n as real, m, e);
    Doubled(n, half);
  }

  lemma Doubled(n: int, half: int)
    requires n as real == (2 * half) as real && half % 2 == 0
    ensures n % 4 == 0
  {
    assert n == 2 * half;
  }

  // ----- What rounding keeps --------------------------------------------------------------------------

  lemma RoundsWithin(fl: real -> real, x: real, y: real)
    requires Nearest(fl) && InRange(x) && IsDouble(y)
    ensures Gap(x, fl(x)) <= Gap(x, y)
  {
    hide IsDouble;
    assert NoneNearer(x, fl(x));
  }

  lemma DoublesStay(fl: real -> real, y: real)
    requires Nearest(fl) && InRange(y) && IsDouble(y)
    ensures fl(y) == y
  {
    hide IsDouble, Nearest;
    RoundsWithin(fl, y, y);
  }

  /** Integers of up to 53 bits survive rounding. */
  lemma IntegersAreExact(fl: real -> real, n: int)
    requires Nearest(fl) && -MANTISSA <= n <= MANTISSA
    ensures fl(n as real) == n as real
  {
    hide IsDouble, Nearest;
    IntegerIsDouble(n);
    DoublesStay(fl, n as real);
  }

  /** Below 2^47 doubles are at most 1/64 apart. */
  lemma SmallGap(fl: real -> real, x: real)
    requires Nearest(fl) && Gap(x, 0.0) < 140000000000000.0
    ensures Gap(x, fl(x)) <= 1.0 / 128.0
  {
    hide IsDouble, Nearest;
    var m := (64.0 * x + 0.5).Floor;
    SixtyFourthIsDouble(m);
    RoundsWithin(fl, x, m as real / 64.0);
  }

  lemma RoundsToDouble(fl: real -> real, x: real)
    requires Nearest(fl) && InRange(x)
    ensures IsDouble(fl(x)) && Gap(fl(x), 0.0) <= 2.0 * Gap(x, 0.0)
  {
    hide IsDouble;
    IntegerIsDouble(0);
    RoundsWithin(fl, x, 0.0);
    assert IsDouble(fl(x)) && NoneNearer(x, fl(x));
  }

  /** Rounding never passes a double from above. */
  lemma StaysAbove(fl: real -> real, x: real, y: real)
    requires Nearest(fl) && InRange(x) && IsDouble(y) && y <= x
    ensures fl(x) >= y
  {
    hide IsDouble, Nearest;
    RoundsWithin(fl, x, y);
  }

  /** `q` is `n` or, if `n` is odd and beyond 2^53, possibly one of its neighbours. */
  predicate Beside(q: int, n: int) {
    n - 1 <= q <= n + 1 && (n % 2 == 0 || -MANTISSA <= n <= MANTISSA ==> q == n)
  }

  /** Between 2^53 and 2^54 an integer rounds to itself or to an even neighbour. */
  lemma RoundsBeside(fl: real -> real, n: int) returns (q: int)
    requires Nearest(fl) && -2 * MANTISSA + 1 < n < 2 * MANTISSA - 1
    ensures fl(n as real) == q as real && Beside(q, n) && IsDouble(q as real)
  {
    if -MANTISSA <= n <= MANTISSA {
      IntegersAreExact(fl, n);
      IntegerIsDouble(n);
      q := n;
    } else if n % 2 == 0 {
      EvenIsDouble(n);
      hide IsDouble, Nearest;
      DoublesStay(fl, n as real);
      q := n;
    } else {
      hide IsDouble, Nearest;
      var toZero := if n > 0 then n - 1 else n + 1;
      EvenIsDouble(toZero);
      RoundsWithin(fl, n as real, toZero as real);
      RoundsToDouble(fl, n as real);
      q := EvenBeyondMantissa(fl(n as real));
    }
  }

  // ----- A rounding exists ------------------------------------------------------------------------------

  ghost predicate RoundsTo(x: real, q: real) {
    IsDouble(q) && NoneNearer(x, q) && TieIsEven(x, q)
  }

  lemma SquareMono(low: int, p: int)
    requires 0 <= low <= p
    ensures low * low <= p * p
  {
    assert low * low <= low * p <= p * p;
  }

  lemma DoublePow2(a: nat, low: int)
    requires Pow2(a) >= low >= 0
    ensures Pow2(2 * a) >= low * low
  {
    Pow2Add(a, a);
    hide Pow2;
    SquareMono(low, Pow2(a));
    assert a + a == 2 * a;
  }

  /** Exponents up to 240 reach beyond `RANGE`. */
  lemma ExponentsReachRange()
    ensures At(MANTISSA, Scale(240)) > RANGE
  {
    assert Pow2(15) == 32768;
    DoublePow2(15, 32768);
    DoublePow2(30, 1000000000);
    DoublePow2(60, 1000000000000000000);
    DoublePow2(120, 1000000000000000000000000000000000000);
  }

  /** The exponent at which `x` has 53 bits, or the least one. */
  lemma {:induction false} FindExponent(x: real, from: int) returns (e: int)
    requires 0.0 <= x <= RANGE && -1074 <= from <= 240
    requires from == -1074 || x >= At(MANTISSA / 2, Scale(from))
    ensures -1074 <= e <= 240 && x < At(MANTISSA, Scale(e))
    ensures e == -1074 || x >= At(MANTISSA / 2, Scale(e))
    decreases 240 - from
  {
    if x < At(MANTISSA, Scale(from)) {
      e := from;
    } else {
      if from == 240 { ExponentsReachRange(); }
      NextScale(from);
      AtAt(MANTISSA / 2, 2, Scale(from));
      e := FindExponent(x, from + 1);
    }
  }

  /** Rounding to an integer, a half going to the even one. */
  function RoundHalfEven(z: real): (m: int)
    ensures z - 0.5 <= m as real <= z + 0.5
    ensures z - 0.5 == m as real || m as real == z + 0.5 ==> m % 2 == 0
  {
    var below := z.Floor;
    var rest := z - below as real;
    if rest < 0.5 || (rest == 0.5 && below % 2 == 0) then below else below + 1
  }

  function Stretch(a: real, u: real): real { a * u }

  lemma DistanceInUnits(x: real, k: int, u: real)
    requires u > 0.0
    ensures Gap(x, At(k, u)) == Stretch(Gap(x / u, k as real), u)
  {
    var z, y := x / u, k as real;
    assert x == z * u;
    assert z * u - y * u == (z - y) * u;
    if z <= y { MulMono(z, y, u); } else { MulMono(y, z, u); }
  }

  lemma StretchMono(a: real, b: real, u: real)
    requires a <= b && u > 0.0
    ensures Stretch(a, u) <= Stretch(b, u)
    ensures a < b ==> Stretch(a, u) < Stretch(b, u)
  {
    MulMono(a, b, u);
  }

  /** A double is a multiple of the unit of `x`, or lies strictly below the binade of `x`. */
  lemma OnGridOrBelow(y: real, e: int) returns (k: int, on: bool)
    requires IsDouble(y) && -1074 <= e
    ensures on ==> y == At(k, Scale(e))
    ensures !on ==> e > -1074 && Gap(y, 0.0) < At(MANTISSA / 2, Scale(e))
  {
    hide Pow2, Scale, At;
    var m, f :| Represents(y, m, f);
    if f >= e {
      ScaleMultiple(e, f - e);
      assert e + (f - e) == f;
      AtAt(m, Pow2(f - e), Scale(e));
      k, on := m * Pow2(f - e), true;
    } else {
      k, on := 0, false;
      ScaleMultiple(f, e - f);
      assert f + (e - f) == e;
      BelowBinade(m, Scale(f), Scale(e));
    }
  }

  lemma BelowBinade(m: int, v: real, u: real)
    requires -MANTISSA < m < MANTISSA && v > 0.0 && u >= At(2, v)
    ensures Gap(At(m, v), 0.0) < At(MANTISSA / 2, u)
  {
    var h := MANTISSA / 2;
    AtAt(h, 2, v);
    assert At(h, At(2, v)) <= At(h, u) by {
      MulMono(0.0, 1.0, v);
      assert (u - At(2, v)) * h as real >= 0.0;
    }
    AtMono(m, MANTISSA, v);
    AtMono(-MANTISSA, m, v);
    assert At(-MANTISSA, v) == -At(MANTISSA, v);
  }

  /** The nearest multiple of the unit is no farther from `x` than any double; a tie is even. */
  lemma GridBeatsDoubles(x: real, e: int, m: int, y: real)
    requires 0.0 <= x && -1074 <= e && IsDouble(y) && m == RoundHalfEven(x / Scale(e))
    requires e == -1074 || x >= At(MANTISSA / 2, Scale(e))
    ensures Gap(x, At(m, Scale(e))) <= Gap(x, y)
    ensures Gap(x, y) == Gap(x, At(m, Scale(e))) && y != At(m, Scale(e)) ==> m % 2 == 0
  {
    hide IsDouble, Scale, RoundHalfEven, At;
    var k, on := OnGridOrBelow(y, e);
    OnGrid(x, Scale(e), m, if on then k else MANTISSA / 2);
  }

  lemma OnGrid(x: real, u: real, m: int, k: int)
    requires u > 0.0 && m == RoundHalfEven(x / u)
    ensures Gap(x, At(m, u)) <= Gap(x, At(k, u))
    ensures Gap(x, At(m, u)) == Gap(x, At(k, u)) && k != m ==> m % 2 == 0
  {
    var z := x / u;
    hide RoundHalfEven, At, Stretch, Gap;
    DistanceInUnits(x, m, u);
    DistanceInUnits(x, k, u);
    NearestInteger(z, m, k);
    StretchMono(Gap(z, m as real), Gap(z, k as real), u);
  }

  lemma NearestInteger(z: real, m: int, k: int)
    requires z - 0.5 <= m as real <= z + 0.5
    requires z - 0.5 == m as real || m as real == z + 0.5 ==> m % 2 == 0
    ensures Gap(z, m as real) <= Gap(z, k as real)
    ensures Gap(z, m as real) == Gap(z, k as real) && k != m ==> m % 2 == 0
  {
  }

  lemma Quotient(x: real, u: real)
    requires 0.0 <= x < At(MANTISSA, u) && u > 0.0
    ensures 0.0 <= x / u < MANTISSA as real
  {
    var z, bound := x / u, MANTISSA as real;
    assert x == z * u;
    if z >= bound { MulMono(bound, z, u); }
    if z < 0.0 { MulMono(z, 0.0, u); }
  }

  lemma RoundingOfNonnegative(x: real)
    requires 0.0 <= x <= RANGE
    ensures exists q :: RoundsTo(x, q)
  {
    hide IsDouble, Scale, RoundHalfEven, EvenSignificand, At;
    var e := FindExponent(x, -1074);
    Quotient(x, Scale(e));
    var m := RoundHalfEven(x / Scale(e));
    var q := At(m, Scale(e));
    GridPointIsDouble(m, e);
    forall y | IsDouble(y)
      ensures Gap(x, q) <= Gap(x, y)
      ensures y != q && Gap(x, y) == Gap(x, q) ==> EvenSignificand(q)
    {
      GridBeatsDoubles(x, e, m, y);
    }
    assert RoundsTo(x, q);
  }

  lemma GridPointIsDouble(m: int, e: int)
    requires 0 <= m <= MANTISSA && -1074 <= e <= 240
    ensures IsDouble(At(m, Scale(e)))
    ensures m % 2 == 0 ==> EvenSignificand(At(m, Scale(e)))
  {
    NextScale(e);
    AtAt(MANTISSA / 2, 2, Scale(e));
    hide Scale, At;
    var y := At(m, Scale(e));
    if m < MANTISSA {
      assert Represents(y, m, e);
    } else {
      assert Represents(y, MANTISSA / 2, e + 1);
    }
  }

  lemma Mirrored(y: real)
    ensures IsDouble(y) ==> IsDouble(-y)
    ensures EvenSignificand(y) ==> EvenSignificand(-y)
  {
    if IsDouble(y) {
      var m, e :| Represents(y, m, e);
      assert Represents(-y, -m, e);
    }
    if EvenSignificand(y) {
      var m, e :| Represents(y, m, e) && m % 2 == 0;
      assert Represents(-y, -m, e);
    }
  }

  lemma MirroredRounding(x: real, q: real)
    requires RoundsTo(x, q)
    ensures RoundsTo(-x, -q)
  {
    hide IsDouble, EvenSignificand;
    Mirrored(q);
    forall y | IsDouble(y)
      ensures Gap(-x, -q) <= Gap(-x, y)
      ensures y != -q && Gap(-x, y) == Gap(-x, -q) ==> EvenSignificand(-q)
    {
      Mirrored(y);
      assert Gap(x, q) <= Gap(x, -y);
    }
  }

  lemma RoundingOf(x: real)
    requires InRange(x)
    ensures exists q :: RoundsTo(x, q)
  {
    hide RoundsTo;
    if x >= 0.0 {
      RoundingOfNonnegative(x);
    } else {
      RoundingOfNonnegative(-x);
      var q :| RoundsTo(-x, q);
      MirroredRounding(-x, q);
    }
  }

  ghost function Rounded(x: real): real {
    if InRange(x) then
      RoundingOf(x);
      var q :| RoundsTo(x, q); q
    else 0.0
  }

  /** Rounding to nearest with ties to even is possible over the whole range. */
  lemma RoundingExists()
    ensures TiesToEven(Rounded)
  {
    forall x | InRange(x) ensures RoundsTo(x, Rounded(x)) { RoundingOf(x); }
    hide IsDouble, NoneNearer, TieIsEven;
  }
}
