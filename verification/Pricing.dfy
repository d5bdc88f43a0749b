/** What a generation costs (`generation_cost`).  Video prices go through floats: the values
    are modelled as reals and every operation as the exact operation followed by the rounding
    `fl`. */
module Pricing {
  import opened Binary64
  import opened Tables

  /** Tariffs per kind, and the percentage charged per video resolution. */
  datatype Tariff = Tariff(base: map<Kind, int>, percent: map<Resolution, int>)

  datatype Resolution = P480 | P720 | P1080

  /** The validated parameters the price depends on. */
  datatype Params = Params(numImages: int, duration: int, resolution: Resolution)

  predicate Admitted(p: Params) { 1 <= p.numImages <= 4 && p.duration in {5, 10} }

  predicate IsImage(kind: Kind) { kind == TextToImage || kind == ImageToImage }

  predicate Complete(t: Tariff) {
    && (forall k: Kind :: k in t.base)
    && (forall r: Resolution :: r in t.percent)
  }

  /** `math.ceil`. */
  function Ceil(x: real): int { -(-x).Floor }

  /** The float operations of the formula: the exact result, rounded. */
  function Times(fl: real -> real, x: real, y: real): real { fl(x * y) }

  function Over(fl: real -> real, x: real, y: real): real
    requires y != 0.0
  {
    fl(x / y)
  }

  /** `math.ceil(base * (duration / 5) * percent / 100)`, evaluated from the left. */
  function VideoCost(fl: real -> real, base: int, duration: int, percent: int): int {
    var multiplier := Over(fl, duration as real, 5.0);
    var scaled := Times(fl, fl(base as real), multiplier);
    var product := Times(fl, scaled, fl(percent as real));
    Ceil(Over(fl, product, 100.0))
  }

  function GenerationCost(fl: real -> real, t: Tariff, kind: Kind, p: Params): int
    requires Complete(t)
  {
    if IsImage(kind) then t.base[kind] * p.numImages
    else VideoCost(fl, t.base[kind], p.duration, t.percent[p.resolution])
  }

  /** The exact price in hundredths of a credit. */
  function Hundredths(base: int, duration: int, percent: int): int {
    base * (duration / 5) * percent
  }

  /** The price is the least whole number of credits that covers the exact one. */
  predicate PricedExactly(fl: real -> real, base: int, duration: int, percent: int) {
    var cost := VideoCost(fl, base, duration, percent);
    100 * (cost - 1) < Hundredths(base, duration, percent) <= 100 * cost
  }

  // ----- From LOWEST to HIGHEST every price is exact ---------------------------------------------

  const HIGHEST: int := 9007199254741000
  const LOWEST: int := -9007199254740998

  lemma WholeMultiplier(fl: real -> real, duration: int)
    requires Nearest(fl) && duration in {5, 10}
    ensures Over(fl, duration as real, 5.0) == (duration / 5) as real
  {
    hide Nearest;
    IntegersAreExact(fl, duration / 5);
    assert (duration as real) / 5.0 == (duration / 5) as real;
  }

  /** The division by one hundred rounds, but never across an integer. */
  lemma HundredthIsExact(fl: real -> real, n: int)
    requires Nearest(fl) && LOWEST <= n <= HIGHEST
    ensures var cost := Ceil(Over(fl, n as real, 100.0));
            100 * (cost - 1) < n <= 100 * cost
  {
    hide Nearest;
    var x := n as real / 100.0;
    if n % 100 == 0 {
      assert x == (n / 100) as real;
      IntegersAreExact(fl, n / 100);
    } else {
      SmallGap(fl, x);
      var whole := n / 100;
      assert whole as real + 1.0 / 100.0 <= x <= whole as real + 99.0 / 100.0;
      assert whole as real < fl(x) < whole as real + 1.0;
    }
  }

  lemma AtLeast(a: nat, b: nat)
    requires b > 0
    ensures a <= a * b
    ensures b > 1 ==> 2 * a <= a * b
  {
  }

  function Abs(n: int): nat { if n < 0 then -n else n }

  /** A factor is no larger than the product, and at most half of it beside a factor above one. */
  lemma FactorFits(a: int, b: int)
    requires b != 0
    ensures Abs(a) <= Abs(a * b)
    ensures Abs(b) > 1 ==> 2 * Abs(a) <= Abs(a * b)
  {
    AtLeast(Abs(a), Abs(b));
    assert Abs(a) * Abs(b) == Abs(a * b);
  }

  lemma TimesInteger(fl: real -> real, a: int, b: int, n: int)
    requires n == a * b
    ensures Times(fl, a as real, b as real) == fl(n as real)
  {
    assert a as real * b as real == n as real;
  }

  /** A factor that is one in absolute value only moves the sign, and doubles keep theirs. */
  lemma TimesSign(fl: real -> real, q: int, sign: int)
    requires Nearest(fl) && Abs(sign) == 1 && -2 * MANTISSA < q < 2 * MANTISSA && IsDouble(q as real)
    ensures Times(fl, q as real, sign as real) == (q * sign) as real
    ensures Times(fl, sign as real, q as real) == (q * sign) as real
  {
    hide Nearest, IsDouble;
    Mirrored(q as real);
    TimesInteger(fl, q, sign, q * sign);
    TimesInteger(fl, sign, q, q * sign);
    assert (q * sign) as real == q as real || (q * sign) as real == -(q as real);
    DoublesStay(fl, (q * sign) as real);
  }

  lemma OnlySign(base: int, m: int, percent: int)
    requires m in {1, 2} && percent != 0 && Abs(base) > MANTISSA && LOWEST <= (base * m) * percent <= HIGHEST
    ensures m == 1 && Abs(percent) == 1
  {
    if m == 1 {
      FactorFits(base, percent);
    } else {
      FactorFits(2 * base, percent);
    }
  }

  /** A large base tariff: nothing else can contribute but a sign. */
  lemma LargeBase(fl: real -> real, base: int, m: int, percent: int) returns (q: int)
    requires Nearest(fl) && m in {1, 2} && percent != 0 && Abs(base) > MANTISSA
    requires LOWEST <= (base * m) * percent <= HIGHEST
    ensures Product(fl, base, m, percent) == q as real && Beside(q, (base * m) * percent)
  {
    hide Nearest, IsDouble, Times;
    OnlySign(base, m, percent);
    var b := RoundsBeside(fl, base);
    TimesSign(fl, b, 1);
    IntegersAreExact(fl, percent);
    TimesSign(fl, b, percent);
    q := b * percent;
  }

  /** A large percentage, likewise. */
  lemma LargePercent(fl: real -> real, base: int, m: int, percent: int) returns (q: int)
    requires Nearest(fl) && m in {1, 2} && base != 0 && Abs(percent) > MANTISSA
    requires LOWEST <= (base * m) * percent <= HIGHEST
    ensures Product(fl, base, m, percent) == q as real && Beside(q, (base * m) * percent)
  {
    hide Nearest, IsDouble, Times;
    var k := base * m;
    FactorFits(percent, k);
    assert percent * k == k * percent;
    assert Abs(k) == 1;
    IntegersAreExact(fl, base);
    IntegersAreExact(fl, k);
    TimesInteger(fl, base, m, k);
    var p := RoundsBeside(fl, percent);
    TimesSign(fl, p, k);
    q := p * k;
  }

  function Product(fl: real -> real, base: int, m: int, percent: int): real {
    Times(fl, Times(fl, fl(base as real), m as real), fl(percent as real))
  }

  /** The product of tariff, duration and percentage comes out as it is, or beside it. */
  lemma ProductIsBeside(fl: real -> real, base: int, m: int, percent: int) returns (q: int)
    requires Nearest(fl) && m in {1, 2} && LOWEST <= (base * m) * percent <= HIGHEST
    ensures Product(fl, base, m, percent) == q as real && Beside(q, (base * m) * percent)
  {
    hide Nearest, IsDouble;
    IntegersAreExact(fl, 0);
    if percent == 0 || base == 0 {
      q := 0;
      assert (base * m) * percent == 0;
    } else if Abs(base) > MANTISSA {
      q := LargeBase(fl, base, m, percent);
    } else if Abs(percent) > MANTISSA {
      q := LargePercent(fl, base, m, percent);
    } else {
      q := SmallFactors(fl, base, m, percent, base * m);
    }
  }

  lemma SmallFactors(fl: real -> real, base: int, m: int, percent: int, k: int) returns (q: int)
    requires Nearest(fl) && m in {1, 2} && base != 0 && percent != 0 && k == base * m
    requires Abs(base) <= MANTISSA && Abs(percent) <= MANTISSA
    requires LOWEST <= k * percent <= HIGHEST
    ensures Product(fl, base, m, percent) == q as real && Beside(q, k * percent)
  {
    hide Nearest, IsDouble, Times;
    IntegersAreExact(fl, base);
    IntegersAreExact(fl, percent);
    TimesInteger(fl, base, m, k);
    FactorFits(k, percent);
    if Abs(k) <= MANTISSA {
      IntegersAreExact(fl, k);
      TimesInteger(fl, k, percent, k * percent);
      q := RoundsBeside(fl, k * percent);
    } else {
      assert Abs(percent) == 1;
      EvenIsDouble(k);
      DoublesStay(fl, k as real);
      TimesSign(fl, k, percent);
      q := k * percent;
    }
  }

  /** The video price is the exact one rounded up, whatever nearest double the ties go to: the
      floats do no harm as long as the product of tariff, duration and percentage lies between
      `LOWEST` and `HIGHEST`, tariffs of either sign included. */
  lemma VideoPriceIsExact(fl: real -> real, base: int, duration: int, percent: int)
    requires Nearest(fl) && duration in {5, 10}
    requires LOWEST <= Hundredths(base, duration, percent) <= HIGHEST
    ensures PricedExactly(fl, base, duration, percent)
  {
    hide Nearest, Times, Over, Ceil;
    WholeMultiplier(fl, duration);
    var q := ProductIsBeside(fl, base, duration / 5, percent);
    HundredthIsExact(fl, q);
    Unfolded(fl, base, duration, percent, q);
    SameHundred(Hundredths(base, duration, percent), q, VideoCost(fl, base, duration, percent));
  }

  /** What each kind costs: an image order its tariff for every image, whatever duration and
      resolution are; a video order the least whole number of credits that covers the tariff for
      every five seconds at the percentage of its resolution, whatever the number of images. */
  lemma PriceOfEachKind(fl: real -> real, t: Tariff, kind: Kind, p: Params)
    requires Nearest(fl) && Complete(t) && Admitted(p)
    requires !IsImage(kind) ==> LOWEST <= Hundredths(t.base[kind], p.duration, t.percent[p.resolution]) <= HIGHEST
    ensures var cost := GenerationCost(fl, t, kind, p);
            match kind
            case TextToImage => cost == t.base[TextToImage] * p.numImages
            case ImageToImage => cost == t.base[ImageToImage] * p.numImages
            case _ =>
              var exact := t.base[kind] * (if p.duration == 5 then 1 else 2) * t.percent[p.resolution];
              100 * (cost - 1) < exact <= 100 * cost
  {
    if !IsImage(kind) { VideoPriceIsExact(fl, t.base[kind], p.duration, t.percent[p.resolution]); }
    hide Nearest, VideoCost;
  }

  /** Next to 2^53 the neighbour lies in the same hundred. */
  lemma SameHundred(n: int, q: int, cost: int)
    requires LOWEST <= n <= HIGHEST && Beside(q, n) && 100 * (cost - 1) < q <= 100 * cost
    ensures 100 * (cost - 1) < n <= 100 * cost
  {
  }

  lemma Unfolded(fl: real -> real, base: int, duration: int, percent: int, q: int)
    requires Over(fl, duration as real, 5.0) == (duration / 5) as real
    requires Product(fl, base, duration / 5, percent) == q as real
    ensures VideoCost(fl, base, duration, percent) == Ceil(Over(fl, q as real, 100.0))
  {
    hide Times, Over, Ceil;
  }

  // ----- And no farther -----------------------------------------------------------------------------

  /** Every product between `low` and `high` is priced exactly, however it is composed. */
  ghost predicate ExactBetween(fl: real -> real, low: int, high: int) {
    forall base, duration, percent :: duration in {5, 10} && low <= Hundredths(base, duration, percent) <= high ==>
      PricedExactly(fl, base, duration, percent)
  }

  /** Halfway between two doubles the even one wins, which carries the products just outside
      the bounds onto whole hundreds. */
  lemma TieRounds(fl: real -> real, n: int, even: int, odd: int)
    requires TiesToEven(fl) && InRange(n as real) && IsDouble(even as real) && !EvenSignificand(odd as real)
    requires (even == n - 1 && odd == n + 1) || (even == n + 1 && odd == n - 1)
    requires fl(n as real) == even as real || fl(n as real) == odd as real
    ensures fl(n as real) == even as real
  {
    assert TieIsEven(n as real, fl(n as real));
    hide IsDouble, EvenSignificand, Nearest;
    assert Gap(n as real, even as real) == Gap(n as real, odd as real);
  }

  lemma RoundsToNeighbour(fl: real -> real, n: int) returns (q: int)
    requires Nearest(fl) && (n > MANTISSA || n < -MANTISSA) && -2 * MANTISSA + 1 < n < 2 * MANTISSA - 1 && n % 2 != 0
    ensures fl(n as real) == q as real && (q == n - 1 || q == n + 1)
  {
    hide IsDouble, Nearest;
    q := RoundsBeside(fl, n);
    var q' := EvenBeyondMantissa(q as real);
    assert q == q';
  }

  lemma OddSignificand(n: int)
    requires n % 4 == 2 && (n >= MANTISSA || n <= -MANTISSA)
    ensures !EvenSignificand(n as real)
  {
    if EvenSignificand(n as real) { FourDivides(n); }
  }

  lemma ProductOfOne(fl: real -> real, n: int, q: int)
    requires Nearest(fl) && fl(n as real) == q as real && q % 2 == 0 && -2 * MANTISSA < q < 2 * MANTISSA
    ensures Product(fl, n, 1, 1) == q as real
  {
    hide Nearest, IsDouble, Times;
    IntegersAreExact(fl, 1);
    EvenIsDouble(q);
    TimesSign(fl, q, 1);
    assert (q * 1) as real == q as real;
  }

  lemma UnitPrice(fl: real -> real, n: int, q: int)
    requires Nearest(fl) && fl(n as real) == q as real && q % 2 == 0 && -2 * MANTISSA < q < 2 * MANTISSA
    ensures VideoCost(fl, n, 5, 1) == Ceil(Over(fl, q as real, 100.0))
  {
    hide Nearest, IsDouble, Over, Times, Ceil, Product, VideoCost;
    WholeMultiplier(fl, 5);
    ProductOfOne(fl, n, q);
    Unfolded(fl, n, 5, 1, q);
  }

  lemma HundredsAreEven(k: int)
    ensures (100 * k) % 2 == 0
  {
    assert 100 * k == 2 * (50 * k);
  }

  lemma OneUnitTariff(fl: real -> real, n: int, k: int)
    requires Nearest(fl) && fl(n as real) == (100 * k) as real && -2 * MANTISSA < 100 * k < 2 * MANTISSA
    ensures VideoCost(fl, n, 5, 1) == k
  {
    hide Nearest, IsDouble, Over, Times, Ceil, Product, VideoCost;
    HundredsAreEven(k);
    UnitPrice(fl, n, 100 * k);
    IntegersAreExact(fl, k);
    WholeHundred(fl, k);
    CeilOfInteger(k);
  }

  lemma WholeHundred(fl: real -> real, k: int)
    ensures Over(fl, (100 * k) as real, 100.0) == fl(k as real)
  {
    assert (100 * k) as real / 100.0 == k as real;
  }

  lemma CeilOfInteger(n: int)
    ensures Ceil(n as real) == n
  {
  }

  /** With ties to even the bounds are exact: all products from `low` to `high` are priced
      exactly if and only if neither end passes `LOWEST` or `HIGHEST`. */
  lemma ExactExactlyWhen(fl: real -> real, low: int, high: int)
    requires TiesToEven(fl) && low <= 0 <= high
    ensures ExactBetween(fl, low, high) <==> LOWEST <= low && high <= HIGHEST
  {
    hide Nearest, TieIsEven, PricedExactly, Hundredths;
    if LOWEST <= low && high <= HIGHEST {
      forall base, duration, percent | duration in {5, 10} && low <= Hundredths(base, duration, percent) <= high
        ensures PricedExactly(fl, base, duration, percent)
      {
        VideoPriceIsExact(fl, base, duration, percent);
      }
    } else if high > HIGHEST {
      AboveHighest(fl);
    } else {
      BelowLowest(fl);
    }
  }

  lemma AboveHighest(fl: real -> real)
    requires TiesToEven(fl)
    ensures Hundredths(HIGHEST + 1, 5, 1) == HIGHEST + 1 && !PricedExactly(fl, HIGHEST + 1, 5, 1)
  {
    hide Nearest, TieIsEven, VideoCost, IsDouble, EvenSignificand;
    var q := RoundsToNeighbour(fl, HIGHEST + 1);
    EvenIsDouble(HIGHEST);
    OddSignificand(HIGHEST + 2);
    TieRounds(fl, HIGHEST + 1, HIGHEST, HIGHEST + 2);
    OneUnitTariff(fl, HIGHEST + 1, HIGHEST / 100);
  }

  lemma BelowLowest(fl: real -> real)
    requires TiesToEven(fl)
    ensures Hundredths(LOWEST - 1, 5, 1) == LOWEST - 1 && !PricedExactly(fl, LOWEST - 1, 5, 1)
  {
    hide Nearest, TieIsEven, VideoCost, IsDouble, EvenSignificand;
    var q := RoundsToNeighbour(fl, LOWEST - 1);
    EvenIsDouble(LOWEST - 2);
    OddSignificand(LOWEST);
    TieRounds(fl, LOWEST - 1, LOWEST - 2, LOWEST);
    OneUnitTariff(fl, LOWEST - 1, (LOWEST - 2) / 100);
  }

  // ----- Prices of any size --------------------------------------------------------------------------

  /** Tariffs and percentages for which no float operation overflows; a price that fits a
      BIGINT column stays far below. */
  const TARIFFS: real := 1e29

  predicate Payable(base: int, percent: int) {
    Gap(base as real, 0.0) <= TARIFFS && Gap(percent as real, 0.0) <= TARIFFS
  }

  lemma ProductBound(x: real, y: real, a: real, b: real)
    requires Gap(x, 0.0) <= a && Gap(y, 0.0) <= b
    ensures Gap(x * y, 0.0) <= a * b
  {
    var u, v := Gap(x, 0.0), Gap(y, 0.0);
    assert Gap(x * y, 0.0) == u * v;
    assert u * v <= a * v <= a * b;
  }

  /** The float operations stay in range. */
  lemma NoOverflow(fl: real -> real, base: int, duration: int, percent: int)
    requires Nearest(fl) && duration in {5, 10} && Payable(base, percent)
    ensures var scaled := Times(fl, fl(base as real), (duration / 5) as real);
            var product := Times(fl, scaled, fl(percent as real));
            && InRange(fl(base as real) * (duration / 5) as real) && InRange(scaled * fl(percent as real)) && InRange(product / 100.0)
  {
    hide Nearest, IsDouble;
    RoundsToDouble(fl, base as real);
    RoundsToDouble(fl, percent as real);
    var b, m, p := fl(base as real), (duration / 5) as real, fl(percent as real);
    TimesInRange(fl, b, m, 2.0 * TARIFFS, 2.0);
    var scaled := Times(fl, b, m);
    TimesInRange(fl, scaled, p, 8.0 * TARIFFS, 2.0 * TARIFFS);
    hide Times;
    var product := Times(fl, scaled, p);
    assert InRange(product);
    SmallerInRange(product);
  }

  lemma TimesInRange(fl: real -> real, x: real, y: real, a: real, b: real)
    requires Nearest(fl) && Gap(x, 0.0) <= a && Gap(y, 0.0) <= b && 2.0 * (a * b) <= RANGE
    ensures InRange(x * y) && Gap(Times(fl, x, y), 0.0) <= 2.0 * (a * b)
  {
    hide Nearest, IsDouble;
    ProductBound(x, y, a, b);
    RoundsToDouble(fl, x * y);
  }

  lemma SmallerInRange(x: real)
    requires InRange(x)
    ensures InRange(x / 100.0)
  {
  }

  lemma AboveOne(x: real, y: real)
    requires x >= 1.0 && y >= 1.0
    ensures x * y >= 1.0
  {
    assert x * y >= 1.0 * y;
  }

  /** Positive tariffs and percentages never round down to nothing. */
  lemma VideoPriceIsPositive(fl: real -> real, base: int, duration: int, percent: int)
    requires Nearest(fl) && duration in {5, 10} && Payable(base, percent) && base > 0 && percent > 0
    ensures VideoCost(fl, base, duration, percent) > 0
  {
    hide Nearest, IsDouble;
    WholeMultiplier(fl, duration);
    NoOverflow(fl, base, duration, percent);
    IntegerIsDouble(1);
    StaysAbove(fl, base as real, 1.0);
    StaysAbove(fl, percent as real, 1.0);
    var b, m, p := fl(base as real), (duration / 5) as real, fl(percent as real);
    TimesAboveOne(fl, b, m);
    TimesAboveOne(fl, Times(fl, b, m), p);
    OneHundredTwentyEighth();
    hide Times;
    StaysAbove(fl, Times(fl, Times(fl, b, m), p) / 100.0, 1.0 / 128.0);
  }

  lemma TimesAboveOne(fl: real -> real, x: real, y: real)
    requires Nearest(fl) && x >= 1.0 && y >= 1.0 && InRange(x * y)
    ensures Times(fl, x, y) >= 1.0
  {
    hide Nearest, IsDouble;
    AboveOne(x, y);
    IntegerIsDouble(1);
    StaysAbove(fl, x * y, 1.0);
  }

  lemma OneHundredTwentyEighth()
    ensures IsDouble(1.0 / 128.0)
  {
    assert Pow2(7) == 128;
    assert Represents(1.0 / 128.0, 1, -7);
  }

  /** Positive tariffs give positive prices for all four kinds, so CHECK cost_positive accepts
      every order, far beyond the sizes at which prices stop being exact. */
  lemma PriceIsPositive(fl: real -> real, t: Tariff, kind: Kind, p: Params)
    requires Nearest(fl) && Complete(t) && Admitted(p)
    requires t.base[kind] > 0
    requires IsImage(kind) || (t.percent[p.resolution] > 0 && Payable(t.base[kind], t.percent[p.resolution]))
    ensures GenerationCost(fl, t, kind, p) > 0
  {
    hide Nearest, VideoCost;
    if IsImage(kind) {
      assert t.base[kind] * p.numImages >= t.base[kind] * 1;
    } else {
      VideoPriceIsPositive(fl, t.base[kind], p.duration, t.percent[p.resolution]);
    }
  }

  /** Beyond 2^53 only even prices come out, whatever the tariff, the percentage and the ties. */
  lemma LargePricesAreEven(fl: real -> real, base: int, duration: int, percent: int)
    requires Nearest(fl) && duration in {5, 10} && Payable(base, percent)
    requires VideoCost(fl, base, duration, percent) > MANTISSA
    ensures VideoCost(fl, base, duration, percent) % 2 == 0
  {
    hide Nearest, IsDouble;
    WholeMultiplier(fl, duration);
    NoOverflow(fl, base, duration, percent);
    var product := Times(fl, Times(fl, fl(base as real), (duration / 5) as real), fl(percent as real));
    RoundsToDouble(fl, product / 100.0);
    var y := fl(product / 100.0);
    assert VideoCost(fl, base, duration, percent) == Ceil(y);
    CeilAbove(y, MANTISSA);
    var n := EvenBeyondMantissa(y);
    CeilOfInteger(n);
  }

  lemma CeilAbove(y: real, n: int)
    requires Ceil(y) > n
    ensures y > n as real
  {
  }
}
