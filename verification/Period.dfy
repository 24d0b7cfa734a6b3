/** The PWM period of a pitch, in nanoseconds: the truncated double quotient
    (1.0 / f) / 1E-9. */
module Period {
  import opened Arithmetic
  import opened Common

  const NS_PER_SECOND: int := 1_000_000_000

  /** Bound on the distance between the double quotient and the true 10^9 / f. Three
      roundings to nearest (section 4.3.1 of IEEE 754-2008) of values up to 10^9 stay
      inside it. */
  const ROUNDING_BOUND: real := 0.000_001

  ghost predicate RoundsCorrectly(q: uint16 -> real) {
    forall f: uint16 | f >= 1 :: NearTrueQuotient(q(f), f)
  }

  /** |y - 10^9 / f| <= ROUNDING_BOUND, multiplied by f (see NearMeansClose). */
  predicate NearTrueQuotient(y: real, f: uint16)
    requires f >= 1
  {
    var g := f as real;
    -ROUNDING_BOUND * g <= y * g - 1_000_000_000.0 <= ROUNDING_BOUND * g
  }

  /** The quotient without rounding errors. */
  function ExactQuotient(f: uint16): (y: real)
    requires f >= 1
    ensures NearTrueQuotient(y, f)
  {
    QuotientTimesDivisor(1_000_000_000.0, f as real);
    1_000_000_000.0 / (f as real)
  }

  /** The double quotient as a function of the pitch: any rounding behaviour within the bound. */
  type Quotient = q: uint16 -> real | RoundsCorrectly(q)
    ghost witness (f: uint16) => if f == 0 then 0.0 else ExactQuotient(f)

  /** Truncation toward zero of the (positive) double quotient. */
  function PeriodNs(q: Quotient, f: uint16): (p: nat)
    requires f >= 1
    ensures p == NS_PER_SECOND / f || (NS_PER_SECOND % f == 0 && p == NS_PER_SECOND / f - 1)
    ensures 15_258 <= p <= 1_000_000_000
  {
    TruncatedQuotient(q(f), f);
    q(f).Floor
  }

  lemma NearMeansClose(y: real, f: uint16)
    requires f >= 1
    ensures var t := 1_000_000_000.0 / (f as real);
            NearTrueQuotient(y, f) <==> t - ROUNDING_BOUND <= y <= t + ROUNDING_BOUND
  {
    var g := f as real;
    QuotientTimesDivisor(1_000_000_000.0, g);
    DistanceTimesDivisor(y, 1_000_000_000.0 / g, g, 1_000_000_000.0);
  }

  lemma DistanceTimesDivisor(y: real, t: real, g: real, n: real)
    requires g > 0.0 && t * g == n
    ensures -ROUNDING_BOUND * g <= y * g - n <= ROUNDING_BOUND * g
            <==> t - ROUNDING_BOUND <= y <= t + ROUNDING_BOUND
  {
    ScaledDistance(y, t, g, ROUNDING_BOUND);
  }

  lemma QuotientTimesDivisor(n: real, g: real)
    requires g > 0.0
    ensures (n / g) * g == n
  {
  }

  lemma ScaledDistance(y: real, t: real, g: real, b: real)
    requires g > 0.0
    ensures -b * g <= y * g - t * g <= b * g <==> t - b <= y <= t + b
  {
    RealMulMonotone(t - b, y, g);
    RealMulMonotone(y, t + b, g);
    assert (t - b) * g == t * g - b * g && (t + b) * g == t * g + b * g;
    assert -b * g == -(b * g);
  }

  /** The whole numbers next to y, when n = k * f + r and y * f is within 0.07 of n. */
  lemma FloorNearQuotient(y: real, k: int, r: int, f: int)
    requires 0 <= r < f
    requires -0.07 < y * (f as real) - (k * f + r) as real < 0.07
    ensures y.Floor == k || (r == 0 && y.Floor == k - 1)
  {
    CastProduct(k, f);
    BetweenQuotients(y, k as real, f as real, r as real);
  }

  lemma CastProduct(k: int, f: int)
    ensures (k as real) * (f as real) == (k * f) as real
  {
  }

  lemma BetweenQuotients(y: real, k: real, g: real, r: real)
    requires 0.0 <= r <= g - 1.0 && -0.07 < y * g - (k * g + r) < 0.07
    ensures k - 1.0 <= y < k + 1.0 && (r >= 1.0 ==> k <= y)
  {
    assert (k + 1.0) * g == k * g + g && (k - 1.0) * g == k * g - g;
    RealMulMonotone(k + 1.0, y, g);
    RealMulMonotone(k - 1.0, y, g);
    RealMulMonotone(k, y, g);
  }

  /** Whatever the rounding, truncation gives floor(10^9 / f), or one less, and the
      latter only when f divides 10^9. */
  lemma TruncatedQuotient(y: real, f: uint16)
    requires f >= 1 && NearTrueQuotient(y, f)
    ensures y.Floor == NS_PER_SECOND / f || (NS_PER_SECOND % f == 0 && y.Floor == NS_PER_SECOND / f - 1)
    ensures 15_258 <= y.Floor <= 1_000_000_000
  {
    var k, r := NS_PER_SECOND / f, NS_PER_SECOND % f;
    assert k * f + r == NS_PER_SECOND;
    assert -0.000_001 * (f as real) > -0.07 && 0.000_001 * (f as real) < 0.07;
    FloorNearQuotient(y, k, r, f);
    QuotientRange(f);
  }

  lemma QuotientRange(f: uint16)
    requires f >= 1
    ensures 15_259 <= NS_PER_SECOND / f <= 1_000_000_000
  {
    var k := NS_PER_SECOND / f;
    assert k * f <= NS_PER_SECOND < k * f + f;
    IntMulMonotone(k + 1, 15_259, f);
    IntMulMonotone(1, f, k);
  }

  /** The rounding bound leaves both outcomes open: a quotient just below an exact 10^9 / f
      loses one. */
  lemma TruncationLosesOne(f: uint16)
    requires f >= 1 && NS_PER_SECOND % f == 0
    ensures exists y :: NearTrueQuotient(y, f) && y.Floor == NS_PER_SECOND / f - 1
    ensures exists y :: NearTrueQuotient(y, f) && y.Floor == NS_PER_SECOND / f
  {
    var k := NS_PER_SECOND / f;
    assert (k as real) * (f as real) == 1_000_000_000.0;
    assert NearTrueQuotient(k as real - ROUNDING_BOUND, f) && (k as real - ROUNDING_BOUND).Floor == k - 1;
    assert NearTrueQuotient(k as real, f) && (k as real).Floor == k;
  }

  /** The period fits the int that the register write takes. */
  lemma PeriodFitsInt(q: Quotient, f: uint16)
    requires f >= 1
    ensures 0 < PeriodNs(q, f) / 2 < PeriodNs(q, f) < 0x8000_0000
  {
  }

  /** n / p is f exactly when what f * p leaves of n is below p. */
  lemma InvertsIff(n: int, f: int, p: int)
    requires 0 < p && f * p <= n
    ensures n / p == f <==> n - f * p < p
  {
    assert p * f == f * p;
    if n - f * p < p {
      DivideExactly(n, p, f, n - f * p);
    }
  }

  /** Inverting the period the code computes gives the pitch back exactly under this
      condition, for every pitch and every rounding. A period that lost one to rounding,
      which only a divisor of 10^9 can, is stricter than an exact one. */
  lemma PeriodInvertsIff(q: Quotient, f: uint16)
    requires f >= 1
    ensures NS_PER_SECOND / PeriodNs(q, f) == f <==>
            if PeriodNs(q, f) == NS_PER_SECOND / f then NS_PER_SECOND % f < NS_PER_SECOND / f
            else f < NS_PER_SECOND / f - 1
  {
    var k, r, p := NS_PER_SECOND / f, NS_PER_SECOND % f, PeriodNs(q, f);
    assert k * f + r == NS_PER_SECOND;
    assert f * p == if p == k then k * f else k * f - f;
    InvertsIff(NS_PER_SECOND, f, p);
  }

  /** The rounding that loses nothing. */
  lemma ExactRounding() returns (q: Quotient)
    ensures forall g: uint16 | g >= 1 :: PeriodNs(q, g) == NS_PER_SECOND / g
  {
    q := (g: uint16) => if g == 0 then 0.0 else ExactQuotient(g);
    forall g: uint16 | g >= 1
      ensures PeriodNs(q, g) == NS_PER_SECOND / g
    {
      ExactQuotientFloor(g);
    }
  }

  /** The rounding that loses one at f and nothing elsewhere. */
  lemma RoundingDownAt(f: uint16) returns (q: Quotient)
    requires f >= 1 && NS_PER_SECOND % f == 0
    ensures PeriodNs(q, f) == NS_PER_SECOND / f - 1
    ensures forall g: uint16 | g >= 1 && g != f :: PeriodNs(q, g) == NS_PER_SECOND / g
  {
    var k := NS_PER_SECOND / f;
    var low := k as real - ROUNDING_BOUND;
    assert (k as real) * (f as real) == (k * f) as real == 1_000_000_000.0;
    LoweredIsNear(low, k as real, f as real);
    q := (g: uint16) => if g == 0 then 0.0 else if g == f then low else ExactQuotient(g);
    assert low.Floor == k - 1;
    forall g: uint16 | g >= 1 && g != f
      ensures PeriodNs(q, g) == NS_PER_SECOND / g
    {
      ExactQuotientFloor(g);
    }
  }

  lemma LoweredIsNear(low: real, t: real, g: real)
    requires g > 0.0 && low == t - ROUNDING_BOUND && t * g == 1_000_000_000.0
    ensures -ROUNDING_BOUND * g <= low * g - 1_000_000_000.0 <= ROUNDING_BOUND * g
  {
    DistanceTimesDivisor(low, t, g, 1_000_000_000.0);
  }

  lemma ExactQuotientFloor(f: uint16)
    requires f >= 1
    ensures ExactQuotient(f).Floor == NS_PER_SECOND / f
  {
    var y, k := ExactQuotient(f), NS_PER_SECOND / f;
    QuotientTimesDivisor(1_000_000_000.0, f as real);
    TruncatedQuotient(y, f);
    if NS_PER_SECOND % f == 0 {
      assert (k as real) * (f as real) == (k * f) as real == 1_000_000_000.0;
      RealMulMonotone(k as real, y, f as real);
    }
  }

  /** When inverting the period gives the pitch back, as a condition on the pitch alone:
      under every rounding, and under some. */
  lemma PitchInvertsIff(f: uint16)
    requires f >= 1
    ensures (forall q: Quotient :: NS_PER_SECOND / PeriodNs(q, f) == f) <==>
            NS_PER_SECOND % f < NS_PER_SECOND / f && (NS_PER_SECOND % f == 0 ==> f < NS_PER_SECOND / f - 1)
    ensures (exists q: Quotient :: NS_PER_SECOND / PeriodNs(q, f) == f) <==>
            NS_PER_SECOND % f < NS_PER_SECOND / f
  {
    forall q: Quotient
      ensures NS_PER_SECOND / PeriodNs(q, f) == f <==>
              if PeriodNs(q, f) == NS_PER_SECOND / f then NS_PER_SECOND % f < NS_PER_SECOND / f
              else f < NS_PER_SECOND / f - 1
    {
      PeriodInvertsIff(q, f);
    }
    QuotientRange(f);
    var exact := ExactRounding();
    assert PeriodNs(exact, f) == NS_PER_SECOND / f;
    if NS_PER_SECOND % f == 0 {
      var low := RoundingDownAt(f);
      assert PeriodNs(low, f) == NS_PER_SECOND / f - 1;
    }
  }

  /** Rounding matters: 62500 divides 10^9, so its exact period 16000 can be inverted, but
      the period 15999 that a rounding below the quotient gives cannot. */
  lemma RoundingSpoilsRoundTrip()
    ensures exists q: Quotient :: PeriodNs(q, 62_500) == 15_999 && NS_PER_SECOND / PeriodNs(q, 62_500) == 62_503
    ensures exists q: Quotient :: NS_PER_SECOND / PeriodNs(q, 62_500) == 62_500
  {
    var exact := ExactRounding();
    assert PeriodNs(exact, 62_500) == 16_000;
    var low := RoundingDownAt(62_500);
    assert PeriodNs(low, 62_500) == 15_999;
    assert NS_PER_SECOND / 15_999 == 62_503 && NS_PER_SECOND / 16_000 == 62_500;
  }

  /** For pitches up to 31622 the round trip holds for every admissible rounding. */
  lemma PeriodRoundTrip(q: Quotient, f: uint16)
    requires 1 <= f <= 31_622
    ensures NS_PER_SECOND / PeriodNs(q, f) == f
  {
    var k, r, p := NS_PER_SECOND / f, NS_PER_SECOND % f, PeriodNs(q, f);
    assert k * f + r == NS_PER_SECOND;
    IntMulMonotone(k + 1, 31_623, f);
    if p == k {
      DivideExactly(NS_PER_SECOND, p, f, r);
    } else {
      assert 1_000_000_000 % 31_622 == 17_494;
      IntMulMonotone(k, 31_623, f);
      assert p * f == k * f - f;
      DivideExactly(NS_PER_SECOND, p, f, f);
    }
  }

  /** So distinct pitches in that range drive the hardware with distinct periods. */
  lemma PeriodsAreDistinct(q: Quotient, f: uint16, g: uint16)
    requires 1 <= f <= 31_622 && 1 <= g <= 31_622
    ensures PeriodNs(q, f) == PeriodNs(q, g) <==> f == g
  {
    PeriodRoundTrip(q, f);
    PeriodRoundTrip(q, g);
  }

  /** When two pitches share a period, over the whole range and for every rounding: the
      higher one lost nothing to rounding, and what the lower one leaves of 10^9 makes up
      for the difference. */
  lemma PeriodsCollideIff(q: Quotient, f: uint16, g: uint16)
    requires 1 <= f < g
    ensures var p := PeriodNs(q, f);
            PeriodNs(q, g) == p <==>
            PeriodNs(q, g) == NS_PER_SECOND / g && NS_PER_SECOND - f * p >= (g - f) * p
  {
    var k, r, p := NS_PER_SECOND / f, NS_PER_SECOND % f, PeriodNs(q, f);
    assert k * f + r == NS_PER_SECOND;
    assert (p + 1) * f >= NS_PER_SECOND - r by { IntMulMonotone(k, p + 1, f); }
    SharesQuotientIff(NS_PER_SECOND, f, g, p);
    if NS_PER_SECOND % g == 0 && PeriodNs(q, g) == NS_PER_SECOND / g - 1 {
      var l := NS_PER_SECOND / g;
      assert l * g == NS_PER_SECOND;
      IntMulMonotone(l, p + 1, g);
    }
  }

  /** The same for exact quotients, in terms of the lower pitch alone. */
  lemma QuotientsCollideIff(f: uint16, g: uint16)
    requires 1 <= f < g
    ensures NS_PER_SECOND / f == NS_PER_SECOND / g <==>
            NS_PER_SECOND % f >= (g - f) * (NS_PER_SECOND / f)
  {
    var k, r := NS_PER_SECOND / f, NS_PER_SECOND % f;
    QuotientRange(f);
    assert k * f + r == NS_PER_SECOND && (k + 1) * f == k * f + f;
    SharesQuotientIff(NS_PER_SECOND, f, g, k);
  }

  /** What the lower pitch leaves of 10^9 under an exact, or a lowered, period makes up for
      the difference of the pitches. */
  predicate ExactlyCovers(f: uint16, g: uint16)
    requires 1 <= f < g
  {
    NS_PER_SECOND % f >= (g - f) * (NS_PER_SECOND / f)
  }

  predicate LoweredCovers(f: uint16, g: uint16)
    requires 1 <= f < g
  {
    NS_PER_SECOND % f == 0 && f >= (g - f) * (NS_PER_SECOND / f - 1)
  }

  lemma PeriodsCollideByRounding(q: Quotient, f: uint16, g: uint16)
    requires 1 <= f < g
    ensures PeriodNs(q, f) == PeriodNs(q, g) <==>
            && PeriodNs(q, g) == NS_PER_SECOND / g
            && if PeriodNs(q, f) == NS_PER_SECOND / f then ExactlyCovers(f, g) else LoweredCovers(f, g)
  {
    var k, r := NS_PER_SECOND / f, NS_PER_SECOND % f;
    assert k * f + r == NS_PER_SECOND;
    assert f * k == k * f && f * (k - 1) == f * k - f;
    PeriodsCollideIff(q, f, g);
  }

  /** Only an inexact quotient covers exactly. */
  lemma CoveringLeavesRemainder(f: uint16, g: uint16)
    requires 1 <= f < g && ExactlyCovers(f, g)
    ensures NS_PER_SECOND % f != 0
  {
    QuotientRange(f);
    IntMulMonotone(1, g - f, NS_PER_SECOND / f);
  }

  /** When two pitches share a period, as a condition on the pitches alone: under some
      rounding, and under every one. */
  lemma PitchesCollideIff(f: uint16, g: uint16)
    requires 1 <= f < g
    ensures (exists q: Quotient :: PeriodNs(q, f) == PeriodNs(q, g)) <==>
            ExactlyCovers(f, g) || LoweredCovers(f, g)
    ensures (forall q: Quotient :: PeriodNs(q, f) == PeriodNs(q, g)) <==>
            ExactlyCovers(f, g) && NS_PER_SECOND % g != 0
  {
    forall q: Quotient
      ensures PeriodNs(q, f) == PeriodNs(q, g) <==>
              && PeriodNs(q, g) == NS_PER_SECOND / g
              && if PeriodNs(q, f) == NS_PER_SECOND / f then ExactlyCovers(f, g) else LoweredCovers(f, g)
    {
      PeriodsCollideByRounding(q, f, g);
    }
    var exact := ExactRounding();
    PeriodsCollideByRounding(exact, f, g);
    if NS_PER_SECOND % f == 0 {
      var low := RoundingDownAt(f);
      PeriodsCollideByRounding(low, f, g);
    }
    if NS_PER_SECOND % g == 0 {
      var low := RoundingDownAt(g);
      PeriodsCollideByRounding(low, f, g);
    }
    if ExactlyCovers(f, g) { CoveringLeavesRemainder(f, g); }
  }

  lemma SharesQuotientIff(n: int, f: int, g: int, p: int)
    requires 0 < f < g && 0 < p && f * p <= n < (p + 1) * g
    ensures n / g == p <==> n - f * p >= (g - f) * p
  {
    var l := n / g;
    assert l * g <= n < l * g + g;
    assert (g - f) * p == g * p - f * p;
    assert (l + 1) * g == l * g + g;
    IntMulMonotone(p, l, g);
    IntMulMonotone(l + 1, p, g);
    IntMulMonotone(p + 1, l, g);
  }

  /** Such pairs exist above the range: 65000 Hz and 65001 Hz share a period. */
  lemma HighPitchesCollide(q: Quotient)
    ensures PeriodNs(q, 65_001) == 15_384
    ensures PeriodNs(q, 65_000) == PeriodNs(q, 65_001)
  {
    assert NS_PER_SECOND % 65_000 == 40_000 && NS_PER_SECOND % 65_001 == 24_616;
  }
}
