/**
  Conversions between the bridge's ranges and Home Assistant's: percent, 0-255, degrees of tilt.
  Python's round() of an exact quotient, ties to even.
 */
module Scaling {
  function Abs(x: int): nat { if x < 0 then -x else x }

  /** r is an integer nearest to n / d. */
  predicate Nearest(n: int, d: int, r: int) { 2 * Abs(n - r * d) <= Abs(d) }

  lemma FloorStep(n: int, d: int)
    requires d > 0
    ensures n - (n / d) * d == n % d && n - (n / d + 1) * d == n % d - d
  {}

  function RoundPositive(n: int, d: int): (r: int)
    requires d > 0
    ensures Nearest(n, d, r)
    ensures 2 * Abs(n - r * d) == Abs(d) ==> r % 2 == 0
  {
    FloorStep(n, d);
    var q, rem := n / d, n % d;
    if 2 * rem < d || (2 * rem == d && q % 2 == 0) then q else q + 1
  }

  lemma Flip(n: int, d: int, r: int)
    ensures Abs(-n - r * -d) == Abs(n - r * d)
  {
    assert r * -d == -(r * d);
  }

  function RoundHalfEven(n: int, d: int): (r: int)
    requires d != 0
    ensures Nearest(n, d, r)
    ensures 2 * Abs(n - r * d) == Abs(d) ==> r % 2 == 0
  {
    if d > 0 then RoundPositive(n, d)
    else
      Flip(n, d, RoundPositive(-n, -d));
      RoundPositive(-n, -d)
  }

  /** Being nearest, and even on a tie, determines the rounded value. */
  lemma RoundingUnique(n: int, d: int, r: int)
    requires d != 0 && Nearest(n, d, r) && (2 * Abs(n - r * d) == Abs(d) ==> r % 2 == 0)
    ensures r == RoundHalfEven(n, d)
  {
    OneNearest(n, d, r, RoundHalfEven(n, d));
  }

  lemma OneNearest(n: int, d: int, r: int, s: int)
    requires d != 0 && Nearest(n, d, r) && (2 * Abs(n - r * d) == Abs(d) ==> r % 2 == 0)
    requires Nearest(n, d, s) && (2 * Abs(n - s * d) == Abs(d) ==> s % 2 == 0)
    ensures r == s
  {
    assert (n - r * d) - (n - s * d) == (s - r) * d;
    if Abs(s - r) == 1 {
      TieApart(n, d, r, s);
    } else if r != s {
      MulAtLeastTwice(s - r, d);
    }
  }

  lemma MulAtLeast(k: int, d: int)
    requires k != 0
    ensures Abs(k * d) >= Abs(d)
  {}

  lemma MulAtLeastTwice(k: int, d: int)
    requires Abs(k) >= 2
    ensures Abs(k * d) >= 2 * Abs(d)
  {
    if k > 0 { MulAtLeast(k - 1, d); assert k * d == (k - 1) * d + d; }
    else { MulAtLeast(k + 1, d); assert k * d == (k + 1) * d - d; }
  }

  /** Two adjacent integers nearest to the same quotient are both half away, and one of them is odd. */
  lemma TieApart(n: int, d: int, r: int, s: int)
    requires d != 0 && Abs(s - r) == 1 && Nearest(n, d, r) && Nearest(n, d, s)
    ensures 2 * Abs(n - r * d) == Abs(d) && 2 * Abs(n - s * d) == Abs(d) && r % 2 != s % 2
  {
    assert (n - r * d) - (n - s * d) == (s - r) * d;
    assert (s - r) * d == d || (s - r) * d == -d;
  }

  // ----- from a range of width N to one of width M and back

  lemma BackAndForth(x: int, N: int, M: int, there: int, back: int)
    requires Nearest(x * M, N, there) && Nearest(there * N, M, back)
    ensures 2 * Abs((back - x) * M) <= Abs(N) + Abs(M)
  {
    assert (back - x) * M == -((x * M - there * N) + (there * N - back * M));
  }

  /** Off by at most N / 2M + 1 / 2. */
  lemma ErrorBound(x: int, N: int, M: int, there: int, back: int)
    requires M != 0
    ensures Nearest(x * M, N, there) && Nearest(there * N, M, back) ==> 2 * Abs(back - x) * Abs(M) <= Abs(N) + Abs(M)
  {
    if Nearest(x * M, N, there) && Nearest(there * N, M, back) {
      BackAndForth(x, N, M, there, back);
      AbsMul(back - x, M);
    }
  }

  lemma AbsMul(a: int, b: int)
    ensures Abs(a * b) == Abs(a) * Abs(b)
  {}

  /** Exact when the target range is at least as wide, in either direction. */
  lemma RoundTrip(x: int, N: int, M: int, there: int, back: int)
    requires 0 < Abs(N) <= Abs(M)
    ensures Nearest(x * M, N, there) && Nearest(there * N, M, back) ==> back == x
  {
    if Nearest(x * M, N, there) && Nearest(there * N, M, back) && back != x {
      BackAndForth(x, N, M, there, back);
      MulAtLeast(back - x, M);
      if Abs(N) == Abs(M) { SameWidth(x, N, M, there, back); }
    }
  }

  lemma SameWidth(x: int, N: int, M: int, there: int, back: int)
    requires 0 < Abs(N) == Abs(M)
    ensures Nearest(x * M, N, there) && Nearest(there * N, M, back) ==> back == x
  {
    if Nearest(x * M, N, there) && Nearest(there * N, M, back) {
      var signed := if N == M then there else -there;
      assert there * N == signed * M;
      assert x * M - there * N == (x - signed) * M;
      if x != signed { MulAtLeast(x - signed, M); }
      assert there * N - back * M == (x - back) * M;
      if x != back { MulAtLeast(x - back, M); }
    }
  }

  lemma NearestOrdered(n: int, m: int, d: int, r: int, s: int)
    requires n < m && d > 0 && Nearest(n, d, r) && Nearest(m, d, s)
    ensures r <= s
  {
    if r > s {
      assert (n - r * d) - (m - s * d) == (n - m) - (r - s) * d;
      MulAtLeast(r - s, d);
    }
  }

  lemma RoundMonotone(n: int, m: int, d: int)
    requires n <= m && d > 0
    ensures RoundHalfEven(n, d) <= RoundHalfEven(m, d)
  {
    if n < m {
      NearestOrdered(n, m, d, RoundHalfEven(n, d), RoundHalfEven(m, d));
    }
  }

  // ----- tilt

  /** _tilt_range: the properties, with an empty span widened. */
  function TiltRange(minTilt: int, maxTilt: int): (range: (int, int))
    ensures range.0 != range.1 && range.0 == minTilt
    ensures range.1 == maxTilt || (minTilt == maxTilt && range.1 - range.0 == 90)
  {
    (minTilt, if maxTilt == minTilt then minTilt + 90 else maxTilt)
  }

  function TiltToDegrees(percent: int, lo: int, hi: int): int {
    RoundHalfEven(lo * 100 + percent * (hi - lo), 100)
  }

  function TiltToPercent(degrees: int, lo: int, hi: int): int
    requires lo != hi
  {
    RoundHalfEven((degrees - lo) * 100, hi - lo)
  }

  /** r is the integer nearest to n / d, and the even one of the two when n / d lies halfway. */
  predicate HalfEven(n: int, d: int, r: int) {
    2 * Abs(n - r * d) < Abs(d) || (2 * Abs(n - r * d) == Abs(d) && r % 2 == 0)
  }

  /** Both tilt conversions round the whole value, so that a tie goes to the even number of degrees. */
  lemma TiltHalfEven(percent: int, degrees: int, lo: int, hi: int)
    requires lo != hi
    ensures HalfEven(lo * 100 + percent * (hi - lo), 100, TiltToDegrees(percent, lo, hi))
    ensures HalfEven((degrees - lo) * 100, hi - lo, TiltToPercent(degrees, lo, hi))
  {}

  lemma DegreesNearest(percent: int, lo: int, hi: int)
    ensures Nearest(percent * (hi - lo), 100, TiltToDegrees(percent, lo, hi) - lo)
  {}

  lemma TiltPercentExact(percent: int, lo: int, hi: int)
    requires Abs(hi - lo) >= 100
    ensures TiltToPercent(TiltToDegrees(percent, lo, hi), lo, hi) == percent
  {
    DegreesNearest(percent, lo, hi);
    RoundTrip(percent, 100, hi - lo, TiltToDegrees(percent, lo, hi) - lo,
              TiltToPercent(TiltToDegrees(percent, lo, hi), lo, hi));
  }

  lemma TiltDegreesExact(degrees: int, lo: int, hi: int)
    requires 0 < Abs(hi - lo) <= 100
    ensures TiltToDegrees(TiltToPercent(degrees, lo, hi), lo, hi) == degrees
  {
    var percent := TiltToPercent(degrees, lo, hi);
    DegreesNearest(percent, lo, hi);
    RoundTrip(degrees - lo, hi - lo, 100, percent, TiltToDegrees(percent, lo, hi) - lo);
  }

  lemma MulMonotone(a: int, b: int, k: nat)
    requires a <= b
    ensures a * k <= b * k
  {
    assert b * k - a * k == (b - a) * k;
  }

  lemma TiltRises(a: int, b: int, lo: int, hi: int)
    requires a <= b && lo < hi
    ensures TiltToDegrees(a, lo, hi) <= TiltToDegrees(b, lo, hi)
    ensures TiltToPercent(a, lo, hi) <= TiltToPercent(b, lo, hi)
  {
    MulMonotone(a, b, hi - lo);
    RoundMonotone(lo * 100 + a * (hi - lo), lo * 100 + b * (hi - lo), 100);
    RoundMonotone((a - lo) * 100, (b - lo) * 100, hi - lo);
  }

  lemma TiltFalls(a: int, b: int, lo: int, hi: int)
    requires a <= b && hi < lo
    ensures TiltToDegrees(b, lo, hi) <= TiltToDegrees(a, lo, hi)
    ensures TiltToPercent(b, lo, hi) <= TiltToPercent(a, lo, hi)
  {
    TiltRises(-b, -a, -lo, -hi);
    Mirror(a, lo, hi);
    Mirror(b, lo, hi);
    FallsInDegrees(a, b, lo, hi);
  }

  /** Turning the degree axis round leaves percentages alone. */
  lemma Mirror(x: int, lo: int, hi: int)
    requires lo != hi
    ensures TiltToPercent(x, lo, hi) == TiltToPercent(-x, -lo, -hi)
  {}

  lemma FallsInDegrees(a: int, b: int, lo: int, hi: int)
    requires a <= b && hi < lo
    ensures TiltToDegrees(b, lo, hi) <= TiltToDegrees(a, lo, hi)
  {
    MulMonotone(a, b, lo - hi);
    assert b * (hi - lo) == -(b * (lo - hi)) && a * (hi - lo) == -(a * (lo - hi));
    RoundMonotone(lo * 100 + b * (hi - lo), lo * 100 + a * (hi - lo), 100);
  }

  // ----- brightness, flame and colour temperature

  function PercentTo255(percent: int): int { RoundHalfEven(percent * 255, 100) }

  function PercentFrom255(level: int): int { RoundHalfEven(level * 100, 255) }

  /** Levels and percentages round to the nearest, ties to even, and kelvins to the nearest hundred likewise. */
  lemma LevelsHalfEven(x: int)
    ensures HalfEven(x * 255, 100, PercentTo255(x)) && HalfEven(x * 100, 255, PercentFrom255(x))
    ensures ToHundreds(x) % 100 == 0 && HalfEven(x, 100, ToHundreds(x) / 100)
  {
    assert ToHundreds(x) / 100 == RoundHalfEven(x, 100);
  }

  /** A half-even rounding is determined. */
  lemma HalfEvenUnique(n: int, d: int, r: int)
    requires d != 0 && HalfEven(n, d, r)
    ensures r == RoundHalfEven(n, d)
  {
    RoundingUnique(n, d, r);
  }

  lemma PercentExact(percent: int)
    ensures PercentFrom255(PercentTo255(percent)) == percent
  {
    RoundTrip(percent, 100, 255, PercentTo255(percent), PercentFrom255(PercentTo255(percent)));
  }

  lemma LevelOffByOne(level: int)
    ensures Abs(PercentTo255(PercentFrom255(level)) - level) <= 1
  {
    ErrorBound(level, 255, 100, PercentFrom255(level), PercentTo255(PercentFrom255(level)));
  }

  /** What a brightness request sends: within 0-100, and 0 only for the dimmest level. */
  lemma PercentInRange(level: int)
    requires 1 <= level <= 255
    ensures 0 <= PercentFrom255(level) <= 100
    ensures PercentFrom255(level) == 0 <==> level == 1
  {}

  /** round(t, -2): the API resolution of a colour temperature. */
  function ToHundreds(kelvin: int): int { 100 * RoundHalfEven(kelvin, 100) }

  lemma ToHundredsStable(kelvin: int)
    ensures ToHundreds(ToHundreds(kelvin)) == ToHundreds(kelvin)
    ensures 2 * Abs(ToHundreds(kelvin) - kelvin) <= 100
  {
    RoundingUnique(ToHundreds(kelvin), 100, RoundHalfEven(kelvin, 100));
  }

  // ----- cover position

  function BondToHass(position: int): int { Abs(position - 100) }

  function HassToBond(position: int): int { 100 - position }

  /** Exactly on the positions each side can name do the two conversions undo each other. */
  lemma PositionRoundTrip(position: int)
    ensures BondToHass(HassToBond(position)) == position <==> position >= 0
    ensures HassToBond(BondToHass(position)) == position <==> position <= 100
  {}
}
