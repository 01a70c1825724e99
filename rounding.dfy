/** The two pieces of JavaScript arithmetic the dimension resolver relies on,
    stated exactly over the integers:
    - `Math.round(a / b)` for a non-negative quotient, which rounds halves up;
    - `Math.round(Math.sqrt(num / den))`, characterised as the integer nearest
      to the exact real square root. */
module Rounding {

  /** `Math.round` on a real: the nearest integer, halves going towards +infinity. */
  function MathRound(x: real): int {
    (x + 0.5).Floor
  }

  /** `Math.round(a / b)` for a >= 0 and b > 0: a/b lies within half a unit of
      the result, a tie going to the larger integer. */
  function RoundDiv(a: nat, b: nat): (r: nat)
    requires b > 0
    ensures b * (2 * r - 1) <= 2 * a < b * (2 * r + 1)
  {
    var q := (2 * a + b) / (2 * b);
    assert 2 * b * q <= 2 * a + b < 2 * b * q + 2 * b;
    q
  }

  /** RoundDiv is JavaScript's rounding of the exact quotient. */
  lemma RoundDivIsMathRound(a: nat, b: nat)
    requires b > 0
    ensures RoundDiv(a, b) == MathRound(a as real / b as real)
  {
    var r: int := RoundDiv(a, b);
    BracketLowerReal(a, b, r);
    BracketUpperReal(a, b, r);
  }

  lemma BracketLowerReal(a: nat, b: nat, r: int)
    requires b > 0 && b * (2 * r - 1) <= 2 * a
    ensures (r as real) - 0.5 <= a as real / b as real
  {
    var x, br, rr := a as real / b as real, b as real, r as real;
    var lo: int := b * (2 * r - 1);
    CastProduct(b, 2 * r - 1);
    var scaledBound, scaledLo, twiceA, scaledX := br * (2.0 * rr - 1.0), lo as real, 2.0 * (a as real), br * (2.0 * x);
    assert scaledBound == scaledLo;
    assert scaledLo <= twiceA;
    assert twiceA == scaledX;
    RealCancel(br, 2.0 * rr - 1.0, 2.0 * x);
  }

  lemma BracketUpperReal(a: nat, b: nat, r: int)
    requires b > 0 && 2 * a < b * (2 * r + 1)
    ensures a as real / b as real < (r as real) + 0.5
  {
    var x, br, rr := a as real / b as real, b as real, r as real;
    var hi: int := b * (2 * r + 1);
    CastProduct(b, 2 * r + 1);
    var scaledBound, scaledHi, twiceA, scaledX := br * (2.0 * rr + 1.0), hi as real, 2.0 * (a as real), br * (2.0 * x);
    assert scaledBound == scaledHi;
    assert twiceA < scaledHi;
    assert twiceA == scaledX;
    RealCancelStrict(br, 2.0 * x, 2.0 * rr + 1.0);
  }

  lemma CastProduct(m: int, n: int)
    ensures (m * n) as real == (m as real) * (n as real)
  {
  }

  lemma RealCancel(c: real, u: real, v: real)
    requires c > 0.0 && c * u <= c * v
    ensures u <= v
  {
  }

  lemma RealCancelStrict(c: real, u: real, v: real)
    requires c > 0.0 && c * u < c * v
    ensures u < v
  {
  }

  /** Multiplying by a non-negative factor keeps an inequality. */
  lemma MulMonotone(c: int, u: int, v: int)
    requires c >= 0 && u <= v
    ensures c * u <= c * v
  {
  }

  /** The half-unit bracket determines the rounded quotient. */
  lemma RoundDivUnique(a: nat, b: nat, r: nat)
    requires b > 0 && b * (2 * r - 1) <= 2 * a < b * (2 * r + 1)
    ensures r == RoundDiv(a, b)
  {
    var q: int := RoundDiv(a, b);
    MulCancelStrict(b, 2 * r - 1, 2 * q + 1);
    MulCancelStrict(b, 2 * q - 1, 2 * r + 1);
  }


  /** A positive factor can be cancelled from a strict inequality. */
  lemma MulCancelStrict(c: int, u: int, v: int)
    requires c > 0 && c * u < c * v
    ensures u < v
  {
  }

  /** If the quotient is at least k, so is its rounding. */
  lemma RoundDivAtLeast(a: nat, b: nat, k: nat)
    requires b > 0 && k * b <= a
    ensures RoundDiv(a, b) >= k
  {
    var r: int := RoundDiv(a, b);
    assert b * (2 * k) == 2 * (k * b);
    MulCancelStrict(b, 2 * k, 2 * r + 1);
  }

  /** If the quotient is at most k, so is its rounding. */
  lemma RoundDivAtMost(a: nat, b: nat, k: nat)
    requires b > 0 && a <= k * b
    ensures RoundDiv(a, b) <= k
  {
    var r: int := RoundDiv(a, b);
    assert b * (2 * k + 1) == 2 * (k * b) + b;
    MulCancelStrict(b, 2 * r - 1, 2 * k + 1);
  }

  /** The integer square root, by halving the argument's base-4 digits. */
  function ISqrt(x: nat): (r: nat)
    ensures r * r <= x < (r + 1) * (r + 1)
    decreases x
  {
    if x < 4 then (if x == 0 then 0 else 1)
    else
      var s := ISqrt(x / 4);
      ISqrtStep(x, s);
      var h := 2 * s;
      if (h + 1) * (h + 1) <= x then h + 1 else h
  }

  /** One step of ISqrt: doubling the root of x / 4 gives the root of x, or one less. */
  lemma ISqrtStep(x: nat, s: nat)
    requires s * s <= x / 4 < (s + 1) * (s + 1)
    ensures (2 * s) * (2 * s) <= x < (2 * s + 2) * (2 * s + 2)
  {
    assert 4 * (x / 4) <= x < 4 * (x / 4) + 4;
    assert (2 * s) * (2 * s) == 4 * (s * s);
    assert (2 * s + 2) * (2 * s + 2) == 4 * ((s + 1) * (s + 1));
  }

  /** Squares of non-negative integers are monotone. */
  lemma SquareMonotone(a: nat, b: nat)
    requires a <= b
    ensures a * a <= b * b
  {
    assert a * a <= a * b <= b * b;
  }

  /** The bracket that pins n as the integer nearest to sqrt(num / den):
      (n - 1/2)^2 <= num/den < (n + 1/2)^2, the lower bound dropped for n = 0. */
  predicate NearestSqrt(num: nat, den: nat, n: nat)
    requires den > 0
  {
    (n > 0 ==> den * ((2 * n - 1) * (2 * n - 1)) <= 4 * num)
    && 4 * num < den * ((2 * n + 1) * (2 * n + 1))
  }

  /** `Math.round(Math.sqrt(num / den))`, taken over the exact reals. */
  function RoundSqrtDiv(num: nat, den: nat): (n: nat)
    requires den > 0
    ensures NearestSqrt(num, den, n)
  {
    var m := ISqrt(4 * num / den);
    SqrtBracket(num, den, m);
    (m + 1) / 2
  }

  /** Rounding the floor root m of 4 * num / den to (m + 1) / 2 lands in the bracket. */
  lemma SqrtBracket(num: nat, den: nat, m: nat)
    requires den > 0
    requires m * m <= 4 * num / den < (m + 1) * (m + 1)
    ensures NearestSqrt(num, den, (m + 1) / 2)
  {
    var q := 4 * num / den;
    assert den * q <= 4 * num < den * q + den;
    SqrtBracketUpper(num, den, q, m);
    SqrtBracketLower(num, den, q, m);
  }

  lemma SqrtBracketUpper(num: nat, den: nat, q: nat, m: nat)
    requires den > 0 && 4 * num < den * q + den && q < (m + 1) * (m + 1)
    ensures 4 * num < den * ((2 * ((m + 1) / 2) + 1) * (2 * ((m + 1) / 2) + 1))
  {
    var n := (m + 1) / 2;
    var up, upN := (m + 1) * (m + 1), (2 * n + 1) * (2 * n + 1);
    SquareMonotone(m + 1, 2 * n + 1);
    MulMonotone(den, q + 1, up);
    MulMonotone(den, up, upN);
    assert den * (q + 1) == den * q + den;
  }

  lemma SqrtBracketLower(num: nat, den: nat, q: nat, m: nat)
    requires den > 0 && den * q <= 4 * num && m * m <= q
    ensures (m + 1) / 2 > 0 ==> den * ((2 * ((m + 1) / 2) - 1) * (2 * ((m + 1) / 2) - 1)) <= 4 * num
  {
    var n := (m + 1) / 2;
    if n > 0 {
      var lowN, low := (2 * n - 1) * (2 * n - 1), m * m;
      SquareMonotone(2 * n - 1, m);
      MulMonotone(den, lowN, low);
      MulMonotone(den, low, q);
    }
  }

  /** The bracket has at most one solution, so RoundSqrtDiv is the only
      integer nearest to the square root. */
  lemma NearestSqrtUnique(num: nat, den: nat, n: nat)
    requires den > 0 && NearestSqrt(num, den, n)
    ensures n == RoundSqrtDiv(num, den)
  {
    var k := RoundSqrtDiv(num, den);
    BracketsOrdered(num, den, n, k);
    BracketsOrdered(num, den, k, n);
  }

  /** Of two solutions of the bracket, neither exceeds the other: the lower
      bound of i sits below the upper bound of j. */
  lemma BracketsOrdered(num: nat, den: nat, i: nat, j: nat)
    requires den > 0 && NearestSqrt(num, den, i) && NearestSqrt(num, den, j)
    ensures i <= j
  {
    if i > 0 {
      MulCancelStrict(den, (2 * i - 1) * (2 * i - 1), (2 * j + 1) * (2 * j + 1));
      SquareCancelStrict(2 * i - 1, 2 * j + 1);
    }
  }

  /** Squares of non-negative integers are strictly monotone. */
  lemma SquareCancelStrict(u: nat, v: nat)
    requires u * u < v * v
    ensures u < v
  {
  }
}
