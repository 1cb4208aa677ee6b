/** The arithmetic of the population stability index: smoothed proportions and the terms summed
    (services/trainer/app/promote.py).

    Numbers are exact reals; the logarithm is a parameter of which only two laws are used. */
module PsiTerms {

  const PSI_EPS := 0.5

  /** What is used of the natural logarithm: it increases strictly on the positive numbers, and turns a
      reciprocal into a negation. */
  ghost predicate IsLog(ln: real -> real) {
    && (forall x, y | 0.0 < x < y :: ln(x) < ln(y))
    && (forall x | 0.0 < x :: ln(1.0 / x) == -ln(x))
  }

  /** A function with both laws, so nothing proved from them is empty. */
  function Sample(x: real): real {
    if x == 0.0 then 0.0 else x - 1.0 / x
  }

  lemma SampleIsLog()
    ensures IsLog(Sample)
  {
    forall x: real, y: real | 0.0 < x < y ensures Sample(x) < Sample(y) {
      ReciprocalShrinks(x, y);
    }
    forall x: real | 0.0 < x ensures Sample(1.0 / x) == -Sample(x) {
      RatioAboveOne(1.0, x);
      Reciprocal(1.0, x);
    }
  }

  lemma ReciprocalShrinks(x: real, y: real)
    requires 0.0 < x < y
    ensures 1.0 / y < 1.0 / x
  {
    Quotient(1.0, x);
    Quotient(1.0, y);
    RatioAboveOne(1.0, x);
    LargerFactor(1.0 / x, 1.0 / y, x, y);
  }

  lemma LargerFactor(p: real, q: real, x: real, y: real)
    requires 0.0 < x < y && 0.0 < p && p * x == q * y
    ensures q < p
  {
    PositiveProduct(p, y - x);
    Spread(p, q, x, y);
    PositiveFactor(p - q, y);
  }

  lemma PositiveProduct(a: real, b: real)
    requires 0.0 < a && 0.0 < b
    ensures 0.0 < a * b
  {
  }

  lemma PositiveFactor(a: real, b: real)
    requires 0.0 < a * b && 0.0 < b
    ensures 0.0 < a
  {
  }

  lemma Spread(p: real, q: real, x: real, y: real)
    requires p * x == q * y
    ensures (p - q) * y == p * (y - x)
  {
  }

  // ---------------------------------------------------------------- products and quotients

  lemma Cancel(x: real, y: real, z: real)
    requires x * z == y * z && z != 0.0
    ensures x == y
  {
    assert (x - y) * z == 0.0;
  }

  lemma Quotient(a: real, b: real)
    requires b != 0.0
    ensures (a / b) * b == a
  {
  }

  lemma RatioAboveOne(a: real, b: real)
    requires 0.0 < a && 0.0 < b
    ensures a / b > 0.0
    ensures a / b > 1.0 <==> a > b
  {
    var r := a / b;
    Quotient(a, b);
    assert (r - 1.0) * b == a - b;
  }

  lemma Reciprocal(a: real, b: real)
    requires 0.0 < a && 0.0 < b
    ensures 1.0 / (a / b) == b / a
  {
    var r, q := a / b, b / a;
    RatioAboveOne(a, b);
    Quotient(a, b);
    Quotient(b, a);
    Quotient(1.0, r);
    assert (q * r) * b == q * (r * b);
    Cancel(q * r, 1.0, b);
    Cancel(1.0 / r, q, r);
  }

  lemma QuotientsAdd(a: real, b: real, d: real)
    requires d != 0.0
    ensures a / d + b / d == (a + b) / d
  {
    Quotient(a, d);
    Quotient(b, d);
    Quotient(a + b, d);
    assert (a / d + b / d) * d == (a / d) * d + (b / d) * d;
    Cancel(a / d + b / d, (a + b) / d, d);
  }

  // ---------------------------------------------------------------- smoothing

  /** What the smoothed counts are divided by. */
  function Total(total: nat, bins: nat): (d: real)
    requires 0 < bins
    ensures 0.0 < d
  {
    total as real + PSI_EPS * bins as real
  }

  /** A smoothed proportion: each of `bins` counts is raised by PSI_EPS. */
  function Smooth(count: nat, total: nat, bins: nat): (p: real)
    requires 0 < bins
    ensures 0.0 < p
  {
    RatioAboveOne(count as real + PSI_EPS, Total(total, bins));
    (count as real + PSI_EPS) / Total(total, bins)
  }

  /** Smoothing keeps different counts apart. */
  lemma SmoothIsInjective(count: nat, other: nat, total: nat, bins: nat)
    requires 0 < bins
    ensures Smooth(count, total, bins) == Smooth(other, total, bins) <==> count == other
  {
    Quotient(count as real + PSI_EPS, Total(total, bins));
    Quotient(other as real + PSI_EPS, Total(total, bins));
  }

  // ---------------------------------------------------------------- terms

  function Term(ln: real -> real, expected: real, actual: real): real
    requires 0.0 < expected && 0.0 < actual
  {
    (actual - expected) * ln(actual / expected)
  }

  lemma LogOfOne(ln: real -> real)
    requires IsLog(ln)
    ensures ln(1.0) == 0.0
  {
    assert ln(1.0 / 1.0) == -ln(1.0);
  }

  /** Swapping the two sides changes nothing. */
  lemma TermIsSymmetric(ln: real -> real, p: real, q: real)
    requires IsLog(ln) && 0.0 < p && 0.0 < q
    ensures Term(ln, p, q) == Term(ln, q, p)
  {
    RatioAboveOne(q, p);
    Reciprocal(q, p);
    var l := ln(q / p);
    assert ln(p / q) == -l;
    assert (p - q) * -l == (q - p) * l;
  }

  lemma PositiveTerm(ln: real -> real, expected: real, actual: real)
    requires IsLog(ln) && 0.0 < expected < actual
    ensures 0.0 < Term(ln, expected, actual)
  {
    LogOfOne(ln);
    RatioAboveOne(actual, expected);
    var l := ln(actual / expected);
    assert ln(1.0) < l;
    assert (actual - expected) * l > 0.0;
  }

  /** No term is negative, and a term is zero only where the proportions agree. */
  lemma TermIsNonNegative(ln: real -> real, expected: real, actual: real)
    requires IsLog(ln) && 0.0 < expected && 0.0 < actual
    ensures 0.0 <= Term(ln, expected, actual)
    ensures Term(ln, expected, actual) == 0.0 <==> expected == actual
  {
    if expected < actual {
      PositiveTerm(ln, expected, actual);
    } else if actual < expected {
      TermIsSymmetric(ln, expected, actual);
      PositiveTerm(ln, actual, expected);
    } else {
      assert actual - expected == 0.0;
    }
  }

  /** A smoothed proportion spelled out: half a count more in each of the bins. */
  lemma SmoothSpelledOut(count: nat, total: nat, bins: nat)
    requires 0 < bins
    ensures Smooth(count, total, bins) == (count as real + 0.5) / (total as real + 0.5 * bins as real)
  {
  }

  /** A term is the two relative entropies' share of one category: that of the actual proportion against the
      expected one, and that of the expected against the actual. */
  lemma TermIsBothEntropies(ln: real -> real, p: real, q: real)
    requires IsLog(ln) && 0.0 < p && 0.0 < q
    ensures Term(ln, p, q) == q * ln(q / p) + p * ln(p / q)
  {
    RatioAboveOne(q, p);
    Reciprocal(q, p);
    Spread2(q, p, ln(q / p));
  }

  lemma Spread2(q: real, p: real, l: real)
    ensures (q - p) * l == q * l + p * -l
  {
  }
}
