/** Nonlinear facts about reals, one at a time. */
module RealFacts {

  lemma MulNonneg(x: real, y: real)
    requires x >= 0.0 && y >= 0.0
    ensures x * y >= 0.0
  {}

  lemma MulMono(x: real, y: real, m: real)
    requires x <= y && m >= 0.0
    ensures x * m <= y * m
  {
    MulNonneg(y - x, m);
  }

  lemma Cancel(x: real, y: real, m: real)
    requires m != 0.0 && x * m == y * m
    ensures x == y
  {}

  lemma CancelOrder(x: real, y: real, m: real)
    requires m > 0.0 && x * m <= y * m
    ensures x <= y
  {}

  lemma IsQuotient(a: real, b: real, q: real)
    requires b != 0.0 && q * b == a
    ensures a / b == q
  {
    Cancel(a / b, q, b);
  }

  lemma QuotientNonneg(a: real, b: real)
    requires a >= 0.0 && b > 0.0
    ensures a / b >= 0.0
  {}

  lemma QuotientBounds(sum: real, lo: real, hi: real, n: real)
    requires n > 0.0 && lo * n <= sum <= hi * n
    ensures lo <= sum / n <= hi
  {
    assert sum / n * n == sum;
    CancelOrder(lo, sum / n, n);
    CancelOrder(sum / n, hi, n);
  }

  lemma QuotientSum(a: real, b: real, c: real)
    requires c != 0.0
    ensures a / c + b / c == (a + b) / c
  {
    assert (a / c + b / c) * c == a / c * c + b / c * c == a + b;
    IsQuotient(a + b, c, a / c + b / c);
  }

  lemma MulLess(x: real, y: real, m: real)
    requires x < y && m > 0.0
    ensures x * m < y * m
  {}

  lemma MulNonpos(x: real, y: real)
    requires x <= 0.0 && y >= 0.0
    ensures x * y <= 0.0
  {}

  /** A part of an amount that is not positive. */
  lemma PartOfNegative(d: real, m: real)
    requires d <= 0.0 && 0.0 <= m <= 1.0
    ensures d <= d * m
    ensures d * m <= 0.0
  {
    MulNonpos(d, m);
    MulNonpos(d, 1.0 - m);
    Distribute(d, m);
  }

  /** A part of a nonnegative amount. */
  lemma PartOf(d: real, m: real)
    requires d >= 0.0 && 0.0 <= m <= 1.0
    ensures 0.0 <= d * m
    ensures d * m <= d
  {
    MulNonneg(d, m);
    MulNonneg(d, 1.0 - m);
    Distribute(d, m);
  }

  lemma Distribute(d: real, m: real)
    ensures d * (1.0 - m) == d - d * m
  {}

  /** Dividing by more gives less. */
  lemma QuotientOrder(a: real, x: real, y: real)
    requires a > 0.0 && 0.0 < x < y
    ensures a / x > a / y
  {
    var s, t := a / x, a / y;
    assert s * x == a && t * y == a;
    QuotientPositive(a, y);
    MulLess(x, y, t);
    assert x * t == t * x && y * t == t * y;
    if s <= t { MulMono(s, t, x); }
  }

  lemma QuotientPositive(a: real, b: real)
    requires a > 0.0 && b > 0.0
    ensures a / b > 0.0
  {}

  lemma SquareNonneg(x: real)
    ensures x * x >= 0.0
  {}
}
