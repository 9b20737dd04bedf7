/** Facts about products and quotients of reals, each small enough to be used by
    name where it is needed. */
module RealArithmetic {

  /** A product, as a term of its own. */
  function Times(k: real, x: real): real {
    k * x
  }

  lemma ProductNotNegative(a: real, b: real)
    requires a >= 0.0 && b >= 0.0
    ensures a * b >= 0.0
  {
  }

  lemma ProductPositive(a: real, b: real)
    requires a > 0.0 && b > 0.0
    ensures a * b > 0.0
  {
  }

  lemma Distributes(a: real, b: real, c: real)
    ensures a * (b + c) == a * b + a * c
    ensures a * (b - c) == a * b - a * c
  {
  }

  lemma ProductMonotone(k: real, x: real, y: real)
    requires k >= 0.0 && x <= y
    ensures k * x <= k * y
  {
    ProductNotNegative(k, y - x);
    Distributes(k, y, x);
  }

  lemma ProductOrders(k: real, x: real, y: real)
    requires k > 0.0
    ensures x <= y <==> k * x <= k * y
    ensures x < y <==> k * x < k * y
  {
    Distributes(k, y, x);
    if x < y {
      ProductPositive(k, y - x);
    } else if y < x {
      ProductPositive(k, x - y);
      Distributes(k, x, y);
    }
  }

  lemma TimesOrders(k: real, x: real, y: real)
    requires k > 0.0
    ensures x <= y <==> Times(k, x) <= Times(k, y)
    ensures x < y <==> Times(k, x) < Times(k, y)
  {
    ProductOrders(k, x, y);
  }

  lemma OneMore(k: real, x: real)
    ensures x + Times(k - 1.0, x) == Times(k, x)
  {
    Distributes(x, k, 1.0);
  }

  lemma QuotientUndone(a: real, n: real)
    requires n != 0.0
    ensures a * n / n == a && a / n * n == a
  {
  }

  lemma QuotientMonotone(a: real, b: real, n: real)
    requires a <= b && n > 0.0
    ensures a / n <= b / n
  {
  }

  lemma QuotientOfProduct(k: real, a: real, n: real)
    requires n != 0.0
    ensures k * a / n == k * (a / n)
  {
  }

  lemma QuotientOfScaled(k: real, a: real, b: real)
    requires k != 0.0 && b != 0.0
    ensures k * b != 0.0 && (k * a) / (k * b) == a / b
  {
    var q := a / b;
    assert q * b == a;
    assert k * a == q * (k * b);
    QuotientUndone(q, k * b);
  }

  lemma QuotientBetween(a: real, n: real, lo: real, hi: real)
    requires n > 0.0 && lo * n <= a <= hi * n
    ensures lo <= a / n <= hi
  {
    QuotientMonotone(lo * n, a, n);
    QuotientMonotone(a, hi * n, n);
    QuotientUndone(lo, n);
    QuotientUndone(hi, n);
  }

  /** A smaller positive divisor gives a larger quotient. */
  lemma QuotientAntitone(a: real, m: real, n: real)
    requires a >= 0.0 && 0.0 < m <= n
    ensures a / n <= a / m
  {
    var q := a / m;
    assert q * m == a;
    QuotientSign(a, m);
    ProductMonotone(q, m, n);
    QuotientMonotone(a, q * n, n);
    QuotientUndone(q, n);
  }

  lemma QuotientSign(a: real, n: real)
    requires n > 0.0
    ensures a > 0.0 <==> a / n > 0.0
    ensures a >= 0.0 <==> a / n >= 0.0
  {
    QuotientUndone(a, n);
    ProductOrders(n, 0.0, a / n);
    ProductOrders(n, a / n, 0.0);
  }

  /** How a quotient compares with one. */
  lemma QuotientAndOne(a: real, b: real)
    requires b > 0.0
    ensures a > b <==> a / b > 1.0
    ensures a < b <==> a / b < 1.0
  {
    QuotientUndone(a, b);
    ProductOrders(b, 1.0, a / b);
    ProductOrders(b, a / b, 1.0);
  }

  // A point between two values.

  function Lerp(a: real, b: real, t: real): real {
    a + (b - a) * t
  }

  lemma LerpMixes(a: real, b: real, t: real)
    ensures Lerp(a, b, t) == Times(1.0 - t, a) + Times(t, b)
  {
  }

  lemma LerpBetween(a: real, b: real, t: real)
    requires a <= b && 0.0 <= t <= 1.0
    ensures a <= Lerp(a, b, t) <= b
  {
    ProductNotNegative(b - a, t);
    ProductMonotone(b - a, t, 1.0);
  }

  lemma LerpGrows(a: real, b: real, t: real, u: real)
    requires a <= b && t <= u
    ensures Lerp(a, b, t) <= Lerp(a, b, u)
  {
    ProductMonotone(b - a, t, u);
  }

  lemma LerpMonotone(a: real, b: real, c: real, d: real, t: real)
    requires a <= c && b <= d && 0.0 <= t <= 1.0
    ensures Lerp(a, b, t) <= Lerp(c, d, t)
  {
    LerpMixes(a, b, t);
    LerpMixes(c, d, t);
    TimesMonotone(1.0 - t, a, c);
    TimesMonotone(t, b, d);
  }

  lemma TimesMonotone(k: real, x: real, y: real)
    requires k >= 0.0 && x <= y
    ensures Times(k, x) <= Times(k, y)
  {
    ProductMonotone(k, x, y);
  }

  lemma LerpScales(k: real, a: real, b: real, t: real)
    ensures Lerp(Times(k, a), Times(k, b), t) == Times(k, Lerp(a, b, t))
  {
  }

  lemma QuotientScales(k: real, a: real, b: real, n: real)
    requires n != 0.0 && b == Times(k, a)
    ensures b / n == Times(k, a / n)
  {
    QuotientOfProduct(k, a, n);
  }
}
