/**
  Facts about products, squares and quotients of reals used by the statistics
  proofs. Each lemma is stated on plain reals so that the solver never has to
  reason about a product inside a larger sequence expression.
 */
module RealArith {

  /** `math.Pow(d, 2)` over exact reals. */
  function Square(d: real): real
  {
    d * d
  }

  /** A product of two positive factors is positive. The product is passed in
      as `p` so that callers can name it by their own term (such as a
      difference of squares); the solver does not carry a fact about `x * y`
      over to a term that merely equals it. */
  lemma ProductPositive(x: real, y: real, p: real)
    requires x > 0.0 && y > 0.0 && p == x * y
    ensures p > 0.0
  {
  }

  lemma SquareOverRoot(d: real)
    requires d != 0.0
    ensures Square(d) / d == d
  {
  }

  /** A square is never negative, and positive unless its root is zero. */
  lemma SquareSign(d: real)
    ensures Square(d) >= 0.0
    ensures d != 0.0 ==> Square(d) > 0.0
  {
    if d != 0.0 {
      SquareOverRoot(d);
    }
  }

  lemma DiffOfSquares(a: real, b: real)
    ensures Square(b) - Square(a) == (b - a) * (b + a)
  {
  }

  /** Squaring is strictly increasing on the non-negative reals. */
  lemma SquareStrictlyIncreasing(a: real, b: real)
    requires 0.0 <= a < b
    ensures Square(a) < Square(b)
  {
    DiffOfSquares(a, b);
    ProductPositive(b - a, b + a, Square(b) - Square(a));
  }

  /** Dividing by a positive n keeps a bound n * lo <= a <= n * hi as lo <= a / n <= hi. */
  lemma DivWithin(a: real, n: real, lo: real, hi: real)
    requires n > 0.0
    requires n * lo <= a <= n * hi
    ensures lo <= a / n <= hi
  {
    var q := a / n;
    assert q * n == a;
    if q < lo {
      ProductPositive(lo - q, n, (lo - q) * n);
    }
    if q > hi {
      ProductPositive(q - hi, n, (q - hi) * n);
    }
  }

  /** One step of expanding a sum of squared deviations:
      if ss = q - 2 m sum + k m^2, adding one element x keeps the identity. */
  lemma ExpandStep(ss: real, q: real, sum: real, k: real, x: real, m: real,
                   ss': real, q': real, sum': real, k': real)
    requires ss == q - 2.0 * m * sum + k * m * m
    requires ss' == ss + Square(x - m) && q' == q + Square(x) && sum' == sum + x && k' == k + 1.0
    ensures ss' == q' - 2.0 * m * sum' + k' * m * m
  {
  }

  /** With sum = n m, the cross term cancels: q - 2 m sum + n m^2 = q - n m^2. */
  lemma CancelCross(ss: real, q: real, sum: real, n: real, m: real)
    requires m * n == sum
    requires ss == q - 2.0 * m * sum + n * m * m
    ensures ss == q - n * (m * m)
  {
  }

  /** v n = q - n m^2 with n > 0 gives v = q / n - m^2. The hypotheses sit
      inside the ensures: as preconditions they would be proof goals at the
      call site, where the solver runs out of resource on them once the sums
      that q and v stand for are in scope. */
  lemma DivOut(v: real, n: real, q: real, m: real)
    ensures n > 0.0 && v * n == q - n * (m * m) ==> v == q / n - m * m
  {
  }
}
