/**
 * The elementary real functions the source takes from Python's `math` module.
 * They are not definable in Dafny, so every operation that needs one of them
 * receives a `Maths` value carrying them; lemmas state the laws they rely on
 * as preconditions.
 */
module MathFunctions {

  datatype Maths = Maths(sqrt: real -> real, sin: real -> real, cos: real -> real, acos: real -> real)

  /** `sqrt` is the non-negative square root on non-negative arguments. */
  ghost predicate SqrtLaw(m: Maths)
  {
    forall x: real {:trigger m.sqrt(x)} :: 0.0 <= x ==> 0.0 <= m.sqrt(x) && m.sqrt(x) * m.sqrt(x) == x
  }

  /** The values of sine and cosine at zero. */
  ghost predicate TrigAtZero(m: Maths)
  {
    m.cos(0.0) == 1.0 && m.sin(0.0) == 0.0
  }

  /** `acos(1) = 0`. */
  ghost predicate AcosAtOne(m: Maths)
  {
    m.acos(1.0) == 0.0
  }

  /** Squaring is strictly increasing on the non-negative reals. */
  lemma SquareStrictlyMonotone(a: real, b: real)
    requires 0.0 <= a < b
    ensures a * a < b * b
  {
    assert a * (b - a) >= 0.0;
    assert b * (b - a) > 0.0;
    assert b * b - a * a == a * (b - a) + b * (b - a);
  }

  /** Under the square-root law, the root of a perfect square `s * s` with `s >= 0` is `s`. */
  lemma SqrtOfSquare(m: Maths, s: real)
    requires SqrtLaw(m)
    requires 0.0 <= s
    ensures m.sqrt(s * s) == s
  {
    var r := m.sqrt(s * s);
    assert 0.0 <= r && r * r == s * s;
    if r < s {
      SquareStrictlyMonotone(r, s);
    } else if s < r {
      SquareStrictlyMonotone(s, r);
    }
  }

  /** Under the square-root law, a non-negative `s` with `s * s = x` is the root of `x`. */
  lemma SqrtUnique(m: Maths, x: real, s: real)
    requires SqrtLaw(m)
    requires 0.0 <= s && s * s == x
    ensures m.sqrt(x) == s
  {
    var r := m.sqrt(x);
    assert 0.0 <= r && r * r == s * s;
    if r < s {
      SquareStrictlyMonotone(r, s);
    } else if s < r {
      SquareStrictlyMonotone(s, r);
    }
  }

  /** The roots the model uses at known points: `sqrt(0) = 0`, `sqrt(1) = 1`, `sqrt(4) = 2`. */
  lemma SqrtAtSquares(m: Maths)
    requires SqrtLaw(m)
    ensures m.sqrt(0.0) == 0.0 && m.sqrt(1.0) == 1.0 && m.sqrt(4.0) == 2.0
  {
    SqrtOfSquare(m, 0.0);
    SqrtOfSquare(m, 1.0);
    SqrtOfSquare(m, 2.0);
  }

  /** Under the square-root law, the root of a non-negative number is zero exactly when the number is. */
  lemma SqrtZeroIff(m: Maths, n: real)
    requires SqrtLaw(m)
    requires 0.0 <= n
    ensures m.sqrt(n) == 0.0 <==> n == 0.0
  {
    SqrtOfSquare(m, 0.0);
    assert m.sqrt(n) * m.sqrt(n) == n;
  }

  /** Dividing by a non-zero `s` and multiplying back gives the original number. */
  lemma QuotientTimes(a: real, s: real, quotient: real)
    requires s != 0.0 && quotient == a / s
    ensures quotient * s == a
  {
  }

  /** A square is never negative. */
  lemma SquareNonNegative(x: real)
    ensures 0.0 <= x * x
  {
    if x < 0.0 {
      assert x * x == (-x) * (-x);
    }
  }
}
