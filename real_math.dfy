/** Facts about the square root the demos take from the C library. The model
    never computes a square root: a caller passes one in, and the lemmas that
    depend on its value ask that it really is one. */
module RealMath {

  /** sqrt returns the non-negative square root of every non-negative real. */
  ghost predicate IsSqrt(sqrt: real -> real) {
    forall x: real :: x >= 0.0 ==> sqrt(x) >= 0.0 && sqrt(x) * sqrt(x) == x
  }

  lemma SqrtSquared(sqrt: real -> real, x: real)
    requires IsSqrt(sqrt) && x >= 0.0
    ensures sqrt(x) >= 0.0 && sqrt(x) * sqrt(x) == x
  {
  }

  /** A non-negative number is the square root of its square. */
  lemma SqrtOfSquare(sqrt: real -> real, y: real)
    requires IsSqrt(sqrt) && y >= 0.0
    ensures sqrt(y * y) == y
  {
    var r := sqrt(y * y);
    assert r >= 0.0 && r * r == y * y;
    if r > y {
      SquareGrows(r, y);
    } else if r < y {
      SquareGrows(y, r);
    }
  }

  /** Squaring is strictly increasing on the non-negative reals. */
  lemma SquareGrows(u: real, v: real)
    requires u > v >= 0.0
    ensures u * u > v * v
  {
    PositiveProduct(u - v, u + v);
    assert (u - v) * (u + v) == u * u - v * v;
  }

  lemma PositiveProduct(a: real, b: real)
    requires a > 0.0 && b > 0.0
    ensures a * b > 0.0
  {
  }

  lemma SquareNonNegative(x: real)
    ensures x * x >= 0.0
  {
  }

  /** Only zero squares to zero. The two names for one number keep the solver
      from rewriting the square before it splits on the sign. */
  lemma SquareZero(x: real, y: real)
    requires x == y && x * y == 0.0
    ensures x == 0.0
  {
    if x != 0.0 {
      assert false;
    }
  }

  /** A sum of three squares is zero only when all three numbers are. */
  lemma SumOfSquaresZero(a: real, b: real, c: real)
    requires a * a + b * b + c * c == 0.0
    ensures a == 0.0 && b == 0.0 && c == 0.0
  {
    SquareNonNegative(a);
    SquareNonNegative(b);
    SquareNonNegative(c);
    SquareZero(a, a);
    SquareZero(b, b);
    SquareZero(c, c);
  }

  lemma SqrtZero(sqrt: real -> real)
    requires IsSqrt(sqrt)
    ensures sqrt(0.0) == 0.0
  {
    SqrtOfSquare(sqrt, 0.0);
  }

  lemma SqrtOne(sqrt: real -> real)
    requires IsSqrt(sqrt)
    ensures sqrt(1.0) == 1.0
  {
    SqrtOfSquare(sqrt, 1.0);
  }

  /** Only zero has square root zero. */
  lemma SqrtZeroOnlyAtZero(sqrt: real -> real, x: real)
    requires IsSqrt(sqrt) && x >= 0.0
    ensures sqrt(x) == 0.0 <==> x == 0.0
  {
    SqrtZero(sqrt);
  }
}
