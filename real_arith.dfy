/** Small facts about products of reals, stated so the solver can use them one at a time. */
module RealArith {

  lemma MulPos(x: real, y: real)
    requires x > 0.0 && y > 0.0
    ensures x * y > 0.0
  {}

  lemma SquarePos(x: real)
    ensures x * x >= 0.0
    ensures x != 0.0 ==> x * x > 0.0
  {
    if x > 0.0 {
      MulPos(x, x);
    } else if x < 0.0 {
      MulPos(-x, -x);
    }
  }

  /** Squaring preserves strict order on the non-negative reals, in both directions. */
  lemma SquareLess(a: real, b: real)
    requires a >= 0.0 && b >= 0.0
    ensures a < b <==> a * a < b * b
  {
    if a < b {
      MulPos(b - a, b + a);
    } else if b < a {
      MulPos(a - b, a + b);
    }
  }

  /** A planar squared distance is non-negative, and positive when the points differ. */
  lemma SumOfSquaresPos(dx: real, dy: real)
    ensures dx * dx + dy * dy >= 0.0
    ensures dx != 0.0 || dy != 0.0 ==> dx * dx + dy * dy > 0.0
  {
    SquarePos(dx);
    SquarePos(dy);
  }

  /** Dividing by a positive q compares like multiplying the threshold by q. */
  lemma DivideLess(d: real, q: real, c: real)
    requires q > 0.0
    ensures d / q > c <==> d > c * q
    ensures d / q < c <==> d < c * q
  {
    var r := d / q;
    assert d == r * q;
    if r > c { MulPos(r - c, q); }
    if r < c { MulPos(c - r, q); }
  }
}
