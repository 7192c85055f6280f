/** Small facts about products of reals, so that the longer proofs stay linear. */
module RealMath {
  lemma MulNonneg(a: real, b: real)
    requires a >= 0.0 && b >= 0.0
    ensures a * b >= 0.0
  {
  }

  lemma MulPos(a: real, b: real)
    requires a > 0.0 && b > 0.0
    ensures a * b > 0.0
  {
  }

  lemma MulLe(a: real, x: real, y: real)
    requires a >= 0.0 && x <= y
    ensures a * x <= a * y
  {
    MulNonneg(a, y - x);
    assert a * (y - x) == a * y - a * x;
  }

  lemma MulLt(a: real, x: real, y: real)
    requires a > 0.0 && x < y
    ensures a * x < a * y
  {
    MulPos(a, y - x);
    assert a * (y - x) == a * y - a * x;
  }

  lemma MulNegative(a: real, d: real)
    requires a <= 1.0 && d <= 0.0
    ensures a * d >= d
  {
    MulNonneg(1.0 - a, -d);
    assert (1.0 - a) * -d == -d + a * d;
  }

  lemma MulLeLeft(a: real, b: real, d: real)
    requires a <= b && d >= 0.0
    ensures a * d <= b * d
  {
    MulNonneg(b - a, d);
    assert (b - a) * d == b * d - a * d;
  }

  /** A mixture of two numbers is below any common bound. */
  lemma MixtureLe(a: real, x: real, y: real, b: real)
    requires 0.0 <= a <= 1.0 && x <= b && y <= b
    ensures x - a * (x - y) <= b
    ensures x < b && y < b ==> x - a * (x - y) < b
  {
    if x <= y {
      MulLe(y - x, a, 1.0);
    } else {
      MulNonneg(a, x - y);
    }
    if x < b && y < b && x <= y {
      assert x - a * (x - y) == x + (y - x) * a;
    }
  }

  /** On non-negative reals, squares compare like their roots. */
  lemma SquareLt(a: real, b: real)
    requires a >= 0.0 && b >= 0.0
    ensures a < b <==> a * a < b * b
  {
    if a < b {
      calc {
        a * a;
      <= { MulLe(a, a, b); }
        a * b;
      < { MulLt(b, a, b); }
        b * b;
      }
    } else {
      calc {
        b * b;
      <= { MulLe(b, b, a); }
        b * a;
      <= { MulLe(a, b, a); }
        a * a;
      }
    }
  }

  lemma SquareNonneg(a: real)
    ensures a * a >= 0.0
  {
    if a >= 0.0 {
      MulNonneg(a, a);
    } else {
      MulPos(-a, -a);
      assert (-a) * (-a) == a * a;
    }
  }
}
