/** Plane vectors over the reals. Lengths are compared through their squares. */
module Vectors {
  import opened RealMath

  datatype Vec2 = Vec2(x: real, y: real)

  const ORIGIN := Vec2(0.0, 0.0)

  function Add(a: Vec2, b: Vec2): Vec2 {
    Vec2(a.x + b.x, a.y + b.y)
  }

  function Sub(a: Vec2, b: Vec2): Vec2 {
    Vec2(a.x - b.x, a.y - b.y)
  }

  function Scale(k: real, a: Vec2): Vec2 {
    Vec2(k * a.x, k * a.y)
  }

  function Dot(a: Vec2, b: Vec2): real {
    a.x * b.x + a.y * b.y
  }

  function NormSq(a: Vec2): (n: real)
    ensures n >= 0.0
  {
    SquareNonneg(a.x);
    SquareNonneg(a.y);
    a.x * a.x + a.y * a.y
  }

  function DistSq(a: Vec2, b: Vec2): real {
    NormSq(Sub(a, b))
  }

  /** The length of `a` is at most `r`; meant for non-negative `r`. */
  predicate Within(a: Vec2, r: real) {
    NormSq(a) <= r * r
  }

  /** The length of `a` is below `r`; meant for non-negative `r`. */
  predicate StrictlyWithin(a: Vec2, r: real) {
    NormSq(a) < r * r
  }

  lemma ProductOfSums(u: real, v: real, w: real, z: real)
    ensures (u + v) * (w + z) == u * w + u * z + v * w + v * z
  {
  }

  lemma ProductOfSquares(a: real, b: real)
    ensures (a * a) * (b * b) == (a * b) * (a * b)
  {
  }

  lemma SquareOfSum(r: real, s: real)
    ensures (r + s) * (r + s) == r * r + s * s + 2.0 * (r * s)
  {
  }

  lemma CrossTerms(u: real, v: real, w: real, z: real)
    ensures (u * w) * (v * z) == (u * z) * (v * w)
  {
  }

  /** The Cauchy-Schwarz inequality, from Lagrange's identity. */
  lemma CauchySchwarz(a: Vec2, b: Vec2)
    ensures Dot(a, b) * Dot(a, b) <= NormSq(a) * NormSq(b)
  {
    var p, q, r, s := a.x * b.x, a.y * b.y, a.x * b.y, -(a.y * b.x);
    SquareNonneg(r + s);
    SquareOfSum(p, q);
    SquareOfSum(r, s);
    CrossTerms(a.x, a.y, b.x, b.y);
    assert p * q == -(r * s);
    ProductOfSums(a.x * a.x, a.y * a.y, b.x * b.x, b.y * b.y);
    ProductOfSquares(a.x, b.x);
    ProductOfSquares(a.x, b.y);
    ProductOfSquares(a.y, b.x);
    ProductOfSquares(a.y, b.y);
    FourSquares(Dot(a, b) * Dot(a, b), NormSq(a) * NormSq(b), p * p, q * q, r * r, s * s, p * q);
  }

  lemma FourSquares(d: real, n: real, pp: real, qq: real, rr: real, ss: real, pq: real)
    requires d == pp + qq + 2.0 * pq && n == pp + qq + rr + ss && rr + ss - 2.0 * pq >= 0.0
    ensures d <= n
  {
  }

  lemma DotBound(a: Vec2, b: Vec2, r: real, s: real)
    requires r >= 0.0 && s >= 0.0
    requires Within(a, r) && Within(b, s)
    ensures Dot(a, b) <= r * s
  {
    var d := Dot(a, b);
    MulNonneg(r, s);
    if d > r * s {
      SquareLt(r * s, d);
      calc {
        d * d;
      <= { CauchySchwarz(a, b); }
        NormSq(a) * NormSq(b);
      <= { MulLe(NormSq(a), NormSq(b), s * s); }
        NormSq(a) * (s * s);
      == { assert NormSq(a) * (s * s) == (s * s) * NormSq(a); }
        (s * s) * NormSq(a);
      <= { SquareNonneg(s); MulLe(s * s, NormSq(a), r * r); }
        (s * s) * (r * r);
      == { assert (s * s) * (r * r) == (r * s) * (r * s); }
        (r * s) * (r * s);
      }
      assert false;
    }
  }

  lemma NormSqOfSum(a: Vec2, b: Vec2)
    ensures NormSq(Add(a, b)) == NormSq(a) + NormSq(b) + 2.0 * Dot(a, b)
  {
    assert (a.x + b.x) * (a.x + b.x) == a.x * a.x + b.x * b.x + 2.0 * (a.x * b.x);
    assert (a.y + b.y) * (a.y + b.y) == a.y * a.y + b.y * b.y + 2.0 * (a.y * b.y);
  }

  /** The triangle inequality, and its strict form. */
  lemma Triangle(a: Vec2, b: Vec2, r: real, s: real)
    requires r >= 0.0 && s >= 0.0
    requires Within(a, r) && Within(b, s)
    ensures Within(Add(a, b), r + s)
    ensures StrictlyWithin(a, r) ==> StrictlyWithin(Add(a, b), r + s)
  {
    DotBound(a, b, r, s);
    NormSqOfSum(a, b);
    SquareOfSum(r, s);
  }

  lemma NormSqOfScale(k: real, a: Vec2)
    ensures NormSq(Scale(k, a)) == (k * k) * NormSq(a)
  {
    assert (k * a.x) * (k * a.x) == (k * k) * (a.x * a.x);
    assert (k * a.y) * (k * a.y) == (k * k) * (a.y * a.y);
  }

  lemma ScaleWithin(k: real, a: Vec2, r: real)
    requires k >= 0.0 && r >= 0.0 && Within(a, r)
    ensures Within(Scale(k, a), k * r)
  {
    NormSqOfScale(k, a);
    SquareNonneg(k);
    MulLe(k * k, NormSq(a), r * r);
    assert (k * k) * (r * r) == (k * r) * (k * r);
  }

  lemma WithinMonotone(a: Vec2, r: real, s: real)
    requires 0.0 <= r <= s && Within(a, r)
    ensures Within(a, s)
  {
    if r < s {
      SquareLt(r, s);
    }
  }

  /** Two points strictly within `r` and `s` of a third are closer than `r + s`. */
  lemma CloseThroughThird(p: Vec2, q: Vec2, b: Vec2, r: real, s: real)
    requires r >= 0.0 && s >= 0.0
    requires DistSq(b, p) < r * r && DistSq(b, q) < s * s
    ensures DistSq(p, q) < (r + s) * (r + s)
  {
    var u := Sub(p, b);
    assert NormSq(u) == DistSq(b, p) by {
      assert (p.x - b.x) * (p.x - b.x) == (b.x - p.x) * (b.x - p.x);
      assert (p.y - b.y) * (p.y - b.y) == (b.y - p.y) * (b.y - p.y);
    }
    Triangle(u, Sub(b, q), r, s);
    assert Add(u, Sub(b, q)) == Sub(p, q);
  }
}
