/** The plane of `swarmbase-ui/app/lib/utils.ts`: vectors over exact reals and the
    operations `sub`, `add`, `scale`, `norm`, `normalize` and `limit`.

    JavaScript's `Math.hypot` is a parameter `h` of every function here.  All that is ever
    assumed about it is `IsHypot`: it returns the non-negative root of x*x + y*y. */
module Vectors {

  datatype Vec = Vec(x: real, y: real)

  datatype Robot = Robot(id: int, position: Vec, velocity: Vec)

  type Hypot = (real, real) -> real

  ghost predicate IsHypot(h: Hypot) {
    forall x: real, y: real :: 0.0 <= h(x, y) && h(x, y) * h(x, y) == x * x + y * y
  }

  const ZERO: Vec := Vec(0.0, 0.0)

  function Sub(a: Vec, b: Vec): Vec {
    Vec(a.x - b.x, a.y - b.y)
  }

  function Add(a: Vec, b: Vec): Vec {
    Vec(a.x + b.x, a.y + b.y)
  }

  function Scale(a: Vec, s: real): Vec {
    Vec(a.x * s, a.y * s)
  }

  function Norm(h: Hypot, a: Vec): real {
    h(a.x, a.y)
  }

  /** `norm(a) || 1` replaces a zero norm by one. */
  function Normalize(h: Hypot, a: Vec): Vec {
    var n := if Norm(h, a) == 0.0 then 1.0 else Norm(h, a);
    Vec(a.x / n, a.y / n)
  }

  function Limit(h: Hypot, v: Vec, max: real): Vec
    requires 0.0 <= max
  {
    var n := Norm(h, v);
    if n > max then Scale(v, max / n) else v
  }

  function Dot(a: Vec, b: Vec): real {
    a.x * b.x + a.y * b.y
  }

  function Dist(h: Hypot, a: Vec, b: Vec): real {
    Norm(h, Sub(a, b))
  }

  function SumPositions(rs: seq<Robot>): Vec {
    if rs == [] then ZERO else Add(SumPositions(rs[..|rs| - 1]), rs[|rs| - 1].position)
  }

  function SumVelocities(rs: seq<Robot>): Vec {
    if rs == [] then ZERO else Add(SumVelocities(rs[..|rs| - 1]), rs[|rs| - 1].velocity)
  }

  function Abs(s: real): real {
    if s < 0.0 then -s else s
  }

  function Min(a: real, b: real): real {
    if a < b then a else b
  }

  function Max(a: real, b: real): real {
    if a < b then b else a
  }

  // Facts about zero are stated for a variable equal to ZERO: Dafny wraps the arithmetic of
  // literals, and Z3 loses its way among the wrappers.

  lemma AddZero(z: Vec, a: Vec)
    requires z == ZERO
    ensures Add(a, z) == a == Add(z, a)
  {
  }

  lemma NotThere(goal: Vec, p: Vec)
    ensures Sub(goal, p) == ZERO <==> goal == p
  {
  }

  // ---------- Squares and roots ----------

  lemma SquareStrict(m: real, n: real)
    requires 0.0 <= n < m
    ensures n * n < m * m
  {
    MulStrict(0.0, m - n, m + n);
    assert m * m - n * n == (m - n) * (m + n);
  }

  lemma SquareOrder(m: real, n: real)
    requires 0.0 <= n
    requires m * m <= n * n
    ensures m <= n
  {
    if m > n {
      SquareStrict(m, n);
    }
  }

  /** Multiplication by a non-negative factor keeps the order. */
  lemma MulMonotone(a: real, b: real, c: real)
    requires a <= b && 0.0 <= c
    ensures a * c <= b * c
  {
  }

  lemma MulStrict(a: real, b: real, c: real)
    requires a < b && 0.0 < c
    ensures a * c < b * c
  {
  }

  lemma ProductSquared(a: real, b: real)
    ensures (a * b) * (a * b) == (a * a) * (b * b)
  {
  }

  lemma RootUnique(m: real, n: real)
    requires 0.0 <= m && 0.0 <= n
    requires m * m == n * n
    ensures m == n
  {
    SquareOrder(m, n);
    SquareOrder(n, m);
  }

  lemma NormSquared(h: Hypot, a: Vec)
    requires IsHypot(h)
    ensures 0.0 <= Norm(h, a)
    ensures Norm(h, a) * Norm(h, a) == Dot(a, a)
  {
  }

  /** The norm is the only non-negative root of the dot square, so any two hypotenuse
      functions agree: nothing below depends on which one is supplied. */
  lemma NormUnique(h: Hypot, a: Vec, n: real)
    requires IsHypot(h)
    requires 0.0 <= n && n * n == Dot(a, a)
    ensures Norm(h, a) == n
  {
    NormSquared(h, a);
    RootUnique(Norm(h, a), n);
  }

  lemma ZeroNorm(h: Hypot, a: Vec)
    requires IsHypot(h)
    ensures Norm(h, a) == 0.0 <==> a == ZERO
  {
    NormSquared(h, a);
    if a == ZERO {
      NormUnique(h, a, 0.0);
    } else {
      PositiveSquares(a);
    }
  }

  lemma PositiveSquares(a: Vec)
    requires a != ZERO
    ensures Dot(a, a) > 0.0
  {
    SumPositive(a.x, a.y, Dot(a, a));
  }

  lemma SumPositive(x: real, y: real, d: real)
    requires x != 0.0 || y != 0.0
    requires d == x * x + y * y
    ensures d > 0.0
  {
    var p, q := x * x, y * y;
    SquareNonNegative(x, p);
    SquareNonNegative(y, q);
    if x == 0.0 {
      SquarePositive(y, q);
    } else {
      SquarePositive(x, p);
    }
  }

  // The product is named in the next three lemmas: Z3 rewrites a literal comparison of a
  // square with zero to one of its root, and the product itself is lost.

  lemma MulPositive(a: real, b: real, p: real)
    requires 0.0 < a && 0.0 < b && p == a * b
    ensures p > 0.0
  {
  }

  lemma SquareNonNegative(s: real, p: real)
    requires p == s * s
    ensures 0.0 <= p
  {
  }

  lemma SquarePositive(s: real, p: real)
    requires s != 0.0 && p == s * s
    ensures p > 0.0
  {
    if s > 0.0 {
      MulPositive(s, s, p);
    } else {
      MulPositive(-s, -s, p);
    }
  }

  lemma NormScale(h: Hypot, a: Vec, s: real)
    requires IsHypot(h)
    ensures Norm(h, Scale(a, s)) == Abs(s) * Norm(h, a)
  {
    var n, t := Norm(h, a), Abs(s);
    NormSquared(h, a);
    DotScale(a, s);
    ProductSquared(t, n);
    assert t * t == s * s;
    MulMonotone(0.0, t, n);
    NormUnique(h, Scale(a, s), t * n);
  }

  lemma DotScale(a: Vec, s: real)
    ensures Dot(Scale(a, s), Scale(a, s)) == (s * s) * Dot(a, a)
  {
    ProductSquared(a.x, s);
    ProductSquared(a.y, s);
  }

  lemma DistSymmetric(h: Hypot, a: Vec, b: Vec)
    requires IsHypot(h)
    ensures Dist(h, b, a) == Dist(h, a, b)
  {
    NormSquared(h, Sub(a, b));
    NormUnique(h, Sub(b, a), Norm(h, Sub(a, b)));
  }

  lemma CauchySchwarz(h: Hypot, a: Vec, b: Vec)
    requires IsHypot(h)
    ensures Dot(a, b) <= Norm(h, a) * Norm(h, b)
  {
    var m, n := Norm(h, a), Norm(h, b);
    NormSquared(h, a);
    NormSquared(h, b);
    var cross := a.x * b.y - a.y * b.x;
    assert Dot(a, a) * Dot(b, b) - Dot(a, b) * Dot(a, b) == cross * cross by {
      Lagrange(a.x, a.y, b.x, b.y);
    }
    ProductSquared(m, n);
    MulMonotone(0.0, m, n);
    assert cross * cross >= 0.0;
    SquareOrder(Dot(a, b), m * n);
  }

  lemma Lagrange(p: real, q: real, r: real, s: real)
    ensures (p * p + q * q) * (r * r + s * s) - (p * r + q * s) * (p * r + q * s)
         == (p * s - q * r) * (p * s - q * r)
  {
  }

  lemma Triangle(h: Hypot, a: Vec, b: Vec)
    requires IsHypot(h)
    ensures Norm(h, Add(a, b)) <= Norm(h, a) + Norm(h, b)
  {
    var m, n := Norm(h, a), Norm(h, b);
    NormSquared(h, a);
    NormSquared(h, b);
    NormSquared(h, Add(a, b));
    CauchySchwarz(h, a, b);
    assert Dot(Add(a, b), Add(a, b)) == Dot(a, a) + 2.0 * Dot(a, b) + Dot(b, b);
    assert (m + n) * (m + n) == m * m + 2.0 * (m * n) + n * n;
    SquareOrder(Norm(h, Add(a, b)), m + n);
  }

  lemma DistTriangle(h: Hypot, a: Vec, b: Vec, c: Vec)
    requires IsHypot(h)
    ensures Dist(h, a, c) <= Dist(h, a, b) + Dist(h, b, c)
  {
    Triangle(h, Sub(a, b), Sub(b, c));
    assert Add(Sub(a, b), Sub(b, c)) == Sub(a, c);
  }

  // ---------- normalize ----------

  /** Dividing by a non-zero norm is scaling by its inverse. */
  lemma NormalizeIsScale(h: Hypot, a: Vec)
    requires IsHypot(h)
    requires a != ZERO
    ensures Norm(h, a) > 0.0
    ensures Normalize(h, a) == Scale(a, 1.0 / Norm(h, a))
    ensures Norm(h, Normalize(h, a)) == 1.0
  {
    ZeroNorm(h, a);
    NormSquared(h, a);
    var n := Norm(h, a);
    NormScale(h, a, 1.0 / n);
  }

  // ---------- limit: the projection onto a disc ----------

  /** `limit` lands in the disc of radius `max` and fixes every point of it. */
  lemma LimitInDisc(h: Hypot, v: Vec, max: real)
    requires IsHypot(h)
    requires 0.0 <= max
    ensures Norm(h, Limit(h, v, max)) == if Norm(h, v) > max then max else Norm(h, v)
  {
    var n := Norm(h, v);
    if n > max {
      NormScale(h, v, max / n);
      ShrinkFactor(n, max);
    }
  }

  /** The obtuse-angle characterisation of the projection: seen from the limited vector, no
      point of the disc lies on the same side as the original one. */
  lemma LimitObtuse(h: Hypot, w: Vec, max: real, u: Vec)
    requires IsHypot(h)
    requires 0.0 <= max
    requires Norm(h, u) <= max
    ensures var p := Limit(h, w, max); Dot(Sub(w, p), Sub(u, p)) <= 0.0
  {
    if Norm(h, w) > max {
      LimitObtuseOutside(h, w, max, u, Norm(h, w), max / Norm(h, w));
    } else {
      assert Sub(w, w) == ZERO;
    }
  }

  lemma LimitObtuseOutside(h: Hypot, w: Vec, max: real, u: Vec, n: real, s: real)
    requires IsHypot(h)
    requires 0.0 <= max < n == Norm(h, w) && Norm(h, u) <= max
    requires s == max / n
    ensures Dot(Sub(w, Scale(w, s)), Sub(u, Scale(w, s))) <= 0.0
  {
    CauchySchwarz(h, w, u);
    NormSquared(h, w);
    MulMonotone(Norm(h, u), max, n);
    ShrinkFactor(n, max);
    ShrunkObtuse(w, u, n, max, s);
  }

  lemma ShrinkFactor(n: real, max: real)
    requires 0.0 <= max < n
    ensures 0.0 <= max / n <= 1.0
    ensures (max / n) * n == max
    ensures (max / n) * (n * n) == max * n
  {
    var s := max / n;
    assert s * n == max;
    assert s * (n * n) == (s * n) * n;
  }

  lemma ShrunkObtuse(w: Vec, u: Vec, n: real, max: real, s: real)
    requires s <= 1.0
    requires s * (n * n) == max * n
    requires n * n == Dot(w, w)
    requires Dot(w, u) <= max * n
    ensures Dot(Sub(w, Scale(w, s)), Sub(u, Scale(w, s))) <= 0.0
  {
    var c := Dot(w, u) - s * Dot(w, w);
    ObtuseExpansion(w.x, w.y, u.x, u.y, s);
    MulMonotone(c, 0.0, 1.0 - s);
    assert (1.0 - s) * c == c * (1.0 - s);
  }

  lemma ObtuseExpansion(wx: real, wy: real, ux: real, uy: real, s: real)
    ensures (wx - wx * s) * (ux - wx * s) + (wy - wy * s) * (uy - wy * s)
         == (1.0 - s) * ((wx * ux + wy * uy) - s * (wx * wx + wy * wy))
  {
  }

  /** `limit` is non-expansive: it never moves two vectors further apart. */
  lemma LimitNonExpansive(h: Hypot, a: Vec, b: Vec, max: real)
    requires IsHypot(h)
    requires 0.0 <= max
    ensures Dist(h, Limit(h, a, max), Limit(h, b, max)) <= Dist(h, a, b)
  {
    var p, q := Limit(h, a, max), Limit(h, b, max);
    LimitInDisc(h, a, max);
    LimitInDisc(h, b, max);
    LimitObtuse(h, a, max, q);
    LimitObtuse(h, b, max, p);
    var d, e := Sub(p, q), Sub(a, b);
    var m, n := Norm(h, d), Norm(h, e);
    NormSquared(h, d);
    NormSquared(h, e);
    CauchySchwarz(h, d, e);
    NonExpansiveExpansion(a, b, p, q);
    CancelFactor(m, n, Dot(d, d), Dot(d, e));
  }

  lemma CancelFactor(m: real, n: real, p: real, q: real)
    requires 0.0 <= m && 0.0 <= n
    requires m * m == p && p <= q && q <= m * n
    ensures m <= n
  {
    if m > n {
      StrictFactor(m, n);
    }
  }

  lemma StrictFactor(m: real, n: real)
    requires 0.0 <= n < m
    ensures m * n < m * m
  {
    MulStrict(0.0, m - n, m);
    assert (m - n) * m == m * m - m * n;
  }

  lemma NonExpansiveExpansion(a: Vec, b: Vec, p: Vec, q: Vec)
    ensures Dot(Sub(p, q), Sub(a, b)) - Dot(Sub(p, q), Sub(p, q))
         == -Dot(Sub(a, p), Sub(q, p)) - Dot(Sub(b, q), Sub(p, q))
  {
  }

  /** `limit` returns the point of the disc nearest to its argument. */
  lemma LimitIsNearest(h: Hypot, w: Vec, max: real, u: Vec)
    requires IsHypot(h)
    requires 0.0 <= max
    requires Norm(h, u) <= max
    ensures Norm(h, Limit(h, w, max)) <= max
    ensures Dist(h, w, Limit(h, w, max)) <= Dist(h, w, u)
  {
    var p := Limit(h, w, max);
    LimitInDisc(h, w, max);
    LimitObtuse(h, w, max, u);
    var a, b := Sub(w, p), Sub(w, u);
    NormSquared(h, a);
    NormSquared(h, b);
    NearestExpansion(w, p, u, Dot(a, a), Dot(b, b), Dot(a, Sub(u, p)));
    SquareOrder(Norm(h, a), Norm(h, b));
  }

  lemma NearestExpansion(w: Vec, p: Vec, u: Vec, aa: real, bb: real, ac: real)
    requires aa == Dot(Sub(w, p), Sub(w, p)) && bb == Dot(Sub(w, u), Sub(w, u))
    requires ac == Dot(Sub(w, p), Sub(u, p)) <= 0.0
    ensures aa <= bb
  {
    var c := Sub(u, p);
    var cx, cy := c.x * c.x, c.y * c.y;
    SquareNonNegative(c.x, cx);
    SquareNonNegative(c.y, cy);
    assert bb == aa - 2.0 * ac + (cx + cy);
  }
}
