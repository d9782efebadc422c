/** Vectors over the reals; the server's float32 arithmetic without its rounding. */
module Geometry {
  datatype Vec = Vec(x: real, y: real, z: real)

  const ZERO := Vec(0.0, 0.0, 0.0)

  function Plus(a: Vec, b: Vec): Vec { Vec(a.x + b.x, a.y + b.y, a.z + b.z) }
  function Minus(a: Vec, b: Vec): Vec { Vec(a.x - b.x, a.y - b.y, a.z - b.z) }
  function Scale(k: real, a: Vec): Vec { Vec(k * a.x, k * a.y, k * a.z) }
  function Dot(a: Vec, b: Vec): real { a.x * b.x + a.y * b.y + a.z * b.z }
  function Cross(a: Vec, b: Vec): Vec {
    Vec(a.y * b.z - a.z * b.y, a.z * b.x - a.x * b.z, a.x * b.y - a.y * b.x)
  }

  function DistanceSquared(a: Vec, b: Vec): real { Dot(Minus(a, b), Minus(a, b)) }

  /** Where something is and how it moves. */
  datatype Motion = Motion(pos: Vec, vel: Vec)

  /** Length of a vector, with the square root of the program. */
  function Distance(sqrt: real -> real, rel: Vec): real { sqrt(Dot(rel, rel)) }

  /** What the proofs need to know about math.Sqrt. */
  ghost predicate IsSqrt(sqrt: real -> real) {
    forall q: real :: q >= 0.0 ==> sqrt(q) >= 0.0 && sqrt(q) * sqrt(q) == q
  }

  // ---------------------------------------------------------------------------------------------
  // Signs of products and squares

  function Square(x: real): real { x * x }

  lemma {:induction false} PositiveProduct(x: real, y: real)
    requires x > 0.0 && y > 0.0
    ensures x * y > 0.0
  {
  }

  lemma {:induction false} SameSignProduct(x: real, y: real)
    requires (x >= 0.0 && y >= 0.0) || (x <= 0.0 && y <= 0.0)
    ensures x * y >= 0.0
  {
  }

  lemma {:induction false} PositiveArea(x: real, y: real, area: real)
    requires x > 0.0 && y > 0.0 && area == x * y
    ensures area > 0.0
  {
  }

  lemma {:induction false} SquareSigned(x: real)
    ensures Square(x) >= 0.0 && (x != 0.0 ==> Square(x) > 0.0)
  {
    if x > 0.0 { PositiveArea(x, x, Square(x)); }
    if x < 0.0 { PositiveArea(-x, -x, Square(x)); }
  }

  lemma {:induction false} SquareZero()
    ensures Square(0.0) == 0.0
  {
  }

  lemma {:induction false} DotSelf(u: Vec)
    ensures Dot(u, u) == Square(u.x) + Square(u.y) + Square(u.z)
  {
  }

  lemma {:induction false} DotSelfSigned(u: Vec)
    ensures Dot(u, u) >= 0.0 && (u != ZERO ==> Dot(u, u) > 0.0)
  {
    hide Square, Dot;
    DotSelf(u);
    SquareSigned(u.x);
    SquareSigned(u.y);
    SquareSigned(u.z);
    assert u == Vec(u.x, u.y, u.z);
  }

  lemma {:induction false} ScaleOrder(k: real, x: real, y: real)
    requires k > 0.0
    ensures (k * x < k * y <==> x < y) && (k * x <= k * y <==> x <= y)
  {
    if x < y { PositiveProduct(k, y - x); }
    if x > y { PositiveProduct(k, x - y); }
  }

  lemma {:induction false} SquareGrows(x: real, y: real)
    requires 0.0 <= x < y
    ensures Square(x) < Square(y)
  {
    PositiveProduct(y - x, y + x);
    assert (y - x) * (y + x) == y * y - x * x;
  }

  lemma {:induction false} SquareOrder(x: real, y: real)
    requires x >= 0.0 && y >= 0.0
    ensures (Square(x) < Square(y) <==> x < y) && (Square(x) <= Square(y) <==> x <= y)
  {
    hide Square;
    if x < y { SquareGrows(x, y); } else if y < x { SquareGrows(y, x); }
  }

  lemma {:induction false} Quotient(x: real, y: real)
    requires y != 0.0
    ensures y * (x / y) == x
  {
  }

  // ---------------------------------------------------------------------------------------------
  // Bilinearity

  lemma {:induction false} DotSymmetric(a: Vec, b: Vec)
    ensures Dot(a, b) == Dot(b, a)
  {
  }

  lemma {:induction false} DotScale(k: real, a: Vec, b: Vec)
    ensures Dot(Scale(k, a), b) == k * Dot(a, b)
  {
  }

  lemma {:induction false} DotMinus(a: Vec, b: Vec, c: Vec)
    ensures Dot(Minus(a, b), c) == Dot(a, c) - Dot(b, c)
  {
  }

  /** Seen from `base`, a point at an offset from it is at that offset. */
  lemma {:induction false} OffsetFrom(base: Vec, rel: Vec)
    ensures Minus(Plus(base, rel), base) == rel
  {
  }

  lemma {:induction false} MinusSelf(v: Vec)
    ensures Minus(v, v) == ZERO
  {
  }

  lemma {:induction false} ZeroDistance(p: Vec)
    ensures DistanceSquared(p, p) == 0.0
  {
    MinusSelf(p);
  }

  // ---------------------------------------------------------------------------------------------
  // The straight line from a to b

  function Lerp(a: Vec, b: Vec, t: real): Vec { Plus(a, Scale(t, Minus(b, a))) }

  /** It covers the share t of the way, from a at 0 to b at 1. */
  lemma {:induction false} LerpIs(a: Vec, b: Vec, t: real)
    ensures Minus(Lerp(a, b, t), a) == Scale(t, Minus(b, a))
    ensures Lerp(a, b, 0.0) == a && Lerp(a, b, 1.0) == b
  {
  }

  predicate Between(x: real, low: real, high: real) { low <= x <= high || high <= x <= low }

  /** Each coordinate lies between those of a and b. */
  predicate InBox(p: Vec, a: Vec, b: Vec) {
    Between(p.x, a.x, b.x) && Between(p.y, a.y, b.y) && Between(p.z, a.z, b.z)
  }

  lemma {:induction false} ShareBetween(x: real, a: real, b: real, t: real)
    requires 0.0 <= t <= 1.0 && x == a + t * (b - a)
    ensures Between(x, a, b)
  {
    if a <= b {
      SameSignProduct(t, b - a);
      SameSignProduct(1.0 - t, b - a);
    } else {
      SameSignProduct(t, a - b);
      SameSignProduct(1.0 - t, a - b);
    }
  }

  lemma {:induction false} LerpBetween(a: Vec, b: Vec, t: real)
    requires 0.0 <= t <= 1.0
    ensures InBox(Lerp(a, b, t), a, b)
  {
    hide Between;
    var p := Lerp(a, b, t);
    ShareBetween(p.x, a.x, b.x, t);
    ShareBetween(p.y, a.y, b.y, t);
    ShareBetween(p.z, a.z, b.z, t);
  }

  /** |k u - w|^2 */
  lemma {:induction false} SquaredDifference(k: real, u: Vec, w: Vec)
    ensures var p := Minus(Scale(k, u), w); Dot(p, p) == k * (k * Dot(u, u)) - 2.0 * (k * Dot(w, u)) + Dot(w, w)
  {
    hide Dot, Minus, Scale;
    var ku := Scale(k, u);
    var p := Minus(ku, w);
    DotMinus(ku, w, p);
    DotSymmetric(ku, p);
    DotSymmetric(w, p);
    DotMinus(ku, w, ku);
    DotMinus(ku, w, w);
    DotScale(k, u, ku);
    DotSymmetric(u, ku);
    DotScale(k, u, u);
    DotSymmetric(w, ku);
    DotScale(k, u, w);
    DotSymmetric(u, w);
  }

  lemma {:induction false} PositiveQuotient(x: real, y: real)
    requires x > 0.0 && y > 0.0
    ensures x / y > 0.0
  {
  }

  lemma {:induction false} DistanceIs(sqrt: real -> real, rel: Vec)
    requires IsSqrt(sqrt)
    ensures Distance(sqrt, rel) >= 0.0 && Distance(sqrt, rel) * Distance(sqrt, rel) == Dot(rel, rel)
  {
    hide Dot;
    DotSelfSigned(rel);
  }

  /** Lagrange's identity. */
  lemma {:induction false} Lagrange(p: Vec, u: Vec)
    ensures Dot(Cross(p, u), Cross(p, u)) == Dot(p, p) * Dot(u, u) - Dot(p, u) * Dot(p, u)
  {
  }

  lemma {:induction false} CauchySchwarz(p: Vec, u: Vec)
    ensures Square(Dot(p, u)) <= Dot(p, p) * Dot(u, u)
  {
    hide Dot, Cross;
    Lagrange(p, u);
    DotSelfSigned(Cross(p, u));
  }
}

/** The constants of the two star systems (constants.go) and of the atmosphere (rockets.go). */
module StarSystems {
  const MU_EARTH := 100000.0
  const MU_SUN := 2000000.0
  const MU_STAR2 := 1500000.0
  const SUN_DISTANCE := 5000.0
  const PLANET2_ORBIT := 3000.0
  const PLANET_RADIUS := 50.0
  const SUN_RADIUS := 250.0
  const SOI_EARTH := 400.0
  const ATMOSPHERE := 50.0
}
