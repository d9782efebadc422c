/** The client's spear test (projectiles.go): does the segment a spear flew this frame touch a ball? */
module SegSphere {
  import opened Geometry

  const SHORT := 0.000001

  /** Some point of the segment lies strictly inside the ball. */
  ghost predicate Touches(a: Vec, b: Vec, c: Vec, r: real) {
    exists t: real :: 0.0 <= t <= 1.0 && DistanceSquared(Lerp(a, b, t), c) < r * r
  }

  function Clamp(t: real): real { if t < 0.0 then 0.0 else if t > 1.0 then 1.0 else t }

  function SegSphereHit(a: Vec, b: Vec, c: Vec, r: real): bool {
    var ab, ac := Minus(b, a), Minus(c, a);
    var abLen2 := Dot(ab, ab);
    if abLen2 < SHORT then DistanceSquared(a, c) < r * r
    else
      var closest := Lerp(a, b, Clamp(Dot(ac, ab) / abLen2));
      DistanceSquared(closest, c) < r * r
  }

  // ---------------------------------------------------------------------------------------------
  // The squared distance along the segment is a parabola

  function Parabola(qa: real, qb: real, qc: real, t: real): real { qa * t * t - 2.0 * qb * t + qc }

  lemma {:induction false} OffsetAlong(a: Vec, b: Vec, c: Vec, t: real)
    ensures Minus(Lerp(a, b, t), c) == Minus(Scale(t, Minus(b, a)), Minus(c, a))
  {
  }

  lemma {:induction false} DistanceAlong(a: Vec, b: Vec, c: Vec, t: real)
    ensures var ab, ac := Minus(b, a), Minus(c, a);
            DistanceSquared(Lerp(a, b, t), c) == Parabola(Dot(ab, ab), Dot(ac, ab), Dot(ac, ac), t)
  {
    hide Dot, Minus, Lerp;
    OffsetAlong(a, b, c, t);
    SquaredDifference(t, Minus(b, a), Minus(c, a));
  }

  /** Distance above the value at s: a square plus a slope term. */
  lemma {:induction false} Above(qa: real, qb: real, qc: real, s: real, t: real)
    ensures Parabola(qa, qb, qc, t) - Parabola(qa, qb, qc, s)
            == qa * ((t - s) * (t - s)) + 2.0 * ((t - s) * (qa * s - qb))
  {
  }

  /** On which side of the vertex the clamped point lies. */
  lemma {:induction false} ClampSlope(qa: real, qb: real, s: real, t: real)
    requires qa > 0.0 && s == Clamp(qb / qa) && 0.0 <= t <= 1.0
    ensures (t - s) * (qa * s - qb) >= 0.0
  {
    var v := qb / qa;
    Quotient(qb, qa);
    if v < 0.0 {
      SameSignProduct(qa, -v);
      SameSignProduct(t, -qb);
    } else if v > 1.0 {
      SameSignProduct(qa, v - 1.0);
      SameSignProduct(t - 1.0, qa - qb);
    }
  }

  /** The clamped projection minimises the distance over the segment. */
  lemma {:induction false} ClampIsLeast(qa: real, qb: real, qc: real, t: real)
    requires qa > 0.0 && 0.0 <= t <= 1.0
    ensures Parabola(qa, qb, qc, Clamp(qb / qa)) <= Parabola(qa, qb, qc, t)
  {
    var s := Clamp(qb / qa);
    Above(qa, qb, qc, s, t);
    ClampSlope(qa, qb, s, t);
    SameSignProduct(t - s, t - s);
    SameSignProduct(qa, (t - s) * (t - s));
  }

  /** A reported hit is a real one, for segments of any length. */
  lemma {:induction false} HitIsReal(a: Vec, b: Vec, c: Vec, r: real)
    ensures SegSphereHit(a, b, c, r) ==> Touches(a, b, c, r)
  {
    hide DistanceSquared, Lerp;
    LerpIs(a, b, 0.0);
    var ab, ac := Minus(b, a), Minus(c, a);
    if SegSphereHit(a, b, c, r) {
      var t := if Dot(ab, ab) < SHORT then 0.0 else Clamp(Dot(ac, ab) / Dot(ab, ab));
      assert DistanceSquared(Lerp(a, b, t), c) < r * r;
    }
  }

  /** The test is exact on every segment of squared length at least 1e-6. */
  lemma {:induction false} HitIff(a: Vec, b: Vec, c: Vec, r: real)
    requires Dot(Minus(b, a), Minus(b, a)) >= SHORT
    ensures SegSphereHit(a, b, c, r) <==> Touches(a, b, c, r)
  {
    hide DistanceSquared, Lerp, Parabola;
    HitIsReal(a, b, c, r);
    var ab, ac := Minus(b, a), Minus(c, a);
    if Touches(a, b, c, r) {
      var t: real :| 0.0 <= t <= 1.0 && DistanceSquared(Lerp(a, b, t), c) < r * r;
      var s := Clamp(Dot(ac, ab) / Dot(ab, ab));
      ClampIsLeast(Dot(ab, ab), Dot(ac, ab), Dot(ac, ac), t);
      DistanceAlong(a, b, c, t);
      DistanceAlong(a, b, c, s);
    }
  }

  // ---------------------------------------------------------------------------------------------
  // Segments shorter than that

  /** A parabola that starts at or above `bound` dips below it on [0, 1]: at its vertex, or at 1. */
  function Dips(qa: real, qb: real, qc: real, bound: real): bool {
    qb > 0.0 && (if qb < qa then qa * qc - qb * qb < qa * bound else qa - 2.0 * qb + qc < bound)
  }

  /** The guard under which the test overlooks a ball: a short segment that starts outside and dips inside. */
  function Overlooked(a: Vec, b: Vec, c: Vec, r: real): bool {
    var ab, ac := Minus(b, a), Minus(c, a);
    Dot(ab, ab) < SHORT && Dot(ac, ac) >= r * r && Dips(Dot(ab, ab), Dot(ac, ab), Dot(ac, ac), r * r)
  }

  lemma {:induction false} VertexValue(qa: real, qb: real, qc: real)
    requires qa > 0.0
    ensures qa * Parabola(qa, qb, qc, qb / qa) == qa * qc - qb * qb
  {
    var v := qb / qa;
    Quotient(qb, qa);
    assert qa * Parabola(qa, qb, qc, v) == (qa * v) * (qa * v) - 2.0 * qb * (qa * v) + qa * qc;
  }

  lemma {:induction false} QuotientSide(qa: real, qb: real)
    requires qa > 0.0
    ensures (qb / qa < 1.0 <==> qb < qa) && (qb / qa > 0.0 <==> qb > 0.0)
  {
    Quotient(qb, qa);
    ScaleOrder(qa, qb / qa, 1.0);
    ScaleOrder(qa, 0.0, qb / qa);
  }

  lemma {:induction false} VertexBelow(qa: real, qb: real, qc: real, bound: real)
    requires 0.0 < qb < qa
    ensures Parabola(qa, qb, qc, qb / qa) < bound <==> Dips(qa, qb, qc, bound)
  {
    hide Parabola;
    VertexValue(qa, qb, qc);
    ScaleOrder(qa, Parabola(qa, qb, qc, qb / qa), bound);
  }

  lemma {:induction false} EndsOf(qa: real, qb: real, qc: real, bound: real)
    ensures Parabola(qa, qb, qc, 0.0) == qc && Parabola(qa, qb, qc, 1.0) == qa - 2.0 * qb + qc
    ensures (qb <= 0.0 ==> !Dips(qa, qb, qc, bound))
    ensures (0.0 < qb && qa <= qb ==> (Dips(qa, qb, qc, bound) <==> qa - 2.0 * qb + qc < bound))
  {
  }

  /** The least value on [0, 1] of a parabola that starts at qc. */
  lemma {:induction false} LeastValue(qa: real, qb: real, qc: real, bound: real)
    requires qa > 0.0 && qc >= bound
    ensures Parabola(qa, qb, qc, Clamp(qb / qa)) < bound <==> Dips(qa, qb, qc, bound)
  {
    hide Parabola, Dips;
    QuotientSide(qa, qb);
    EndsOf(qa, qb, qc, bound);
    var v := qb / qa;
    if qb <= 0.0 {
      assert Clamp(v) == 0.0;
    } else if qb >= qa {
      assert Clamp(v) == 1.0;
    } else {
      assert Clamp(v) == v;
      VertexBelow(qa, qb, qc, bound);
    }
  }

  lemma {:induction false} DotZero(u: Vec, w: Vec)
    requires u == ZERO
    ensures Dot(w, u) == 0.0
  {
  }

  lemma {:induction false} ClampInUnit(t: real)
    ensures 0.0 <= Clamp(t) <= 1.0
  {
  }

  /** A segment touches the ball iff it starts inside or the least value along it is inside. */
  lemma {:induction false} TouchesIff(a: Vec, b: Vec, c: Vec, r: real)
    requires DistanceSquared(a, c) >= r * r
    ensures var ab, ac := Minus(b, a), Minus(c, a);
            Touches(a, b, c, r) <==> Dips(Dot(ab, ab), Dot(ac, ab), Dot(ac, ac), r * r)
  {
    hide DistanceSquared, Lerp, Parabola, Clamp, Dot;
    var ab, ac := Minus(b, a), Minus(c, a);
    var qa, qb, qc := Dot(ab, ab), Dot(ac, ab), Dot(ac, ac);
    SameStart(a, c);
    DotSelfSigned(ab);
    if qa == 0.0 {
      DotZero(ab, ac);
      PointNeverMoves(a, b, c, r);
    } else {
      var s := Clamp(qb / qa);
      ClampInUnit(qb / qa);
      DistanceAlong(a, b, c, s);
      LeastValue(qa, qb, qc, r * r);
      if Touches(a, b, c, r) {
        var t: real :| 0.0 <= t <= 1.0 && DistanceSquared(Lerp(a, b, t), c) < r * r;
        ClampIsLeast(qa, qb, qc, t);
        DistanceAlong(a, b, c, t);
      }
    }
  }

  lemma {:induction false} SameStart(a: Vec, c: Vec)
    ensures DistanceSquared(a, c) == Dot(Minus(c, a), Minus(c, a))
  {
  }

  lemma {:induction false} PointNeverMoves(a: Vec, b: Vec, c: Vec, r: real)
    requires Minus(b, a) == ZERO && DistanceSquared(a, c) >= r * r
    ensures !Touches(a, b, c, r)
  {
    forall t: real ensures Lerp(a, b, t) == a {}
  }

  /** For every input, the test agrees with its meaning exactly when it does not overlook the ball. */
  lemma {:induction false} ExactIff(a: Vec, b: Vec, c: Vec, r: real)
    ensures (SegSphereHit(a, b, c, r) <==> Touches(a, b, c, r)) <==> !Overlooked(a, b, c, r)
  {
    hide DistanceSquared, Lerp, Parabola, Clamp, Dot;
    HitIsReal(a, b, c, r);
    SameStart(a, c);
    var ab := Minus(b, a);
    if Dot(ab, ab) >= SHORT {
      HitIff(a, b, c, r);
    } else if DistanceSquared(a, c) >= r * r {
      TouchesIff(a, b, c, r);
    }
  }

  /** Half a millimetre into a unit ball. */
  lemma {:induction false} GuardExample()
    ensures Overlooked(Vec(1.0, 0.0, 0.0), Vec(1.0005, 0.0, 0.0), Vec(2.0, 0.0, 0.0), 1.0)
  {
    hide Dot, Dips;
    DipsExample();
    var a, b, c := Vec(1.0, 0.0, 0.0), Vec(1.0005, 0.0, 0.0), Vec(2.0, 0.0, 0.0);
    assert Minus(b, a) == Vec(0.0005, 0.0, 0.0) && Minus(c, a) == Vec(1.0, 0.0, 0.0);
    DotOnAxis(0.0005, 0.0005, 0.00000025);
    DotOnAxis(1.0, 0.0005, 0.0005);
    DotOnAxis(1.0, 1.0, 1.0);
  }

  /** Such a segment exists. */
  lemma {:induction false} OverlookedExample()
    ensures var a, b, c := Vec(1.0, 0.0, 0.0), Vec(1.0005, 0.0, 0.0), Vec(2.0, 0.0, 0.0);
            Overlooked(a, b, c, 1.0) && Touches(a, b, c, 1.0) && !SegSphereHit(a, b, c, 1.0)
  {
    hide Touches, SegSphereHit, Overlooked;
    var a, b, c := Vec(1.0, 0.0, 0.0), Vec(1.0005, 0.0, 0.0), Vec(2.0, 0.0, 0.0);
    GuardExample();
    ExactIff(a, b, c, 1.0);
    HitIsReal(a, b, c, 1.0);
  }

  lemma {:induction false} DipsExample()
    ensures Dips(0.00000025, 0.0005, 1.0, 1.0)
  {
  }

  lemma {:induction false} DotOnAxis(x: real, y: real, xy: real)
    requires xy == x * y
    ensures Dot(Vec(x, 0.0, 0.0), Vec(y, 0.0, 0.0)) == xy
  {
  }

  /** |dot| is at most 0.001 r when the squares say so. */
  lemma {:induction false} SmallDot(r: real, dot: real, pp: real, uu: real)
    requires 0.0 <= r && 0.0 <= pp < Square(r) && 0.0 <= uu < SHORT && Square(dot) <= pp * uu
    ensures -(r * 0.001) <= dot <= r * 0.001
  {
    hide Square;
    SameSignProduct(pp, SHORT - uu);
    SquareOfThousandth(r);
    var size := if dot < 0.0 then -dot else dot;
    SquareEven(dot);
    SquareOrder(size, r * 0.001);
  }

  lemma {:induction false} SquareOfThousandth(r: real)
    ensures Square(r * 0.001) == Square(r) * SHORT && Square(r + 0.001) == Square(r) + 2.0 * (r * 0.001) + SHORT
  {
  }

  lemma {:induction false} SquareEven(x: real)
    ensures Square(-x) == Square(x)
  {
  }

  lemma {:induction false} Shrinks(t: real, x: real, size: real)
    requires 0.0 <= t <= 1.0 && -size <= x <= size
    ensures -size <= t * x <= size
  {
    SameSignProduct(t, size - x);
    SameSignProduct(t, size + x);
    SameSignProduct(1.0 - t, size);
  }

  lemma {:induction false} NearBound(r: real, t: real, dot: real, pp: real, uu: real)
    requires 0.0 <= t <= 1.0 && 0.0 <= r && 0.0 <= pp < Square(r) && 0.0 <= uu < SHORT && Square(dot) <= pp * uu
    ensures t * (t * uu) - 2.0 * (t * dot) + pp < Square(r + 0.001)
  {
    hide Square;
    SmallDot(r, dot, pp, uu);
    Shrinks(t, dot, r * 0.001);
    Shrinks(t, uu, uu);
    Shrinks(t, t * uu, uu);
    SquareOfThousandth(r);
  }

  /** What is overlooked starts less than 0.001 outside the ball. */
  lemma {:induction false} OverlookedIsNear(a: Vec, b: Vec, c: Vec, r: real)
    requires r >= 0.0 && Touches(a, b, c, r) && !SegSphereHit(a, b, c, r)
    ensures r * r <= DistanceSquared(a, c) < Square(r + 0.001)
  {
    hide DistanceSquared, Lerp, Dot, Square, Clamp;
    var u := Minus(b, a);
    if Dot(u, u) >= SHORT { HitIff(a, b, c, r); }
    var t: real :| 0.0 <= t <= 1.0 && DistanceSquared(Lerp(a, b, t), c) < r * r;
    var p := Minus(Lerp(a, b, t), c);
    BackToStart(a, b, c, t);
    CauchySchwarz(p, u);
    DotSelfSigned(u);
    DotSelfSigned(p);
    SquareIs(r);
    NearBound(r, t, Dot(p, u), Dot(p, p), Dot(u, u));
  }

  lemma {:induction false} SquareIs(x: real)
    ensures Square(x) == x * x
  {
  }

  lemma {:induction false} BackToStart(a: Vec, b: Vec, c: Vec, t: real)
    ensures var p, u := Minus(Lerp(a, b, t), c), Minus(b, a);
            && DistanceSquared(Lerp(a, b, t), c) == Dot(p, p)
            && DistanceSquared(a, c) == t * (t * Dot(u, u)) - 2.0 * (t * Dot(p, u)) + Dot(p, p)
  {
    hide Dot;
    var p, u := Minus(Lerp(a, b, t), c), Minus(b, a);
    SquaredDifference(t, u, p);
    assert Minus(Scale(t, u), p) == Minus(c, a);
    SameStart(a, c);
  }
}
