/** The two planets (world.go): a central-force integrator and what it conserves exactly. */
module Bodies {
  import opened Geometry
  import opened StarSystems

  /** Acceleration g along -rel / dist. */
  function Pull(rel: Vec, dist: real, g: real): Vec
    requires dist != 0.0
  {
    Vec(-rel.x / dist * g, -rel.y / dist * g, -rel.z / dist * g)
  }

  function Strength(mu: real, dist: real): real
    requires dist >= 1.0
  {
    mu / (dist * dist)
  }

  /** Velocity first, then position with the new velocity. */
  function Kick(s: Motion, accel: Vec, dt: real): Motion {
    var vel := Plus(s.vel, Scale(dt, accel));
    Motion(Plus(s.pos, Scale(dt, vel)), vel)
  }

  function BodyStep(sqrt: real -> real, s: Motion, center: Vec, mu: real, dt: real): Motion {
    var rel := Minus(s.pos, center);
    var dist := Distance(sqrt, rel);
    if dist < 1.0 then s else Kick(s, Pull(rel, dist, Strength(mu, dist)), dt)
  }

  // ---------------------------------------------------------------------------------------------
  // The law of attraction

  lemma {:induction false} PullScalar(x: real, dist: real, g: real)
    requires dist != 0.0
    ensures -x / dist * g == -(g / dist) * x
  {
    Quotient(-x, dist);
    Quotient(g, dist);
    var p, q := -x / dist, g / dist;
    assert g == dist * q && -x == dist * p;
    assert p * g == p * (dist * q);
    assert p * (dist * q) == (dist * p) * q;
  }

  lemma {:induction false} PullScaled(rel: Vec, dist: real, g: real)
    requires dist != 0.0
    ensures Pull(rel, dist, g) == Scale(-(g / dist), rel)
  {
    PullScalar(rel.x, dist, g);
    PullScalar(rel.y, dist, g);
    PullScalar(rel.z, dist, g);
  }

  lemma {:induction false} CrossParallel(k: real, rel: Vec)
    ensures Cross(Scale(k, rel), rel) == ZERO
  {
  }

  /** Strength g, straight towards the centre. */
  lemma {:induction false} PullLaw(rel: Vec, dist: real, g: real)
    requires dist > 0.0 && Dot(rel, rel) == dist * dist
    ensures Dot(Pull(rel, dist, g), rel) == -(g * dist) && Cross(Pull(rel, dist, g), rel) == ZERO
  {
    hide Dot, Scale, Pull, Cross;
    PullScaled(rel, dist, g);
    var k := -(g / dist);
    DotScale(k, rel, rel);
    CrossParallel(k, rel);
    Quotient(g, dist);
    assert k * (dist * dist) == -(dist * (g / dist)) * dist;
  }

  /** The inverse square. */
  lemma {:induction false} StrengthIs(mu: real, dist: real)
    requires dist >= 1.0
    ensures Strength(mu, dist) * dist * dist == mu
  {
    PositiveProduct(dist, dist);
    Quotient(mu, dist * dist);
    var g := Strength(mu, dist);
    assert dist * dist * g == g * dist * dist;
  }

  /** Attraction by a mass at distance `dist`: along the radius, inwards, and mu / dist^2 strong. */
  ghost predicate Attracts(accel: Vec, rel: Vec, dist: real, mu: real) {
    Dot(accel, rel) * dist == -mu && Cross(accel, rel) == ZERO
  }

  lemma {:induction false} PullAttracts(sqrt: real -> real, rel: Vec, mu: real)
    requires IsSqrt(sqrt) && Distance(sqrt, rel) >= 1.0
    ensures var dist := Distance(sqrt, rel); Attracts(Pull(rel, dist, Strength(mu, dist)), rel, dist, mu)
  {
    hide Dot, Cross, Pull, Strength, Distance;
    var dist := Distance(sqrt, rel);
    DistanceIs(sqrt, rel);
    var g := Strength(mu, dist);
    PullLaw(rel, dist, g);
    StrengthIs(mu, dist);
    Negated(g, dist, mu);
  }

  lemma {:induction false} Negated(g: real, dist: real, mu: real)
    requires g * dist * dist == mu
    ensures -(g * dist) * dist == -mu
  {
  }

  /** Velocity changes by dt times the acceleration, position by dt times the new velocity. */
  lemma {:induction false} KickIs(s: Motion, accel: Vec, dt: real)
    ensures var t := Kick(s, accel, dt);
            Minus(t.vel, s.vel) == Scale(dt, accel) && Minus(t.pos, s.pos) == Scale(dt, t.vel)
  {
  }

  lemma {:induction false} CrossScaled(dt: real, a: Vec, rel: Vec)
    requires Cross(a, rel) == ZERO
    ensures Cross(Scale(dt, a), rel) == ZERO
  {
    var n, m := Cross(a, rel), Cross(Scale(dt, a), rel);
    assert m.x == dt * n.x && m.y == dt * n.y && m.z == dt * n.z;
  }

  /** One step: the star attracts the body as the inverse square of its distance, or nothing moves. */
  lemma {:induction false} BodyStepLaw(sqrt: real -> real, s: Motion, center: Vec, mu: real, dt: real)
    requires IsSqrt(sqrt)
    ensures var t, rel := BodyStep(sqrt, s, center, mu, dt), Minus(s.pos, center);
            var dist, dv := Distance(sqrt, rel), Minus(t.vel, s.vel);
            if dist < 1.0 then t == s
            else Dot(dv, rel) * dist == -mu * dt && Cross(dv, rel) == ZERO && Minus(t.pos, s.pos) == Scale(dt, t.vel)
  {
    hide Dot, Cross, Pull, Strength, Distance, Minus, Scale, Kick;
    var rel := Minus(s.pos, center);
    var dist := Distance(sqrt, rel);
    if dist >= 1.0 {
      var accel := Pull(rel, dist, Strength(mu, dist));
      PullAttracts(sqrt, rel, mu);
      KickIs(s, accel, dt);
      DotScale(dt, accel, rel);
      CrossScaled(dt, accel, rel);
      ThreeFactors(dt, Dot(accel, rel), dist, mu);
    }
  }

  lemma {:induction false} ThreeFactors(dt: real, d: real, dist: real, mu: real)
    requires d * dist == -mu
    ensures dt * d * dist == -mu * dt
  {
    assert dt * d * dist == dt * (d * dist);
  }

  // ---------------------------------------------------------------------------------------------
  // Angular momentum

  function Momentum(s: Motion, center: Vec): Vec { Cross(Minus(s.pos, center), s.vel) }

  /** Moving along the velocity does not change r x v. */
  lemma {:induction false} CrossDrift(rel: Vec, vel: Vec, dt: real)
    ensures Cross(Plus(rel, Scale(dt, vel)), vel) == Cross(rel, vel)
  {
  }

  /** Neither does pushing along r. */
  lemma {:induction false} CrossPush(rel: Vec, vel: Vec, c: real)
    ensures Cross(rel, Plus(vel, Scale(c, rel))) == Cross(rel, vel)
  {
  }

  /** An acceleration on the line through the centre. */
  ghost predicate Central(accel: Vec, rel: Vec) { exists c: real :: accel == Scale(c, rel) }

  lemma {:induction false} PullIsCentral(rel: Vec, dist: real, g: real)
    requires dist != 0.0
    ensures Central(Pull(rel, dist, g), rel)
  {
    hide Pull, Scale;
    PullScaled(rel, dist, g);
  }

  lemma {:induction false} ScaleTwice(dt: real, c: real, rel: Vec)
    ensures Scale(dt, Scale(c, rel)) == Scale(dt * c, rel)
  {
  }

  lemma {:induction false} RelativeDrift(pos: Vec, center: Vec, step: Vec)
    ensures Minus(Plus(pos, step), center) == Plus(Minus(pos, center), step)
  {
  }

  /** A kick along r followed by the drift keeps r x v, whatever the step. */
  lemma {:induction false} KickKeepsMomentum(s: Motion, center: Vec, accel: Vec, dt: real)
    requires Central(accel, Minus(s.pos, center))
    ensures Momentum(Kick(s, accel, dt), center) == Momentum(s, center)
  {
    hide Cross, Plus, Minus, Scale;
    var rel := Minus(s.pos, center);
    var c: real :| accel == Scale(c, rel);
    ScaleTwice(dt, c, rel);
    CrossPush(rel, s.vel, dt * c);
    var vel := Plus(s.vel, Scale(dt, accel));
    RelativeDrift(s.pos, center, Scale(dt, vel));
    CrossDrift(rel, vel, dt);
  }

  lemma {:induction false} BodyKeepsMomentum(sqrt: real -> real, s: Motion, center: Vec, mu: real, dt: real)
    ensures Momentum(BodyStep(sqrt, s, center, mu, dt), center) == Momentum(s, center)
  {
    hide Cross, Plus, Minus, Scale, Momentum, Kick, Dot, Pull, Strength;
    var rel := Minus(s.pos, center);
    var dist := Distance(sqrt, rel);
    if dist >= 1.0 {
      PullIsCentral(rel, dist, Strength(mu, dist));
      KickKeepsMomentum(s, center, Pull(rel, dist, Strength(mu, dist)), dt);
    }
  }

  function BodyRun(sqrt: real -> real, s: Motion, center: Vec, mu: real, dts: seq<real>): Motion
    decreases |dts|
  {
    if dts == [] then s else BodyRun(sqrt, BodyStep(sqrt, s, center, mu, dts[0]), center, mu, dts[1..])
  }

  /** Exactly conserved by every run, for any steps whatever. */
  lemma {:induction false} RunKeepsMomentum(sqrt: real -> real, s: Motion, center: Vec, mu: real, dts: seq<real>)
    ensures Momentum(BodyRun(sqrt, s, center, mu, dts), center) == Momentum(s, center)
    decreases |dts|
  {
    if dts != [] {
      BodyKeepsMomentum(sqrt, s, center, mu, dts[0]);
      RunKeepsMomentum(sqrt, BodyStep(sqrt, s, center, mu, dts[0]), center, mu, dts[1..]);
    }
  }

  lemma {:induction false} CrossIsNormal(rel: Vec, vel: Vec)
    ensures Dot(Cross(rel, vel), rel) == 0.0 && Dot(Cross(rel, vel), vel) == 0.0
  {
  }

  lemma {:induction false} CrossOfZero(rel: Vec, vel: Vec)
    ensures rel == ZERO || vel == ZERO ==> Cross(rel, vel) == ZERO
  {
  }

  /** A body with angular momentum stays in its initial plane, never stops and never reaches the centre. */
  lemma {:induction false} StaysInPlane(sqrt: real -> real, s: Motion, center: Vec, mu: real, dts: seq<real>)
    ensures var n, t := Momentum(s, center), BodyRun(sqrt, s, center, mu, dts);
            && Dot(n, Minus(t.pos, center)) == 0.0 && Dot(n, t.vel) == 0.0
            && (n != ZERO ==> t.pos != center && t.vel != ZERO)
  {
    hide Cross, Dot;
    var t := BodyRun(sqrt, s, center, mu, dts);
    var rel := Minus(t.pos, center);
    RunKeepsMomentum(sqrt, s, center, mu, dts);
    CrossIsNormal(rel, t.vel);
    CrossOfZero(rel, t.vel);
    if t.pos == center { assert rel == ZERO; }
  }

  // ---------------------------------------------------------------------------------------------
  // NewWorldState

  /** On the x axis at distance r, moving along z at the circular speed. */
  function Circular(sqrt: real -> real, center: Vec, r: real, mu: real): Motion
    requires r != 0.0
  {
    Motion(Vec(center.x + r, center.y, center.z), Vec(0.0, 0.0, sqrt(mu / r)))
  }

  lemma {:induction false} CircularMomentum(sqrt: real -> real, center: Vec, r: real, mu: real)
    requires r != 0.0
    ensures Momentum(Circular(sqrt, center, r, mu), center) == Vec(0.0, -(r * sqrt(mu / r)), 0.0)
  {
    var s := Circular(sqrt, center, r, mu);
    assert Minus(s.pos, center) == Vec(r, 0.0, 0.0);
  }

  /** There the star pulls with v^2 / r straight inwards, what the circle needs. */
  lemma {:induction false} CircularPull(sqrt: real -> real, center: Vec, r: real, mu: real, dt: real) returns (g: real)
    requires IsSqrt(sqrt) && r >= 1.0 && mu > 0.0
    ensures var s := Circular(sqrt, center, r, mu);
            g * r == Square(s.vel.z) && BodyStep(sqrt, s, center, mu, dt) == Kick(s, Vec(-g, 0.0, 0.0), dt)
  {
    hide Kick, Dot, Pull, Strength, Distance;
    var s := Circular(sqrt, center, r, mu);
    var rel := Minus(s.pos, center);
    assert rel == Vec(r, 0.0, 0.0);
    DistanceOnAxis(sqrt, r);
    g := Strength(mu, r);
    CircularStrength(sqrt, r, mu);
    AxisPull(r, g);
  }

  lemma {:induction false} DistanceOnAxis(sqrt: real -> real, r: real)
    requires IsSqrt(sqrt) && r > 0.0
    ensures Distance(sqrt, Vec(r, 0.0, 0.0)) == r
  {
    DistanceIs(sqrt, Vec(r, 0.0, 0.0));
    var d := Distance(sqrt, Vec(r, 0.0, 0.0));
    SquareOrder(d, r);
    SquareOrder(r, d);
  }

  lemma {:induction false} AxisPull(r: real, g: real)
    requires r > 0.0
    ensures Pull(Vec(r, 0.0, 0.0), r, g) == Vec(-g, 0.0, 0.0)
  {
    Quotient(-r, r);
    assert -r / r == -1.0;
    assert -0.0 / r * g == 0.0;
  }

  lemma {:induction false} CircularStrength(sqrt: real -> real, r: real, mu: real)
    requires IsSqrt(sqrt) && r >= 1.0 && mu > 0.0
    ensures Strength(mu, r) * r == Square(sqrt(mu / r))
  {
    hide Strength;
    PositiveQuotient(mu, r);
    Quotient(mu, r);
    StrengthIs(mu, r);
    SameProduct(r, Strength(mu, r) * r, mu / r, mu);
  }

  lemma {:induction false} SameProduct(r: real, a: real, b: real, product: real)
    requires r > 0.0 && a * r == product && r * b == product
    ensures a == b
  {
    if a > b { PositiveProduct(r, a - b); }
    if a < b { PositiveProduct(r, b - a); }
  }

  lemma {:induction false} DotUpright(y: real, u: Vec)
    ensures Dot(Vec(0.0, y, 0.0), u) == y * u.y
  {
  }

  lemma {:induction false} NoFactor(y: real, x: real)
    requires y > 0.0 && -y * x == 0.0
    ensures x == 0.0
  {
    if x > 0.0 { PositiveProduct(y, x); }
    if x < 0.0 { PositiveProduct(y, -x); }
  }

  /** A planet that starts on NewWorldState's circle keeps its star's height for ever and never meets it. */
  lemma {:induction false} PlanetStaysLevel(sqrt: real -> real, center: Vec, r: real, mu: real, dts: seq<real>)
    requires r > 0.0 && sqrt(mu / r) > 0.0
    ensures var t := BodyRun(sqrt, Circular(sqrt, center, r, mu), center, mu, dts);
            t.pos.y == center.y && t.vel.y == 0.0 && t.pos != center && t.vel != ZERO
  {
    hide Dot;
    var s := Circular(sqrt, center, r, mu);
    var t := BodyRun(sqrt, s, center, mu, dts);
    CircularMomentum(sqrt, center, r, mu);
    var y := r * sqrt(mu / r);
    PositiveProduct(r, sqrt(mu / r));
    StaysInPlane(sqrt, s, center, mu, dts);
    DotUpright(-y, Minus(t.pos, center));
    DotUpright(-y, t.vel);
    NoFactor(y, t.vel.y);
    NoFactor(y, t.pos.y - center.y);
  }

  /** Both planets of the new world. */
  lemma {:induction false} PlanetsStayLevel(sqrt: real -> real, sun: Vec, star2: Vec, dts: seq<real>)
    requires IsSqrt(sqrt)
    ensures var earth := BodyRun(sqrt, Circular(sqrt, sun, SUN_DISTANCE, MU_SUN), sun, MU_SUN, dts);
            earth.pos.y == sun.y && earth.vel.y == 0.0 && earth.pos != sun && earth.vel != ZERO
    ensures var planet2 := BodyRun(sqrt, Circular(sqrt, star2, PLANET2_ORBIT, MU_STAR2), star2, MU_STAR2, dts);
            planet2.pos.y == star2.y && planet2.vel.y == 0.0 && planet2.pos != star2 && planet2.vel != ZERO
  {
    PositiveRoot(sqrt, MU_SUN / SUN_DISTANCE);
    PositiveRoot(sqrt, MU_STAR2 / PLANET2_ORBIT);
    PlanetStaysLevel(sqrt, sun, SUN_DISTANCE, MU_SUN, dts);
    PlanetStaysLevel(sqrt, star2, PLANET2_ORBIT, MU_STAR2, dts);
  }

  lemma {:induction false} PositiveRoot(sqrt: real -> real, x: real)
    requires IsSqrt(sqrt) && x > 0.0
    ensures sqrt(x) > 0.0
  {
    assert sqrt(x) * sqrt(x) == x;
  }

  // ---------------------------------------------------------------------------------------------
  // In place

  class Body {
    var pos: Vec
    var vel: Vec

    ghost function View(): Motion
      reads this
    {
      Motion(pos, vel)
    }

    constructor (s: Motion)
      ensures View() == s
    {
      pos, vel := s.pos, s.vel;
    }

    method TickBody(sqrt: real -> real, center: Vec, mu: real, dt: real)
      modifies this
      ensures View() == BodyStep(sqrt, old(View()), center, mu, dt)
      ensures Momentum(View(), center) == old(Momentum(View(), center))
      ensures IsSqrt(sqrt) && Distance(sqrt, Minus(old(pos), center)) >= 1.0 ==>
                Dot(Minus(vel, old(vel)), Minus(old(pos), center)) * Distance(sqrt, Minus(old(pos), center)) == -mu * dt
    {
      hide Momentum, Plus, Scale, Minus, Dot, Pull, Strength;
      ghost var before := View();
      BodyKeepsMomentum(sqrt, before, center, mu, dt);
      if IsSqrt(sqrt) { BodyStepLaw(sqrt, before, center, mu, dt); }
      var d := Minus(pos, center);
      var dist := sqrt(Dot(d, d));
      if dist < 1.0 {
        return;
      }
      var accel := Pull(d, dist, Strength(mu, dist));
      vel := Plus(vel, Scale(dt, accel));
      pos := Plus(pos, Scale(dt, vel));
    }
  }

  class WorldState {
    const earth: Body
    const planet2: Body

    ghost predicate Valid() { earth != planet2 }

    constructor (sqrt: real -> real, sun: Vec, star2: Vec)
      ensures Valid() && fresh(earth) && fresh(planet2)
      ensures earth.View() == Circular(sqrt, sun, SUN_DISTANCE, MU_SUN)
      ensures planet2.View() == Circular(sqrt, star2, PLANET2_ORBIT, MU_STAR2)
    {
      earth := new Body(Circular(sqrt, sun, SUN_DISTANCE, MU_SUN));
      planet2 := new Body(Circular(sqrt, star2, PLANET2_ORBIT, MU_STAR2));
    }

    method Tick(sqrt: real -> real, sun: Vec, star2: Vec, dt: real)
      requires Valid()
      modifies earth, planet2
      ensures earth.View() == BodyStep(sqrt, old(earth.View()), sun, MU_SUN, dt)
      ensures planet2.View() == BodyStep(sqrt, old(planet2.View()), star2, MU_STAR2, dt)
    {
      hide BodyStep, Momentum;
      earth.TickBody(sqrt, sun, MU_SUN, dt);
      planet2.TickBody(sqrt, star2, MU_STAR2, dt);
    }
  }
}
