/**
 Apsides and the stable-orbit flag (rockets_orbit.go), against the motion they describe: every state with
 the same energy and the same angular momentum.
 */
module Orbit {
  import opened Geometry
  import opened StarSystems

  function Over(a: Vec, k: real): Vec
    requires k != 0.0
  {
    Vec(a.x / k, a.y / k, a.z / k)
  }

  datatype Params = Params(apo: real, peri: real, speed: real, alt: real, targetV: real)

  /** The vector orbitalParams takes the length of, before its division by mu. */
  function Laplace(rel: Vec, vel: Vec, k: real): Vec {
    Minus(Scale(k, rel), Scale(Dot(rel, vel), vel))
  }

  function OrbitalParams(sqrt: real -> real, pos: Vec, vel: Vec, primary: Vec, mu: real, bodyRadius: real): Params
    requires mu > 0.0
  {
    var rel := Minus(pos, primary);
    var r, v2 := Distance(sqrt, rel), Dot(vel, vel);
    var speed, alt := sqrt(v2), r - bodyRadius;
    var targetV := if r > 1.0 then sqrt(mu / r) else 0.0;
    if r < 1.0 then Params(0.0, 0.0, speed, alt, targetV)
    else
      var energy := v2 / 2.0 - mu / r;
      if energy >= 0.0 then Params(0.0, 0.0, speed, alt, targetV)
      else
        var a := -mu / (2.0 * energy);
        var ecc := Over(Laplace(rel, vel, v2 - mu / r), mu);
        var e := sqrt(Dot(ecc, ecc));
        Params(a * (1.0 + e) - bodyRadius, a * (1.0 - e) - bodyRadius, speed, alt, targetV)
  }

  // ---------------------------------------------------------------------------------------------
  // The conserved quantities of a state of motion, relative to the primary

  function Energy(sqrt: real -> real, s: Motion, mu: real): real
    requires Distance(sqrt, s.pos) != 0.0
  {
    Dot(s.vel, s.vel) / 2.0 - mu / Distance(sqrt, s.pos)
  }

  /** Squared specific angular momentum. */
  function Momentum2(s: Motion): real { Dot(Cross(s.pos, s.vel), Cross(s.pos, s.vel)) }

  /** Two states of one orbit. */
  ghost predicate SameOrbit(sqrt: real -> real, s: Motion, t: Motion, mu: real) {
    && Distance(sqrt, s.pos) > 0.0 && Distance(sqrt, t.pos) > 0.0
    && Energy(sqrt, s, mu) == Energy(sqrt, t, mu) && Momentum2(s) == Momentum2(t)
  }

  lemma {:induction false} LengthOf(sqrt: real -> real, u: Vec)
    requires IsSqrt(sqrt)
    ensures sqrt(Dot(u, u)) >= 0.0 && Square(sqrt(Dot(u, u))) == Dot(u, u)
  {
    hide Dot;
    DotSelfSigned(u);
  }

  /** h^2 = r^2 v^2 - (r.v)^2 */
  lemma {:induction false} MomentumFormula(sqrt: real -> real, s: Motion)
    requires IsSqrt(sqrt)
    ensures Momentum2(s) == Square(Distance(sqrt, s.pos)) * Dot(s.vel, s.vel) - Square(Dot(s.pos, s.vel))
    ensures Momentum2(s) >= 0.0
  {
    hide Dot, Cross;
    Lagrange(s.pos, s.vel);
    LengthOf(sqrt, s.pos);
    DotSelfSigned(Cross(s.pos, s.vel));
  }

  // ---------------------------------------------------------------------------------------------
  // Eccentricity

  lemma {:induction false} LaplaceSquared(rel: Vec, vel: Vec, k: real)
    ensures var n, q := Laplace(rel, vel, k), Dot(rel, vel);
            Dot(n, n) == k * (k * Dot(rel, rel)) - 2.0 * (k * (q * q)) + q * (q * Dot(vel, vel))
  {
    hide Dot, Minus, Scale;
    var q := Dot(rel, vel);
    var w := Scale(q, vel);
    SquaredDifference(k, rel, w);
    DotScale(q, vel, rel);
    DotSymmetric(vel, rel);
    DotScale(q, vel, w);
    DotSymmetric(vel, w);
    DotScale(q, vel, vel);
  }

  /** k^2 r^2 - 2 k q^2 + q^2 v^2 = mu^2 + 2 E h^2, with mu = m r */
  lemma {:induction false} EccentricityScalar(r: real, v2: real, q: real, m: real)
    ensures var k := v2 - m;
            k * (k * (r * r)) - 2.0 * (k * (q * q)) + q * (q * v2)
            == (m * r) * (m * r) + (v2 - 2.0 * m) * (r * r * v2 - q * q)
  {
    var rr, qq, k := r * r, q * q, v2 - m;
    assert k * (k * rr) == v2 * v2 * rr - 2.0 * (v2 * m * rr) + m * m * rr;
    assert (v2 - 2.0 * m) * (rr * v2 - qq) == v2 * v2 * rr - 2.0 * (v2 * m * rr) - v2 * qq + 2.0 * (m * qq);
    assert (m * r) * (m * r) == m * m * rr;
    assert q * (q * v2) == v2 * qq;
  }

  lemma {:induction false} OverSquared(n: Vec, mu: real)
    requires mu > 0.0
    ensures Square(mu) * Dot(Over(n, mu), Over(n, mu)) == Dot(n, n)
  {
    hide Dot, Scale;
    var e := Over(n, mu);
    Quotient(n.x, mu);
    Quotient(n.y, mu);
    Quotient(n.z, mu);
    ScaleBack(e, n, mu);
    DotScale(mu, e, n);
    DotSymmetric(e, n);
    DotScale(mu, e, e);
  }

  lemma {:induction false} ScaleBack(e: Vec, n: Vec, mu: real)
    requires mu * e.x == n.x && mu * e.y == n.y && mu * e.z == n.z
    ensures Scale(mu, e) == n
  {
  }

  function Eccentricity(sqrt: real -> real, s: Motion, mu: real): real
    requires mu != 0.0 && Distance(sqrt, s.pos) != 0.0
  {
    var ecc := Over(Laplace(s.pos, s.vel, Dot(s.vel, s.vel) - mu / Distance(sqrt, s.pos)), mu);
    sqrt(Dot(ecc, ecc))
  }

  /** mu^2 e^2 = mu^2 + 2 E h^2 */
  lemma {:induction false} EccentricitySquared(sqrt: real -> real, s: Motion, mu: real)
    requires IsSqrt(sqrt) && mu > 0.0 && Distance(sqrt, s.pos) > 0.0
    ensures var e := Eccentricity(sqrt, s, mu);
            e >= 0.0 && Square(mu) * Square(e) == Square(mu) + 2.0 * (Energy(sqrt, s, mu) * Momentum2(s))
  {
    hide Dot, Over, Laplace, Distance, Momentum2;
    var r, v2, q := Distance(sqrt, s.pos), Dot(s.vel, s.vel), Dot(s.pos, s.vel);
    var m := mu / r;
    var n := Laplace(s.pos, s.vel, v2 - m);
    LengthOf(sqrt, Over(n, mu));
    OverSquared(n, mu);
    LaplaceSquared(s.pos, s.vel, v2 - m);
    DistanceIs(sqrt, s.pos);
    EccentricityScalar(r, v2, q, m);
    Quotient(mu, r);
    MomentumFormula(sqrt, s);
    TwiceEnergy(v2, m, Momentum2(s));
  }

  lemma {:induction false} TwiceEnergy(v2: real, m: real, h2: real)
    ensures (v2 - 2.0 * m) * h2 == 2.0 * ((v2 / 2.0 - m) * h2)
  {
  }

  /** A bound orbit has eccentricity at most one. */
  lemma {:induction false} BoundEccentricity(sqrt: real -> real, s: Motion, mu: real)
    requires IsSqrt(sqrt) && mu > 0.0 && Distance(sqrt, s.pos) > 0.0 && Energy(sqrt, s, mu) < 0.0
    ensures 0.0 <= Eccentricity(sqrt, s, mu) <= 1.0
  {
    hide Energy, Eccentricity, Momentum2, Square;
    var e := Eccentricity(sqrt, s, mu);
    EccentricitySquared(sqrt, s, mu);
    MomentumFormula(sqrt, s);
    SameSignProduct(-Energy(sqrt, s, mu), Momentum2(s));
    SquareSigned(mu);
    ScaleOrder(Square(mu), Square(e), 1.0);
    SquareOrder(e, 1.0);
    SquareOne();
  }

  lemma {:induction false} SquareOne()
    ensures Square(1.0) == 1.0
  {
  }

  // ---------------------------------------------------------------------------------------------
  // The radial equation

  lemma {:induction false} RadialScalar(r: real, v2: real, m: real, mu: real)
    requires r * m == mu
    ensures r * r * v2 == 2.0 * ((v2 / 2.0 - m) * (r * r)) + 2.0 * (mu * r)
  {
  }

  /** 2 E r^2 + 2 mu r - h^2 = (r.v)^2 */
  lemma {:induction false} RadialEquation(sqrt: real -> real, s: Motion, mu: real)
    requires IsSqrt(sqrt) && Distance(sqrt, s.pos) > 0.0
    ensures var r := Distance(sqrt, s.pos);
            2.0 * (Energy(sqrt, s, mu) * Square(r)) + 2.0 * (mu * r) - Momentum2(s) == Square(Dot(s.pos, s.vel))
  {
    hide Dot, Distance, Momentum2;
    var r := Distance(sqrt, s.pos);
    Quotient(mu, r);
    RadialScalar(r, Dot(s.vel, s.vel), mu / r, mu);
    MomentumFormula(sqrt, s);
  }

  /** h^2 = mu a (1 - e^2) */
  lemma {:induction false} LatusRectum(mu: real, a: real, energy: real, ee: real, h2: real)
    requires mu > 0.0 && 2.0 * (energy * a) == -mu && mu * mu * ee == mu * mu + 2.0 * (energy * h2)
    ensures h2 == mu * (a * (1.0 - ee))
  {
    assert a * (mu * mu * ee) == a * (mu * mu) + 2.0 * (energy * a) * h2;
    var gap := h2 - mu * (a * (1.0 - ee));
    assert mu * gap == 0.0;
    if gap > 0.0 { PositiveProduct(mu, gap); }
    if gap < 0.0 { PositiveProduct(mu, -gap); }
  }

  /** mu ((r - a)^2 - (a e)^2) = -a (r.v)^2 */
  lemma {:induction false} RadialShape(mu: real, a: real, energy: real, e: real, h2: real, r: real, qq: real)
    requires mu > 0.0 && 2.0 * (energy * a) == -mu && h2 == mu * (a * (1.0 - e * e))
    requires 2.0 * (energy * (r * r)) + 2.0 * (mu * r) - h2 == qq
    ensures mu * ((r - a) * (r - a) - (a * e) * (a * e)) == -(a * qq)
  {
    assert a * qq == 2.0 * (energy * a) * (r * r) + 2.0 * (mu * r) * a - h2 * a;
    assert h2 * a == mu * (a * a) - mu * ((a * e) * (a * e));
    assert (r - a) * (r - a) == r * r - 2.0 * (r * a) + a * a;
  }

  function SemiMajor(energy: real, mu: real): real
    requires energy != 0.0
  {
    -mu / (2.0 * energy)
  }

  lemma {:induction false} SemiMajorIs(energy: real, mu: real)
    requires energy < 0.0 && mu > 0.0
    ensures var a := SemiMajor(energy, mu); a > 0.0 && 2.0 * (energy * a) == -mu
  {
    Quotient(-mu, 2.0 * energy);
    var a := SemiMajor(energy, mu);
    if a <= 0.0 { SameSignProduct(energy, a); }
  }

  /** Where a motion of the orbit stands between the apsides: mu ((r - a)^2 - (a e)^2) = -a (r.v)^2. */
  lemma {:induction false} PlaceOnOrbit(sqrt: real -> real, s: Motion, t: Motion, mu: real)
    requires IsSqrt(sqrt) && mu > 0.0 && SameOrbit(sqrt, s, t, mu) && Energy(sqrt, s, mu) < 0.0
    ensures var a, e, r := SemiMajor(Energy(sqrt, s, mu), mu), Eccentricity(sqrt, s, mu), Distance(sqrt, t.pos);
            mu * (Square(r - a) - Square(a * e)) == -(a * Square(Dot(t.pos, t.vel)))
  {
    hide Energy, Eccentricity, Momentum2, Distance, Dot, SemiMajor;
    var energy, e, r := Energy(sqrt, s, mu), Eccentricity(sqrt, s, mu), Distance(sqrt, t.pos);
    var a := SemiMajor(energy, mu);
    SemiMajorIs(energy, mu);
    EccentricitySquared(sqrt, s, mu);
    LatusRectum(mu, a, energy, e * e, Momentum2(s));
    RadialEquation(sqrt, t, mu);
    RadialShape(mu, a, energy, e, Momentum2(s), r, Square(Dot(t.pos, t.vel)));
  }

  lemma {:induction false} WithinSquares(x: real, y: real)
    requires y >= 0.0 && Square(x) <= Square(y)
    ensures -y <= x <= y
  {
    var size := if x < 0.0 then -x else x;
    assert Square(size) == Square(x);
    SquareOrder(size, y);
  }

  lemma {:induction false} Excess(mu: real, x: real, a: real, qq: real)
    requires mu > 0.0 && a > 0.0 && qq >= 0.0 && mu * x == -(a * qq)
    ensures x <= 0.0 && (x == 0.0 <==> qq == 0.0)
  {
    SameSignProduct(a, qq);
    if x > 0.0 { PositiveProduct(mu, x); }
    ZeroProduct(mu, x);
    ZeroProduct(a, qq);
  }

  /** Every motion of a bound orbit stays between the apsides. */
  lemma {:induction false} WithinApsides(sqrt: real -> real, s: Motion, t: Motion, mu: real)
    requires IsSqrt(sqrt) && mu > 0.0 && SameOrbit(sqrt, s, t, mu) && Energy(sqrt, s, mu) < 0.0
    ensures var a, e := SemiMajor(Energy(sqrt, s, mu), mu), Eccentricity(sqrt, s, mu);
            a * (1.0 - e) <= Distance(sqrt, t.pos) <= a * (1.0 + e)
  {
    hide Energy, Eccentricity, Momentum2, Distance, Dot, SemiMajor;
    var a, e, r := SemiMajor(Energy(sqrt, s, mu), mu), Eccentricity(sqrt, s, mu), Distance(sqrt, t.pos);
    var q := Dot(t.pos, t.vel);
    PlaceOnOrbit(sqrt, s, t, mu);
    SemiMajorIs(Energy(sqrt, s, mu), mu);
    BoundEccentricity(sqrt, s, mu);
    SquareSigned(q);
    Excess(mu, Square(r - a) - Square(a * e), a, Square(q));
    SameSignProduct(a, e);
    WithinSquares(r - a, a * e);
  }

  /** A motion is at an apsis exactly when it moves neither in nor out. */
  lemma {:induction false} AtApsisIff(sqrt: real -> real, s: Motion, mu: real)
    requires IsSqrt(sqrt) && mu > 0.0 && Distance(sqrt, s.pos) > 0.0 && Energy(sqrt, s, mu) < 0.0
    ensures var a, e, r := SemiMajor(Energy(sqrt, s, mu), mu), Eccentricity(sqrt, s, mu), Distance(sqrt, s.pos);
            r == a * (1.0 - e) || r == a * (1.0 + e) <==> Dot(s.pos, s.vel) == 0.0
  {
    hide Energy, Eccentricity, Momentum2, Distance, Dot, SemiMajor;
    var a, e, r := SemiMajor(Energy(sqrt, s, mu), mu), Eccentricity(sqrt, s, mu), Distance(sqrt, s.pos);
    var q := Dot(s.pos, s.vel);
    PlaceOnOrbit(sqrt, s, s, mu);
    SemiMajorIs(Energy(sqrt, s, mu), mu);
    SquareSigned(q);
    SquareRoots(r - a, a * e);
    SquareZero();
    Excess(mu, Square(r - a) - Square(a * e), a, Square(q));
  }

  lemma {:induction false} ZeroProduct(k: real, x: real)
    requires k > 0.0
    ensures k * x == 0.0 <==> x == 0.0
  {
    if x > 0.0 { PositiveProduct(k, x); }
    if x < 0.0 { PositiveProduct(k, -x); }
  }

  lemma {:induction false} SquareRoots(x: real, y: real)
    ensures Square(x) - Square(y) == 0.0 <==> x == y || x == -y
  {
    assert Square(x) - Square(y) == (x - y) * (x + y);
    if x > y { ZeroProduct(x - y, x + y); }
    if x < y { ZeroProduct(y - x, x + y); }
  }

  // ---------------------------------------------------------------------------------------------
  // The apsides are reached

  /** A motion on the x axis at distance rho, with (r.v)^2 = w and momentum h^2. */
  function MotionAt(sqrt: real -> real, rho: real, w: real, h2: real): Motion
    requires rho != 0.0
  {
    Motion(Vec(rho, 0.0, 0.0), Vec(sqrt(w) / rho, sqrt(h2) / rho, 0.0))
  }

  lemma {:induction false} OnXAxis(rho: real, x: real, y: real)
    ensures var rel, vel := Vec(rho, 0.0, 0.0), Vec(x, y, 0.0);
            Dot(rel, rel) == rho * rho && Dot(vel, vel) == x * x + y * y && Cross(rel, vel) == Vec(0.0, 0.0, rho * y)
  {
  }

  lemma {:induction false} OnZAxis(z: real)
    ensures Dot(Vec(0.0, 0.0, z), Vec(0.0, 0.0, z)) == z * z
  {
  }

  /** v^2 / 2 - mu / rho = E, when (rho v)^2 = 2 E rho^2 + 2 mu rho */
  lemma {:induction false} EnergyScalar(rho: real, x: real, y: real, energy: real, mu: real, h2: real)
    requires rho > 0.0 && (rho * y) * (rho * y) == h2
    requires (rho * x) * (rho * x) == 2.0 * (energy * (rho * rho)) + 2.0 * (mu * rho) - h2
    ensures (x * x + y * y) / 2.0 - mu / rho == energy
  {
    var m, v2 := mu / rho, x * x + y * y;
    Quotient(mu, rho);
    assert rho * rho * v2 == 2.0 * (energy * (rho * rho)) + 2.0 * (mu * rho);
    assert mu * rho == rho * rho * m;
    assert rho * rho * (v2 - 2.0 * energy - 2.0 * m) == 0.0;
    PositiveArea(rho, rho, rho * rho);
    ZeroProduct(rho * rho, v2 - 2.0 * energy - 2.0 * m);
  }

  lemma {:induction false} RootIs(sqrt: real -> real, q: real, x: real)
    requires IsSqrt(sqrt) && x >= 0.0 && q == x * x
    ensures sqrt(q) == x
  {
    SquareSigned(x);
    SquareOrder(x, sqrt(q));
    SquareOrder(sqrt(q), x);
  }

  function PlaneEnergy(rho: real, x: real, y: real, mu: real): real
    requires rho != 0.0
  {
    (x * x + y * y) / 2.0 - mu / rho
  }

  lemma {:induction false} AxisMotion(sqrt: real -> real, rho: real, x: real, y: real, z: real, mu: real)
    requires IsSqrt(sqrt) && rho > 0.0 && z == rho * y
    ensures var t := Motion(Vec(rho, 0.0, 0.0), Vec(x, y, 0.0));
            && Distance(sqrt, t.pos) == rho && Energy(sqrt, t, mu) == PlaneEnergy(rho, x, y, mu)
            && Momentum2(t) == Square(z)
  {
    hide Dot, Cross;
    OnXAxis(rho, x, y);
    OnZAxis(z);
    RootIs(sqrt, rho * rho, rho);
  }

  lemma {:induction false} ScaledRoot(sqrt: real -> real, rho: real, w: real)
    requires IsSqrt(sqrt) && rho > 0.0 && w >= 0.0
    ensures var x := sqrt(w) / rho; Square(rho * x) == w
  {
    Quotient(sqrt(w), rho);
  }

  lemma {:induction false} AxisEnergy(sqrt: real -> real, rho: real, w: real, h2: real, energy: real, mu: real)
    requires IsSqrt(sqrt) && rho > 0.0 && h2 >= 0.0 && w >= 0.0
    requires w == 2.0 * (energy * Square(rho)) + 2.0 * (mu * rho) - h2
    ensures PlaneEnergy(rho, sqrt(w) / rho, sqrt(h2) / rho, mu) == energy
  {
    var x, y := sqrt(w) / rho, sqrt(h2) / rho;
    ScaledRoot(sqrt, rho, w);
    ScaledRoot(sqrt, rho, h2);
    EnergyScalar(rho, x, y, energy, mu, h2);
  }

  lemma {:induction false} MotionAtIs(sqrt: real -> real, rho: real, w: real, h2: real, energy: real, mu: real)
    requires IsSqrt(sqrt) && rho > 0.0 && h2 >= 0.0 && w >= 0.0
    requires w == 2.0 * (energy * Square(rho)) + 2.0 * (mu * rho) - h2
    ensures var t := MotionAt(sqrt, rho, w, h2);
            Distance(sqrt, t.pos) == rho && Energy(sqrt, t, mu) == energy && Momentum2(t) == h2
  {
    hide Distance, Energy, Momentum2, PlaneEnergy, Square;
    Quotient(sqrt(h2), rho);
    AxisMotion(sqrt, rho, sqrt(w) / rho, sqrt(h2) / rho, sqrt(h2), mu);
    Root(sqrt, h2);
    AxisEnergy(sqrt, rho, w, h2, energy, mu);
  }

  lemma {:induction false} Root(sqrt: real -> real, w: real)
    requires IsSqrt(sqrt) && w >= 0.0
    ensures Square(sqrt(w)) == w
  {
  }

  /** At distance a (1 - e) nothing is left of the radial speed. */
  lemma {:induction false} TurningScalar(mu: real, a: real, energy: real, e: real, rho: real)
    requires 2.0 * (energy * a) == -mu && rho == a * (1.0 - e)
    ensures 2.0 * (energy * (rho * rho)) + 2.0 * (mu * rho) - mu * (a * (1.0 - e * e)) == 0.0
  {
    var f := 1.0 - e;
    assert rho * rho == a * (a * (f * f));
    assert 2.0 * (energy * (rho * rho)) == 2.0 * (energy * a) * (a * (f * f));
    assert 2.0 * (energy * a) * (a * (f * f)) == -(mu * (a * (f * f)));
    assert f * f == 2.0 * f - (1.0 - e * e);
    assert mu * (a * (f * f)) == 2.0 * (mu * (a * f)) - mu * (a * (1.0 - e * e));
  }

  lemma {:induction false} FallingScalar(mu: real, a: real, energy: real, rho: real)
    requires energy < 0.0 && 2.0 * (energy * a) == -mu && 0.0 < rho <= 2.0 * a
    ensures 2.0 * (energy * (rho * rho)) + 2.0 * (mu * rho) >= 0.0
  {
    SameSignProduct(-energy, 2.0 * a - rho);
    var slope := -energy * (2.0 * a - rho);
    SameSignProduct(rho, slope);
    assert rho * slope == energy * (rho * rho) - 2.0 * (energy * a) * rho;
  }

  /** Some motion of the orbit reaches down to any positive level not below the periapsis. */
  lemma {:induction false} Reaches(sqrt: real -> real, s: Motion, mu: real, level: real) returns (t: Motion)
    requires IsSqrt(sqrt) && mu > 0.0 && Distance(sqrt, s.pos) > 0.0 && Energy(sqrt, s, mu) < 0.0 && level > 0.0
    requires SemiMajor(Energy(sqrt, s, mu), mu) * (1.0 - Eccentricity(sqrt, s, mu)) <= level
    ensures SameOrbit(sqrt, s, t, mu) && Distance(sqrt, t.pos) <= level
  {
    hide Energy, Eccentricity, Momentum2, Distance, Dot, SemiMajor;
    var energy, e, r := Energy(sqrt, s, mu), Eccentricity(sqrt, s, mu), Distance(sqrt, s.pos);
    var a := SemiMajor(energy, mu);
    var rho, h2 := a * (1.0 - e), Momentum2(s);
    SemiMajorIs(energy, mu);
    MomentumFormula(sqrt, s);
    BoundEccentricity(sqrt, s, mu);
    SameSignProduct(a, 1.0 - e);
    LatusRectumOf(sqrt, s, mu);
    if rho > 0.0 {
      TurningScalar(mu, a, energy, e, rho);
      MotionAtIs(sqrt, rho, 0.0, h2, energy, mu);
      t := MotionAt(sqrt, rho, 0.0, h2);
    } else {
      t := ReachesFalling(sqrt, s, mu, level);
    }
  }

  lemma {:induction false} LatusRectumOf(sqrt: real -> real, s: Motion, mu: real)
    requires IsSqrt(sqrt) && mu > 0.0 && Distance(sqrt, s.pos) > 0.0 && Energy(sqrt, s, mu) < 0.0
    ensures var a, e := SemiMajor(Energy(sqrt, s, mu), mu), Eccentricity(sqrt, s, mu);
            Momentum2(s) == mu * (a * (1.0 - e * e))
  {
    hide Energy, Eccentricity, Momentum2, Distance, SemiMajor;
    var energy, e := Energy(sqrt, s, mu), Eccentricity(sqrt, s, mu);
    SemiMajorIs(energy, mu);
    EccentricitySquared(sqrt, s, mu);
    LatusRectum(mu, SemiMajor(energy, mu), energy, e * e, Momentum2(s));
  }

  lemma {:induction false} StraightFall(sqrt: real -> real, s: Motion, mu: real)
    requires IsSqrt(sqrt) && mu > 0.0 && Distance(sqrt, s.pos) > 0.0 && Energy(sqrt, s, mu) < 0.0
    requires SemiMajor(Energy(sqrt, s, mu), mu) * (1.0 - Eccentricity(sqrt, s, mu)) == 0.0
    ensures Momentum2(s) == 0.0 && Distance(sqrt, s.pos) <= 2.0 * SemiMajor(Energy(sqrt, s, mu), mu)
  {
    hide Energy, Eccentricity, Momentum2, Distance, Dot, SemiMajor;
    var a, e := SemiMajor(Energy(sqrt, s, mu), mu), Eccentricity(sqrt, s, mu);
    SemiMajorIs(Energy(sqrt, s, mu), mu);
    ZeroProduct(a, 1.0 - e);
    LatusRectumOf(sqrt, s, mu);
    WithinApsides(sqrt, s, s, mu);
  }

  /** A straight fall passes every level below where it is. */
  lemma {:induction false} ReachesFalling(sqrt: real -> real, s: Motion, mu: real, level: real) returns (t: Motion)
    requires IsSqrt(sqrt) && mu > 0.0 && Distance(sqrt, s.pos) > 0.0 && Energy(sqrt, s, mu) < 0.0 && level > 0.0
    requires SemiMajor(Energy(sqrt, s, mu), mu) * (1.0 - Eccentricity(sqrt, s, mu)) == 0.0
    ensures SameOrbit(sqrt, s, t, mu) && Distance(sqrt, t.pos) <= level
  {
    hide Energy, Eccentricity, Momentum2, Distance, Dot, SemiMajor;
    var energy, e, r := Energy(sqrt, s, mu), Eccentricity(sqrt, s, mu), Distance(sqrt, s.pos);
    var a := SemiMajor(energy, mu);
    SemiMajorIs(energy, mu);
    StraightFall(sqrt, s, mu);
    var rho := if r < level then r else level;
    FallingScalar(mu, a, energy, rho);
    var w := 2.0 * (energy * (rho * rho)) + 2.0 * (mu * rho);
    MotionAtIs(sqrt, rho, w, 0.0, energy, mu);
    t := MotionAt(sqrt, rho, w, 0.0);
  }

  // ---------------------------------------------------------------------------------------------
  // What orbitalParams reports

  /** What orbitalParams works with: the position seen from the primary, the velocity exactly as passed. */
  function AsPassed(pos: Vec, vel: Vec, primary: Vec): Motion { Motion(Minus(pos, primary), vel) }

  ghost predicate Bound(sqrt: real -> real, s: Motion, mu: real) {
    Distance(sqrt, s.pos) >= 1.0 && Energy(sqrt, s, mu) < 0.0
  }

  lemma {:induction false} ReportedApsides(
    sqrt: real -> real, pos: Vec, vel: Vec, primary: Vec, mu: real, bodyRadius: real)
    requires mu > 0.0
    ensures var p, s := OrbitalParams(sqrt, pos, vel, primary, mu, bodyRadius), AsPassed(pos, vel, primary);
            && p.alt == Distance(sqrt, s.pos) - bodyRadius
            && (!Bound(sqrt, s, mu) ==> p.apo == 0.0 && p.peri == 0.0)
            && (Bound(sqrt, s, mu) ==>
                  var a, e := SemiMajor(Energy(sqrt, s, mu), mu), Eccentricity(sqrt, s, mu);
                  p.apo == a * (1.0 + e) - bodyRadius && p.peri == a * (1.0 - e) - bodyRadius)
  {
    hide Dot, Over, Laplace, Minus, Distance;
  }

  /** The reported apsides bracket the altitude, now and in every other motion of the same orbit. */
  lemma {:induction false} ApsidesBracket(
    sqrt: real -> real, pos: Vec, vel: Vec, primary: Vec, mu: real, bodyRadius: real, t: Motion)
    requires IsSqrt(sqrt) && mu > 0.0 && Bound(sqrt, AsPassed(pos, vel, primary), mu)
    ensures var p, s := OrbitalParams(sqrt, pos, vel, primary, mu, bodyRadius), AsPassed(pos, vel, primary);
            && p.peri <= p.alt <= p.apo
            && (SameOrbit(sqrt, s, t, mu) ==> p.peri <= Distance(sqrt, t.pos) - bodyRadius <= p.apo)
  {
    hide Energy, Eccentricity, Momentum2, Distance, SemiMajor, OrbitalParams, AsPassed;
    var s := AsPassed(pos, vel, primary);
    ReportedApsides(sqrt, pos, vel, primary, mu, bodyRadius);
    WithinApsides(sqrt, s, s, mu);
    if SameOrbit(sqrt, s, t, mu) { WithinApsides(sqrt, s, t, mu); }
  }

  /** Periapsis above a level means: bound, and the whole orbit lies above that level. */
  lemma {:induction false} PeriapsisAboveIff(
    sqrt: real -> real, pos: Vec, vel: Vec, primary: Vec, mu: real, bodyRadius: real, level: real)
    requires IsSqrt(sqrt) && mu > 0.0 && level >= 0.0 && bodyRadius > 0.0
    ensures var p, s := OrbitalParams(sqrt, pos, vel, primary, mu, bodyRadius), AsPassed(pos, vel, primary);
            p.peri > level <==>
            Bound(sqrt, s, mu) && forall t :: SameOrbit(sqrt, s, t, mu) ==> Distance(sqrt, t.pos) > bodyRadius + level
  {
    hide Energy, Eccentricity, Momentum2, Distance, SemiMajor, OrbitalParams, AsPassed, SameOrbit;
    var p, s := OrbitalParams(sqrt, pos, vel, primary, mu, bodyRadius), AsPassed(pos, vel, primary);
    ReportedApsides(sqrt, pos, vel, primary, mu, bodyRadius);
    if Bound(sqrt, s, mu) {
      if p.peri > level {
        forall t | SameOrbit(sqrt, s, t, mu) ensures Distance(sqrt, t.pos) > bodyRadius + level {
          ApsidesBracket(sqrt, pos, vel, primary, mu, bodyRadius, t);
        }
      } else {
        var t := Reaches(sqrt, s, mu, bodyRadius + level);
        assert SameOrbit(sqrt, s, t, mu);
      }
    }
  }

  // ---------------------------------------------------------------------------------------------
  // The target velocity

  lemma {:induction false} SemiMajorAtRadius(r: real, v2: real, m: real, mu: real, a: real)
    requires m > 0.0 && r * m == mu && 2.0 * ((v2 / 2.0 - m) * a) == -mu && a > 0.0
    ensures a == r <==> v2 == m
  {
    assert (v2 - m) * a == m * (a - r);
    ZeroProduct(a, v2 - m);
    ZeroProduct(m, a - r);
  }

  lemma {:induction false} SameRoot(sqrt: real -> real, x: real, y: real)
    requires IsSqrt(sqrt) && x >= 0.0 && y >= 0.0
    ensures sqrt(x) == sqrt(y) <==> x == y
  {
  }

  lemma {:induction false} SpreadIs(a: real, e: real, bodyRadius: real)
    requires a > 0.0
    ensures a * (1.0 + e) - bodyRadius == a * (1.0 - e) - bodyRadius <==> e == 0.0
  {
    ZeroProduct(a, e);
  }

  lemma {:induction false} ReportedSpeeds(
    sqrt: real -> real, pos: Vec, vel: Vec, primary: Vec, mu: real, bodyRadius: real)
    requires mu > 0.0 && Distance(sqrt, Minus(pos, primary)) > 1.0
    ensures var p := OrbitalParams(sqrt, pos, vel, primary, mu, bodyRadius);
            p.speed == sqrt(Dot(vel, vel)) && p.targetV == sqrt(mu / Distance(sqrt, Minus(pos, primary)))
  {
    hide Dot, Over, Laplace, Minus, Distance;
  }

  lemma {:induction false} SemiMajorIsRadius(sqrt: real -> real, s: Motion, mu: real)
    requires mu > 0.0 && Distance(sqrt, s.pos) > 0.0 && Energy(sqrt, s, mu) < 0.0
    ensures SemiMajor(Energy(sqrt, s, mu), mu) == Distance(sqrt, s.pos)
            <==> Dot(s.vel, s.vel) == mu / Distance(sqrt, s.pos)
  {
    hide Distance, SemiMajor, Dot;
    var r := Distance(sqrt, s.pos);
    Quotient(mu, r);
    PositiveQuotient(mu, r);
    SemiMajorIs(Energy(sqrt, s, mu), mu);
    SemiMajorAtRadius(r, Dot(s.vel, s.vel), mu / r, mu, SemiMajor(Energy(sqrt, s, mu), mu));
  }

  /** The orbit is a circle exactly when the rocket flies at the target velocity across the radius. */
  lemma {:induction false} CircularIff(sqrt: real -> real, pos: Vec, vel: Vec, primary: Vec, mu: real, bodyRadius: real)
    requires IsSqrt(sqrt) && mu > 0.0
    requires var s := AsPassed(pos, vel, primary); Distance(sqrt, s.pos) > 1.0 && Energy(sqrt, s, mu) < 0.0
    ensures var p := OrbitalParams(sqrt, pos, vel, primary, mu, bodyRadius);
            p.apo == p.peri <==> p.speed == p.targetV && Dot(Minus(pos, primary), vel) == 0.0
  {
    hide Energy, Eccentricity, Momentum2, Distance, SemiMajor, OrbitalParams, Dot, Minus;
    var s := AsPassed(pos, vel, primary);
    var a, e, r := SemiMajor(Energy(sqrt, s, mu), mu), Eccentricity(sqrt, s, mu), Distance(sqrt, s.pos);
    ReportedApsides(sqrt, pos, vel, primary, mu, bodyRadius);
    ReportedSpeeds(sqrt, pos, vel, primary, mu, bodyRadius);
    SemiMajorIs(Energy(sqrt, s, mu), mu);
    SpreadIs(a, e, bodyRadius);
    AtApsisIff(sqrt, s, mu);
    WithinApsides(sqrt, s, s, mu);
    SemiMajorIsRadius(sqrt, s, mu);
    DotSelfSigned(vel);
    PositiveQuotient(mu, r);
    SameRoot(sqrt, Dot(vel, vel), mu / r);
    ZeroProduct(a, e);
  }

  // ---------------------------------------------------------------------------------------------
  // The stable-orbit flag

  function Stable(p: Params, isEarth: bool): bool {
    if isEarth then p.peri > ATMOSPHERE && p.alt > ATMOSPHERE else p.peri > 0.0
  }

  /** Bound to the Earth, with all of the orbit above the atmosphere. */
  ghost predicate SafeOrbit(sqrt: real -> real, s: Motion) {
    && Bound(sqrt, s, MU_EARTH)
    && forall t :: SameOrbit(sqrt, s, t, MU_EARTH) ==> Distance(sqrt, t.pos) > PLANET_RADIUS + ATMOSPHERE
  }

  /** The test updateOrbitalParams makes near the Earth, with the rocket's velocity relative to the Sun. */
  function EarthFlag(sqrt: real -> real, m: Motion, earthPos: Vec): bool {
    Stable(OrbitalParams(sqrt, m.pos, m.vel, earthPos, MU_EARTH, PLANET_RADIUS), true)
  }

  /** The flag is exact for the motion it is computed from; the altitude test adds nothing. */
  lemma {:induction false} StableAtEarthIff(sqrt: real -> real, m: Motion, earthPos: Vec)
    requires IsSqrt(sqrt)
    ensures EarthFlag(sqrt, m, earthPos) <==> SafeOrbit(sqrt, AsPassed(m.pos, m.vel, earthPos))
  {
    hide Energy, Momentum2, Distance, OrbitalParams, AsPassed, SameOrbit;
    var s := AsPassed(m.pos, m.vel, earthPos);
    PeriapsisAboveIff(sqrt, m.pos, m.vel, earthPos, MU_EARTH, PLANET_RADIUS, ATMOSPHERE);
    if Bound(sqrt, s, MU_EARTH) {
      ApsidesBracket(sqrt, m.pos, m.vel, earthPos, MU_EARTH, PLANET_RADIUS, s);
    }
    ReportedApsides(sqrt, m.pos, m.vel, earthPos, MU_EARTH, PLANET_RADIUS);
  }

  /** At the Sun: a bound orbit all of which lies above the surface, and every such orbit. */
  lemma {:induction false} StableAtSunIff(sqrt: real -> real, pos: Vec, vel: Vec, sun: Vec)
    requires IsSqrt(sqrt)
    ensures var s := AsPassed(pos, vel, sun);
            Stable(OrbitalParams(sqrt, pos, vel, sun, MU_SUN, SUN_RADIUS), false) <==>
            Bound(sqrt, s, MU_SUN) && forall t :: SameOrbit(sqrt, s, t, MU_SUN) ==> Distance(sqrt, t.pos) > SUN_RADIUS
  {
    hide Energy, Momentum2, Distance, OrbitalParams, AsPassed, SameOrbit;
    PeriapsisAboveIff(sqrt, pos, vel, sun, MU_SUN, SUN_RADIUS, 0.0);
  }

  // ---------------------------------------------------------------------------------------------
  // The flag against the motion as seen from the Earth, which itself moves

  function SeenFrom(m: Motion, primary: Motion): Motion {
    Motion(Minus(m.pos, primary.pos), Minus(m.vel, primary.vel))
  }

  /** 200 from the centre, moving across the radius. */
  ghost predicate Across(s: Motion, w: real) {
    Dot(s.pos, s.pos) == 40000.0 && Dot(s.pos, s.vel) == 0.0 && Dot(s.vel, s.vel) == Square(w)
  }

  lemma {:induction false} AcrossEnergy(sqrt: real -> real, s: Motion, w: real)
    requires IsSqrt(sqrt) && Across(s, w)
    ensures Distance(sqrt, s.pos) == 200.0 && Energy(sqrt, s, MU_EARTH) == Square(w) / 2.0 - 500.0
  {
    hide Dot, Square;
    RootIs(sqrt, Dot(s.pos, s.pos), 200.0);
  }

  /** 2 a - 200 > 100 once the orbit is large enough. */
  lemma {:induction false} LargeOrbit(a: real, ww: real)
    requires a > 0.0 && 360.0 <= ww < 1000.0 && 2.0 * ((ww / 2.0 - 500.0) * a) == -MU_EARTH
    ensures a > 150.0
  {
    assert (1000.0 - ww) * a == 100000.0;
    SameSignProduct(ww - 360.0, a);
  }

  lemma {:induction false} OtherApsis(a: real, e: real, near: real)
    requires a > 150.0 && near == a * (1.0 - e) && (near == 200.0 || a * (1.0 + e) == 200.0)
    ensures near > 100.0
  {
    assert near == 2.0 * a - a * (1.0 + e);
  }

  lemma {:induction false} AcrossPeriapsis(sqrt: real -> real, s: Motion, w: real) returns (near: real)
    requires IsSqrt(sqrt) && Across(s, w) && 360.0 <= Square(w) < 1000.0
    ensures Distance(sqrt, s.pos) == 200.0 && Energy(sqrt, s, MU_EARTH) < 0.0 && near > 100.0
    ensures near == SemiMajor(Energy(sqrt, s, MU_EARTH), MU_EARTH) * (1.0 - Eccentricity(sqrt, s, MU_EARTH))
  {
    hide Energy, Eccentricity, Momentum2, Distance, SemiMajor, Square, Dot;
    AcrossEnergy(sqrt, s, w);
    var energy, e := Energy(sqrt, s, MU_EARTH), Eccentricity(sqrt, s, MU_EARTH);
    var a := SemiMajor(energy, MU_EARTH);
    near := a * (1.0 - e);
    SemiMajorIs(energy, MU_EARTH);
    LargeOrbit(a, Square(w));
    AtApsisIff(sqrt, s, MU_EARTH);
    OtherApsis(a, e, near);
  }

  lemma {:induction false} AcrossIsSafe(sqrt: real -> real, s: Motion, w: real)
    requires IsSqrt(sqrt) && Across(s, w) && 360.0 <= Square(w) < 1000.0
    ensures SafeOrbit(sqrt, s)
  {
    hide Energy, Eccentricity, Momentum2, Distance, SemiMajor, SameOrbit, Square, Across;
    var near := AcrossPeriapsis(sqrt, s, w);
    forall t | SameOrbit(sqrt, s, t, MU_EARTH) ensures Distance(sqrt, t.pos) > PLANET_RADIUS + ATMOSPHERE {
      OrbitAbove(sqrt, s, t, near);
    }
  }

  lemma {:induction false} OrbitAbove(sqrt: real -> real, s: Motion, t: Motion, near: real)
    requires IsSqrt(sqrt) && SameOrbit(sqrt, s, t, MU_EARTH) && Energy(sqrt, s, MU_EARTH) < 0.0
    requires near == SemiMajor(Energy(sqrt, s, MU_EARTH), MU_EARTH) * (1.0 - Eccentricity(sqrt, s, MU_EARTH))
    ensures near <= Distance(sqrt, t.pos)
  {
    hide Energy, Eccentricity, Momentum2, Distance, SemiMajor;
    WithinApsides(sqrt, s, t, MU_EARTH);
  }

  lemma {:induction false} AcrossEscapes(sqrt: real -> real, s: Motion, w: real)
    requires IsSqrt(sqrt) && Across(s, w) && Square(w) >= 1000.0
    ensures !SafeOrbit(sqrt, s)
  {
    hide Energy, Momentum2, Distance, SameOrbit, Square;
    AcrossEnergy(sqrt, s, w);
  }

  /** A vector of length 200 across `v`. */
  lemma {:induction false} Sideways(sqrt: real -> real, v: Vec) returns (rel: Vec)
    requires IsSqrt(sqrt)
    ensures Dot(rel, rel) == 40000.0 && Dot(rel, v) == 0.0
  {
    hide Square;
    var p := if v.x == 0.0 && v.y == 0.0 then Vec(1.0, 0.0, 0.0) else Vec(-v.y, v.x, 0.0);
    FlatDot(p.x, p.y, v);
    DotSelfSigned(p);
    rel := ToLength(sqrt, p, 200.0);
    ToLengthDot(sqrt, p, 200.0, v);
    TwoHundred();
  }

  lemma {:induction false} TwoHundred()
    ensures Square(200.0) == 40000.0
  {
  }

  lemma {:induction false} FlatDot(x: real, y: real, v: Vec)
    requires (x == -v.y && y == v.x) || (v.x == 0.0 && v.y == 0.0)
    ensures Dot(Vec(x, y, 0.0), v) == 0.0
  {
  }

  /** `v` stretched to length |w|. */
  function ToLength(sqrt: real -> real, v: Vec, w: real): Vec {
    if sqrt(Dot(v, v)) == 0.0 then ZERO else Scale(w / sqrt(Dot(v, v)), v)
  }

  lemma {:induction false} ScaledSquare(k: real, v: Vec, d: real)
    requires Dot(v, v) == d * d
    ensures Dot(Scale(k, v), Scale(k, v)) == Square(k * d)
  {
    hide Dot, Scale;
    var u := Scale(k, v);
    DotScale(k, v, u);
    DotSymmetric(v, u);
    DotScale(k, v, v);
    assert Square(k * d) == k * (k * (d * d));
  }

  lemma {:induction false} ToLengthDot(sqrt: real -> real, v: Vec, w: real, u: Vec)
    requires IsSqrt(sqrt) && Dot(v, v) > 0.0
    ensures var s := ToLength(sqrt, v, w);
            Dot(s, s) == Square(w) && (Dot(v, u) == 0.0 ==> Dot(s, u) == 0.0)
  {
    hide Dot, Scale;
    LengthOf(sqrt, v);
    var d := sqrt(Dot(v, v));
    assert d != 0.0;
    Quotient(w, d);
    ScaledSquare(w / d, v, d);
    SameSquare(w / d * d, w);
    DotScale(w / d, v, u);
  }

  lemma {:induction false} SameSquare(x: real, y: real)
    requires x == y
    ensures Square(x) == Square(y)
  {
  }

  lemma {:induction false} LessLength(sqrt: real -> real, v: Vec, w: real)
    requires IsSqrt(sqrt) && Dot(v, v) > 0.0
    ensures Minus(ToLength(sqrt, v, w), v) == ToLength(sqrt, v, w - sqrt(Dot(v, v)))
  {
    hide Dot;
    LengthOf(sqrt, v);
    var d := sqrt(Dot(v, v));
    assert d != 0.0;
    LessShare(w, d, v.x);
    LessShare(w, d, v.y);
    LessShare(w, d, v.z);
  }

  lemma {:induction false} LessShare(w: real, d: real, x: real)
    requires d > 0.0
    ensures w / d * x - x == (w - d) / d * x
  {
    var p, q := w / d, (w - d) / d;
    Quotient(w, d);
    Quotient(w - d, d);
    assert d * (p - q - 1.0) == 0.0;
    ZeroProduct(d, p - q - 1.0);
    assert p * x - x == (p - 1.0) * x;
  }

  /** Speeds that differ by `d`, the faster one escaping and the slower one in a safe orbit. */
  lemma {:induction false} EscapeSpeed(sqrt: real -> real, d: real) returns (w: real)
    requires IsSqrt(sqrt) && d > 0.0
    ensures Square(w) >= 1000.0 && 360.0 <= Square(w - d) < 1000.0
  {
    if d >= 12.0 {
      w := 20.0 + d;
      SquareOrder(32.0, w);
      assert w - d == 20.0;
    } else {
      w := sqrt(1000.0);
      SquareOrder(31.0, w);
      SquareOrder(19.0, w - d);
      SquareOrder(w - d, w);
    }
  }

  /** Whenever the Earth moves, some rocket in a safe orbit about it is not flagged. */
  lemma {:induction false} UnflaggedOrbit(sqrt: real -> real, earth: Motion) returns (m: Motion)
    requires IsSqrt(sqrt) && earth.vel != ZERO
    ensures !EarthFlag(sqrt, m, earth.pos) && SafeOrbit(sqrt, SeenFrom(m, earth))
  {
    hide Dot, Minus, Plus, Square, EarthFlag, SafeOrbit, ToLength;
    var ev := earth.vel;
    DotSelfSigned(ev);
    LengthOf(sqrt, ev);
    var d := sqrt(Dot(ev, ev));
    SquareZero();
    var w := EscapeSpeed(sqrt, d);
    var rel := Sideways(sqrt, ev);
    var vel := ToLength(sqrt, ev, w);
    m := Motion(Plus(earth.pos, rel), vel);
    OffsetFrom(earth.pos, rel);
    DotSymmetric(rel, ev);
    ToLengthDot(sqrt, ev, w, rel);
    DotSymmetric(vel, rel);
    AcrossEscapes(sqrt, Motion(rel, vel), w);
    StableAtEarthIff(sqrt, m, earth.pos);
    LessLength(sqrt, ev, w);
    var slow := ToLength(sqrt, ev, w - d);
    ToLengthDot(sqrt, ev, w - d, rel);
    DotSymmetric(slow, rel);
    AcrossIsSafe(sqrt, Motion(rel, slow), w - d);
  }

  lemma {:induction false} MinusZero(v: Vec)
    ensures Minus(v, ZERO) == v
  {
  }

  /** The flag tells the orbits about the Earth from the rest exactly when the Earth stands still. */
  lemma {:induction false} FlagTellsOrbitIff(sqrt: real -> real, earth: Motion)
    requires IsSqrt(sqrt)
    ensures (forall m: Motion :: EarthFlag(sqrt, m, earth.pos) <==> SafeOrbit(sqrt, SeenFrom(m, earth)))
            <==> earth.vel == ZERO
  {
    hide EarthFlag, SafeOrbit, Minus;
    if earth.vel == ZERO {
      forall m: Motion ensures EarthFlag(sqrt, m, earth.pos) <==> SafeOrbit(sqrt, SeenFrom(m, earth)) {
        StableAtEarthIff(sqrt, m, earth.pos);
        MinusZero(m.vel);
      }
    } else {
      var m := UnflaggedOrbit(sqrt, earth);
      assert EarthFlag(sqrt, m, earth.pos) != SafeOrbit(sqrt, SeenFrom(m, earth));
    }
  }

  // ---------------------------------------------------------------------------------------------
  // A rocket that hangs motionless over the Earth

  const HOVER := Vec(200.0, 0.0, 0.0)
  const EARTH_VEL := Vec(0.0, 0.0, 20.0)

  lemma {:induction false} HoverDots(x: real, z: real, w: real)
    requires x * x == 40000.0 && z == w
    ensures Across(Motion(Vec(x, 0.0, 0.0), Vec(0.0, 0.0, z)), w)
  {
  }

  lemma {:induction false} HoverNumbers()
    ensures Across(Motion(HOVER, EARTH_VEL), 20.0) && Across(Motion(HOVER, ZERO), 0.0) && Square(20.0) == 400.0
  {
    hide Across;
    HoverDots(200.0, 20.0, 20.0);
    HoverDots(200.0, 0.0, 0.0);
  }

  /** From rest the orbit is a straight fall through the centre. */
  lemma {:induction false} AtRestFalls(sqrt: real -> real, s: Motion)
    requires IsSqrt(sqrt) && Across(s, 0.0)
    ensures Bound(sqrt, s, MU_EARTH)
    ensures SemiMajor(Energy(sqrt, s, MU_EARTH), MU_EARTH) * (1.0 - Eccentricity(sqrt, s, MU_EARTH)) == 0.0
  {
    hide Energy, Eccentricity, Momentum2, Distance, SemiMajor, Dot, Square;
    AcrossEnergy(sqrt, s, 0.0);
    SquareZero();
    var energy, e := Energy(sqrt, s, MU_EARTH), Eccentricity(sqrt, s, MU_EARTH);
    var a := SemiMajor(energy, MU_EARTH);
    SemiMajorIs(energy, MU_EARTH);
    AtApsisIff(sqrt, s, MU_EARTH);
    BoundEccentricity(sqrt, s, MU_EARTH);
    assert a == 100.0;
  }

  /** With the Earth's first velocity it is flagged, though it falls: its own periapsis is the Earth's centre. */
  lemma {:induction false} HoveringIsFlagged(sqrt: real -> real, earthPos: Vec)
    requires IsSqrt(sqrt)
    ensures var m, earth := Motion(Plus(earthPos, HOVER), EARTH_VEL), Motion(earthPos, EARTH_VEL);
            && EarthFlag(sqrt, m, earthPos) && !SafeOrbit(sqrt, SeenFrom(m, earth)) && SeenFrom(m, earth).vel == ZERO
            && OrbitalParams(sqrt, m.pos, ZERO, earthPos, MU_EARTH, PLANET_RADIUS).peri == -PLANET_RADIUS
  {
    hide Dot, Minus, Plus, Square, EarthFlag, OrbitalParams, SameOrbit, Energy, Distance, SemiMajor, Eccentricity,
         Momentum2;
    var m, earth := Motion(Plus(earthPos, HOVER), EARTH_VEL), Motion(earthPos, EARTH_VEL);
    OffsetFrom(earthPos, HOVER);
    HoverNumbers();
    AcrossIsSafe(sqrt, Motion(HOVER, EARTH_VEL), 20.0);
    StableAtEarthIff(sqrt, m, earthPos);
    MinusSelf(EARTH_VEL);
    var rest := Motion(HOVER, ZERO);
    AtRestFalls(sqrt, rest);
    AcrossEnergy(sqrt, rest, 0.0);
    var t := Reaches(sqrt, rest, MU_EARTH, PLANET_RADIUS);
    assert SameOrbit(sqrt, rest, t, MU_EARTH);
    FallPeriapsis(sqrt, m.pos, earthPos);
  }

  lemma {:induction false} FallPeriapsis(sqrt: real -> real, pos: Vec, earthPos: Vec)
    requires IsSqrt(sqrt) && Across(AsPassed(pos, ZERO, earthPos), 0.0)
    ensures OrbitalParams(sqrt, pos, ZERO, earthPos, MU_EARTH, PLANET_RADIUS).peri == -PLANET_RADIUS
  {
    hide Energy, Eccentricity, SemiMajor, OrbitalParams, AsPassed, Distance, Across;
    AtRestFalls(sqrt, AsPassed(pos, ZERO, earthPos));
    ReportedApsides(sqrt, pos, ZERO, earthPos, MU_EARTH, PLANET_RADIUS);
  }
}
