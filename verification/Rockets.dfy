/**
 One tick of a piloted rocket (rockets_tick.go). Steering only turns the hull, so its outcome `up` is a
 parameter; exp, the terrain and the square root come with the environment.
 */
module Rockets {
  import opened Geometry
  import opened StarSystems
  import opened Bodies
  import Orbit
  import Fuel

  const MAX_GRAVITY := 500.0
  const MAX_SPEED := 100.0
  const DRAG_COEF := 0.02
  const SCALE_HEIGHT := 12.0
  const CLEARANCE := 1.5
  const SUN_CLAMP := SUN_RADIUS + CLEARANCE

  /** `nowhere` stands for the quotient by zero of a rocket at the very centre of the Earth. */
  datatype Env = Env(sqrt: real -> real, exp: real -> real, surface: Vec -> real, nowhere: Vec, sun: Vec)

  // ---------------------------------------------------------------------------------------------
  // The stages

  function Capped(g: real): real { if g > MAX_GRAVITY then MAX_GRAVITY else g }

  function SunGravity(toSun: Vec, distSun: real): Vec {
    if distSun > 1.0 then Pull(toSun, distSun, Strength(MU_SUN, distSun)) else ZERO
  }

  function GravityAccel(rel: Vec, distEarth: real, distSun: real, isEarth: bool, toSun: Vec): Vec {
    Plus(SunGravity(toSun, distSun),
         if isEarth && distEarth > 1.0 then Pull(rel, distEarth, Capped(Strength(MU_EARTH, distEarth))) else ZERO)
  }

  function ThrustAccel(e: Fuel.Engine, up: Vec): Vec {
    if Fuel.Firing(e) then Scale(Fuel.THRUST_ACCEL * e.thrust, up) else ZERO
  }

  predicate DragIdle(vel: Vec, ev: Vec, distEarth: real) {
    distEarth - PLANET_RADIUS <= 0.0 || distEarth - PLANET_RADIUS >= ATMOSPHERE || DistanceSquared(vel, ev) <= 0.01
  }

  /** Share of its speed a rocket loses to the air this tick. */
  function DragShare(env: Env, speedSq: real, alt: real, dt: real): real
    requires IsSqrt(env.sqrt) && speedSq > 0.01
  {
    var speed := env.sqrt(speedSq);
    var dv := SpeedLoss(DRAG_COEF * Density(env, alt), speedSq, speed, dt);
    (if dv > speed then speed else dv) / speed
  }

  function Density(env: Env, alt: real): real { env.exp(-alt / SCALE_HEIGHT) }

  function SpeedLoss(c: real, speedSq: real, speed: real, dt: real): real
    requires speed != 0.0
  {
    c * speedSq / speed * dt
  }

  function Dragged(env: Env, vel: Vec, ev: Vec, distEarth: real, dt: real): Vec
    requires IsSqrt(env.sqrt)
  {
    if DragIdle(vel, ev, distEarth) then vel
    else
      var rel := Minus(vel, ev);
      Plus(ev, Minus(rel, Scale(DragShare(env, DistanceSquared(vel, ev), distEarth - PLANET_RADIUS, dt), rel)))
  }

  predicate LimitIdle(vel: Vec, ev: Vec) { DistanceSquared(vel, ev) <= MAX_SPEED * MAX_SPEED }

  function Limited(env: Env, vel: Vec, ev: Vec): Vec
    requires IsSqrt(env.sqrt)
  {
    if LimitIdle(vel, ev) then vel
    else Plus(ev, Scale(MAX_SPEED / env.sqrt(DistanceSquared(vel, ev)), Minus(vel, ev)))
  }

  function Ratio(x: real, y: real): real
    requires y != 0.0
  {
    x / y
  }

  predicate EarthIdle(env: Env, m: Motion, earth: Motion) {
    var rel := Minus(m.pos, earth.pos);
    var dist, surf := Distance(env.sqrt, rel), env.surface(rel);
    dist >= surf + CLEARANCE || (Dot(rel, Minus(m.vel, earth.vel)) >= 0.0 && dist >= surf)
  }

  /** Back on the surface, moving with the Earth. */
  function CollidedWithEarth(env: Env, m: Motion, earth: Motion): Motion {
    if EarthIdle(env, m, earth) then m
    else
      var rel := Minus(m.pos, earth.pos);
      var dist := Distance(env.sqrt, rel);
      Motion(if dist == 0.0 then env.nowhere
             else Plus(earth.pos, Scale(Ratio(env.surface(rel) + CLEARANCE, dist), rel)), earth.vel)
  }

  predicate SunIdle(env: Env, m: Motion) {
    var rel := Minus(m.pos, env.sun);
    || Dot(rel, rel) >= SUN_CLAMP * SUN_CLAMP
    || (Dot(m.vel, rel) >= 0.0 && AtLeast(env.sqrt(Dot(rel, rel)), 0.01) >= SUN_RADIUS)
  }

  function AtLeast(x: real, low: real): real { if x < low then low else x }

  /** Onto the Sun's surface, at rest. */
  function CollidedWithSun(env: Env, m: Motion): Motion {
    if SunIdle(env, m) then m
    else
      var rel := Minus(m.pos, env.sun);
      Motion(Plus(env.sun, Scale(Ratio(SUN_CLAMP, AtLeast(Distance(env.sqrt, rel), 0.01)), rel)), ZERO)
  }

  function InSOI(env: Env, m: Motion, earth: Motion): bool {
    Distance(env.sqrt, Minus(m.pos, earth.pos)) < SOI_EARTH
  }

  function Gravity(env: Env, m: Motion, earth: Motion): Vec {
    var rel, toSun := Minus(m.pos, earth.pos), Minus(m.pos, env.sun);
    GravityAccel(rel, Distance(env.sqrt, rel), Distance(env.sqrt, toSun), InSOI(env, m, earth), toSun)
  }

  /** New velocity, before the rocket moves. */
  function Accelerated(env: Env, m: Motion, thrust: Vec, earth: Motion, dt: real): Vec
    requires IsSqrt(env.sqrt)
  {
    var vel := Plus(m.vel, Scale(dt, Plus(Gravity(env, m, earth), thrust)));
    if InSOI(env, m, earth)
    then Limited(env, Dragged(env, vel, earth.vel, Distance(env.sqrt, Minus(m.pos, earth.pos)), dt), earth.vel)
    else vel
  }

  function Drifted(m: Motion, vel: Vec, dt: real): Motion { Motion(Plus(m.pos, Scale(dt, vel)), vel) }

  /** Everything up to the collision with the Sun. */
  function Flown(env: Env, m: Motion, thrust: Vec, earth: Motion, dt: real): Motion
    requires IsSqrt(env.sqrt)
  {
    var moved := Drifted(m, Accelerated(env, m, thrust, earth, dt), dt);
    if InSOI(env, m, earth) then CollidedWithEarth(env, moved, earth) else moved
  }

  // ---------------------------------------------------------------------------------------------
  // The tick

  datatype Craft = Craft(motion: Motion, up: Vec, engine: Fuel.Engine, params: Orbit.Params, inOrbit: bool,
                         atEarth: bool, localPos: Vec, distSun: real)

  function ParamsFor(env: Env, m: Motion, earth: Motion, isEarth: bool): Orbit.Params {
    if isEarth then Orbit.OrbitalParams(env.sqrt, m.pos, m.vel, earth.pos, MU_EARTH, PLANET_RADIUS)
    else Orbit.OrbitalParams(env.sqrt, m.pos, m.vel, env.sun, MU_SUN, SUN_RADIUS)
  }

  function Piloted(env: Env, c: Craft, up: Vec, earth: Motion, dt: real): Craft
    requires IsSqrt(env.sqrt)
  {
    var isEarth := InSOI(env, c.motion, earth);
    var flown := Flown(env, c.motion, ThrustAccel(c.engine, up), earth, dt);
    var landed := CollidedWithSun(env, flown);
    var params := ParamsFor(env, landed, earth, isEarth);
    Craft(landed, up, Fuel.Consumed(c.engine, dt), params, Orbit.Stable(params, isEarth),
          isEarth && SunIdle(env, flown), Minus(flown.pos, if isEarth then earth.pos else env.sun),
          Distance(env.sqrt, Minus(c.motion.pos, env.sun)))
  }

  // ---------------------------------------------------------------------------------------------
  // The forces

  lemma {:induction false} SunGravityLaw(sqrt: real -> real, toSun: Vec)
    requires IsSqrt(sqrt)
    ensures var g, dist := SunGravity(toSun, Distance(sqrt, toSun)), Distance(sqrt, toSun);
            if dist > 1.0 then Attracts(g, toSun, dist, MU_SUN) else g == ZERO
  {
    hide Pull, Strength, Attracts, Distance;
    if Distance(sqrt, toSun) > 1.0 { PullAttracts(sqrt, toSun, MU_SUN); }
  }

  /**
   The rocket is attracted by the Sun, and between 1 and 400 from the Earth also by the Earth, with a
   strength of mu / d^2 but at most 500.
   */
  lemma {:induction false} GravityLaw(env: Env, m: Motion, earth: Motion) returns (sun: Vec, home: Vec, g: real)
    requires IsSqrt(env.sqrt)
    ensures Gravity(env, m, earth) == Plus(sun, home)
    ensures var toSun := Minus(m.pos, env.sun);
            var dist := Distance(env.sqrt, toSun);
            if dist > 1.0 then Attracts(sun, toSun, dist, MU_SUN) else sun == ZERO
    ensures var rel := Minus(m.pos, earth.pos);
            var dist := Distance(env.sqrt, rel);
            if 1.0 < dist < 400.0
            then && Dot(home, rel) == -(g * dist) && Cross(home, rel) == ZERO
                 && g <= 500.0 && g * dist * dist <= MU_EARTH && (g == 500.0 || g * dist * dist == MU_EARTH)
            else home == ZERO
  {
    hide Pull, Strength, Attracts, Distance, Minus, Plus, Dot, Cross, SunGravity;
    var rel, toSun := Minus(m.pos, earth.pos), Minus(m.pos, env.sun);
    var dist := Distance(env.sqrt, rel);
    sun, home, g := SunGravity(toSun, Distance(env.sqrt, toSun)), ZERO, 0.0;
    SunGravityLaw(env.sqrt, toSun);
    if 1.0 < dist < 400.0 {
      g := Capped(Strength(MU_EARTH, dist));
      home := Pull(rel, dist, g);
      DistanceIs(env.sqrt, rel);
      PullLaw(rel, dist, g);
      StrengthIs(MU_EARTH, dist);
      CapLaw(Strength(MU_EARTH, dist), dist);
    }
  }

  lemma {:induction false} CapLaw(g: real, dist: real)
    requires dist > 1.0
    ensures var c := Capped(g);
            c <= 500.0 && c * dist * dist <= g * dist * dist && (c == 500.0 || c == g)
  {
    if g > 500.0 {
      PositiveProduct(dist, dist);
      PositiveProduct(g - 500.0, dist * dist);
      assert (g - 500.0) * (dist * dist) == g * dist * dist - 500.0 * dist * dist;
    }
  }

  /** The engine pushes along the hull, forwards for positive thrust, with 50 for each unit of it. */
  lemma {:induction false} ThrustLaw(e: Fuel.Engine, up: Vec)
    ensures var t := ThrustAccel(e, up);
            if e.thrust != 0.0 && e.tank.fuel > 0
            then Dot(t, up) == 50.0 * e.thrust * Dot(up, up) && Cross(t, up) == ZERO
            else t == ZERO
  {
    hide Dot, Cross, Scale;
    if Fuel.Firing(e) {
      DotScale(50.0 * e.thrust, up, up);
      CrossParallel(50.0 * e.thrust, up);
    }
  }

  lemma {:induction false} NoThrust(up: Vec)
    ensures Dot(ZERO, up) == 50.0 * 0.0 * Dot(up, up) && Cross(ZERO, up) == ZERO
  {
  }

  lemma {:induction false} StretchedDistance(sqrt: real -> real, k: real, u: Vec)
    requires IsSqrt(sqrt) && Dot(u, u) == 1.0
    ensures Distance(sqrt, Scale(k, u)) == Fuel.Abs(k)
  {
    hide Dot, Scale;
    ScaledLength(k, u);
    assert Square(k) == Fuel.Abs(k) * Fuel.Abs(k);
    Orbit.RootIs(sqrt, Dot(Scale(k, u), Scale(k, u)), Fuel.Abs(k));
  }

  /** For a unit hull the impulse of the fuel ledger is the thrust that moves the rocket, times the time. */
  lemma {:induction false} ThrustIsImpulse(sqrt: real -> real, e: Fuel.Engine, up: Vec, dt: real)
    requires IsSqrt(sqrt) && Dot(up, up) == 1.0
    ensures Distance(sqrt, ThrustAccel(e, up)) * dt == Fuel.Impulse(e, dt)
  {
    hide Dot, Scale, Distance;
    if Fuel.Firing(e) {
      StretchedDistance(sqrt, Fuel.THRUST_ACCEL * e.thrust, up);
      assert Fuel.Abs(Fuel.THRUST_ACCEL * e.thrust) == Fuel.THRUST_ACCEL * Fuel.Abs(e.thrust);
    } else {
      DistanceOfZero(sqrt);
    }
  }

  lemma {:induction false} DistanceOfZero(sqrt: real -> real)
    requires IsSqrt(sqrt)
    ensures Distance(sqrt, ZERO) == 0.0
  {
    hide Dot;
    ZeroDot();
    Orbit.RootIs(sqrt, Dot(ZERO, ZERO), 0.0);
  }

  /** In open space a tick adds gravity and thrust to the velocity, and the velocity to the position. */
  lemma {:induction false} TickInSpace(env: Env, c: Craft, up: Vec, earth: Motion, dt: real)
    requires IsSqrt(env.sqrt)
    ensures var thrust, m := ThrustAccel(c.engine, up), Piloted(env, c, up, earth, dt).motion;
            !InSOI(env, c.motion, earth) && SunIdle(env, Flown(env, c.motion, thrust, earth, dt)) ==>
              && Minus(m.vel, c.motion.vel) == Scale(dt, Plus(Gravity(env, c.motion, earth), thrust))
              && Minus(m.pos, c.motion.pos) == Scale(dt, m.vel)
  {
    hide Gravity, ThrustAccel, SunIdle, InSOI, ParamsFor, Scale, Dot;
    var thrust := ThrustAccel(c.engine, up);
    if !InSOI(env, c.motion, earth) {
      KickIs(c.motion, Plus(Gravity(env, c.motion, earth), thrust), dt);
    }
  }

  // ---------------------------------------------------------------------------------------------
  // Coasting away from the Earth

  /** No thrust this tick: the lever at zero or an empty tank. */
  ghost predicate Coasting(c: Craft) { !Fuel.Firing(c.engine) }

  lemma {:induction false} PlusZero(a: Vec)
    ensures Plus(a, ZERO) == a
  {
  }

  lemma {:induction false} ZeroIsCentral(rel: Vec)
    ensures Central(ZERO, rel)
  {
    assert ZERO == Scale(0.0, rel);
  }

  lemma {:induction false} SunGravityIsCentral(toSun: Vec, distSun: real)
    ensures Central(SunGravity(toSun, distSun), toSun)
  {
    hide Pull, Central, Strength;
    if distSun > 1.0 { PullIsCentral(toSun, distSun, Strength(MU_SUN, distSun)); } else { ZeroIsCentral(toSun); }
  }

  /** Outside the sphere of influence a coasting rocket is kicked by the Sun alone. */
  lemma {:induction false} CoastIsKick(env: Env, m: Motion, earth: Motion, dt: real)
    requires IsSqrt(env.sqrt) && !InSOI(env, m, earth)
    ensures var toSun := Minus(m.pos, env.sun);
            Flown(env, m, ZERO, earth, dt) == Kick(m, SunGravity(toSun, Distance(env.sqrt, toSun)), dt)
  {
    hide Plus, Scale, Minus, Distance, SunGravity;
    var toSun := Minus(m.pos, env.sun);
    PlusZero(SunGravity(toSun, Distance(env.sqrt, toSun)));
  }

  /** It keeps its angular momentum about the Sun, unless it lands there. */
  lemma {:induction false} CoastKeepsMomentum(env: Env, c: Craft, up: Vec, earth: Motion, dt: real)
    requires IsSqrt(env.sqrt) && Coasting(c)
    ensures !InSOI(env, c.motion, earth) && SunIdle(env, Flown(env, c.motion, ZERO, earth, dt)) ==>
              Momentum(Piloted(env, c, up, earth, dt).motion, env.sun) == Momentum(c.motion, env.sun)
    ensures Coasting(Piloted(env, c, up, earth, dt))
  {
    hide Flown, InSOI, SunIdle, ParamsFor, Momentum, SunGravity, Central, Minus, Kick, Distance;
    if !InSOI(env, c.motion, earth) {
      var toSun := Minus(c.motion.pos, env.sun);
      CoastIsKick(env, c.motion, earth, dt);
      SunGravityIsCentral(toSun, Distance(env.sqrt, toSun));
      KickKeepsMomentum(c.motion, env.sun, SunGravity(toSun, Distance(env.sqrt, toSun)), dt);
    }
  }

  /** One tick's inputs: how the hull was turned, where the Earth is, and how long the tick is. */
  datatype Input = Input(up: Vec, earth: Motion, dt: real)

  function RocketRun(env: Env, c: Craft, inputs: seq<Input>): Craft
    requires IsSqrt(env.sqrt)
    decreases |inputs|
  {
    if inputs == [] then c
    else RocketRun(env, Piloted(env, c, inputs[0].up, inputs[0].earth, inputs[0].dt), inputs[1..])
  }

  /** The rocket coasts outside the sphere of influence and does not hit the Sun. */
  ghost predicate FreeFlight(env: Env, c: Craft, inputs: seq<Input>)
    requires IsSqrt(env.sqrt)
    decreases |inputs|
  {
    inputs == [] ||
    (&& Coasting(c) && !InSOI(env, c.motion, inputs[0].earth)
     && SunIdle(env, Flown(env, c.motion, ZERO, inputs[0].earth, inputs[0].dt))
     && FreeFlight(env, Piloted(env, c, inputs[0].up, inputs[0].earth, inputs[0].dt), inputs[1..]))
  }

  lemma {:induction false} FreeFlightKeepsMomentum(env: Env, c: Craft, inputs: seq<Input>)
    requires IsSqrt(env.sqrt) && FreeFlight(env, c, inputs)
    ensures Momentum(RocketRun(env, c, inputs).motion, env.sun) == Momentum(c.motion, env.sun)
    decreases |inputs|
  {
    hide Piloted, Momentum, Flown, InSOI, SunIdle;
    if inputs != [] {
      var i := inputs[0];
      CoastKeepsMomentum(env, c, i.up, i.earth, i.dt);
      FreeFlightKeepsMomentum(env, Piloted(env, c, i.up, i.earth, i.dt), inputs[1..]);
    }
  }

  // ---------------------------------------------------------------------------------------------
  // The speed limit

  lemma {:induction false} ScaledLength(k: real, rel: Vec)
    ensures Dot(Scale(k, rel), Scale(k, rel)) == Square(k) * Dot(rel, rel)
  {
    hide Dot, Scale;
    var w := Scale(k, rel);
    DotScale(k, rel, w);
    DotSymmetric(rel, w);
    DotScale(k, rel, rel);
  }

  lemma {:induction false} SquareOfQuotient(x: real, y: real)
    requires y != 0.0
    ensures Square(x / y) * Square(y) == Square(x)
  {
    Quotient(x, y);
    var q := x / y;
    assert Square(q) * Square(y) == (y * q) * (y * q);
  }

  lemma {:induction false} RootNonZero(env: Env, x: real)
    requires IsSqrt(env.sqrt) && x > 0.0
    ensures env.sqrt(x) > 0.0 && Square(env.sqrt(x)) == x
  {
    PositiveRoot(env.sqrt, x);
  }

  /** After the limiter the speed relative to the Earth is at most 100, and exactly 100 when it acted. */
  lemma {:induction false} LimitedSpeed(env: Env, vel: Vec, ev: Vec)
    requires IsSqrt(env.sqrt)
    ensures var d := DistanceSquared(Limited(env, vel, ev), ev);
            d == if LimitIdle(vel, ev) then DistanceSquared(vel, ev) else MAX_SPEED * MAX_SPEED
  {
    hide Dot, Plus, Minus, Scale, Square;
    var rel := Minus(vel, ev);
    var d := Dot(rel, rel);
    if !LimitIdle(vel, ev) {
      RootNonZero(env, d);
      var k := MAX_SPEED / env.sqrt(d);
      OffsetFrom(ev, Scale(k, rel));
      ScaledLength(k, rel);
      SquareOfQuotient(MAX_SPEED, env.sqrt(d));
      SquareOfMaxSpeed();
    }
  }

  /** The limiter leaves speeds up to 100 alone and shortens the others to 100 without turning them. */
  lemma {:induction false} LimiterLaw(env: Env, vel: Vec, ev: Vec) returns (k: real)
    requires IsSqrt(env.sqrt)
    ensures var rel := Minus(vel, ev);
            && Minus(Limited(env, vel, ev), ev) == Scale(k, rel) && 0.0 < k <= 1.0
            && (Dot(rel, rel) <= 10000.0 ==> k == 1.0)
            && (Dot(rel, rel) > 10000.0 ==> Square(k) * Dot(rel, rel) == 10000.0)
  {
    hide Dot, Square, Scale, Minus;
    var rel := Minus(vel, ev);
    var d := Dot(rel, rel);
    k := 1.0;
    ScaleOne(rel);
    if d > 10000.0 {
      RootNonZero(env, d);
      k := MAX_SPEED / env.sqrt(d);
      OffsetFrom(ev, Scale(k, rel));
      SquareOfQuotient(MAX_SPEED, env.sqrt(d));
      SquareOfMaxSpeed();
      SquareOrder(MAX_SPEED, env.sqrt(d));
      PositiveQuotient(MAX_SPEED, env.sqrt(d));
      UnitQuotient(MAX_SPEED, env.sqrt(d));
    }
  }

  lemma {:induction false} ScaleOne(v: Vec)
    ensures Scale(1.0, v) == v
  {
  }

  lemma {:induction false} SquareOfMaxSpeed()
    ensures Square(MAX_SPEED) == MAX_SPEED * MAX_SPEED
  {
  }

  lemma {:induction false} SpeedLossIs(c: real, speedSq: real, speed: real, dt: real)
    requires speed > 0.0 && speedSq == speed * speed
    ensures SpeedLoss(c, speedSq, speed, dt) == c * dt * speed
  {
    Quotient(c * speedSq, speed);
    var q := c * speedSq / speed;
    assert speed * (q - c * speed) == 0.0;
    Orbit.ZeroProduct(speed, q - c * speed);
  }

  /** The square of the speed cancels: drag takes the share 0.02 density dt of it, at most all. */
  lemma {:induction false} DragShareIs(env: Env, speedSq: real, alt: real, dt: real)
    requires IsSqrt(env.sqrt) && speedSq > 0.01
    ensures var share := 0.02 * Density(env, alt) * dt;
            DragShare(env, speedSq, alt, dt) == if share > 1.0 then 1.0 else share
  {
    hide Density, SpeedLoss, Square;
    RootNonZero(env, speedSq);
    RootTwice(env, speedSq);
    var speed, c := env.sqrt(speedSq), 0.02 * Density(env, alt);
    SpeedLossIs(c, speedSq, speed, dt);
    ShareOf(c * dt, speed, SpeedLoss(c, speedSq, speed, dt));
  }

  lemma {:induction false} RootTwice(env: Env, x: real)
    requires IsSqrt(env.sqrt) && x >= 0.0
    ensures x == env.sqrt(x) * env.sqrt(x)
  {
  }

  lemma {:induction false} DensityIs(env: Env, alt: real)
    ensures Density(env, alt) == env.exp(-alt / 12.0)
  {
  }

  lemma {:induction false} ShareOf(share: real, speed: real, dv: real)
    requires speed > 0.0 && dv == share * speed
    ensures (if dv > speed then speed else dv) / speed == if share > 1.0 then 1.0 else share
  {
    ScaleOrder(speed, 1.0, share);
    Quotient(dv, speed);
    Quotient(speed, speed);
    Orbit.ZeroProduct(speed, dv / speed - share);
    Orbit.ZeroProduct(speed, speed / speed - 1.0);
  }

  lemma {:induction false} NonNegativeQuotient(x: real, y: real)
    requires x >= 0.0 && y > 0.0
    ensures x / y >= 0.0
  {
  }

  lemma {:induction false} UnitQuotient(x: real, y: real)
    requires 0.0 <= x <= y && y > 0.0
    ensures 0.0 <= x / y <= 1.0
  {
    Quotient(x, y);
    ScaleOrder(y, x / y, 1.0);
    ScaleOrder(y, 0.0, x / y);
  }

  lemma {:induction false} LessOf(rel: Vec, share: real)
    ensures Minus(rel, Scale(share, rel)) == Scale(1.0 - share, rel)
  {
  }

  /** Drag keeps the direction relative to the Earth and acts only inside the atmosphere, on speeds over 0.1. */
  lemma {:induction false} DraggedAlong(env: Env, vel: Vec, ev: Vec, distEarth: real, alt: real, dt: real)
    returns (f: real, share: real)
    requires IsSqrt(env.sqrt) && alt == distEarth - 50.0
    ensures Minus(Dragged(env, vel, ev, distEarth, dt), ev) == Scale(f, Minus(vel, ev))
    ensures share == 0.02 * env.exp(-alt / 12.0) * dt
    ensures f == if 0.0 < alt < 50.0 && DistanceSquared(vel, ev) > 0.01
                 then 1.0 - (if share > 1.0 then 1.0 else share) else 1.0
    ensures dt >= 0.0 && (forall x: real :: env.exp(x) >= 0.0) ==> 0.0 <= f <= 1.0
  {
    hide Dot, DragShare, Density, DistanceSquared;
    var rel := Minus(vel, ev);
    var d := DistanceSquared(vel, ev);
    assert alt == distEarth - PLANET_RADIUS;
    DensityIs(env, alt);
    share := 0.02 * Density(env, alt) * dt;
    if DragIdle(vel, ev, distEarth) {
      f := 1.0;
      ScaleOne(rel);
    } else {
      DragShareIs(env, d, alt, dt);
      var taken := DragShare(env, d, alt, dt);
      LessOf(rel, taken);
      OffsetFrom(ev, Scale(1.0 - taken, rel));
      f := 1.0 - taken;
    }
    if dt >= 0.0 && forall x: real :: env.exp(x) >= 0.0 { SameSignProduct(0.02 * Density(env, alt), dt); }
  }

  // ---------------------------------------------------------------------------------------------
  // Where a tick can leave the rocket

  lemma {:induction false} ScaledDistance(sqrt: real -> real, k: real, rel: Vec)
    requires IsSqrt(sqrt) && k >= 0.0
    ensures Distance(sqrt, Scale(k, rel)) == k * Distance(sqrt, rel)
  {
    hide Dot, Scale;
    ScaledLength(k, rel);
    Orbit.LengthOf(sqrt, rel);
    var d := sqrt(Dot(rel, rel));
    SameSignProduct(k, d);
    SquareOfProduct(k, d);
    Orbit.RootIs(sqrt, Dot(Scale(k, rel), Scale(k, rel)), k * d);
  }

  lemma {:induction false} SquareOfProduct(k: real, d: real)
    ensures (k * d) * (k * d) == Square(k) * Square(d)
  {
  }

  /** How far from the Sun a landing leaves the rocket. */
  lemma {:induction false} LandedDistance(env: Env, m: Motion)
    requires IsSqrt(env.sqrt) && !SunIdle(env, m)
    ensures var d := Distance(env.sqrt, Minus(m.pos, env.sun));
            Distance(env.sqrt, Minus(CollidedWithSun(env, m).pos, env.sun)) == SUN_CLAMP / AtLeast(d, 0.01) * d
  {
    hide Dot, Minus, Plus, Scale, SunIdle, Distance;
    var rel := Minus(m.pos, env.sun);
    var low := AtLeast(Distance(env.sqrt, rel), 0.01);
    NonNegativeQuotient(SUN_CLAMP, low);
    OffsetFrom(env.sun, Scale(Ratio(SUN_CLAMP, low), rel));
    ScaledDistance(env.sqrt, Ratio(SUN_CLAMP, low), rel);
  }

  /**
   Within 251.5 of the Sun's centre a rocket that moves inwards, or is inside, is set down on the clearance
   straight above where it is, at rest; any other is left alone.
   */
  lemma {:induction false} SunLandingLaw(env: Env, m: Motion) returns (k: real)
    requires IsSqrt(env.sqrt)
    ensures var rel, after := Minus(m.pos, env.sun), CollidedWithSun(env, m);
            var d := Distance(env.sqrt, rel);
            if d < 251.5 && (d < 250.0 || Dot(m.vel, rel) < 0.0)
            then && after.vel == ZERO && Minus(after.pos, env.sun) == Scale(k, rel) && k > 0.0
                 && k * (if d < 0.01 then 0.01 else d) == 251.5
            else after == m
  {
    hide Dot, Minus, Plus, Scale, Square;
    var rel := Minus(m.pos, env.sun);
    var d := Distance(env.sqrt, rel);
    Orbit.LengthOf(env.sqrt, rel);
    SquareOrder(SUN_CLAMP, d);
    SquareOfClamp();
    var low := AtLeast(d, 0.01);
    k := Ratio(SUN_CLAMP, low);
    Quotient(SUN_CLAMP, low);
    PositiveQuotient(SUN_CLAMP, low);
    OffsetFrom(env.sun, Scale(k, rel));
  }

  lemma {:induction false} SunIdleIsOutside(env: Env, m: Motion)
    requires IsSqrt(env.sqrt) && SunIdle(env, m)
    ensures Distance(env.sqrt, Minus(m.pos, env.sun)) >= SUN_RADIUS
  {
    hide Dot, Minus, Square;
    var rel := Minus(m.pos, env.sun);
    Orbit.LengthOf(env.sqrt, rel);
    SquareOrder(SUN_CLAMP, Distance(env.sqrt, rel));
    SquareOfClamp();
  }

  lemma {:induction false} SquareOfClamp()
    ensures Square(SUN_CLAMP) == SUN_CLAMP * SUN_CLAMP
  {
  }

  /** No tick ends inside the Sun, except the one that arrives within a hundredth of its centre. */
  lemma {:induction false} OutsideSunIff(env: Env, m: Motion)
    requires IsSqrt(env.sqrt)
    ensures Distance(env.sqrt, Minus(CollidedWithSun(env, m).pos, env.sun)) >= SUN_RADIUS
            <==> SUN_CLAMP * Distance(env.sqrt, Minus(m.pos, env.sun)) >= 0.01 * SUN_RADIUS
  {
    hide Dot, Minus, SunIdle, Distance;
    var d := Distance(env.sqrt, Minus(m.pos, env.sun));
    if SunIdle(env, m) {
      SunIdleIsOutside(env, m);
    } else {
      LandedDistance(env, m);
      if d >= 0.01 { Quotient(SUN_CLAMP, d); }
    }
  }

  /** Such an arrival: a rocket at the very centre is put back there. */
  lemma {:induction false} CentreOfSun(env: Env, vel: Vec)
    requires IsSqrt(env.sqrt)
    ensures Distance(env.sqrt, Minus(CollidedWithSun(env, Motion(env.sun, vel)).pos, env.sun)) == 0.0
  {
    hide Dot, Minus, SunIdle, CollidedWithSun;
    var m := Motion(env.sun, vel);
    MinusSelf(env.sun);
    ZeroDot();
    Orbit.RootIs(env.sqrt, Dot(ZERO, ZERO), 0.0);
    if SunIdle(env, m) { SunIdleIsOutside(env, m); } else { LandedDistance(env, m); }
  }

  lemma {:induction false} ZeroDot()
    ensures Dot(ZERO, ZERO) == 0.0
  {
  }

  /** The terrain depends only on the direction, and is solid. */
  ghost predicate Terrain(env: Env) {
    && (forall rel :: env.surface(rel) > 0.0)
    && (forall rel, k: real :: k >= 1.0 && Distance(env.sqrt, rel) >= 0.01 ==>
          env.surface(Scale(k, rel)) == env.surface(rel))
  }

  lemma {:induction false} RatioAboveOne(x: real, y: real)
    requires x > y > 0.0
    ensures Ratio(x, y) >= 1.0 && Ratio(x, y) * y == x
  {
    Quotient(x, y);
    ScaleOrder(y, 1.0, x / y);
  }

  /** A collision lifts the rocket to the clearance above the ground that was measured below it. */
  lemma {:induction false} LiftedTo(env: Env, m: Motion, earth: Motion)
    requires IsSqrt(env.sqrt) && (forall rel :: env.surface(rel) > 0.0) && !EarthIdle(env, m, earth)
    requires Distance(env.sqrt, Minus(m.pos, earth.pos)) > 0.0
    ensures var rel, after := Minus(m.pos, earth.pos), Minus(CollidedWithEarth(env, m, earth).pos, earth.pos);
            && Distance(env.sqrt, after) == env.surface(rel) + CLEARANCE
            && exists k: real :: k >= 1.0 && after == Scale(k, rel)
  {
    hide Dot, Minus, Plus, Scale, Distance, Ratio;
    var rel := Minus(m.pos, earth.pos);
    var dist, target := Distance(env.sqrt, rel), env.surface(rel) + CLEARANCE;
    RatioAboveOne(target, dist);
    OffsetFrom(earth.pos, Scale(Ratio(target, dist), rel));
    ScaledDistance(env.sqrt, Ratio(target, dist), rel);
  }

  /**
   A rocket collides when it is below ground, or within the clearance and not rising. A collision leaves it
   on or above the ground, at rest relative to the Earth. Nearer than a hundredth to the Earth's centre the
   ground is measured without a direction: there the rocket is above ground exactly when the terrain it is
   put on is no higher than that measure and the clearance.
   */
  lemma {:induction false} CollisionIsSafe(env: Env, m: Motion, earth: Motion)
    requires IsSqrt(env.sqrt) && Terrain(env)
    ensures var c, rel := CollidedWithEarth(env, m, earth), Minus(m.pos, earth.pos);
            var after, dist := Minus(c.pos, earth.pos), Distance(env.sqrt, rel);
            && (EarthIdle(env, m, earth) <==>
                  dist >= env.surface(rel) + 1.5 ||
                  (dist >= env.surface(rel) && Dot(rel, Minus(m.vel, earth.vel)) >= 0.0))
            && (if EarthIdle(env, m, earth) then c == m else c.vel == earth.vel)
            && (EarthIdle(env, m, earth) || dist >= 0.01 ==> Distance(env.sqrt, after) >= env.surface(after))
            && (!EarthIdle(env, m, earth) && 0.0 < dist ==>
                  (Distance(env.sqrt, after) >= env.surface(after)
                   <==> env.surface(after) <= env.surface(rel) + CLEARANCE))
  {
    hide Dot, Minus, Plus, Scale, Distance, Ratio;
    if !EarthIdle(env, m, earth) && Distance(env.sqrt, Minus(m.pos, earth.pos)) > 0.0 { LiftedTo(env, m, earth); }
  }

  /**
   A tick inside the sphere of influence that does not end on the Sun leaves the rocket on or above the
   ground, at most 100 faster than the Earth.
   */
  lemma {:induction false} TickNearEarth(env: Env, c: Craft, up: Vec, earth: Motion, dt: real)
    requires IsSqrt(env.sqrt)
    ensures var thrust := ThrustAccel(c.engine, up);
            var m := Piloted(env, c, up, earth, dt).motion;
            var vel := Accelerated(env, c.motion, thrust, earth, dt);
            InSOI(env, c.motion, earth) && SunIdle(env, Flown(env, c.motion, thrust, earth, dt)) ==>
              && DistanceSquared(m.vel, earth.vel) <= MAX_SPEED * MAX_SPEED
              && (Terrain(env) && Distance(env.sqrt, Minus(Plus(c.motion.pos, Scale(dt, vel)), earth.pos)) >= 0.01 ==>
                    Distance(env.sqrt, Minus(m.pos, earth.pos)) >= env.surface(Minus(m.pos, earth.pos)))
  {
    hide Dot, Minus, Plus, Scale, Distance, DistanceSquared, SunIdle, Dragged, Limited, Gravity, ThrustAccel, InSOI,
         CollidedWithEarth, Terrain, ParamsFor;
    if InSOI(env, c.motion, earth) {
      var thrust := ThrustAccel(c.engine, up);
      var pushed := Plus(c.motion.vel, Scale(dt, Plus(Gravity(env, c.motion, earth), thrust)));
      var slowed := Dragged(env, pushed, earth.vel, Distance(env.sqrt, Minus(c.motion.pos, earth.pos)), dt);
      LimitHolds(env, slowed, earth.vel);
      var moved := Drifted(c.motion, Limited(env, slowed, earth.vel), dt);
      CollisionSpeed(env, moved, earth);
      if Terrain(env) && Distance(env.sqrt, Minus(moved.pos, earth.pos)) >= 0.01 { CollisionIsSafe(env, moved, earth); }
    }
  }

  lemma {:induction false} LimitHolds(env: Env, vel: Vec, ev: Vec)
    requires IsSqrt(env.sqrt)
    ensures DistanceSquared(Limited(env, vel, ev), ev) <= MAX_SPEED * MAX_SPEED
  {
    hide DistanceSquared, Limited;
    LimitedSpeed(env, vel, ev);
  }

  lemma {:induction false} CollisionSpeed(env: Env, m: Motion, earth: Motion)
    requires DistanceSquared(m.vel, earth.vel) <= MAX_SPEED * MAX_SPEED
    ensures DistanceSquared(CollidedWithEarth(env, m, earth).vel, earth.vel) <= MAX_SPEED * MAX_SPEED
  {
    hide Dot, Distance, DistanceSquared;
    ZeroDistance(earth.vel);
  }

  /**
   The flag a tick in the sphere of influence leaves: exact for the position seen from the Earth taken
   together with the velocity relative to the Sun, which is what the server passes.
   */
  lemma {:induction false} InOrbitMeans(env: Env, c: Craft, up: Vec, earth: Motion, dt: real)
    requires IsSqrt(env.sqrt) && InSOI(env, c.motion, earth)
    ensures var after := Piloted(env, c, up, earth, dt);
            after.inOrbit <==>
            Orbit.SafeOrbit(env.sqrt, Orbit.AsPassed(after.motion.pos, after.motion.vel, earth.pos))
  {
    hide Dot, Minus, Distance, Flown, CollidedWithSun, SunIdle, InSOI, Orbit.OrbitalParams, Orbit.Stable,
         Orbit.SafeOrbit, Orbit.AsPassed;
    Orbit.StableAtEarthIff(env.sqrt, Piloted(env, c, up, earth, dt).motion, earth.pos);
  }

  /** Farther out the flag means a bound orbit about the Sun, all of it above the surface. */
  lemma {:induction false} InSolarOrbitMeans(env: Env, c: Craft, up: Vec, earth: Motion, dt: real)
    requires IsSqrt(env.sqrt) && !InSOI(env, c.motion, earth)
    ensures var after := Piloted(env, c, up, earth, dt);
            var s := Orbit.AsPassed(after.motion.pos, after.motion.vel, env.sun);
            after.inOrbit <==>
            Orbit.Bound(env.sqrt, s, MU_SUN) &&
            forall t :: Orbit.SameOrbit(env.sqrt, s, t, MU_SUN) ==> Distance(env.sqrt, t.pos) > SUN_RADIUS
  {
    hide Dot, Minus, Distance, Flown, CollidedWithSun, SunIdle, InSOI, Orbit.OrbitalParams, Orbit.Stable,
         Orbit.SameOrbit, Orbit.Bound, Orbit.AsPassed;
    var m := Piloted(env, c, up, earth, dt).motion;
    Orbit.StableAtSunIff(env.sqrt, m.pos, m.vel, env.sun);
  }

  /** Which body the rocket belongs to after a tick, and where it is relative to it. */
  lemma {:induction false} FrameAfterTick(env: Env, c: Craft, up: Vec, earth: Motion, dt: real)
    requires IsSqrt(env.sqrt)
    ensures var after := Piloted(env, c, up, earth, dt);
            var near := Distance(env.sqrt, Minus(c.motion.pos, earth.pos)) < 400.0;
            var flown := Flown(env, c.motion, ThrustAccel(c.engine, up), earth, dt);
            && Plus(after.localPos, if near then earth.pos else env.sun) == flown.pos
            && (after.atEarth <==> near && CollidedWithSun(env, flown) == flown && SunIdle(env, flown))
            && after.motion == CollidedWithSun(env, flown) && after.up == up
            && after.distSun == Distance(env.sqrt, Minus(c.motion.pos, env.sun))
            && after.engine == Fuel.Consumed(c.engine, dt)
  {
    hide Distance, Flown, ThrustAccel, SunIdle, ParamsFor, Orbit.Stable, Fuel.Consumed;
    BackAndForth(Flown(env, c.motion, ThrustAccel(c.engine, up), earth, dt).pos, earth.pos);
    BackAndForth(Flown(env, c.motion, ThrustAccel(c.engine, up), earth, dt).pos, env.sun);
  }

  lemma {:induction false} BackAndForth(p: Vec, base: Vec)
    ensures Plus(Minus(p, base), base) == p
  {
  }

  /**
   Near the Earth a tick adds gravity and thrust to the velocity, then drag and the limiter scale what
   the rocket has relative to the Earth, and it moves; then it may collide.
   */
  lemma {:induction false} TickNearEarthLaw(env: Env, c: Craft, up: Vec, earth: Motion, dt: real, alt: real)
    returns (f: real, share: real, k: real)
    requires IsSqrt(env.sqrt) && InSOI(env, c.motion, earth)
    requires alt == Distance(env.sqrt, Minus(c.motion.pos, earth.pos)) - 50.0
    ensures var thrust, ev := ThrustAccel(c.engine, up), earth.vel;
            var pushed := Plus(c.motion.vel, Scale(dt, Plus(Gravity(env, c.motion, earth), thrust)));
            var vel := Accelerated(env, c.motion, thrust, earth, dt);
            && Minus(vel, ev) == Scale(k, Scale(f, Minus(pushed, ev)))
            && (f == if 0.0 < alt < 50.0 && DistanceSquared(pushed, ev) > 0.01
                     then 1.0 - (if share > 1.0 then 1.0 else share) else 1.0)
            && Flown(env, c.motion, thrust, earth, dt)
               == CollidedWithEarth(env, Motion(Plus(c.motion.pos, Scale(dt, vel)), vel), earth)
    ensures share == 0.02 * env.exp(-alt / 12.0) * dt && 0.0 < k <= 1.0
  {
    hide Dot, Minus, Plus, Scale, Distance, DistanceSquared, Dragged, Limited, Gravity, ThrustAccel, InSOI,
         CollidedWithEarth;
    var pushed := Plus(c.motion.vel, Scale(dt, Plus(Gravity(env, c.motion, earth), ThrustAccel(c.engine, up))));
    var dist := Distance(env.sqrt, Minus(c.motion.pos, earth.pos));
    f, share := DraggedAlong(env, pushed, earth.vel, dist, alt, dt);
    k := LimiterLaw(env, Dragged(env, pushed, earth.vel, dist, dt), earth.vel);
  }

  /** At every moment of every run from the new world some rocket's flag is wrong about its orbit round the Earth. */
  lemma {:induction false} FlagAlwaysMisleads(sqrt: real -> real, sun: Vec, dts: seq<real>) returns (m: Motion)
    requires IsSqrt(sqrt)
    ensures var earth := BodyRun(sqrt, Circular(sqrt, sun, SUN_DISTANCE, MU_SUN), sun, MU_SUN, dts);
            !Orbit.EarthFlag(sqrt, m, earth.pos) && Orbit.SafeOrbit(sqrt, Orbit.SeenFrom(m, earth))
  {
    hide BodyRun, Orbit.EarthFlag, Orbit.SafeOrbit;
    PlanetsStayLevel(sqrt, sun, sun, dts);
    m := Orbit.UnflaggedOrbit(sqrt, BodyRun(sqrt, Circular(sqrt, sun, SUN_DISTANCE, MU_SUN), sun, MU_SUN, dts));
  }

  // ---------------------------------------------------------------------------------------------
  // In place

  class Rocket {
    var pos: Vec
    var vel: Vec
    var up: Vec
    var fuel: int
    var fuelAccum: real
    var thrust: real
    var infiniteFuel: bool
    var params: Orbit.Params
    var inOrbit: bool
    var atEarth: bool
    var localPos: Vec
    var distSun: real

    ghost function Motions(): Motion
      reads this`pos, this`vel
    {
      Motion(pos, vel)
    }

    ghost function Engine(): Fuel.Engine
      reads this`fuel, this`fuelAccum, this`thrust, this`infiniteFuel
    {
      Fuel.Engine(Fuel.Tank(fuel, fuelAccum), thrust, infiniteFuel)
    }

    ghost function View(): Craft
      reads this
    {
      Craft(Motions(), up, Engine(), params, inOrbit, atEarth, localPos, distSun)
    }

    /** handlePlaceRocket. */
    constructor (at: Vec, earthVel: Vec, normal: Vec, local: Vec)
      ensures Motions() == Motion(at, earthVel) && up == normal && Engine() == Fuel.PLACED && !inOrbit
    {
      pos, vel, up, localPos := at, earthVel, normal, local;
      fuel, fuelAccum, thrust, infiniteFuel := Fuel.MAX_FUEL, 0.0, 0.0, false;
      params, inOrbit, atEarth, distSun := Orbit.Params(0.0, 0.0, 0.0, 0.0, 0.0), false, false, 0.0;
    }

    /** The part of handleRocketInput that the fuel depends on. */
    method ApplyInput(newThrust: real, infinite: bool)
      modifies this`thrust, this`infiniteFuel, this`fuel
      ensures Engine() == Fuel.Next(old(Engine()), Fuel.Input(newThrust, infinite))
      ensures thrust == newThrust && infiniteFuel == infinite && fuel == if infinite then 100 else old(fuel)
    {
      thrust, infiniteFuel := newThrust, infinite;
      if infiniteFuel {
        fuel := Fuel.MAX_FUEL;
      }
    }

    method ConsumeThrust(dt: real) returns (t: Vec)
      modifies this`fuel, this`fuelAccum
      ensures Engine() == Fuel.Consumed(old(Engine()), dt)
      ensures t == ThrustAccel(old(Engine()), up)
      ensures old(fuel) > 0 ==> Dot(t, up) == 50.0 * thrust * Dot(up, up) && Cross(t, up) == ZERO
      ensures old(fuel) <= 0 ==> t == ZERO
    {
      hide Fuel.Demand, Scale, Dot, Cross;
      ThrustLaw(Engine(), up);
      NoThrust(up);
      if thrust == 0.0 || fuel <= 0 {
        return ZERO;
      }
      if !infiniteFuel {
        fuelAccum := fuelAccum + Fuel.Demand(thrust, dt);
        ghost var start := Fuel.Tank(fuel, fuelAccum);
        while fuelAccum >= 1.0 && fuel > 0
          invariant Fuel.Burnt(Fuel.Tank(fuel, fuelAccum)) == Fuel.Burnt(start)
        {
          fuel := fuel - 1;
          fuelAccum := fuelAccum - 1.0;
        }
      }
      t := Scale(Fuel.THRUST_ACCEL * thrust, up);
    }

    method ApplyAtmosphericDrag(env: Env, ev: Vec, distEarth: real, dt: real)
      requires IsSqrt(env.sqrt)
      modifies this`vel
      ensures vel == Dragged(env, old(vel), ev, distEarth, dt)
    {
      hide Dot, DragShare, Plus, Scale;
      var alt := distEarth - PLANET_RADIUS;
      if alt <= 0.0 || alt >= ATMOSPHERE {
        return;
      }
      var rel := Minus(vel, ev);
      var speedSq := Dot(rel, rel);
      if speedSq <= 0.01 {
        return;
      }
      vel := Plus(ev, Minus(rel, Scale(DragShare(env, speedSq, alt, dt), rel)));
    }

    method ApplySpeedLimit(env: Env, ev: Vec, isEarth: bool)
      requires IsSqrt(env.sqrt)
      modifies this`vel
      ensures vel == if isEarth then Limited(env, old(vel), ev) else old(vel)
    {
      if !isEarth || LimitIdle(vel, ev) {
        return;
      }
      vel := Limited(env, vel, ev);
    }

    method CollideWithEarth(env: Env, earth: Motion)
      modifies this`pos, this`vel
      ensures Motions() == CollidedWithEarth(env, old(Motions()), earth)
    {
      hide Dot, Minus, Plus, Scale, Distance, Ratio;
      var relVel, newRel := Minus(vel, earth.vel), Minus(pos, earth.pos);
      var newDist, surf := Distance(env.sqrt, newRel), env.surface(newRel);
      if newDist >= surf + CLEARANCE {
        return;
      }
      if Dot(newRel, relVel) >= 0.0 && newDist >= surf {
        return;
      }
      pos := if newDist == 0.0 then env.nowhere else Plus(earth.pos, Scale(Ratio(surf + CLEARANCE, newDist), newRel));
      vel := earth.vel;
    }

    method CollideWithSun(env: Env)
      modifies this`pos, this`vel, this`atEarth
      ensures Motions() == CollidedWithSun(env, old(Motions()))
      ensures atEarth == (old(atEarth) && SunIdle(env, old(Motions())))
    {
      hide Dot, Minus, Plus, Scale, Ratio;
      var d := Minus(pos, env.sun);
      var distSq := Dot(d, d);
      if distSq >= SUN_CLAMP * SUN_CLAMP {
        return;
      }
      var dist := AtLeast(env.sqrt(distSq), 0.01);
      if Dot(vel, d) >= 0.0 && dist >= SUN_RADIUS {
        return;
      }
      pos, vel, atEarth := Plus(env.sun, Scale(Ratio(SUN_CLAMP, dist), d)), ZERO, false;
    }

    method UpdateOrbitalParams(env: Env, earth: Motion, isEarth: bool)
      modifies this`params, this`inOrbit
      ensures params == ParamsFor(env, Motions(), earth, isEarth) && inOrbit == Orbit.Stable(params, isEarth)
    {
      hide Orbit.OrbitalParams;
      params := ParamsFor(env, Motion(pos, vel), earth, isEarth);
      var stable := if isEarth then params.peri > ATMOSPHERE && params.alt > ATMOSPHERE else params.peri > 0.0;
      if stable && !inOrbit {
        inOrbit := true;
      } else if !stable {
        inOrbit := false;
      }
    }

    /** tickPilotedRocket; `steered` is what the autopilot and the rudder make of the hull's direction. */
    method TickPiloted(env: Env, steered: Vec, earth: Motion, dt: real)
      requires IsSqrt(env.sqrt)
      modifies this
      ensures View() == Piloted(env, old(View()), steered, earth, dt)
    {
      hide Dot, Minus, Plus, Scale, Distance, GravityAccel, Dragged, Limited, CollidedWithEarth, CollidedWithSun,
           SunIdle, ParamsFor, Orbit.Stable, ThrustAccel, Fuel.Consumed;
      var rel, toSun := Minus(pos, earth.pos), Minus(pos, env.sun);
      var distEarth, dist := Distance(env.sqrt, rel), Distance(env.sqrt, toSun);
      var isEarth := distEarth < SOI_EARTH;
      up := steered;
      var g := GravityAccel(rel, distEarth, dist, isEarth, toSun);
      var t := ConsumeThrust(dt);
      vel := Plus(vel, Scale(dt, Plus(g, t)));
      if isEarth {
        ApplyAtmosphericDrag(env, earth.vel, distEarth, dt);
      }
      ApplySpeedLimit(env, earth.vel, isEarth);
      assert vel == Accelerated(env, old(Motions()), t, earth, dt);
      pos := Plus(pos, Scale(dt, vel));
      if isEarth {
        CollideWithEarth(env, earth);
      }
      assert Motions() == Flown(env, old(Motions()), t, earth, dt);
      localPos, atEarth, distSun := Minus(pos, if isEarth then earth.pos else env.sun), isEarth, dist;
      CollideWithSun(env);
      UpdateOrbitalParams(env, earth, isEarth);
    }
  }
}
