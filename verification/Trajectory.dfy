/** The client's orbit prediction (trajectory.go) against the server's ticks it imitates. */
module Trajectory {
  import opened Geometry
  import opened StarSystems
  import opened Bodies
  import opened Rockets
  import Orbit

  datatype Flight = Flight(earth: Motion, rocket: Motion)

  // ---------------------------------------------------------------------------------------------
  // The client's step

  function ClientEarth(sqrt: real -> real, sun: Vec, earth: Motion, dt: real): Motion {
    var rel := Minus(earth.pos, sun);
    Kick(earth, SunGravity(rel, Distance(sqrt, rel)), dt)
  }

  /** No cap on the Earth's pull. */
  function ClientGravity(sqrt: real -> real, sun: Vec, p: Vec, earth: Vec): Vec {
    var toSun, rel := Minus(p, sun), Minus(p, earth);
    var dist := Distance(sqrt, rel);
    Plus(SunGravity(toSun, Distance(sqrt, toSun)),
         if dist < SOI_EARTH && dist > 1.0 then Pull(rel, dist, Strength(MU_EARTH, dist)) else ZERO)
  }

  function ClientStep(sqrt: real -> real, sun: Vec, f: Flight, dt: real): Flight {
    var earth := ClientEarth(sqrt, sun, f.earth, dt);
    Flight(earth, Kick(f.rocket, ClientGravity(sqrt, sun, f.rocket.pos, earth.pos), dt))
  }

  function ClientRun(sqrt: real -> real, sun: Vec, f: Flight, dt: real, n: nat): Flight {
    if n == 0 then f else ClientStep(sqrt, sun, ClientRun(sqrt, sun, f, dt, n - 1), dt)
  }

  /** Exactly the points the prediction draws: all of them, or up to the first return after 200 steps. */
  ghost predicate IsPrediction(sqrt: real -> real, sun: Vec, f: Flight, dt: real, steps: nat, pts: seq<Vec>) {
    && |pts| <= steps
    && (forall i :: 0 <= i < |pts| ==> pts[i] == ClientRun(sqrt, sun, f, dt, i + 1).rocket.pos)
    && (forall i :: 200 < i < |pts| - 1 ==> DistanceSquared(pts[i], f.rocket.pos) >= 25.0)
    && (|pts| == steps || (|pts| > 201 && DistanceSquared(pts[|pts| - 1], f.rocket.pos) < 25.0))
  }

  method PredictTrajectory(sqrt: real -> real, sun: Vec, rocket: Motion, earth: Motion, dt: real, steps: nat)
    returns (pts: seq<Vec>)
    ensures IsPrediction(sqrt, sun, Flight(earth, rocket), dt, steps, pts)
  {
    hide DistanceSquared, Plus, Scale, Minus, Distance, SunGravity, Pull, Strength;
    ghost var f := Flight(earth, rocket);
    var p, v, ep, ev := rocket.pos, rocket.vel, earth.pos, earth.vel;
    pts := [];
    for i := 0 to steps
      invariant |pts| == i && Flight(Motion(ep, ev), Motion(p, v)) == ClientRun(sqrt, sun, f, dt, i)
      invariant forall k :: 0 <= k < i ==> pts[k] == ClientRun(sqrt, sun, f, dt, k + 1).rocket.pos
      invariant forall k :: 200 < k < i ==> DistanceSquared(pts[k], rocket.pos) >= 25.0
    {
      var e := Minus(ep, sun);
      var distE := Distance(sqrt, e);
      ev := Plus(ev, Scale(dt, SunGravity(e, distE)));
      ep := Plus(ep, Scale(dt, ev));

      var s, rel := Minus(p, sun), Minus(p, ep);
      var distSun, distEarth := Distance(sqrt, s), Distance(sqrt, rel);
      var near := distEarth < SOI_EARTH && distEarth > 1.0;
      var pull := if near then Pull(rel, distEarth, Strength(MU_EARTH, distEarth)) else ZERO;
      v := Plus(v, Scale(dt, Plus(SunGravity(s, distSun), pull)));
      p := Plus(p, Scale(dt, v));
      assert Flight(Motion(ep, ev), Motion(p, v)) == ClientRun(sqrt, sun, f, dt, i + 1);

      pts := pts + [p];
      if i > 200 && DistanceSquared(p, rocket.pos) < 25.0 {
        break;
      }
    }
  }

  /** The description leaves one prediction only. */
  lemma {:induction false} PredictionUnique(
    sqrt: real -> real, sun: Vec, f: Flight, dt: real, steps: nat, a: seq<Vec>, b: seq<Vec>)
    requires IsPrediction(sqrt, sun, f, dt, steps, a) && IsPrediction(sqrt, sun, f, dt, steps, b)
    ensures a == b
  {
    hide DistanceSquared, ClientRun;
    var k := if |a| < |b| then |a| else |b|;
    assert k > 0 ==> a[k - 1] == b[k - 1];
  }

  // ---------------------------------------------------------------------------------------------
  // The server's tick: first the world, then the rockets

  datatype World = World(earth: Motion, craft: Craft)

  /** `ups(k)`: how the hull is turned in tick k. */
  function ServerRun(env: Env, w: World, dt: real, ups: nat -> Vec, n: nat): World
    requires IsSqrt(env.sqrt)
  {
    if n == 0 then w
    else
      var before := ServerRun(env, w, dt, ups, n - 1);
      var earth := BodyStep(env.sqrt, before.earth, env.sun, MU_SUN, dt);
      World(earth, Piloted(env, before.craft, ups(n - 1), earth, dt))
  }

  function Seen(w: World): Flight { Flight(w.earth, w.craft.motion) }

  /** Nothing that the client leaves out acts on the rocket this tick. */
  ghost predicate Undisturbed(env: Env, m: Motion, earth: Motion, dt: real) {
    var rel := Minus(m.pos, earth.pos);
    var dist := Distance(env.sqrt, rel);
    var next := Kick(m, ClientGravity(env.sqrt, env.sun, m.pos, earth.pos), dt);
    && (dist < SOI_EARTH ==>
          && (dist > 1.0 ==> Strength(MU_EARTH, dist) <= MAX_GRAVITY)
          && DragIdle(next.vel, earth.vel, dist) && LimitIdle(next.vel, earth.vel) && EarthIdle(env, next, earth))
    && SunIdle(env, next)
  }

  /** The condition on one tick of the server. */
  ghost predicate Quiet(env: Env, w: World, dt: real) {
    && Distance(env.sqrt, Minus(w.earth.pos, env.sun)) > 1.0 && Coasting(w.craft)
    && Undisturbed(env, w.craft.motion, BodyStep(env.sqrt, w.earth, env.sun, MU_SUN, dt), dt)
  }

  /** For instance: coasting outside the sphere of influence, clear of the Sun. */
  lemma {:induction false} QuietFarAway(env: Env, w: World, dt: real)
    requires Coasting(w.craft)
    ensures var m, earth := w.craft.motion, BodyStep(env.sqrt, w.earth, env.sun, MU_SUN, dt);
            var next := Kick(m, ClientGravity(env.sqrt, env.sun, m.pos, earth.pos), dt);
            Distance(env.sqrt, Minus(w.earth.pos, env.sun)) > 1.0 && !InSOI(env, m, earth) ==>
            DistanceSquared(next.pos, env.sun) >= SUN_CLAMP * SUN_CLAMP ==> Quiet(env, w, dt)
  {
    hide Kick, ClientGravity, Minus, Dot, Distance, BodyStep, DragIdle, LimitIdle, EarthIdle, Strength;
  }

  lemma {:induction false} EarthAgrees(sqrt: real -> real, sun: Vec, earth: Motion, dt: real)
    requires Distance(sqrt, Minus(earth.pos, sun)) > 1.0
    ensures ClientEarth(sqrt, sun, earth, dt) == BodyStep(sqrt, earth, sun, MU_SUN, dt)
  {
    hide Kick, Pull, Strength, Minus, Distance;
  }

  lemma {:induction false} GravityAgrees(env: Env, m: Motion, earth: Motion, dt: real)
    requires Undisturbed(env, m, earth, dt)
    ensures Gravity(env, m, earth) == ClientGravity(env.sqrt, env.sun, m.pos, earth.pos)
  {
    hide Kick, Pull, Strength, Minus, Distance, Plus, SunGravity, DragIdle, LimitIdle, EarthIdle, SunIdle;
  }

  lemma {:induction false} FlightAgrees(env: Env, m: Motion, earth: Motion, dt: real)
    requires IsSqrt(env.sqrt)
    ensures Undisturbed(env, m, earth, dt) ==>
              CollidedWithSun(env, Flown(env, m, ZERO, earth, dt))
              == Kick(m, ClientGravity(env.sqrt, env.sun, m.pos, earth.pos), dt)
  {
    hide Plus, Scale, Minus, Distance, Strength, DragIdle, LimitIdle, EarthIdle, SunIdle, Gravity, ClientGravity;
    if Undisturbed(env, m, earth, dt) { GravityAgrees(env, m, earth, dt); }
    PlusZero(Gravity(env, m, earth));
  }

  lemma {:induction false} StepAgrees(env: Env, w: World, dt: real, up: Vec)
    requires IsSqrt(env.sqrt)
    ensures var earth := BodyStep(env.sqrt, w.earth, env.sun, MU_SUN, dt);
            Quiet(env, w, dt) ==>
              Seen(World(earth, Piloted(env, w.craft, up, earth, dt))) == ClientStep(env.sqrt, env.sun, Seen(w), dt)
  {
    hide Minus, Distance, BodyStep, ClientEarth, Kick, ClientGravity, Flown, CollidedWithSun, Undisturbed, ParamsFor,
         Orbit.Stable, InSOI, SunIdle;
    var earth := BodyStep(env.sqrt, w.earth, env.sun, MU_SUN, dt);
    if Quiet(env, w, dt) {
      EarthAgrees(env.sqrt, env.sun, w.earth, dt);
      FlightAgrees(env, w.craft.motion, earth, dt);
    }
  }

  /** The server's next `n` ticks are quiet. */
  ghost predicate QuietRun(env: Env, w: World, dt: real, ups: nat -> Vec, n: nat)
    requires IsSqrt(env.sqrt)
  {
    forall k: nat :: k < n ==> Quiet(env, ServerRun(env, w, dt, ups, k), dt)
  }

  /** While the server's run is quiet, the client's iteration is that run. */
  lemma {:induction false} RunAgrees(env: Env, w: World, dt: real, ups: nat -> Vec, n: nat)
    requires IsSqrt(env.sqrt)
    ensures QuietRun(env, w, dt, ups, n) ==>
              Seen(ServerRun(env, w, dt, ups, n)) == ClientRun(env.sqrt, env.sun, Seen(w), dt, n)
  {
    hide Quiet, Piloted, BodyStep, ClientStep;
    if n > 0 {
      RunAgrees(env, w, dt, ups, n - 1);
      StepAgrees(env, ServerRun(env, w, dt, ups, n - 1), dt, ups(n - 1));
    }
  }

  /** The predicted points are the positions after the server's next ticks, as far as those are quiet. */
  lemma {:induction false} PredictionRefinesServer(
    env: Env, w: World, dt: real, ups: nat -> Vec, steps: nat, pts: seq<Vec>)
    requires IsSqrt(env.sqrt)
    ensures IsPrediction(env.sqrt, env.sun, Seen(w), dt, steps, pts) ==>
              forall i :: 0 <= i < |pts| && QuietRun(env, w, dt, ups, i + 1) ==>
                            pts[i] == ServerRun(env, w, dt, ups, i + 1).craft.motion.pos
  {
    hide DistanceSquared, ServerRun, ClientRun, QuietRun;
    if IsPrediction(env.sqrt, env.sun, Seen(w), dt, steps, pts) {
      forall i | 0 <= i < |pts| && QuietRun(env, w, dt, ups, i + 1)
        ensures pts[i] == ServerRun(env, w, dt, ups, i + 1).craft.motion.pos
      {
        RunAgrees(env, w, dt, ups, i + 1);
      }
    }
  }
}
