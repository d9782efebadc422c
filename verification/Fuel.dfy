/** Rocket fuel (rockets_tick.go, rockets.go): whole units burnt through an accumulator, and its ledger over runs. */
module Fuel {
  const MAX_FUEL := 100
  const FUEL_BURN := 5.0
  const THRUST_ACCEL := 50.0

  function Abs(x: real): real { if x < 0.0 then -x else x }

  datatype Tank = Tank(fuel: int, accum: real)

  /** What a rocket's fuel depends on. */
  datatype Engine = Engine(tank: Tank, thrust: real, infinite: bool)

  /** The burn loop: whole units leave the tank while there are any. */
  function Burnt(t: Tank): Tank
    decreases t.fuel
  {
    if t.accum >= 1.0 && t.fuel > 0 then Burnt(Tank(t.fuel - 1, t.accum - 1.0)) else t
  }

  function Demand(thrust: real, dt: real): real { FUEL_BURN * dt * Abs(thrust) }

  /** The engine fires: there is thrust, and fuel at the start of the tick. */
  predicate Firing(e: Engine) { e.thrust != 0.0 && e.tank.fuel > 0 }

  function Consumed(e: Engine, dt: real): Engine {
    if !Firing(e) || e.infinite then e
    else e.(tank := Burnt(Tank(e.tank.fuel, e.tank.accum + Demand(e.thrust, dt))))
  }

  /** Thrust acceleration times time of one tick. */
  function Impulse(e: Engine, dt: real): real {
    if Firing(e) then THRUST_ACCEL * Abs(e.thrust) * dt else 0.0
  }

  // ---------------------------------------------------------------------------------------------
  // One tick

  ghost predicate Sound(t: Tank) { 0 <= t.fuel <= MAX_FUEL && t.accum >= 0.0 }

  /** The loop stops with less than a unit pending or an empty tank, and loses nothing in between. */
  lemma {:induction false} BurntIs(t: Tank)
    requires t.fuel >= 0 && t.accum >= 0.0
    ensures var b := Burnt(t);
            && 0 <= b.fuel <= t.fuel && 0.0 <= b.accum <= t.accum && (b.accum < 1.0 || b.fuel == 0)
            && t.fuel as real - t.accum == b.fuel as real - b.accum
    decreases t.fuel
  {
    if t.accum >= 1.0 && t.fuel > 0 {
      BurntIs(Tank(t.fuel - 1, t.accum - 1.0));
    }
  }

  /** Units burnt: the whole part of what is pending, or all there is. */
  lemma {:induction false} BurntCount(t: Tank)
    requires t.fuel >= 0 && t.accum >= 0.0
    ensures var whole := t.accum.Floor;
            Burnt(t) == if whole <= t.fuel then Tank(t.fuel - whole, t.accum - whole as real)
                        else Tank(0, t.accum - t.fuel as real)
  {
    BurntIs(t);
    var b, whole := Burnt(t), t.accum.Floor;
    var k := t.fuel - b.fuel;
    assert b.accum == t.accum - k as real;
  }

  lemma {:induction false} DemandSigned(thrust: real, dt: real)
    requires dt >= 0.0
    ensures Demand(thrust, dt) >= 0.0
  {
    var a := Abs(thrust);
    assert dt * a >= 0.0;
    assert FUEL_BURN * dt * a == FUEL_BURN * (dt * a);
  }

  lemma {:induction false} ConsumedIsSound(e: Engine, dt: real)
    requires Sound(e.tank) && dt >= 0.0
    ensures Sound(Consumed(e, dt).tank) && Consumed(e, dt).tank.fuel <= e.tank.fuel
  {
    hide Demand;
    DemandSigned(e.thrust, dt);
    if Firing(e) && !e.infinite {
      BurntIs(Tank(e.tank.fuel, e.tank.accum + Demand(e.thrust, dt)));
    }
  }

  /** Fuel less the pending amount: what a tick takes out is a tenth of the impulse. */
  function Balance(t: Tank): real { t.fuel as real - t.accum }

  lemma {:induction false} ImpulseIsDemand(e: Engine, dt: real)
    requires Firing(e)
    ensures Impulse(e, dt) == 10.0 * Demand(e.thrust, dt)
  {
    var a := Abs(e.thrust);
    assert THRUST_ACCEL * a * dt == 50.0 * (a * dt);
    assert FUEL_BURN * dt * a == 5.0 * (a * dt);
  }

  lemma {:induction false} TickBalances(e: Engine, dt: real)
    requires Sound(e.tank) && dt >= 0.0 && !e.infinite
    ensures Impulse(e, dt) == 10.0 * (Balance(e.tank) - Balance(Consumed(e, dt).tank))
  {
    hide Demand, Impulse;
    DemandSigned(e.thrust, dt);
    if Firing(e) {
      ImpulseIsDemand(e, dt);
      BurntIs(Tank(e.tank.fuel, e.tank.accum + Demand(e.thrust, dt)));
    } else {
      NoImpulse(e, dt);
    }
  }

  lemma {:induction false} NoImpulse(e: Engine, dt: real)
    requires !Firing(e)
    ensures Impulse(e, dt) == 0.0
  {
  }

  /** A firing tick leaves less than a unit pending exactly when it asked for less than one unit beyond the tank. */
  lemma {:induction false} PendingSmallIff(e: Engine, dt: real)
    requires Sound(e.tank) && dt >= 0.0 && Firing(e) && !e.infinite
    ensures Consumed(e, dt).tank.accum < 1.0 <==> e.tank.accum + Demand(e.thrust, dt) < e.tank.fuel as real + 1.0
  {
    hide Demand;
    DemandSigned(e.thrust, dt);
    BurntIs(Tank(e.tank.fuel, e.tank.accum + Demand(e.thrust, dt)));
  }

  // ---------------------------------------------------------------------------------------------
  // Runs of one rocket: its ticks, its pilot's inputs and its pilot's leaving

  datatype Event =
    | Tick(dt: real)
    | Input(thrust: real, infinite: bool)
    | FreeTick

  function Next(e: Engine, ev: Event): Engine {
    match ev
    case Tick(dt) => Consumed(e, dt)
    case Input(thrust, infinite) =>
      Engine(if infinite then e.tank.(fuel := MAX_FUEL) else e.tank, thrust, infinite)
    case FreeTick => e.(thrust := 0.0)
  }

  function After(e: Engine, run: seq<Event>): Engine
    decreases |run|
  {
    if run == [] then e else After(Next(e, run[0]), run[1..])
  }

  /** A rocket as it is placed. */
  const PLACED := Engine(Tank(MAX_FUEL, 0.0), 0.0, false)

  ghost predicate ForwardInTime(run: seq<Event>) { forall ev :: ev in run ==> ev.Tick? ==> ev.dt >= 0.0 }

  lemma {:induction false} TailForward(run: seq<Event>)
    requires run != [] && ForwardInTime(run)
    ensures ForwardInTime(run[1..]) && (run[0].Tick? ==> run[0].dt >= 0.0)
  {
    assert run[0] in run;
    assert forall ev :: ev in run[1..] ==> ev in run;
  }

  lemma {:induction false} NextIsSound(e: Engine, ev: Event)
    requires Sound(e.tank) && (ev.Tick? ==> ev.dt >= 0.0)
    ensures Sound(Next(e, ev).tank)
  {
    if ev.Tick? { ConsumedIsSound(e, ev.dt); }
  }

  /** 0 <= Fuel <= MaxFuel in every run, with whatever thrust the pilot asks for. */
  lemma {:induction false} RunKeepsSound(e: Engine, run: seq<Event>)
    requires Sound(e.tank) && ForwardInTime(run)
    ensures Sound(After(e, run).tank)
    decreases |run|
  {
    if run != [] {
      TailForward(run);
      NextIsSound(e, run[0]);
      RunKeepsSound(Next(e, run[0]), run[1..]);
    }
  }

  /** Impulse of the ticks that are charged for. */
  function Charged(e: Engine, run: seq<Event>): real
    decreases |run|
  {
    if run == [] then 0.0
    else (if run[0].Tick? && !e.infinite then Impulse(e, run[0].dt) else 0.0) + Charged(Next(e, run[0]), run[1..])
  }

  /** Fuel the infinite-fuel cheat has put back. */
  function Refilled(e: Engine, run: seq<Event>): int
    decreases |run|
  {
    if run == [] then 0
    else (if run[0].Input? && run[0].infinite then MAX_FUEL - e.tank.fuel else 0) + Refilled(Next(e, run[0]), run[1..])
  }

  /** The fuel ledger, for every run. */
  lemma {:induction false} RunLedger(e: Engine, run: seq<Event>)
    requires Sound(e.tank) && ForwardInTime(run)
    ensures Charged(e, run) == 10.0 * (Balance(e.tank) - Balance(After(e, run).tank) + Refilled(e, run) as real)
    decreases |run|
  {
    if run != [] {
      TailForward(run);
      NextIsSound(e, run[0]);
      RunLedger(Next(e, run[0]), run[1..]);
      if run[0].Tick? && !e.infinite { TickBalances(e, run[0].dt); }
    }
  }

  /** A rocket nobody pilots burns nothing until somebody steers it again. */
  lemma {:induction false} PilotlessBurnsNothing(e: Engine, run: seq<Event>)
    requires forall ev :: ev in run ==> !ev.Input?
    ensures After(Next(e, FreeTick), run).tank == e.tank && Charged(Next(e, FreeTick), run) == 0.0
  {
    IdleBurnsNothing(Next(e, FreeTick), run);
  }

  lemma {:induction false} IdleBurnsNothing(e: Engine, run: seq<Event>)
    requires e.thrust == 0.0 && forall ev :: ev in run ==> !ev.Input?
    ensures After(e, run) == e && Charged(e, run) == 0.0
    decreases |run|
  {
    if run != [] {
      assert run[0] in run && forall ev :: ev in run[1..] ==> ev in run;
      IdleBurnsNothing(e, run[1..]);
    }
  }

  ghost predicate NoCheat(run: seq<Event>) { forall ev :: ev in run ==> ev.Input? ==> !ev.infinite }

  lemma {:induction false} NothingRefilled(e: Engine, run: seq<Event>)
    requires NoCheat(run) && !e.infinite
    ensures Refilled(e, run) == 0 && !After(e, run).infinite
    decreases |run|
  {
    if run != [] {
      assert run[0] in run;
      assert forall ev :: ev in run[1..] ==> ev in run;
      NothingRefilled(Next(e, run[0]), run[1..]);
    }
  }

  /** A pilot within the documented range, at five ticks a second or more. */
  ghost predicate Gentle(run: seq<Event>) {
    forall ev :: ev in run ==> (ev.Input? ==> -1.0 <= ev.thrust <= 1.0) && (ev.Tick? ==> 0.0 <= ev.dt <= 0.2)
  }

  lemma {:induction false} GentleDemand(thrust: real, dt: real)
    requires -1.0 <= thrust <= 1.0 && 0.0 <= dt <= 0.2
    ensures 0.0 <= Demand(thrust, dt) <= 1.0
  {
    DemandSigned(thrust, dt);
    var a := Abs(thrust);
    assert dt * a <= dt;
    assert FUEL_BURN * dt * a == 5.0 * (dt * a);
  }

  /** Less than a unit is ever pending. */
  lemma {:induction false} GentlePending(e: Engine, run: seq<Event>)
    requires Sound(e.tank) && e.tank.accum < 1.0 && -1.0 <= e.thrust <= 1.0 && Gentle(run)
    ensures After(e, run).tank.accum < 1.0
    decreases |run|
  {
    hide Demand;
    if run != [] {
      var ev := run[0];
      assert ev in run;
      assert forall x :: x in run[1..] ==> x in run;
      NextIsSound(e, ev);
      if ev.Tick? && Firing(e) && !e.infinite {
        GentleDemand(e.thrust, ev.dt);
        PendingSmallIff(e, ev.dt);
      }
      GentlePending(Next(e, ev), run[1..]);
    }
  }

  /** A gentle run gets less than 10 (Fuel + 1) of impulse out of its fuel. */
  lemma {:induction false} ImpulseBound(e: Engine, run: seq<Event>)
    requires Sound(e.tank) && e.tank.accum < 1.0 && -1.0 <= e.thrust <= 1.0 && !e.infinite
    requires Gentle(run) && NoCheat(run)
    ensures Charged(e, run) < 10.0 * (e.tank.fuel as real + 1.0)
  {
    RunLedger(e, run);
    NothingRefilled(e, run);
    GentlePending(e, run);
    RunKeepsSound(e, run);
  }

  /** The guard of one event: a charged tick asks for less than one unit beyond the tank. */
  predicate WithinTank(e: Engine, ev: Event) {
    ev.Tick? && Firing(e) && !e.infinite ==> e.tank.accum + Demand(e.thrust, ev.dt) < e.tank.fuel as real + 1.0
  }

  ghost predicate AllWithinTank(e: Engine, run: seq<Event>)
    decreases |run|
  {
    run != [] ==> WithinTank(e, run[0]) && AllWithinTank(Next(e, run[0]), run[1..])
  }

  /** At no time has the engine drawn as much as `worth`. */
  ghost predicate NeverDraws(e: Engine, run: seq<Event>, worth: real) {
    forall k :: 0 <= k <= |run| ==> Charged(e, run[..k]) < worth
  }

  lemma {:induction false} PrefixCharge(e: Engine, run: seq<Event>, k: nat)
    requires 0 < k <= |run|
    ensures Charged(e, run[..k]) ==
            (if run[0].Tick? && !e.infinite then Impulse(e, run[0].dt) else 0.0) +
            Charged(Next(e, run[0]), run[1..][..k - 1])
  {
    assert run[..k][0] == run[0] && run[..k][1..] == run[1..][..k - 1];
  }

  lemma {:induction false} NeverDrawsStep(e: Engine, run: seq<Event>, first: real, worth: real)
    requires run != [] && worth > 0.0 && first == if run[0].Tick? && !e.infinite then Impulse(e, run[0].dt) else 0.0
    ensures NeverDraws(e, run, worth) <==> NeverDraws(Next(e, run[0]), run[1..], worth - first)
  {
    hide Impulse, Next;
    var next, rest := Next(e, run[0]), run[1..];
    assert run[..0] == [];
    if NeverDraws(e, run, worth) {
      forall k | 0 <= k <= |rest| ensures Charged(next, rest[..k]) < worth - first {
        PrefixCharge(e, run, k + 1);
      }
    }
    if NeverDraws(next, rest, worth - first) {
      forall k | 0 <= k <= |run| ensures Charged(e, run[..k]) < worth {
        if k > 0 { PrefixCharge(e, run, k); }
      }
    }
  }

  /** What an uncharged or charged event does to the balance, and when it leaves more than one unit of debt. */
  lemma {:induction false} EventBalance(e: Engine, ev: Event)
    requires Sound(e.tank) && !e.infinite && (ev.Tick? ==> ev.dt >= 0.0) && (ev.Input? ==> !ev.infinite)
    requires Balance(e.tank) > -1.0
    ensures var first := if ev.Tick? then Impulse(e, ev.dt) else 0.0;
            first == 10.0 * (Balance(e.tank) - Balance(Next(e, ev).tank))
    ensures Balance(Next(e, ev).tank) > -1.0 <==> WithinTank(e, ev)
    ensures !Next(e, ev).infinite
  {
    hide Impulse, Demand;
    if ev.Tick? {
      TickBalances(e, ev.dt);
      if Firing(e) { ImpulseIsDemand(e, ev.dt); } else { NoImpulse(e, ev.dt); }
    }
  }

  lemma {:induction false} DrawsAtOnce(e: Engine, run: seq<Event>, worth: real)
    requires worth <= 0.0
    ensures !NeverDraws(e, run, worth)
  {
    assert run[..0] == [] && Charged(e, run[..0]) == 0.0;
  }

  lemma {:induction false} DrawsIff(e: Engine, run: seq<Event>)
    requires Sound(e.tank) && !e.infinite && ForwardInTime(run) && NoCheat(run) && Balance(e.tank) > -1.0
    ensures NeverDraws(e, run, 10.0 * (Balance(e.tank) + 1.0)) <==> AllWithinTank(e, run)
    decreases |run|
  {
    hide WithinTank, NeverDraws, Impulse, Next, Balance;
    if run == [] {
      EmptyDraws(e, 10.0 * (Balance(e.tank) + 1.0));
    } else {
      var ev, rest := run[0], run[1..];
      TailForward(run);
      assert ev in run;
      assert forall x :: x in rest ==> x in run;
      NextIsSound(e, ev);
      EventBalance(e, ev);
      var next := Next(e, ev);
      var first := if ev.Tick? then Impulse(e, ev.dt) else 0.0;
      NeverDrawsStep(e, run, first, 10.0 * (Balance(e.tank) + 1.0));
      if Balance(next.tank) > -1.0 {
        DrawsIff(next, rest);
      } else {
        DrawsAtOnce(next, rest, 10.0 * (Balance(next.tank) + 1.0));
      }
    }
  }

  lemma {:induction false} EmptyDraws(e: Engine, worth: real)
    requires worth > 0.0
    ensures NeverDraws(e, [], worth)
  {
  }

  /**
   A placed rocket stays below 10 (MaxFuel + 1) of impulse at all times exactly when each charged tick
   asks for less than one unit beyond the tank.
   */
  lemma {:induction false} ImpulseBoundIff(run: seq<Event>)
    requires ForwardInTime(run) && NoCheat(run)
    ensures (forall k :: 0 <= k <= |run| ==> Charged(PLACED, run[..k]) < 10.0 * (MAX_FUEL as real + 1.0))
            <==> AllWithinTank(PLACED, run)
  {
    DrawsIff(PLACED, run);
  }

  /** The server does not clamp the thrust: one input of 1000 gets 2500 out of a tank worth 1010. */
  lemma {:induction false} UnclampedThrust()
    ensures var run := [Input(1000.0, false), Tick(0.05)];
            Charged(PLACED, run) == 2500.0 && After(PLACED, run).tank == Tank(0, 150.0)
  {
    var input, tick := Input(1000.0, false), Tick(0.05);
    var run := [input, tick];
    assert run[1..] == [tick] && [tick][1..] == [];
    var e1 := Next(PLACED, input);
    assert e1 == Engine(Tank(100, 0.0), 1000.0, false);
    assert Demand(1000.0, 0.05) == 250.0;
    var e2 := Next(e1, tick);
    BurntCount(Tank(100, 250.0));
    assert e2.tank == Tank(0, 150.0);
    assert Charged(e2, []) == 0.0 && Charged(e1, [tick]) == 2500.0;
    assert After(e2, []) == e2 && After(e1, [tick]) == e2;
  }
}
