/** Solar panels, batteries and the factory (energy.go). */
module Energy {
  import opened Geometry
  import opened Sums
  import opened Inventory
  import opened Mobs
  import opened Nearest

  const ENERGY_LINK_RADIUS_D2 := 100.0
  const SOLAR_ENERGY_PER_SEC := 5
  const BATTERY_MAX_ENERGY := 1000

  datatype Battery = Battery(pos: Vec, energy: int, maxEnergy: int)

  type Batteries = map<Id, Battery>

  function Positions(bs: Batteries): map<Id, Vec> { map k | k in bs :: bs[k].pos }

  function EnergyOf(): Battery -> int { (b: Battery) => b.energy }

  ghost function Stored(bs: Batteries): int { SumBy(bs, EnergyOf()) }

  ghost predicate WithinBounds(bs: Batteries) { forall k :: k in bs ==> 0 <= bs[k].energy <= bs[k].maxEnergy }

  /** The integer energy one panel yields per tick: a fixed-point product truncated twice. */
  function EnergyPerPanel(tickRate: int): int
    requires tickRate > 0
  {
    (SOLAR_ENERGY_PER_SEC as real * (1.0 / tickRate as real) * 100.0).Floor / 100
  }

  /** The two truncations amount to one integer division, so above 5 Hz a panel yields nothing. */
  lemma {:induction false} EnergyPerPanelIsQuotient(tickRate: int)
    requires tickRate > 0
    ensures EnergyPerPanel(tickRate) == SOLAR_ENERGY_PER_SEC / tickRate
    ensures tickRate > SOLAR_ENERGY_PER_SEC ==> EnergyPerPanel(tickRate) == 0
  {
    var r := tickRate as real;
    var q, s := SOLAR_ENERGY_PER_SEC / tickRate, SOLAR_ENERGY_PER_SEC % tickRate;
    var x := SOLAR_ENERGY_PER_SEC as real * (1.0 / r) * 100.0;
    var part := 100.0 * s as real / r;
    assert x == 100.0 * q as real + part by {
      assert SOLAR_ENERGY_PER_SEC as real == q as real * r + s as real;
      assert x * r == 500.0;
    }
    assert 0.0 <= part < 100.0;
    assert x.Floor == 100 * q + part.Floor;
  }

  // ---------------------------------------------------------------------------------------------
  // tickEnergy

  function Charge(bs: Batteries, target: Option<Id>, gain: int): Batteries {
    if target.None? || target.value !in bs then bs
    else
      var b := bs[target.value];
      var raised := b.energy + gain;
      bs[target.value := b.(energy := if raised > b.maxEnergy then b.maxEnergy else raised)]
  }

  function ChargeAll(bs: Batteries, targets: seq<Option<Id>>, gain: int): Batteries {
    if targets == [] then bs else ChargeAll(Charge(bs, targets[0], gain), targets[1..], gain)
  }

  /** Each panel feeds a battery nearest to it; charging moves no battery. */
  ghost predicate TargetsOf(points: map<Id, Vec>, panels: seq<Vec>, targets: seq<Option<Id>>) {
    |targets| == |panels| &&
    forall i :: 0 <= i < |panels| ==> IsNearest(points, panels[i], ENERGY_LINK_RADIUS_D2, targets[i])
  }

  lemma {:induction false} NearestIsThere(bs: Batteries, pos: Vec, best: Option<Id>)
    requires IsNearest(Positions(bs), pos, ENERGY_LINK_RADIUS_D2, best)
    ensures best.Some? ==> best.value in bs
  {
    hide DistanceSquared;
  }

  lemma {:induction false} NothingCharged(bs: Batteries, gain: int)
    ensures ChargeAll(bs, [], gain) == bs
  {
  }

  lemma {:induction false} OneTargetEach(points: map<Id, Vec>, panels: seq<Vec>, targets: seq<Option<Id>>)
    requires TargetsOf(points, panels, targets)
    ensures |targets| == |panels|
  {
  }

  lemma {:induction false} NoTargets(points: map<Id, Vec>)
    ensures TargetsOf(points, [], [])
  {
  }

  lemma {:induction false} TargetsAppend(
    points: map<Id, Vec>, panels: seq<Vec>, targets: seq<Option<Id>>, panel: Vec, best: Option<Id>)
    requires TargetsOf(points, panels, targets) && IsNearest(points, panel, ENERGY_LINK_RADIUS_D2, best)
    ensures TargetsOf(points, panels + [panel], targets + [best])
  {
    hide IsNearest;
  }

  lemma {:induction false} ChargeAllAppend(bs: Batteries, targets: seq<Option<Id>>, last: Option<Id>, gain: int)
    ensures ChargeAll(bs, targets + [last], gain) == Charge(ChargeAll(bs, targets, gain), last, gain)
    decreases |targets|
  {
    if targets == [] {
      assert targets + [last] == [last];
      assert ChargeAll(Charge(bs, last, gain), [], gain) == Charge(bs, last, gain);
    } else {
      assert (targets + [last])[1..] == targets[1..] + [last];
      ChargeAllAppend(Charge(bs, targets[0], gain), targets[1..], last, gain);
    }
  }

  lemma {:induction false} ChargeBounds(bs: Batteries, target: Option<Id>, gain: int)
    requires WithinBounds(bs) && gain >= 0
    ensures WithinBounds(Charge(bs, target, gain)) && Positions(Charge(bs, target, gain)) == Positions(bs)
    ensures Stored(bs) <= Stored(Charge(bs, target, gain)) <= Stored(bs) + gain
  {
    if target.Some? && target.value in bs {
      SumReplace(bs, EnergyOf(), target.value, Charge(bs, target, gain)[target.value]);
    }
  }

  lemma {:induction false} ChargeAllBounds(bs: Batteries, targets: seq<Option<Id>>, gain: int)
    requires WithinBounds(bs) && gain >= 0
    ensures WithinBounds(ChargeAll(bs, targets, gain)) && Positions(ChargeAll(bs, targets, gain)) == Positions(bs)
    ensures Stored(bs) <= Stored(ChargeAll(bs, targets, gain)) <= Stored(bs) + |targets| * gain
    decreases |targets|
  {
    if targets != [] {
      var once := Charge(bs, targets[0], gain);
      ChargeBounds(bs, targets[0], gain);
      ChargeAllBounds(once, targets[1..], gain);
      assert gain + (|targets| - 1) * gain == |targets| * gain;
    }
  }

  function AtMost(n: int, limit: int): int { if n > limit then limit else n }

  lemma {:induction false} OneTarget(targets: seq<Option<Id>>, id: Id, gain: int)
    requires targets != []
    ensures multiset(targets)[Some(id)] * gain ==
            (if targets[0] == Some(id) then gain else 0) + multiset(targets[1..])[Some(id)] * gain
  {
    assert targets == [targets[0]] + targets[1..];
    var n := multiset(targets[1..])[Some(id)];
    assert (1 + n) * gain == gain + n * gain;
  }

  lemma {:induction false} ChargeOne(bs: Batteries, target: Option<Id>, gain: int, id: Id)
    requires id in bs
    ensures var b := bs[id];
            id in Charge(bs, target, gain) &&
            Charge(bs, target, gain)[id] ==
            if target != Some(id) then b
            else b.(energy := if b.energy + gain > b.maxEnergy then b.maxEnergy else b.energy + gain)
  {
  }

  /** Each battery gains the yield of every panel that feeds it, up to its maximum, and nothing else changes. */
  lemma {:induction false} ChargeAllClosedForm(bs: Batteries, targets: seq<Option<Id>>, gain: int, id: Id)
    requires id in bs && gain >= 0 && bs[id].energy <= bs[id].maxEnergy
    ensures var b := bs[id];
            id in ChargeAll(bs, targets, gain) &&
            ChargeAll(bs, targets, gain)[id] ==
            b.(energy := AtMost(b.energy + multiset(targets)[Some(id)] * gain, b.maxEnergy))
    decreases |targets|
  {
    hide Charge;
    if targets != [] {
      ChargeOne(bs, targets[0], gain, id);
      ChargeAllClosedForm(Charge(bs, targets[0], gain), targets[1..], gain, id);
      OneTarget(targets, id, gain);
    }
  }

  /** Battery by battery: the yield `gain` of each panel in `targets` that feeds it, up to the maximum. */
  ghost predicate EachCharged(before: Batteries, targets: seq<Option<Id>>, gain: int, after: Batteries) {
    && after.Keys == before.Keys
    && forall id :: id in before ==>
         var b := before[id];
         after[id] == b.(energy := AtMost(b.energy + multiset(targets)[Some(id)] * gain, b.maxEnergy))
  }

  lemma {:induction false} AllCharged(bs: Batteries, targets: seq<Option<Id>>, gain: int)
    requires WithinBounds(bs) && gain >= 0
    ensures EachCharged(bs, targets, gain, ChargeAll(bs, targets, gain))
  {
    forall id | id in bs
      ensures var b := bs[id];
              id in ChargeAll(bs, targets, gain) &&
              ChargeAll(bs, targets, gain)[id] ==
              b.(energy := AtMost(b.energy + multiset(targets)[Some(id)] * gain, b.maxEnergy))
    {
      ChargeAllClosedForm(bs, targets, gain, id);
    }
    ChargeAllBounds(bs, targets, gain);
    assert Positions(bs).Keys == bs.Keys;
  }

  lemma {:induction false} AtMostIs(n: int, limit: int)
    ensures AtMost(n, limit) <= n && AtMost(n, limit) <= limit && (AtMost(n, limit) == n || AtMost(n, limit) == limit)
  {
  }

  // ---------------------------------------------------------------------------------------------
  // The factory

  datatype Plan = Plan(recipe: Recipe, energy: int)

  function FactoryPlan(need: Inv, energy: int, out: string): Plan { Plan(Recipe(need, Item(out), 1), energy) }

  function FactoryRecipe(id: string): (r: Option<Plan>)
    ensures r.Some? ==> && r.value.energy >= 10 && r.value.recipe.outQty == 1
                        && forall k :: k in r.value.recipe.need ==> r.value.recipe.need[k] > 0
  {
    if id == "steel" then Some(FactoryPlan(map[Item("ore") := 5], 10, "steel"))
    else if id == "gear" then Some(FactoryPlan(map[Item("stone") := 2, Item("wood") := 2], 20, "gear"))
    else if id == "circuit" then Some(FactoryPlan(map[Item("ore") := 3, Item("liana") := 1], 50, "circuit"))
    else if id == "drone" then Some(FactoryPlan(map[Item("gear") := 1, Item("circuit") := 1], 100, "drone"))
    else if id == "rocket" then
      Some(FactoryPlan(map[Item("circuit") := 3, Item("steel") := 5, Item("gear") := 2], 500, "rocket"))
    else None
  }

  /** The inventory after a craft, item by item. */
  ghost predicate CraftedFrom(before: Inv, after: Inv, r: Recipe) {
    forall k :: Count(after, k) == Count(before, k) - Count(r.need, k) + (if k == r.out then r.outQty else 0)
  }

  /** The batteries of the world and the inventory of the client whose mutex is held. */
  class Grid {
    var batteries: Batteries
    var inventory: Inv

    constructor ()
      ensures batteries == map[] && inventory == map[]
    {
      batteries, inventory := map[], map[];
    }

    /** nearestBatteryLocked. */
    method NearestBattery(pos: Vec) returns (best: Option<Id>)
      ensures IsNearest(Positions(batteries), pos, ENERGY_LINK_RADIUS_D2, best)
    {
      var d2;
      best, d2 := FindNearest(Positions(batteries), pos, ENERGY_LINK_RADIUS_D2);
    }

    /** tickEnergy after its snapshot of the panels, in whatever order they came. */
    method TickEnergy(panels: seq<Vec>, tickRate: int) returns (ghost targets: seq<Option<Id>>)
      requires tickRate > 0 && WithinBounds(batteries)
      modifies this`batteries
      ensures TargetsOf(Positions(old(batteries)), panels, targets)
      ensures batteries == ChargeAll(old(batteries), targets, EnergyPerPanel(tickRate))
      ensures EachCharged(old(batteries), targets, 5 / tickRate, batteries)
      ensures WithinBounds(batteries)
      ensures Stored(batteries) <= old(Stored(batteries)) + |panels| * (SOLAR_ENERGY_PER_SEC / tickRate)
    {
      hide EachCharged, EnergyPerPanel, TargetsOf, IsNearest, ChargeAll, WithinBounds;
      NoTargets(Positions(batteries));
      EnergyPerPanelIsQuotient(tickRate);
      var gain := EnergyPerPanel(tickRate);
      NothingCharged(batteries, gain);
      targets := [];
      for i := 0 to |panels|
        invariant TargetsOf(Positions(old(batteries)), panels[..i], targets)
        invariant batteries == ChargeAll(old(batteries), targets, gain)
        invariant Positions(batteries) == Positions(old(batteries))
      {
        var best := NearestBattery(panels[i]);
        NearestIsThere(batteries, panels[i], best);
        if best.Some? {
          var b := batteries[best.value];
          b := b.(energy := b.energy + gain);
          if b.energy > b.maxEnergy {
            b := b.(energy := b.maxEnergy);
          }
          batteries := batteries[best.value := b];
        }
        ChargeAllAppend(old(batteries), targets, best, gain);
        TargetsAppend(Positions(old(batteries)), panels[..i], targets, panels[i], best);
        assert panels[..i + 1] == panels[..i] + [panels[i]];
        targets := targets + [best];
        ChargeAllBounds(old(batteries), targets, gain);
      }
      assert panels[..|panels|] == panels;
      ChargeAllBounds(old(batteries), targets, gain);
      AllCharged(old(batteries), targets, gain);
      OneTargetEach(Positions(old(batteries)), panels, targets);
    }

    method HasAll(r: Recipe) returns (ok: bool)
      ensures ok == CanCraft(inventory, r)
    {
      var left := r.need.Keys;
      while left != {}
        invariant left <= r.need.Keys
        invariant forall k :: k in r.need && k !in left ==> Count(inventory, k) >= r.need[k]
      {
        var item :| item in left;
        if Count(inventory, item) < r.need[item] {
          return false;
        }
        left := left - {item};
      }
      return true;
    }

    method Debit(r: Recipe)
      requires CanCraft(inventory, r)
      modifies this`inventory
      ensures forall k :: Count(inventory, k) == old(Count(inventory, k)) - Count(r.need, k)
    {
      var left := r.need.Keys;
      while left != {}
        invariant left <= r.need.Keys
        invariant forall k :: Count(inventory, k) ==
                              old(Count(inventory, k)) - (if k in left then 0 else Count(r.need, k))
      {
        var item :| item in left;
        ghost var was := inventory;
        inventory := inventory[item := Count(inventory, item) - r.need[item]];
        if inventory[item] <= 0 {
          assert inventory[item] == 0;
          inventory := inventory - {item};
        }
        assert forall k :: k != item ==> Count(inventory, k) == Count(was, k);
        left := left - {item};
      }
    }

    /**
     tryCraftFactory: either nothing changes, or exactly the recipe is debited, the output credited and
     the recipe's energy taken from one battery, a nearest one within the link radius.
     */
    method TryCraft(pos: Vec, plan: Plan) returns (ok: bool, best: Option<Id>)
      modifies this
      ensures ok ==> && best.Some? && IsNearest(Positions(old(batteries)), pos, ENERGY_LINK_RADIUS_D2, best)
                     && old(batteries)[best.value].energy >= plan.energy
                     && batteries == old(batteries)[best.value :=
                          old(batteries)[best.value].(energy := old(batteries)[best.value].energy - plan.energy)]
                     && CanCraft(old(inventory), plan.recipe) && CraftedFrom(old(inventory), inventory, plan.recipe)
      ensures !ok ==> batteries == old(batteries) && inventory == old(inventory)
      ensures !ok && CanCraft(inventory, plan.recipe) ==>
                && IsNearest(Positions(batteries), pos, ENERGY_LINK_RADIUS_D2, best)
                && (best.Some? ==> batteries[best.value].energy < plan.energy)
    {
      best := None;
      ok := HasAll(plan.recipe);
      if !ok {
        return;
      }
      best := NearestBattery(pos);
      if best.None? || batteries[best.value].energy < plan.energy {
        return false, best;
      }
      var b := batteries[best.value];
      batteries := batteries[best.value := b.(energy := b.energy - plan.energy)];
      Debit(plan.recipe);
      inventory := inventory[plan.recipe.out := Count(inventory, plan.recipe.out) + plan.recipe.outQty];
    }
  }

  // ---------------------------------------------------------------------------------------------
  // Whole runs

  /** `seen` is the panel snapshot of the current tick; `budget` and `spent` are book-keeping. */
  datatype State = State(panels: map<Id, Vec>, batteries: Batteries, seen: seq<Vec>,
                         budget: int, spent: int, crafts: int)

  datatype Step =
    | PlacePanel(id: Id, pos: Vec)
    | PlaceBattery(id: Id, pos: Vec)
    | Look(order: seq<Id>)                       // tickEnergy copies the panels, in map order
    | Shine(targets: seq<Option<Id>>)            // and then charges
    | Craft(battery: Id, recipe: string)         // the energy side of a successful craft

  ghost predicate Enabled(s: State, step: Step) {
    match step
    case PlacePanel(id, _) => id !in s.panels
    case PlaceBattery(id, _) => id !in s.batteries
    case Look(order) =>
      && (forall i, j :: 0 <= i < j < |order| ==> order[i] != order[j])
      && (forall id :: id in order <==> id in s.panels)
    case Shine(targets) => TargetsOf(Positions(s.batteries), s.seen, targets)
    case Craft(id, r) =>
      id in s.batteries && FactoryRecipe(r).Some? && s.batteries[id].energy >= FactoryRecipe(r).value.energy
  }

  ghost function Apply(s: State, step: Step, tickRate: int): State
    requires tickRate > 0 && Enabled(s, step)
  {
    match step
    case PlacePanel(id, pos) => s.(panels := s.panels[id := pos])
    case PlaceBattery(id, pos) => s.(batteries := s.batteries[id := Battery(pos, 0, BATTERY_MAX_ENERGY)])
    case Look(order) => s.(seen := seq(|order|, i requires 0 <= i < |order| => s.panels[order[i]]))
    case Shine(targets) =>
      s.(batteries := ChargeAll(s.batteries, targets, EnergyPerPanel(tickRate)), seen := [],
         budget := s.budget + |s.seen| * (SOLAR_ENERGY_PER_SEC / tickRate))
    case Craft(id, r) =>
      var cost := FactoryRecipe(r).value.energy;
      s.(batteries := s.batteries[id := s.batteries[id].(energy := s.batteries[id].energy - cost)],
         spent := s.spent + cost, crafts := s.crafts + 1)
  }

  ghost predicate Solvent(s: State) {
    WithinBounds(s.batteries) && 0 <= s.spent && 10 * s.crafts <= s.spent && Stored(s.batteries) + s.spent <= s.budget
  }

  ghost predicate IsRun(s: State, steps: seq<Step>, tickRate: int)
    requires tickRate > 0
    decreases |steps|
  {
    steps == [] || (Enabled(s, steps[0]) && IsRun(Apply(s, steps[0], tickRate), steps[1..], tickRate))
  }

  ghost function After(s: State, steps: seq<Step>, tickRate: int): State
    requires tickRate > 0 && IsRun(s, steps, tickRate)
    decreases |steps|
  {
    if steps == [] then s else After(Apply(s, steps[0], tickRate), steps[1..], tickRate)
  }

  const EMPTY := State(map[], map[], [], 0, 0, 0)

  lemma {:induction false} StepKeepsSolvent(s: State, step: Step, tickRate: int)
    requires tickRate > 0 && Solvent(s) && Enabled(s, step)
    ensures Solvent(Apply(s, step, tickRate))
  {
    match step
    case PlaceBattery(id, pos) => SumInsert(s.batteries, EnergyOf(), id, Battery(pos, 0, BATTERY_MAX_ENERGY));
    case Shine(targets) =>
      EnergyPerPanelIsQuotient(tickRate);
      ChargeAllBounds(s.batteries, targets, EnergyPerPanel(tickRate));
    case Craft(id, r) =>
      SumReplace(s.batteries, EnergyOf(), id,
                 s.batteries[id].(energy := s.batteries[id].energy - FactoryRecipe(r).value.energy));
    case _ =>
  }

  /** In every run no battery leaves its bounds, and energy stored plus spent never exceeds what panels gave. */
  lemma {:induction false} EnergyNeverCreated(s: State, steps: seq<Step>, tickRate: int)
    requires tickRate > 0 && Solvent(s) && IsRun(s, steps, tickRate)
    ensures Solvent(After(s, steps, tickRate))
    ensures tickRate > SOLAR_ENERGY_PER_SEC ==> After(s, steps, tickRate).budget == s.budget
    decreases |steps|
  {
    if steps != [] {
      StepKeepsSolvent(s, steps[0], tickRate);
      EnergyNeverCreated(Apply(s, steps[0], tickRate), steps[1..], tickRate);
    }
  }

  const PANEL := Id("0")
  const CELL := Id("1")

  /** One panel next to one battery. */
  function Plant(e: int, seen: seq<Vec>, budget: int): State {
    State(map[PANEL := ZERO], map[CELL := Battery(ZERO, e, BATTERY_MAX_ENERGY)], seen, budget, 0, 0)
  }

  lemma {:induction false} PlantLook(e: int, budget: int, tickRate: int)
    requires tickRate > 0
    ensures Enabled(Plant(e, [], budget), Look([PANEL]))
    ensures Apply(Plant(e, [], budget), Look([PANEL]), tickRate) == Plant(e, [ZERO], budget)
  {
  }

  lemma {:induction false} PlantTargets(e: int)
    ensures TargetsOf(Positions(map[CELL := Battery(ZERO, e, BATTERY_MAX_ENERGY)]), [ZERO], [Some(CELL)])
  {
    hide DistanceSquared;
    var points := Positions(map[CELL := Battery(ZERO, e, BATTERY_MAX_ENERGY)]);
    NearestOfOne(points, CELL, ZERO, ENERGY_LINK_RADIUS_D2);
    var panels, targets := [ZERO], [Some(CELL)];
    forall i | 0 <= i < |panels| ensures IsNearest(points, panels[i], ENERGY_LINK_RADIUS_D2, targets[i]) {
      assert panels[i] == ZERO && targets[i] == Some(CELL);
    }
  }

  lemma {:induction false} CellCharges(e: int, gain: int)
    requires 0 <= e <= 10 && 0 <= gain <= SOLAR_ENERGY_PER_SEC
    ensures ChargeAll(map[CELL := Battery(ZERO, e, BATTERY_MAX_ENERGY)], [Some(CELL)], gain) ==
            map[CELL := Battery(ZERO, e + gain, BATTERY_MAX_ENERGY)]
  {
    var bs: Batteries := map[CELL := Battery(ZERO, e, BATTERY_MAX_ENERGY)];
    assert Charge(bs, Some(CELL), gain) == map[CELL := Battery(ZERO, e + gain, BATTERY_MAX_ENERGY)];
    assert ChargeAll(bs, [Some(CELL)], gain) == ChargeAll(Charge(bs, Some(CELL), gain), [], gain);
  }

  lemma {:induction false} PlantShine(e: int, budget: int, tickRate: int, gain: int)
    requires tickRate > 0 && 0 <= e <= 10 && gain == SOLAR_ENERGY_PER_SEC / tickRate
    ensures Enabled(Plant(e, [ZERO], budget), Shine([Some(CELL)]))
    ensures Apply(Plant(e, [ZERO], budget), Shine([Some(CELL)]), tickRate) == Plant(e + gain, [], budget + gain)
  {
    hide DistanceSquared, EnergyPerPanel, ChargeAll;
    EnergyPerPanelIsQuotient(tickRate);
    PlantTargets(e);
    CellCharges(e, gain);
  }

  /** Below that rate the plant reaches the ten units the cheapest recipe needs. */
  lemma {:induction false} PlantCrafts(e: int, budget: int, tickRate: int) returns (steps: seq<Step>)
    requires 0 < tickRate <= SOLAR_ENERGY_PER_SEC && e >= 0
    ensures IsRun(Plant(e, [], budget), steps, tickRate) && After(Plant(e, [], budget), steps, tickRate).crafts > 0
    decreases 10 - e
  {
    hide DistanceSquared, EnergyPerPanel;
    var s := Plant(e, [], budget);
    if e >= 10 {
      steps := [Craft(CELL, "steel")];
      assert IsRun(Apply(s, steps[0], tickRate), steps[1..], tickRate);
    } else {
      var gain := SOLAR_ENERGY_PER_SEC / tickRate;
      var rest := PlantCrafts(e + gain, budget + gain, tickRate);
      PlantLook(e, budget, tickRate);
      PlantShine(e, budget, tickRate, gain);
      var tail := [Shine([Some(CELL)])] + rest;
      steps := [Look([PANEL])] + tail;
      assert tail[1..] == rest && steps[1..] == tail;
      assert IsRun(Plant(e, [ZERO], budget), tail, tickRate);
    }
  }

  ghost predicate SomeRunCrafts(tickRate: int)
    requires tickRate > 0
  {
    exists steps :: IsRun(EMPTY, steps, tickRate) && After(EMPTY, steps, tickRate).crafts > 0
  }

  /** At any tick rate above 5 Hz (the server runs at 20) no factory craft succeeds in any run. */
  lemma {:induction false} NoCraftAboveFiveHertz(steps: seq<Step>, tickRate: int)
    requires tickRate > SOLAR_ENERGY_PER_SEC && IsRun(EMPTY, steps, tickRate)
    ensures After(EMPTY, steps, tickRate).crafts <= 0
    ensures var bs := After(EMPTY, steps, tickRate).batteries; forall k :: k in bs ==> bs[k].energy == 0
  {
    EnergyNeverCreated(EMPTY, steps, tickRate);
    SumNonNegative(After(EMPTY, steps, tickRate).batteries, EnergyOf());
  }

  /** A factory can ever craft exactly when the server ticks at most five times a second. */
  lemma {:induction false} CraftPossibleIff(tickRate: int)
    requires tickRate > 0
    ensures SomeRunCrafts(tickRate) <==> tickRate <= SOLAR_ENERGY_PER_SEC
  {
    if tickRate > SOLAR_ENERGY_PER_SEC {
      forall steps | IsRun(EMPTY, steps, tickRate) ensures After(EMPTY, steps, tickRate).crafts <= 0 {
        NoCraftAboveFiveHertz(steps, tickRate);
      }
    } else {
      var rest := PlantCrafts(0, 0, tickRate);
      var tail := [PlaceBattery(CELL, ZERO)] + rest;
      var steps := [PlacePanel(PANEL, ZERO)] + tail;
      var s1 := Apply(EMPTY, steps[0], tickRate);
      assert tail[1..] == rest && steps[1..] == tail;
      assert Apply(s1, tail[0], tickRate) == Plant(0, [], 0);
      assert IsRun(s1, tail, tickRate);
      assert IsRun(EMPTY, steps, tickRate) && After(EMPTY, steps, tickRate).crafts > 0;
    }
  }
}
