# LODEEN, verified

LODEEN is a game world run by one server at 20 ticks a second: one goroutine for each connection and one for
the tick, over shared stores guarded by read-write mutexes, with thin clients that predict and interpolate.
This project models its hard core in Dafny and proves what every run of it keeps.

* **Concurrency.** `LockDiscipline` lists the lock nestings of all handlers and tick phases and proves that no run of
  any number of goroutines deadlocks under Go's `RWMutex` rules. `World`, `Ledger`, `Mobs`, `MobServer` and `Inventory`
  treat a run as any interleaving of critical sections and prove the item ledger, exactly-once kills and the
  contract state machine. `Ownership` does the same for rockets, boats and mammoths, `Energy` (with `Nearest` and
  `Sums`) for batteries and factories.
* **Celestial mechanics.** `Bodies` proves what the planet integrator conserves, `Orbit` that the reported apsides
  are the exact range of the motion they are computed from, `Rockets` and `Fuel` model one tick of a piloted rocket and its fuel, and
  `Trajectory` proves that the client's prediction is the server's computation.
* **Client buffers and codecs.** `Interpolation`, `Slots`, `SegSphere`, `Frames` and `Text`.

Code that works in place is modelled in place: classes with the source's fields, loops over arrays and maps in
arbitrary iteration order. Each such method is tied to a specification function, and the theorems are about those.

Modelling choices. Floating point is `real`; `math.Sqrt` is a function parameter with `sqrt(x) * sqrt(x) == x`;
`exp` and the terrain are arbitrary functions with the bounds a lemma names. `newID` returns ids not seen
before. Ranges, clocks, inventories that a section only tests and the outcome of steering are arbitrary
parameters. A handler that fails its tests changes nothing, so it needs no step of its own. Where a section
handles a list (hits, drops), the state machine takes one element at a time: more interleavings than the server has.

What turned out not to hold, each with a witness and the exact condition:

* `InOrbit` near the Earth is computed from the velocity relative to the Sun, so it tells orbits about the Earth
  from other motions iff the Earth stands still, which it never does: a rocket hovering at rest is flagged, and some
  rocket in a safe orbit is not (`Orbit.HoveringIsFlagged`, `Orbit.FlagTellsOrbitIff`, `Rockets.FlagAlwaysMisleads`);
* a player's count can become negative through `/get`, which accepts quantities from 2^63 as negative ones
  (`Text.NegativeQuantity`, `Ledger.TypedDebt`, `Ledger.NoNegativeCountIff`);
* a solar panel yields nothing above 5 Hz, so at 20 Hz no factory ever crafts (`Energy.CraftPossibleIff`);
* what a pink mob carries is destroyed when it dies (`Ledger.LoadedPinkLost`, `Ledger.ScatterConservesIff`);
* a mammoth can be ridden, saddled and untamed (`Ownership.RiddenAndWildReachable`, `Ownership.SaddledTamedKeptIff`);
* thrust is not clamped, so one tick can draw more impulse than the tank holds (`Fuel.UnclampedThrust`,
  `Fuel.ImpulseBoundIff`);
* the render tick can jump back while only one snapshot is buffered (`Interpolation.RenderTickCanJumpBack`,
  `Interpolation.ForwardIff`);
* the spear test overlooks balls on segments shorter than 0.001 (`SegSphere.OverlookedExample`, `SegSphere.ExactIff`);
* a rocket that enters the Sun within about a hundredth of its centre stays inside (`Rockets.CentreOfSun`,
  `Rockets.OutsideSunIff`).

Two more facts at the edges: `itoa` prints the least integer as a bare minus sign (`Text.Itoa`), and a stream cut between
a header and its body ends in a plain EOF (`Frames.CutStream`).

Where the comments and the code disagree the model follows the code: `snapshotMobPlayers` says it runs before
`s.mobs` is locked (`internal/server/net/mobs.go:108`) but runs inside, which the lock order permits; the comment in
`tickEnergy` promises to save up fractions of energy that the code drops; `findEarthSurrounding` keeps the second
result of an earlier match when the last snapshot matches.

## Model

| member | source | states |
|---|---|---|
| LockDiscipline.SkeletonOrdered | internal/server/net/energy.go:182-217 | every nesting of locks in the server (here c.mu before batteries) takes them in strictly rising rank |
| LockDiscipline.ProgramOrdered | internal/server/net/boats.go:58-140 | any sequence of handlers and tick phases a goroutine may run keeps to that order |
| LockDiscipline.FlattenClimbs | internal/server/net/mammoths_handlers.go:95-152 | a nesting in rank order, unrolled into lock and unlock calls, only ever locks above everything it holds and ends with nothing held |
| LockDiscipline.MoveKeepsExclusion | internal/server/net/store.go:24-27 | no move lets a writer share a lock with anyone |
| LockDiscipline.RwMutexRules | internal/server/net/store.go:24-27 | when a lock call goes through: a reader iff no writer is inside or announced, a writer iff nobody else is inside |
| LockDiscipline.NoWaitingCycle | internal/server/net/mobs.go:95-117 | following "waits for a lock held by" never closes: a good state with unfinished work is not stuck |
| LockDiscipline.SomeThreadCanMove | internal/server/net/mobs_projectiles.go:66-113 | in every good state with work left some goroutine can move, pending writers included |
| LockDiscipline.RunsStayGood | internal/server/net/store.go:24-27 | every run keeps the invariant, and each move uses up some of the goroutines' remaining lock operations |
| LockDiscipline.NoDeadlock | internal/server/net/energy.go:177-217 | for any goroutines and any run: somebody can move or all are done with every lock free, writers are alone, and runs are finite |
| LockDiscipline.InversionDeadlocks | internal/server/net/energy.go:177-178 | taking batteries before c.mu in one place would block for good |
| Inventory.Client.ConsumeItem | internal/server/net/player.go:110-124 | takes one item exactly when there is one; an emptied entry disappears |
| Inventory.Client.AddItem | internal/server/net/player.go:78-90 | adds one and returns a copy of the new inventory |
| Inventory.Client.Receive | internal/server/net/mobs_pink.go:235-238 | the merge loop adds every count of the other inventory, in any order |
| Inventory.MergeAddsSizes | internal/server/net/mobs_pink.go:235-238 | merging adds up the numbers of items |
| Mobs.StrikeAllClosedForm | internal/server/net/mobs_projectiles.go:131-156 | a mob is removed iff it is hit and its HP is at most twice its hits, with exactly one kill record; survivors lose twice their hits |
| Mobs.HitOrderIrrelevant | internal/server/net/mobs_projectiles.go:131-156 | the outcome depends only on how often each mob is hit |
| Mobs.MobStore.ApplyMobHits | internal/server/net/mobs_projectiles.go:131-156 | the loop computes that outcome, and each kill record carries its own victim's position, kind and inventory |
| World.StepKeepsGood | internal/server/net/mobs_pink.go:140-258 | every critical section keeps: HP above zero, no negative count on a mob or in a drop, one removal for each resource, one death and one drop for each mob, and the contract state machine |
| World.PlayerKeepsBooks | internal/server/net/handlers.go:77-145 | pickups, crafts and the rest of the players' sections never take a resource twice or bring one back |
| World.FightKeepsBooks | internal/server/net/mobs_projectiles.go:131-171 | hits, contracts and drops never kill a mob twice or scatter a drop twice |
| World.TickKeepsSane | internal/server/net/mobs_collector.go:11-57 | what the tick found before it released a store is still usable when it returns: search, re-check, pick; find owner, deliver |
| World.TickKeepsContracts | internal/server/net/mobs_pink.go:222-258 | every gather contract paid for is open, delivered with exactly four items, or lost with its pink |
| World.StepDebtsIff | internal/server/net/handlers_chat.go:132-149 | from a state without negative counts a section leads to one iff it is a /get that takes more than there is |
| World.OthersKeepItems | internal/server/net/player.go:78-124 | no section touches the inventory of anybody but the one who acts or is delivered to |
| Ledger.StepBalances | internal/server/net/handlers.go:77-145 | each section changes the total of each item type by its declared amount: zero for pickups, collector and pink picks, deliveries, deaths and collector drops; the cheats by what they add or clear |
| Ledger.RunBalances | internal/server/net/mobs_handlers.go:37-75 | over every interleaving the totals over ground, inventories, mobs, hands and drops are the first totals plus the declared amounts |
| Ledger.ExactlyOnce | internal/server/net/handlers.go:123-145 | a contested resource is taken once, a mob dies once and drops once, and stored mobs have HP above zero |
| Ledger.ContractStateMachine | internal/server/net/mobs_handlers.go:99-158 | no owner iff no contract, at most four items, none unless gathering; deliveries hand over exactly four items each and never outnumber the contracts paid for |
| Ledger.NoNegativeCountIff | internal/server/net/handlers_chat.go:132-149 | over any run from a fresh server no player's count is ever negative iff every /get is covered by what its player has |
| Ledger.TypedDebt | internal/server/net/handlers_chat.go:112-149 | joining and typing /getfruit with any number from 2^63 below 2^64 leaves a negative count |
| Ledger.AcceptBalances | internal/server/net/mobs_handlers.go:131-158 | the inventory reset of applyContract discards nothing: only the price leaves the world |
| Ledger.ScatterConservesIff | internal/server/net/mobs_projectiles.go:159-197 | a drop conserves every item iff its mob was a collector, or a pink that carried nothing |
| Ledger.LoadedPinkLost | internal/server/net/mobs_projectiles.go:159-171 | on any fresh server with a pink and a resource some run in which a player hires the pink, waits until it is loaded and kills it with ten spears loses exactly that item |
| Ledger.HitsAreRun | internal/server/net/mobs_projectiles.go:131-156 | applying the hits collected from spears in flight is a run of the state machine with the same mobs, kills and drops |
| Ledger.PinksFallToPlayers | internal/server/net/mobs_handlers.go:37-75 | over any run a pink has lost one HP for each player's hit and is dead iff those were all it had: spears never strike it |
| Ledger.CalmUntilHit | internal/server/net/mobs_pink.go:46-96 | over any run a collector that no player hits stays calm, alive and at full HP |
| Ledger.AngeredIffHit | internal/server/net/mobs_handlers.go:56-59 | over any run a collector that was calm is angry, and a target, iff a player has hit it |
| World.StepKeepsAim | internal/server/net/mobs_pink.go:46-96 | every section keeps: spears fly only at hostiles and angered collectors |
| MobServer.Server.ApplyHitMob | internal/server/net/mobs_handlers.go:37-75 | succeeds iff the mob is there, in range and a spear is at hand; then it is the hit step of the state machine: one HP less, a collector angered, nothing else about any mob changed, and a kill leaves the mob's own drop; else nothing changes |
| MobServer.Server.TryAcceptContract | internal/server/net/mobs_handlers.go:99-158 | succeeds iff the mob is an idle pink and the price is there; then it is the accept step, else nothing changes |
| MobServer.Server.PickUpResource | internal/server/net/mobs_pink.go:210-219 | the pick after the search is the pick step, whether or not the resource is still there |
| MobServer.Server.InventoryCount | internal/server/net/mobs_pink.go:153-159 | the loop returns the number of items carried |
| MobServer.Server.Deliver | internal/server/net/mobs_pink.go:222-250 | the hand-over is the delivery step: everything to the owner, the mob free again |
| MobServer.Server.LitterAll | internal/server/net/mobs_projectiles.go:186-197 | the nested loops create exactly as many resources of each type as the collector carried |
| MobServer.Server.SpawnDrop | internal/server/net/mobs_projectiles.go:159-197 | the drop of a kill is a scatter step: ten spears, the collector's inventory, or nothing |
| Nearest.FindNearest | internal/server/net/mobs_pink.go:188-206 | the argmin loop returns a nearest point strictly within the radius, or none when there is none, in any map order |
| Nearest.NearestDistanceUnique | internal/server/net/mobs.go:169-183 | whatever the order, all answers are at the same distance |
| Energy.EnergyPerPanelIsQuotient | internal/server/net/energy.go:233-242 | the two truncations amount to one integer division 5 / tickRate |
| Energy.ChargeAllBounds | internal/server/net/energy.go:236-249 | charging keeps every battery within its bounds and stores at most the gain of each panel |
| Energy.ChargeAllClosedForm | internal/server/net/energy.go:239-248 | each battery gains the yield of every panel that feeds it, up to its maximum, and nothing else of it changes |
| Energy.Grid.NearestBattery | internal/server/net/energy.go:116-130 | a nearest battery strictly within radius 10, in any map order |
| Energy.Grid.TickEnergy | internal/server/net/energy.go:220-250 | each panel feeds a nearest battery, and each battery gains exactly what its panels yield, up to its maximum |
| Energy.Grid.TryCraft | internal/server/net/energy.go:182-217 | all or nothing: the recipe debited, the output credited and one nearest battery debited, or no change at all; fails only for want of items, battery or energy |
| Energy.EnergyNeverCreated | internal/server/net/energy.go:220-250 | every run keeps 0 <= Energy <= MaxEnergy, and stored plus spent energy within the panels' budget |
| Energy.NoCraftAboveFiveHertz | internal/server/net/energy.go:233-242 | above 5 Hz all batteries stay empty and no craft succeeds in any run |
| Energy.CraftPossibleIff | internal/server/net/energy.go:107-113 | some run crafts iff the tick rate is at most 5 |
| Ownership.StepKeepsRockets | internal/server/net/rockets.go:94-143 | every section keeps: piloted iff owned, by a client that is registered or inside unregisterClient |
| Ownership.StepKeepsBoats | internal/server/net/boats.go:58-126 | every section keeps: nobody rides two boats |
| Ownership.StepKeepsHerd | internal/server/net/mammoths_handlers.go:95-192 | every section keeps: nobody rides two mammoths, a ridden one is saddled, a saddled one is no baby |
| Ownership.RunKeepsGood | internal/server/net/server_conn.go:112-147 | all of that over every interleaving with joining and leaving clients |
| Ownership.OwnershipSafety | internal/server/net/mammoths_breeding.go:39-103 | the same, spelled out for every state reachable from an empty server, births and growing up included |
| Ownership.LeftForGood | internal/server/net/boats.go:106-127 | over any run, who has left stays off the boats once they are ticked, off the mammoths once a tick has noticed, and owns no rocket after unregisterClient |
| Ownership.PilotKeptIff | internal/server/net/server_conn.go:138-146 | a step takes a rocket from its pilot iff he gets out of it himself or has left the server |
| Ownership.PilotKeepsRocket | internal/server/net/rockets.go:94-143 | the same over any run |
| Ownership.BoatKeptIff | internal/server/net/boats.go:58-127 | a step takes a boat from its rider iff he asks for another, or for this one from too far, or a tick finds him gone |
| Ownership.MountKeptIff | internal/server/net/mammoths_tick.go:47-57 | a step unseats a rider iff he gets off, boards a boat, the mammoth dies, or a tick does not find him |
| Ownership.HerdLaws | internal/server/net/mammoths_handlers.go:95-140 | when a saddle goes on or comes off, who grows up, who is thrown and what taming changes, mammoth by mammoth |
| Ownership.ArrivalLaws | internal/server/net/mammoths_breeding.go:89-97 | new vehicles are free; new mammoths are riderless, wild adults or tame calves |
| Ownership.SaddledTamedKeptIff | internal/server/net/mammoths_handlers.go:28-37 | a step breaks "saddled implies tamed" iff it rolls back the tame of a mammoth saddled meanwhile |
| Ownership.RiddenAndWild | internal/server/net/mammoths_handlers.go:28-37 | two players reach a ridden, saddled, untamed mammoth from any state with a wild one |
| Ownership.RiddenAndWildReachable | internal/server/net/mammoths_handlers.go:28-37 | the same from an empty server |
| Ownership.Vehicles.BoardRocket | internal/server/net/rockets.go:94-130 | boards iff the rocket exists, is free or already one's own, and is near |
| Ownership.Vehicles.ExitRocket | internal/server/net/rockets.go:132-143 | frees one rocket of the player, the first in map order, or none when there is none |
| Ownership.Vehicles.ReleaseRockets | internal/server/net/server_conn.go:138-146 | the loop frees every rocket of the leaving client and no other |
| Ownership.Vehicles.EnterBoat | internal/server/net/boats.go:58-104 | leaves every boat and mammoth, then takes the boat iff it is near and empty |
| Ownership.Vehicles.RideMammoth | internal/server/net/mammoths_handlers.go:154-192 | gets off if mounted, else mounts iff near, tamed, saddled and free |
| Ownership.Vehicles.TickBoats | internal/server/net/boats.go:106-127 | the loop clears exactly the riders that are not registered |
| Bodies.PullLaw | internal/server/net/world.go:58-69 | an attraction of strength g points straight at the centre |
| Bodies.StrengthIs | internal/server/net/world.go:65-65 | the strength is mu divided by the square of the distance |
| Bodies.BodyStepLaw | internal/server/net/world.go:57-75 | within 1 of the star nothing moves; else the velocity changes by mu dt / dist^2 towards it, and the position by dt times the new velocity |
| Bodies.CircularPull | internal/server/net/world.go:22-46 | on NewWorldState's circles the star pulls with v^2 / r straight inwards |
| Bodies.KickKeepsMomentum | internal/server/net/world.go:57-75 | any acceleration along the radius, then the move, keeps r x v exactly |
| Bodies.RunKeepsMomentum | internal/server/net/world.go:57-75 | angular momentum about the star is the same after any run of steps of any length |
| Bodies.StaysInPlane | internal/server/net/world.go:57-75 | the body stays in its initial plane, and with angular momentum it never stops or reaches the centre |
| Bodies.PlanetsStayLevel | internal/server/net/world.go:22-56 | from NewWorldState on, Earth and Planet2 keep their star's height and never meet it or stop, for all time |
| Bodies.Body.TickBody | internal/server/net/world.go:57-75 | computes the step in place, attracted by the star, and conserves angular momentum |
| Bodies.WorldState.Tick | internal/server/net/world.go:49-55 | steps both planets, each about its own star, independently |
| Orbit.EccentricitySquared | internal/server/net/rockets_orbit.go:31-43 | the computed vector's length satisfies mu^2 e^2 = mu^2 + 2 E h^2 |
| Orbit.BoundEccentricity | internal/server/net/rockets_orbit.go:31-43 | 0 <= e <= 1 whenever E < 0 |
| Orbit.WithinApsides | internal/server/net/rockets_orbit.go:31-46 | every motion with the same energy and angular momentum has radius between a(1-e) and a(1+e) |
| Orbit.AtApsisIff | internal/server/net/rockets_orbit.go:31-46 | a motion is at one of them iff it moves neither in nor out |
| Orbit.Reaches | internal/server/net/rockets_orbit.go:45-46 | the periapsis is reached: some motion of the orbit comes down to any level not below it |
| Orbit.ReportedApsides | internal/server/net/rockets_orbit.go:12-48 | orbitalParams reports those apsides less the body's radius, and zeros for unbound or degenerate motions |
| Orbit.ApsidesBracket | internal/server/net/rockets_orbit.go:12-48 | peri <= alt <= apo, now and for every motion of the same orbit |
| Orbit.PeriapsisAboveIff | internal/server/net/rockets_orbit.go:12-48 | peri exceeds a level iff the motion is bound and its whole orbit lies above that level |
| Orbit.CircularIff | internal/server/net/rockets_orbit.go:22-25 | apo equals peri iff the speed is the reported target velocity and across the radius |
| Orbit.StableAtEarthIff | internal/server/net/rockets_orbit.go:70-83 | the flag is exact for what it is computed from, the position seen from the Earth with the velocity relative to the Sun: bound with the whole orbit above the atmosphere; the altitude test adds nothing |
| Orbit.FlagTellsOrbitIff | internal/server/net/rockets_orbit.go:51-84 | for all rockets the flag equals a safe orbit of the motion seen from the Earth iff the Earth does not move |
| Orbit.UnflaggedOrbit | internal/server/net/rockets_orbit.go:63-63 | for any moving Earth there is a rocket in a safe orbit about it without the flag |
| Orbit.HoveringIsFlagged | internal/server/net/rockets_orbit.go:63-63 | a rocket at rest 200 from the Earth's centre is flagged though it falls to the centre: with its own velocity the periapsis is -50 |
| Orbit.StableAtSunIff | internal/server/net/rockets_orbit.go:70-83 | stable at the Sun, which does not move, iff bound with the whole orbit above its surface |
| Fuel.BurntIs | internal/server/net/rockets_tick.go:192-195 | the burn loop ends with less than a unit pending or an empty tank, and fuel less pending is unchanged |
| Fuel.BurntCount | internal/server/net/rockets_tick.go:192-195 | it burns the whole part of what is pending, or all there is |
| Fuel.PendingSmallIff | internal/server/net/rockets_tick.go:182-202 | less than a unit stays pending iff the tick asked for less than one unit beyond the tank |
| Fuel.RunKeepsSound | internal/server/net/rockets.go:145-165 | 0 <= Fuel <= MaxFuel in every run, whatever the inputs |
| Fuel.PilotlessBurnsNothing | internal/server/net/rockets.go:185-218 | a rocket without a pilot burns nothing until somebody steers it again |
| Fuel.RunLedger | internal/server/net/rockets_tick.go:182-202 | over every run the charged impulse is ten times the fuel spent, plus refills, plus the change of what is pending |
| Fuel.ImpulseBound | internal/server/net/rockets.go:39-49 | with thrust in [-1, 1] and ticks of at most 1/5 s the impulse stays below 10 (Fuel + 1) |
| Fuel.ImpulseBoundIff | internal/server/net/rockets_tick.go:182-202 | over any run without the cheat a placed rocket stays below 10 (MaxFuel + 1) of impulse at all times iff each firing tick asks for less than one unit beyond the tank |
| Fuel.UnclampedThrust | internal/server/net/rockets.go:145-165 | without that range one tick draws 2500 out of a tank worth 1010 |
| Rockets.GravityLaw | internal/server/net/rockets_tick.go:162-179 | the Sun attracts beyond distance 1, the Earth between 1 and 400, with mu / d^2 and for the Earth at most 500 |
| Rockets.ThrustLaw | internal/server/net/rockets_tick.go:182-202 | with thrust and fuel the engine pushes along the hull with 50 for each unit of thrust, forwards for positive thrust; else not at all |
| Rockets.ThrustIsImpulse | internal/server/net/rockets_tick.go:182-202 | for a unit hull the impulse of the fuel ledger is the thrust that moves the rocket, times the time |
| Rockets.TickInSpace | internal/server/net/rockets_tick.go:11-70 | outside the sphere of influence and clear of the Sun a tick adds dt times gravity and thrust to the velocity and dt times the new velocity to the position |
| Rockets.TickNearEarthLaw | internal/server/net/rockets_tick.go:11-70 | inside it the same, then drag and the limiter scale the velocity relative to the Earth, the rocket moves and may collide |
| Rockets.CoastKeepsMomentum | internal/server/net/rockets_tick.go:36-52 | a coasting rocket outside the Earth's sphere of influence keeps its angular momentum about the Sun |
| Rockets.FreeFlightKeepsMomentum | internal/server/net/rockets_tick.go:162-168 | the same over whole flights, until it hits the Sun |
| Rockets.LimitedSpeed | internal/server/net/rockets_tick.go:231-248 | the limiter leaves at most 100 relative to the Earth, exactly 100 when it acts |
| Rockets.LimiterLaw | internal/server/net/rockets_tick.go:231-248 | speeds up to 100 are left alone, others shortened to 100 without turning |
| Rockets.DraggedAlong | internal/server/net/rockets_tick.go:205-228 | inside the atmosphere, above a speed of 0.1, drag takes the share 0.02 exp(-alt / 12) dt of the relative velocity, at most all, and never turns it: the square of the speed cancels |
| Rockets.OutsideSunIff | internal/server/net/rockets_tick.go:273-297 | a tick ends outside the Sun iff it did not arrive within about a hundredth of its centre |
| Rockets.SunLandingLaw | internal/server/net/rockets_tick.go:273-297 | a rocket within 251.5 of the centre that is inside or moves inwards is set on the clearance straight above where it is, at rest; any other is left alone |
| Rockets.LiftedTo | internal/server/net/rockets_tick.go:262-269 | a collision with the Earth lifts the rocket straight up to 1.5 above the ground measured below it |
| Rockets.CollisionIsSafe | internal/server/net/rockets_tick.go:251-270 | a rocket collides iff below ground, or within 1.5 of it and not rising; then it is on or above the ground at the Earth's velocity; within a hundredth of the Earth's centre, where the ground has no direction, iff the terrain there is not above that measure and the clearance |
| Rockets.TickNearEarth | internal/server/net/rockets_tick.go:11-70 | a tick near the Earth ends on or above the ground and at most 100 faster than the Earth, unless on the Sun |
| Rockets.InOrbitMeans | internal/server/net/rockets_tick.go:65-66 | after a tick near the Earth InOrbit holds iff the position seen from the Earth, with the velocity relative to the Sun, is a bound motion whose whole orbit lies above the atmosphere |
| Rockets.InSolarOrbitMeans | internal/server/net/rockets_orbit.go:51-84 | farther out InOrbit holds iff the motion about the Sun is bound and its whole orbit above the surface |
| Rockets.FrameAfterTick | internal/server/net/rockets_tick.go:57-64 | which body the rocket belongs to after a tick, its position relative to it and the distance it reports |
| Rockets.FlagAlwaysMisleads | internal/server/net/rockets_orbit.go:51-84 | at every moment of every run from the new world some rocket in a safe orbit about the Earth would not be flagged |
| Rockets.CentreOfSun | internal/server/net/rockets_tick.go:281-292 | a rocket that arrives at the Sun's centre is put back there |
| Rockets.Rocket.ConsumeThrust | internal/server/net/rockets_tick.go:182-202 | the loop in place burns what the fuel model says and returns the tick's thrust, along the hull with 50 for each unit, or none without fuel |
| Rockets.Rocket.ApplyInput | internal/server/net/rockets.go:150-162 | sets thrust and the cheat flag and refills to 100 under the cheat, as an event of the fuel runs |
| Rockets.Rocket.CollideWithSun | internal/server/net/rockets_tick.go:273-297 | computes the landing in place, and the Sun becomes the primary body iff it landed |
| Rockets.Rocket.UpdateOrbitalParams | internal/server/net/rockets_orbit.go:51-84 | the flag equals the stability test whatever it was before |
| Rockets.Rocket.TickPiloted | internal/server/net/rockets_tick.go:11-70 | the whole tick in place, stage after stage, equals the specified one |
| Trajectory.PredictTrajectory | internal/client/app/trajectory.go:9-82 | returns exactly the client's iteration, cut at the first return within 5 units after step 200 |
| Trajectory.PredictionUnique | internal/client/app/trajectory.go:71-79 | that description admits one list of points only |
| Trajectory.QuietFarAway | internal/server/net/rockets_tick.go:42-60 | a tick is quiet, for one, when the rocket coasts outside the sphere of influence and clear of the Sun |
| Trajectory.StepAgrees | internal/server/net/server_tick.go:53-54 | on a quiet tick, world.Tick followed by tickPilotedRocket is one client step |
| Trajectory.RunAgrees | internal/server/net/world.go:49-75 | for any number of quiet ticks both iterations agree on Earth and rocket, position and velocity |
| Trajectory.PredictionRefinesServer | internal/client/app/trajectory.go:9-82 | the predicted points are the positions after the server's next ticks for as long as those are quiet |
| Geometry.LerpIs | internal/client/app/update.go:151-159 | the blend covers the share t of the way, from one snapshot at 0 to the other at 1 |
| Geometry.LerpBetween | internal/client/net/client.go:263-265 | for shares from 0 to 1 each coordinate lies between those of the two |
| Interpolation.PushIs | internal/client/app/update.go:75-91 | a new tick becomes the newest snapshot, only the oldest makes room; a repeated or zero tick changes nothing |
| Interpolation.ClampIsNearest | internal/client/app/update.go:112-119 | the clamp leaves the render tick alone inside the window and moves it to the nearest place in it otherwise |
| Interpolation.FrameAdvances | internal/client/app/update.go:55-120 | the render tick starts three ticks behind the first snapshot and advances by dt times the tick rate, then the clamp |
| Interpolation.FrameKeepsGood | internal/client/app/update.go:55-120 | a frame keeps at most 30 strictly rising ticks and the render tick between the oldest and the newest less one |
| Interpolation.EveryRunBrackets | internal/client/app/update.go:75-180 | after every run with non-decreasing server ticks an adjacent pair of snapshots encloses the render tick |
| Interpolation.ForwardIff | internal/client/app/update.go:103-120 | a frame moves the render tick back iff it had passed the newest snapshot but one tick |
| Interpolation.RenderTickMonotone | internal/client/app/update.go:103-120 | with two snapshots buffered the render tick never goes back until a teleport |
| Interpolation.RenderTickCanJumpBack | internal/client/app/update.go:107-111 | with one snapshot it can: from 27 to 10 |
| Interpolation.EarthBuffer.FindSurrounding | internal/client/app/update.go:163-180 | the forward scan returns the last snapshot at or before the render tick and its successor |
| Interpolation.EarthBuffer.InterpolateEarth | internal/client/app/update.go:123-160 | position and velocity have covered the fraction of the way from the earlier to the later snapshot that the render tick has, and lie between them; fallbacks for short buffers |
| Interpolation.EarthBuffer.Update | internal/client/app/update.go:55-72 | one frame in place is one frame of the model, and what is shown lies between the enclosing pair |
| Interpolation.InterpolatePlayer | internal/client/net/client.go:215-269 | the backward scan finds the last entry not after the render time, on any history, and shows the player on the way to the next by the share of the time that has passed, everything but the position unchanged; outside the history it is frozen |
| Interpolation.SortedBracket | internal/client/net/client.go:232-240 | on a sorted history that entry separates the times up to the render time from the later ones |
| SegSphere.HitIsReal | internal/client/app/projectiles.go:67-84 | a reported hit has a point of the segment strictly inside the ball |
| SegSphere.HitIff | internal/client/app/projectiles.go:75-83 | on segments of squared length 1e-6 or more the test is exact |
| SegSphere.ClampIsLeast | internal/client/app/projectiles.go:75-80 | the clamped projection minimises the distance over the segment |
| SegSphere.ExactIff | internal/client/app/projectiles.go:67-84 | for every input, the test equals its meaning iff the segment is not a short one that starts outside and dips inside |
| SegSphere.OverlookedExample | internal/client/app/projectiles.go:71-74 | half a millimetre into a unit ball is overlooked |
| SegSphere.OverlookedIsNear | internal/client/app/projectiles.go:71-74 | what is overlooked starts less than 0.001 outside the ball |
| Slots.SlotGrid.Sync | internal/client/app/inventory.go:182-213 | the loops fill the first free slots with missing types and clear the slots whose count is not positive |
| Slots.SlotGrid.Swap | internal/client/app/inventory.go:64-67 | exchanges two slots and nothing else |
| Slots.SwapLaw | internal/client/app/inventory.go:64-67 | a drag shows the same items as before and is undone by itself |
| Slots.FilledKeepsUnique | internal/client/app/inventory.go:182-213 | types laid into free slots are new to the grid and pairwise distinct, so a grid without duplicates gets none |
| Slots.SyncKeeps | internal/client/app/inventory.go:182-213 | a sync keeps types unique, leaves only positive ones, and survivors stay where they are |
| Slots.SyncFixpoint | internal/client/app/inventory.go:182-213 | a sync of a grid that already agrees with the inventory changes nothing |
| Slots.SyncCompleteIff | internal/client/app/inventory.go:182-213 | every positive type is shown iff shown and wanted types together number at most 256 |
| Slots.TwoSyncsCompleteIff | internal/client/app/inventory.go:182-213 | after two syncs the grid agrees with the inventory iff its positive types number at most 256 |
| Slots.RunKeepsUnique | internal/client/app/inventory.go:55-72 | no run of syncs and drags puts a type into two slots |
| Frames.HeaderCanonical | internal/shared/protocol/frame.go:13-24 | four bytes and the number they denote determine each other |
| Frames.BigEndian | internal/shared/protocol/frame.go:17-18 | the most significant byte of the length comes first |
| Frames.OversizedRefused | internal/shared/protocol/frame.go:31-34 | a header is refused as too large, before any of the body is read, iff it announces more than 65536 bytes |
| Frames.StreamRoundTrip | internal/shared/protocol/frame.go:9-40 | frames written back to back are read back exactly, then EOF |
| Frames.CutStream | internal/shared/protocol/frame.go:26-40 | a stream cut at any byte yields exactly the complete frames before the cut, and which error follows |
| Frames.DecodeSound | internal/shared/protocol/frame.go:26-40 | whatever bytes arrive, the frames read are an encoding of the front of them |
| Frames.Reader.ReadFull | internal/shared/protocol/frame.go:28-30 | reads across any chunking as if from one string of bytes |
| Frames.Reader.ReadFrame | internal/shared/protocol/frame.go:26-40 | equals the decoder on the bytes still to come, errors included |
| Frames.Reader.ReadAll | internal/shared/protocol/frame.go:26-40 | successive reads return what the whole stream decodes to |
| Frames.Writer.WriteFrame | internal/shared/protocol/frame.go:13-24 | writes header and payload, or refuses an oversized payload untouched, or reports a failed write |
| Text.FillDigits | internal/client/app/factory.go:89-95 | the buffer's tail holds the decimal digits and the index never leaves the 20 bytes |
| Text.Itoa | internal/client/app/factory.go:81-101 | prints the decimal form of every int64 but the least, which gives a bare minus sign |
| Text.DigitsStep | internal/client/app/factory.go:91-95 | decimal notation, the most significant digit first |
| Text.ParsedIff | internal/server/net/handlers_chat.go:112-121 | a command is accepted iff a name is followed by digits; the parts make up the whole, and a refused one yields nothing |
| Text.TailStartUnique | internal/server/net/handlers_chat.go:113-117 | the trailing digits split a string in one way only |
| Text.ParseGetArg | internal/server/net/handlers_chat.go:112-129 | the two loops split off the trailing digits and evaluate them modulo 2^64, limited to 100000 |
| Text.ParserUndoesPrinter | internal/server/net/handlers_chat.go:112-129 | for every non-negative int64, parsing undoes printing iff the name is non-empty and ends in no digit |
| Text.QuantityExactIff | internal/server/net/handlers_chat.go:122-128 | the quantity is the written one, limited, iff it fits int64 or wraps to at least the limit |
| Text.NegativeQuantity | internal/server/net/handlers_chat.go:122-128 | counts from 2^63 below 2^64 become negative quantities |

## Left out

- Float32 rounding, NaN and infinities: all arithmetic is over the reals; the quotient by zero of a rocket exactly at the Earth's centre is an arbitrary position.
- The autopilot and the rudder (applyAutopilot, steerUpTowardTarget): they only choose the hull's direction, which is an arbitrary input of every tick.
- tickFreeRocket beyond its reset of the thrust, terrain noise, ClampToSurface, spawning positions and all movement of mobs and mammoths: positions are arbitrary in the state machines.
- "One vehicle per player" and "one rocket per pilot": the handlers do not ensure them.
- Feeding counts, leashes, the choice of breeding pairs and the ages of calves: they do not touch who rides what.
- 64-bit wrap-around of an inventory count: counts are unbounded integers. It takes repeated /get commands with numbers of nineteen digits to reach it; the quantity of a /get itself is modelled with its wrap-around.
- Teleports and chat beyond the inventory cheats; hunger and health beyond the items they consume.
- Data read without a lock (s.world, lastThrowAt, lastHitAt, one log call) and the order of messages after an unlock: outside a model of critical sections.
- TCP and WebSocket plumbing, JSON, metrics, logging, configuration, deployment, rendering, menus and the web client: input and output with no state to reason about.
- InterpolatedSnapshot's outer loop over players: it applies the modelled scan to each non-empty history on its own.
- updateProjectiles' loop over projectiles: only its hit test segSphereHit is modelled.
