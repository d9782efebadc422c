/**
 Who pilots which rocket and who rides which boat and mammoth (rockets.go, boats.go, mammoths_*.go,
 server_conn.go), under every interleaving of the critical sections of any number of connections and of the
 tick thread. Distance checks and inventories are arbitrary booleans.
 */
module Ownership {
  import opened Mobs

  datatype Cockpit = Cockpit(piloted: bool, owner: Id)

  datatype Mammoth = Mammoth(tamed: bool, saddle: bool, baby: bool, rider: Id)

  type Cockpits = map<Id, Cockpit>
  type Boats = map<Id, Id>
  type Herd = map<Id, Mammoth>

  const FREE := Cockpit(false, NOBODY)

  // ---------------------------------------------------------------------------------------------
  // Critical sections on the rockets

  function Boarded(cs: Cockpits, c: Id, id: Id, near: bool): Cockpits {
    if id in cs && (cs[id].piloted ==> cs[id].owner == c) && near then cs[id := Cockpit(true, c)] else cs
  }

  predicate Flies(p: Cockpit, c: Id) { p.owner == c && p.piloted }

  function Exited(cs: Cockpits, c: Id, pick: Id): Cockpits {
    if pick in cs && Flies(cs[pick], c) then cs[pick := FREE] else cs
  }

  function Released(cs: Cockpits, c: Id): Cockpits {
    map id | id in cs :: if cs[id].owner == c then FREE else cs[id]
  }

  ghost predicate Crewed(cs: Cockpits, present: set<Id>) {
    forall id :: id in cs ==> (cs[id].piloted <==> cs[id].owner != NOBODY)
                              && (cs[id].owner != NOBODY ==> cs[id].owner in present)
  }

  // ---------------------------------------------------------------------------------------------
  // Critical sections on the boats

  function Disembarked(bs: Boats, c: Id): Boats { map id | id in bs :: if bs[id] == c then NOBODY else bs[id] }

  /** Leaves every boat first, and takes the new one only if it is near and empty. */
  function Entered(bs: Boats, c: Id, id: Id, near: bool): Boats {
    var empty := Disembarked(bs, c);
    if id != NOBODY && id in empty && near && empty[id] == NOBODY then empty[id := c] else empty
  }

  function Drifting(bs: Boats, registered: set<Id>): Boats {
    map id | id in bs :: if bs[id] in registered then bs[id] else NOBODY
  }

  ghost predicate OneBoat(bs: Boats) {
    forall a, b :: a in bs && b in bs && bs[a] == bs[b] && bs[a] != NOBODY ==> a == b
  }

  // ---------------------------------------------------------------------------------------------
  // Critical sections on the mammoths

  function Unmounted(h: Herd, c: Id): Herd {
    map id | id in h :: if h[id].rider == c then h[id].(rider := NOBODY) else h[id]
  }

  predicate Rideable(m: Mammoth) { m.tamed && m.saddle && m.rider == NOBODY }

  /** `pick` is the mammoth the scan found first, if it found one. */
  function Ridden(h: Herd, c: Id, pick: Id, id: Id, near: bool): Herd {
    if pick in h && h[pick].rider == c then h[pick := h[pick].(rider := NOBODY)]
    else if id != NOBODY && id in h && near && Rideable(h[id]) then h[id := h[id].(rider := c)]
    else h
  }

  function SaddleToggled(h: Herd, id: Id, near: bool, hasSaddle: bool): Herd {
    if id !in h || !near || !h[id].tamed || h[id].baby then h
    else if !h[id].saddle then (if hasSaddle then h[id := h[id].(saddle := true)] else h)
    else if h[id].rider != NOBODY then h
    else h[id := h[id].(saddle := false)]
  }

  function TameSet(h: Herd, id: Id, tamed: bool): Herd { if id in h then h[id := h[id].(tamed := tamed)] else h }

  function GrownUp(h: Herd, grown: set<Id>): Herd {
    map id | id in h :: if id in grown then h[id].(baby := false) else h[id]
  }

  function Thrown(h: Herd, players: set<Id>): Herd {
    map id | id in h :: if h[id].rider in players then h[id] else h[id].(rider := NOBODY)
  }

  ghost predicate Tack(h: Herd) {
    forall id :: id in h ==> (h[id].rider != NOBODY ==> h[id].saddle) && (h[id].saddle ==> !h[id].baby)
  }

  ghost predicate OneMammoth(h: Herd) {
    forall a, b :: a in h && b in h && h[a].rider == h[b].rider && h[a].rider != NOBODY ==> a == b
  }

  // ---------------------------------------------------------------------------------------------
  // The machine

  /** `leaving` clients are out of the registry but their rockets are not released yet; `taming` is the
      mammoth a client has tamed but not paid for; `used` holds every id newID has given out. */
  datatype State = State(registered: set<Id>, leaving: set<Id>, used: set<Id>, cockpits: Cockpits, boats: Boats,
                         herd: Herd, taming: map<Id, Id>)

  datatype Step =
    | Register(c: Id)
    | LeaveRegistry(c: Id)
    | ReleaseRockets(c: Id)
    | PlaceRocket(c: Id, id: Id)
    | BoardRocket(c: Id, id: Id, near: bool)
    | ExitRocket(c: Id, pick: Id)
    | PlaceBoat(c: Id, id: Id)
    | EnterBoat(c: Id, id: Id, near: bool)       // the boats' part of handleEnterBoat
    | DismountForBoat(c: Id)                     // and the mammoths' part nested in it
    | RideMammoth(c: Id, pick: Id, id: Id, near: bool)
    | SaddleMammoth(c: Id, id: Id, near: bool, hasSaddle: bool)
    | TryTame(c: Id, id: Id)
    | SettleTame(c: Id, paid: bool)
    | HitMammoth(c: Id, id: Id, lethal: bool)
    | Spawn(id: Id)
    | GrowUp(grown: set<Id>)
    | Birth(id: Id)
    | TickBoats
    | TickMammoths(players: set<Id>)

  predicate Unused(s: State, id: Id) { id != NOBODY && id !in s.used }

  /** A registered client runs one handler at a time. */
  predicate Acts(s: State, c: Id) { c in s.registered && c !in s.taming }

  ghost predicate Enabled(s: State, step: Step) {
    match step
    case Register(c) => Unused(s, c)
    case LeaveRegistry(c) => Acts(s, c)
    case ReleaseRockets(c) => c in s.leaving
    case PlaceRocket(c, id) => Acts(s, c) && Unused(s, id)
    case BoardRocket(c, _, _) => Acts(s, c)
    case ExitRocket(c, pick) =>
      Acts(s, c) && ((pick in s.cockpits && Flies(s.cockpits[pick], c)) ||
                     forall r :: r in s.cockpits ==> !Flies(s.cockpits[r], c))
    case PlaceBoat(c, id) => Acts(s, c) && Unused(s, id)
    case EnterBoat(c, _, _) => Acts(s, c)
    case DismountForBoat(c) => Acts(s, c)
    case RideMammoth(c, pick, _, _) =>
      Acts(s, c) && ((pick in s.herd && s.herd[pick].rider == c) || forall m :: m in s.herd ==> s.herd[m].rider != c)
    case SaddleMammoth(c, _, _, _) => Acts(s, c)
    case TryTame(c, id) => Acts(s, c) && id in s.herd && !s.herd[id].tamed
    case SettleTame(c, _) => c in s.registered && c in s.taming
    case HitMammoth(c, _, _) => Acts(s, c)
    case Spawn(id) => Unused(s, id)
    case GrowUp(_) => true
    case Birth(id) => Unused(s, id)
    case TickBoats => true
    case TickMammoths(players) => players <= s.used && NOBODY !in players
  }

  ghost function Apply(s: State, step: Step): State
    requires Enabled(s, step)
  {
    match step
    case Register(c) => s.(registered := s.registered + {c}, used := s.used + {c})
    case LeaveRegistry(c) => s.(registered := s.registered - {c}, leaving := s.leaving + {c})
    case ReleaseRockets(c) => s.(leaving := s.leaving - {c}, cockpits := Released(s.cockpits, c))
    case PlaceRocket(_, id) => s.(cockpits := s.cockpits[id := FREE], used := s.used + {id})
    case BoardRocket(c, id, near) => s.(cockpits := Boarded(s.cockpits, c, id, near))
    case ExitRocket(c, pick) => s.(cockpits := Exited(s.cockpits, c, pick))
    case PlaceBoat(_, id) => s.(boats := s.boats[id := NOBODY], used := s.used + {id})
    case EnterBoat(c, id, near) => s.(boats := Entered(s.boats, c, id, near))
    case DismountForBoat(c) => s.(herd := Unmounted(s.herd, c))
    case RideMammoth(c, pick, id, near) => s.(herd := Ridden(s.herd, c, pick, id, near))
    case SaddleMammoth(_, id, near, hasSaddle) => s.(herd := SaddleToggled(s.herd, id, near, hasSaddle))
    case TryTame(c, id) => s.(herd := TameSet(s.herd, id, true), taming := s.taming[c := id])
    case SettleTame(c, paid) =>
      s.(herd := if paid then s.herd else TameSet(s.herd, s.taming[c], false), taming := s.taming - {c})
    case HitMammoth(_, id, lethal) => if lethal then s.(herd := s.herd - {id}) else s
    case Spawn(id) => s.(herd := s.herd[id := Mammoth(false, false, false, NOBODY)], used := s.used + {id})
    case GrowUp(grown) => s.(herd := GrownUp(s.herd, grown))
    case Birth(id) => s.(herd := s.herd[id := Mammoth(true, false, true, NOBODY)], used := s.used + {id})
    case TickBoats => s.(boats := Drifting(s.boats, s.registered))
    case TickMammoths(players) => s.(herd := Thrown(s.herd, players))
  }

  ghost predicate Registry(s: State) {
    && s.registered !! s.leaving && s.registered + s.leaving <= s.used && NOBODY !in s.used
    && s.cockpits.Keys <= s.used && s.boats.Keys <= s.used && s.herd.Keys <= s.used
  }

  ghost predicate Good(s: State) {
    && Registry(s) && Crewed(s.cockpits, s.registered + s.leaving)
    && OneBoat(s.boats) && OneMammoth(s.herd) && Tack(s.herd)
  }

  // ---------------------------------------------------------------------------------------------
  // Each section keeps its part

  lemma {:induction false} RocketSections(cs: Cockpits, present: set<Id>, c: Id, id: Id, near: bool)
    requires Crewed(cs, present) && c != NOBODY
    ensures c in present ==> Crewed(Boarded(cs, c, id, near), present)
    ensures Crewed(Exited(cs, c, id), present) && Crewed(cs[id := FREE], present)
    ensures Crewed(Released(cs, c), present - {c})
  {
  }

  lemma {:induction false} BoatSections(bs: Boats, c: Id, id: Id, near: bool, registered: set<Id>)
    requires OneBoat(bs) && c != NOBODY
    ensures OneBoat(Entered(bs, c, id, near)) && OneBoat(Drifting(bs, registered))
    ensures OneBoat(bs[id := NOBODY])
  {
  }

  lemma {:induction false} RideSection(h: Herd, c: Id, pick: Id, id: Id, near: bool)
    requires OneMammoth(h) && Tack(h) && c != NOBODY
    requires (pick in h && h[pick].rider == c) || forall m :: m in h ==> h[m].rider != c
    ensures var r := Ridden(h, c, pick, id, near); OneMammoth(r) && Tack(r)
    ensures OneMammoth(Unmounted(h, c)) && Tack(Unmounted(h, c))
  {
  }

  lemma {:induction false} CareSections(h: Herd, id: Id, near: bool, has: bool)
    requires OneMammoth(h) && Tack(h)
    ensures var r := SaddleToggled(h, id, near, has); OneMammoth(r) && Tack(r)
    ensures var r := TameSet(h, id, has); OneMammoth(r) && Tack(r)
    ensures OneMammoth(h - {id}) && Tack(h - {id})
  {
  }

  lemma {:induction false} HerdSections(h: Herd, id: Id, m: Mammoth, ids: set<Id>)
    requires OneMammoth(h) && Tack(h) && m.rider == NOBODY && !m.saddle
    ensures var r := GrownUp(h, ids); OneMammoth(r) && Tack(r)
    ensures var r := Thrown(h, ids); OneMammoth(r) && Tack(r)
    ensures var r := h[id := m]; OneMammoth(r) && Tack(r)
  {
  }

  /** Sections change who is on what; only placing, births and kills change what there is. */
  lemma {:induction false} SectionsKeepKeys(
    cs: Cockpits, bs: Boats, h: Herd, c: Id, pick: Id, id: Id, near: bool, ids: set<Id>)
    ensures Boarded(cs, c, id, near).Keys == Exited(cs, c, pick).Keys == Released(cs, c).Keys == cs.Keys
    ensures Entered(bs, c, id, near).Keys == Drifting(bs, ids).Keys == bs.Keys
    ensures Unmounted(h, c).Keys == Ridden(h, c, pick, id, near).Keys == GrownUp(h, ids).Keys == h.Keys
    ensures Thrown(h, ids).Keys == TameSet(h, id, near).Keys == SaddleToggled(h, id, near, true).Keys == h.Keys
    ensures SaddleToggled(h, id, near, false).Keys == h.Keys
  {
  }

  lemma {:induction false} StepKeepsRegistry(s: State, step: Step)
    requires Registry(s) && Enabled(s, step)
    ensures Registry(Apply(s, step))
  {
    hide Boarded, Exited, Released, Entered, Drifting, Unmounted, Ridden, GrownUp, Thrown, TameSet, SaddleToggled;
    var cs, bs, h := s.cockpits, s.boats, s.herd;
    match step
    case ReleaseRockets(c) => SectionsKeepKeys(cs, bs, h, c, c, c, true, {});
    case BoardRocket(c, id, near) => SectionsKeepKeys(cs, bs, h, c, c, id, near, {});
    case ExitRocket(c, pick) => SectionsKeepKeys(cs, bs, h, c, pick, c, true, {});
    case EnterBoat(c, id, near) => SectionsKeepKeys(cs, bs, h, c, c, id, near, {});
    case DismountForBoat(c) => SectionsKeepKeys(cs, bs, h, c, c, c, true, {});
    case RideMammoth(c, pick, id, near) => SectionsKeepKeys(cs, bs, h, c, pick, id, near, {});
    case SaddleMammoth(c, id, near, _) => SectionsKeepKeys(cs, bs, h, c, c, id, near, {});
    case TryTame(c, id) => SectionsKeepKeys(cs, bs, h, c, c, id, true, {});
    case SettleTame(c, _) => SectionsKeepKeys(cs, bs, h, c, c, s.taming[c], false, {});
    case GrowUp(grown) => SectionsKeepKeys(cs, bs, h, NOBODY, NOBODY, NOBODY, true, grown);
    case TickBoats => SectionsKeepKeys(cs, bs, h, NOBODY, NOBODY, NOBODY, true, s.registered);
    case TickMammoths(players) => SectionsKeepKeys(cs, bs, h, NOBODY, NOBODY, NOBODY, true, players);
    case _ =>
  }

  lemma {:induction false} StepKeepsRockets(s: State, step: Step)
    requires Registry(s) && Crewed(s.cockpits, s.registered + s.leaving) && Enabled(s, step)
    ensures var t := Apply(s, step); Crewed(t.cockpits, t.registered + t.leaving)
  {
    hide Boarded, Exited, Released;
    var present := s.registered + s.leaving;
    match step
    case Register(c) =>
    case LeaveRegistry(c) =>
      var t := Apply(s, step);
      assert t.registered + t.leaving == present;
    case ReleaseRockets(c) =>
      RocketSections(s.cockpits, present, c, c, false);
      var t := Apply(s, step);
      assert t.registered + t.leaving == present - {c};
    case PlaceRocket(c, id) => RocketSections(s.cockpits, present, c, id, false);
    case BoardRocket(c, id, near) => RocketSections(s.cockpits, present, c, id, near);
    case ExitRocket(c, pick) => RocketSections(s.cockpits, present, c, pick, false);
    case _ =>
  }

  lemma {:induction false} StepKeepsBoats(s: State, step: Step)
    requires Registry(s) && OneBoat(s.boats) && Enabled(s, step)
    ensures OneBoat(Apply(s, step).boats)
  {
    hide Entered, Drifting, OneBoat;
    match step
    case PlaceBoat(c, id) => BoatSections(s.boats, c, id, false, {});
    case EnterBoat(c, id, near) => BoatSections(s.boats, c, id, near, {});
    case TickBoats => BoatSections(s.boats, Id("0"), NOBODY, false, s.registered);
    case _ =>
  }

  lemma {:induction false} StepKeepsHerd(s: State, step: Step)
    requires Registry(s) && OneMammoth(s.herd) && Tack(s.herd) && Enabled(s, step)
    ensures var t := Apply(s, step); OneMammoth(t.herd) && Tack(t.herd)
  {
    hide Ridden, Unmounted, SaddleToggled, TameSet, GrownUp, Thrown, OneMammoth, Tack;
    var wild, calf := Mammoth(false, false, false, NOBODY), Mammoth(true, false, true, NOBODY);
    match step
    case DismountForBoat(c) => DismountSection(s.herd, c);
    case RideMammoth(c, pick, id, near) => RideSection(s.herd, c, pick, id, near);
    case SaddleMammoth(_, id, near, has) => CareSections(s.herd, id, near, has);
    case TryTame(_, id) => CareSections(s.herd, id, false, true);
    case SettleTame(c, paid) => CareSections(s.herd, s.taming[c], false, false);
    case HitMammoth(_, id, _) => CareSections(s.herd, id, false, false);
    case Spawn(id) => HerdSections(s.herd, id, wild, {});
    case GrowUp(grown) => HerdSections(s.herd, NOBODY, wild, grown);
    case Birth(id) => HerdSections(s.herd, id, calf, {});
    case TickMammoths(players) => HerdSections(s.herd, NOBODY, wild, players);
    case _ =>
  }

  lemma {:induction false} DismountSection(h: Herd, c: Id)
    requires OneMammoth(h) && Tack(h)
    ensures OneMammoth(Unmounted(h, c)) && Tack(Unmounted(h, c))
  {
  }

  lemma {:induction false} StepKeepsGood(s: State, step: Step)
    requires Good(s) && Enabled(s, step)
    ensures Good(Apply(s, step))
  {
    hide Crewed, OneBoat, OneMammoth, Tack, Registry, Apply, Enabled;
    StepKeepsRegistry(s, step);
    StepKeepsRockets(s, step);
    StepKeepsBoats(s, step);
    StepKeepsHerd(s, step);
  }

  // ---------------------------------------------------------------------------------------------
  // Whole runs

  ghost predicate IsRun(s: State, steps: seq<Step>)
    decreases |steps|
  {
    steps == [] || (Enabled(s, steps[0]) && IsRun(Apply(s, steps[0]), steps[1..]))
  }

  ghost function After(s: State, steps: seq<Step>): State
    requires IsRun(s, steps)
    decreases |steps|
  {
    if steps == [] then s else After(Apply(s, steps[0]), steps[1..])
  }

  const EMPTY := State({}, {}, {}, map[], map[], map[], map[])

  lemma {:induction false} RunKeepsGood(s: State, steps: seq<Step>)
    requires Good(s) && IsRun(s, steps)
    ensures Good(After(s, steps))
    decreases |steps|
  {
    hide Good, Apply, Enabled;
    if steps != [] {
      StepKeepsGood(s, steps[0]);
      RunKeepsGood(Apply(s, steps[0]), steps[1..]);
    }
  }

  /** What holds in every state any interleaving can reach. */
  lemma {:induction false} OwnershipSafety(steps: seq<Step>)
    requires IsRun(EMPTY, steps)
    ensures var s := After(EMPTY, steps);
            && (forall r :: r in s.cockpits ==>
                  (s.cockpits[r].piloted <==> s.cockpits[r].owner != NOBODY) &&
                  (s.cockpits[r].piloted ==> s.cockpits[r].owner in s.registered + s.leaving))
            && (forall a, b :: a in s.boats && b in s.boats && s.boats[a] == s.boats[b] != NOBODY ==> a == b)
            && (forall a, b :: a in s.herd && b in s.herd && s.herd[a].rider == s.herd[b].rider != NOBODY ==> a == b)
            && (forall m :: m in s.herd && s.herd[m].rider != NOBODY ==> s.herd[m].saddle && !s.herd[m].baby)
  {
    RunKeepsGood(EMPTY, steps);
  }

  ghost predicate OffBoats(bs: Boats, c: Id) { forall b :: b in bs ==> bs[b] != c }

  ghost predicate OffHerd(h: Herd, c: Id) { forall m :: m in h ==> h[m].rider != c }

  /** A step of the tick thread that has noticed that `c` is gone. */
  predicate Notices(step: Step, c: Id) { step.TickMammoths? && c !in step.players }

  lemma {:induction false} StepKeepsOffBoats(s: State, step: Step, c: Id)
    requires Registry(s) && Enabled(s, step) && c in s.used && c !in s.registered
    ensures OffBoats(s.boats, c) || step == TickBoats ==> OffBoats(Apply(s, step).boats, c)
    ensures c in Apply(s, step).used && c !in Apply(s, step).registered
  {
  }

  lemma {:induction false} StepKeepsOffHerd(s: State, step: Step, c: Id)
    requires Registry(s) && Enabled(s, step) && c in s.used && c !in s.registered
    ensures OffHerd(s.herd, c) || Notices(step, c) ==> OffHerd(Apply(s, step).herd, c)
    ensures c !in s.leaving ==> c !in Apply(s, step).leaving
  {
  }

  /**
   Who has left the registry never comes back: off the boats for good once they have been ticked, off the
   mammoths once a tick has noticed, and without a rocket as soon as unregisterClient is done.
   */
  lemma {:induction false} LeftForGood(s: State, steps: seq<Step>, c: Id)
    requires Good(s) && IsRun(s, steps) && c in s.used && c !in s.registered
    ensures var t := After(s, steps);
            && c !in t.registered
            && (OffBoats(s.boats, c) || TickBoats in steps ==> OffBoats(t.boats, c))
            && (OffHerd(s.herd, c) || (exists k :: 0 <= k < |steps| && Notices(steps[k], c)) ==> OffHerd(t.herd, c))
            && (c !in s.leaving ==> forall r :: r in t.cockpits ==> t.cockpits[r].owner != c)
    decreases |steps|
  {
    hide Enabled, Apply, OffBoats, OffHerd, Notices, OneBoat, OneMammoth, Tack;
    if steps != [] {
      StepKeepsGood(s, steps[0]);
      StepKeepsOffBoats(s, steps[0], c);
      StepKeepsOffHerd(s, steps[0], c);
      LeftForGood(Apply(s, steps[0]), steps[1..], c);
      if k :| 0 < k < |steps| && Notices(steps[k], c) { assert steps[k] == steps[1..][k - 1]; }
    }
  }

  // ---------------------------------------------------------------------------------------------
  // Nobody loses a vehicle to somebody else

  lemma {:induction false} ReleasedIs(cs: Cockpits, c: Id)
    ensures forall r :: r in cs ==>
              r in Released(cs, c) && Released(cs, c)[r] == if cs[r].owner == c then FREE else cs[r]
  {
  }

  /** A pilot keeps the rocket until he gets out of it himself or has left the server. */
  lemma {:induction false} PilotKeptIff(s: State, step: Step, p: Id, r: Id)
    requires Registry(s) && Enabled(s, step) && p != NOBODY && r in s.cockpits && Flies(s.cockpits[r], p)
    ensures var after := Apply(s, step).cockpits;
            r in after && (Flies(after[r], p) <==> step != ExitRocket(p, r) && step != ReleaseRockets(p))
  {
    ReleasedIs(s.cockpits, if step.ReleaseRockets? then step.c else p);
  }

  /** So over any run: whoever flies a rocket still flies it unless he got out of it or has left. */
  lemma {:induction false} PilotKeepsRocket(s: State, steps: seq<Step>, p: Id, r: Id)
    requires Registry(s) && IsRun(s, steps) && p != NOBODY && r in s.cockpits && Flies(s.cockpits[r], p)
    requires ExitRocket(p, r) !in steps && ReleaseRockets(p) !in steps
    ensures r in After(s, steps).cockpits && Flies(After(s, steps).cockpits[r], p)
    decreases |steps|
  {
    hide Enabled, Apply, Registry, Flies;
    if steps != [] {
      assert steps[0] in steps && forall x :: x in steps[1..] ==> x in steps;
      StepKeepsRegistry(s, steps[0]);
      PilotKeptIff(s, steps[0], p, r);
      PilotKeepsRocket(Apply(s, steps[0]), steps[1..], p, r);
    }
  }

  /** What the remaining sections make of each mammoth. */
  lemma {:induction false} HerdLaws(h: Herd, m: Id, id: Id, near: bool, has: bool, ids: set<Id>)
    requires m in h
    ensures m in SaddleToggled(h, id, near, has) && m in GrownUp(h, ids)
    ensures m in Thrown(h, ids) && m in TameSet(h, id, has)
    ensures SaddleToggled(h, id, near, has)[m] ==
            if m == id && near && h[m].tamed && !h[m].baby && (if h[m].saddle then h[m].rider == NOBODY else has)
            then h[m].(saddle := !h[m].saddle) else h[m]
    ensures GrownUp(h, ids)[m] == if m in ids then h[m].(baby := false) else h[m]
    ensures Thrown(h, ids)[m] == if h[m].rider in ids then h[m] else h[m].(rider := NOBODY)
    ensures TameSet(h, id, has)[m] == if m == id then h[m].(tamed := has) else h[m]
  {
  }

  /** New vehicles are free, new mammoths riderless: wild adults, or tame calves. */
  lemma {:induction false} ArrivalLaws(s: State, c: Id, id: Id)
    requires Acts(s, c) && Unused(s, id)
    ensures Apply(s, PlaceRocket(c, id)).cockpits == s.cockpits[id := Cockpit(false, NOBODY)]
    ensures Apply(s, PlaceBoat(c, id)).boats == s.boats[id := NOBODY]
    ensures Apply(s, Spawn(id)).herd == s.herd[id := Mammoth(false, false, false, NOBODY)]
    ensures Apply(s, Birth(id)).herd == s.herd[id := Mammoth(true, false, true, NOBODY)]
  {
  }

  /** A rider keeps the boat until he asks for another, or for this one from too far, or a tick finds him gone. */
  lemma {:induction false} BoatKeptIff(s: State, step: Step, p: Id, b: Id)
    requires Registry(s) && Enabled(s, step) && p != NOBODY && b in s.boats && s.boats[b] == p
    ensures var after := Apply(s, step).boats;
            b in after && (after[b] == p <==>
                             !(step.EnterBoat? && step.c == p && !(step.id == b && step.near)) &&
                             !(step == TickBoats && p !in s.registered))
  {
  }

  /** A rider stays mounted until he gets off, boards a boat, loses the mammoth or a tick finds him gone. */
  lemma {:induction false} MountKeptIff(s: State, step: Step, p: Id, m: Id)
    requires Registry(s) && OneMammoth(s.herd) && Enabled(s, step)
    requires p != NOBODY && m in s.herd && s.herd[m].rider == p
    ensures var after := Apply(s, step).herd;
            (m in after && after[m].rider == p) <==>
            && !(step.RideMammoth? && step.c == p) && step != DismountForBoat(p)
            && !(step.HitMammoth? && step.id == m && step.lethal) && !(step.TickMammoths? && p !in step.players)
  {
    if step.RideMammoth? && step.c == p {
      assert s.herd[step.pick].rider == p;
      assert step.pick == m;
    }
  }

  // ---------------------------------------------------------------------------------------------
  // Saddled but wild

  ghost predicate SaddledTamed(h: Herd) { forall id :: id in h && h[id].saddle ==> h[id].tamed }

  /** A tame taken back from a mammoth that was saddled in the meantime. */
  ghost predicate LateRollback(s: State, step: Step) {
    && step.SettleTame? && !step.paid && step.c in s.taming
    && s.taming[step.c] in s.herd && s.herd[s.taming[step.c]].saddle
  }

  lemma {:induction false} RollbackKeepsIff(h: Herd, id: Id)
    requires SaddledTamed(h)
    ensures SaddledTamed(TameSet(h, id, false)) <==> !(id in h && h[id].saddle)
  {
    var r := TameSet(h, id, false);
    if id in h && h[id].saddle { assert id in r && r[id].saddle && !r[id].tamed; }
  }

  lemma {:induction false} OthersKeepTamed(
    h: Herd, c: Id, pick: Id, id: Id, near: bool, has: bool, ids: set<Id>, m: Mammoth)
    requires SaddledTamed(h) && !m.saddle
    ensures SaddledTamed(Unmounted(h, c)) && SaddledTamed(Ridden(h, c, pick, id, near))
    ensures SaddledTamed(SaddleToggled(h, id, near, has)) && SaddledTamed(TameSet(h, id, true))
    ensures SaddledTamed(h - {id})
    ensures SaddledTamed(GrownUp(h, ids)) && SaddledTamed(Thrown(h, ids)) && SaddledTamed(h[id := m])
  {
  }

  /** A step breaks "saddled implies tamed" exactly when it is a late rollback. */
  lemma {:induction false} SaddledTamedKeptIff(s: State, step: Step)
    requires SaddledTamed(s.herd) && Enabled(s, step)
    ensures SaddledTamed(Apply(s, step).herd) <==> !LateRollback(s, step)
  {
    hide Ridden, Unmounted, SaddleToggled, TameSet, GrownUp, Thrown, SaddledTamed;
    var wild, calf := Mammoth(false, false, false, NOBODY), Mammoth(true, false, true, NOBODY);
    match step
    case DismountForBoat(c) => OthersKeepTamed(s.herd, c, c, c, false, false, {}, wild);
    case RideMammoth(c, pick, id, near) => OthersKeepTamed(s.herd, c, pick, id, near, false, {}, wild);
    case SaddleMammoth(c, id, near, has) => OthersKeepTamed(s.herd, c, c, id, near, has, {}, wild);
    case TryTame(c, id) => OthersKeepTamed(s.herd, c, c, id, false, false, {}, wild);
    case SettleTame(c, paid) => RollbackKeepsIff(s.herd, s.taming[c]);
    case HitMammoth(c, id, _) => OthersKeepTamed(s.herd, c, c, id, false, false, {}, wild);
    case Spawn(id) => OthersKeepTamed(s.herd, id, id, id, false, false, {}, wild);
    case GrowUp(grown) => OthersKeepTamed(s.herd, NOBODY, NOBODY, NOBODY, false, false, grown, wild);
    case Birth(id) => OthersKeepTamed(s.herd, id, id, id, false, false, {}, calf);
    case TickMammoths(players) => OthersKeepTamed(s.herd, NOBODY, NOBODY, NOBODY, false, false, players, wild);
    case _ =>
  }

  /** Two players reach a ridden, saddled and wild mammoth: one cannot pay for the tame the other relied on. */
  lemma {:induction false} RiddenAndWild(s: State, a: Id, b: Id, m: Id)
    requires a != b && Acts(s, a) && Acts(s, b) && b != NOBODY && m != NOBODY
    requires m in s.herd && s.herd[m] == Mammoth(false, false, false, NOBODY)
    requires forall x :: x in s.herd ==> s.herd[x].rider != b
    ensures var steps :=
              [TryTame(a, m), SaddleMammoth(b, m, true, true), RideMammoth(b, m, m, true), SettleTame(a, false)];
            IsRun(s, steps) && m in After(s, steps).herd && After(s, steps).herd[m] == Mammoth(false, true, false, b)
  {
    var t1, t2 := TryTame(a, m), SaddleMammoth(b, m, true, true);
    var t3, t4 := RideMammoth(b, m, m, true), SettleTame(a, false);
    var s1 := Apply(s, t1);
    var s2 := Apply(s1, t2);
    assert s2.herd[m] == Mammoth(true, true, false, NOBODY);
    assert Enabled(s2, t3);
    var s3 := Apply(s2, t3);
    assert s3.herd[m] == Mammoth(true, true, false, b);
    assert Enabled(s3, t4);
    var s4 := Apply(s3, t4);
    assert s4.herd[m] == Mammoth(false, true, false, b);
    OneStepRun(s3, t4, []);
    OneStepRun(s2, t3, [t4]);
    OneStepRun(s1, t2, [t3, t4]);
    OneStepRun(s, t1, [t2, t3, t4]);
  }

  lemma {:induction false} OneStepRun(s: State, step: Step, rest: seq<Step>)
    requires Enabled(s, step) && IsRun(Apply(s, step), rest)
    ensures IsRun(s, [step] + rest) && After(s, [step] + rest) == After(Apply(s, step), rest)
  {
    hide Enabled, Apply;
    assert ([step] + rest)[0] == step && ([step] + rest)[1..] == rest;
  }

  /** From an empty server: two players join, a mammoth appears, and the four steps follow. */
  lemma {:induction false} RiddenAndWildReachable(a: Id, b: Id, m: Id) returns (steps: seq<Step>)
    requires a != b && a != m && b != m && NOBODY !in {a, b, m}
    ensures IsRun(EMPTY, steps) && m in After(EMPTY, steps).herd
    ensures After(EMPTY, steps).herd[m] == Mammoth(false, true, false, b)
  {
    var s1 := Apply(EMPTY, Register(a));
    var s2 := Apply(s1, Register(b));
    var s3 := Apply(s2, Spawn(m));
    var rest := [TryTame(a, m), SaddleMammoth(b, m, true, true), RideMammoth(b, m, m, true), SettleTame(a, false)];
    RiddenAndWild(s3, a, b, m);
    OneStepRun(s2, Spawn(m), rest);
    OneStepRun(s1, Register(b), [Spawn(m)] + rest);
    OneStepRun(EMPTY, Register(a), [Register(b)] + ([Spawn(m)] + rest));
    steps := [Register(a)] + ([Register(b)] + ([Spawn(m)] + rest));
  }

  // ---------------------------------------------------------------------------------------------
  // In place

  class Vehicles {
    var cockpits: Cockpits
    var boats: Boats
    var herd: Herd

    constructor ()
      ensures cockpits == map[] && boats == map[] && herd == map[]
    {
      cockpits, boats, herd := map[], map[], map[];
    }

    method BoardRocket(c: Id, id: Id, near: bool)
      modifies this`cockpits
      ensures cockpits == Boarded(old(cockpits), c, id, near)
      ensures cockpits.Keys == old(cockpits.Keys)
      ensures forall r :: r in cockpits && r != id ==> cockpits[r] == old(cockpits)[r]
      ensures id in cockpits ==>
                var was := old(cockpits)[id];
                cockpits[id] == if near && (!was.piloted || was.owner == c) then Cockpit(true, c) else was
    {
      if id !in cockpits {
        return;
      }
      var r := cockpits[id];
      if r.piloted && r.owner != c {
        return;
      }
      if !near {
        return;
      }
      cockpits := cockpits[id := Cockpit(true, c)];
    }

    /** Frees the first rocket of the player in map order, if there is one. */
    method ExitRocket(c: Id) returns (pick: Id)
      modifies this`cockpits
      ensures cockpits == Exited(old(cockpits), c, pick)
      ensures cockpits.Keys == old(cockpits.Keys)
      ensures forall r :: r in cockpits && r != pick ==> cockpits[r] == old(cockpits)[r]
      ensures pick in old(cockpits) && Flies(old(cockpits)[pick], c) ==> cockpits[pick] == Cockpit(false, NOBODY)
      ensures (pick in old(cockpits) && Flies(old(cockpits)[pick], c)) ||
              forall r :: r in old(cockpits) ==> !Flies(old(cockpits)[r], c)
    {
      var left := cockpits.Keys;
      pick := NOBODY;
      while left != {}
        invariant left <= cockpits.Keys && cockpits == old(cockpits)
        invariant forall r :: r in cockpits && r !in left ==> !Flies(cockpits[r], c)
        decreases |left|
      {
        var r :| r in left;
        if cockpits[r].owner == c && cockpits[r].piloted {
          cockpits := cockpits[r := FREE];
          return r;
        }
        left := left - {r};
      }
    }

    /** The second section of unregisterClient. */
    method ReleaseRockets(c: Id)
      modifies this`cockpits
      ensures cockpits == Released(old(cockpits), c)
      ensures forall r :: r in old(cockpits) ==>
                cockpits[r] == if old(cockpits)[r].owner == c then Cockpit(false, NOBODY) else old(cockpits)[r]
    {
      var left := cockpits.Keys;
      while left != {}
        invariant left <= cockpits.Keys == old(cockpits.Keys)
        invariant forall r :: r in left ==> cockpits[r] == old(cockpits)[r]
        invariant forall r :: r in cockpits && r !in left ==> cockpits[r] == Released(old(cockpits), c)[r]
        decreases |left|
      {
        var r :| r in left;
        if cockpits[r].owner == c {
          cockpits := cockpits[r := FREE];
        }
        left := left - {r};
      }
    }

    method EnterBoat(c: Id, id: Id, near: bool)
      modifies this`boats, this`herd
      ensures boats == Entered(old(boats), c, id, near) && herd == Unmounted(old(herd), c)
      ensures forall b :: b in old(boats) ==>
                var was := old(boats)[b];
                boats[b] == if b == id && b != NOBODY && near && (was == NOBODY || was == c) then c
                            else if was == c then NOBODY else was
      ensures forall m :: m in old(herd) ==>
                var was := old(herd)[m]; herd[m] == if was.rider == c then was.(rider := NOBODY) else was
    {
      LeaveBoats(c);
      Unmount(c);
      if id == NOBODY || id !in boats || !near || boats[id] != NOBODY {
        return;
      }
      boats := boats[id := c];
    }

    method LeaveBoats(c: Id)
      modifies this`boats
      ensures boats == Disembarked(old(boats), c)
    {
      var left := boats.Keys;
      while left != {}
        invariant left <= boats.Keys == old(boats.Keys)
        invariant forall b :: b in left ==> boats[b] == old(boats)[b]
        invariant forall b :: b in boats && b !in left ==> boats[b] == Disembarked(old(boats), c)[b]
        decreases |left|
      {
        var b :| b in left;
        if boats[b] == c {
          boats := boats[b := NOBODY];
        }
        left := left - {b};
      }
    }

    method Unmount(c: Id)
      modifies this`herd
      ensures herd == Unmounted(old(herd), c)
    {
      var left := herd.Keys;
      while left != {}
        invariant left <= herd.Keys == old(herd.Keys)
        invariant forall m :: m in left ==> herd[m] == old(herd)[m]
        invariant forall m :: m in herd && m !in left ==> herd[m] == Unmounted(old(herd), c)[m]
        decreases |left|
      {
        var m :| m in left;
        if herd[m].rider == c {
          herd := herd[m := herd[m].(rider := NOBODY)];
        }
        left := left - {m};
      }
    }

    /** Gets off the first mammoth ridden, or else mounts the one asked for. */
    method RideMammoth(c: Id, id: Id, near: bool) returns (pick: Id)
      requires c != NOBODY
      modifies this`herd
      ensures herd == Ridden(old(herd), c, pick, id, near)
      ensures herd.Keys == old(herd.Keys)
      ensures forall m :: m in herd ==>
                var was := old(herd)[m];
                herd[m] == if pick in old(herd) && old(herd)[pick].rider == c
                           then (if m == pick then was.(rider := NOBODY) else was)
                           else if m == id && m != NOBODY && near && was.tamed && was.saddle && was.rider == NOBODY
                           then was.(rider := c) else was
      ensures (pick in old(herd) && old(herd)[pick].rider == c) ||
              forall m :: m in old(herd) ==> old(herd)[m].rider != c
    {
      var left := herd.Keys;
      pick := NOBODY;
      while left != {}
        invariant left <= herd.Keys && herd == old(herd)
        invariant forall m :: m in herd && m !in left ==> herd[m].rider != c
        decreases |left|
      {
        var m :| m in left;
        if herd[m].rider == c {
          herd := herd[m := herd[m].(rider := NOBODY)];
          return m;
        }
        left := left - {m};
      }
      if id == NOBODY || id !in herd || !near {
        return;
      }
      var m := herd[id];
      if !m.tamed || !m.saddle || m.rider != NOBODY {
        return;
      }
      herd := herd[id := m.(rider := c)];
    }

    method TickBoats(registered: set<Id>)
      requires NOBODY !in registered
      modifies this`boats
      ensures boats == Drifting(old(boats), registered)
      ensures forall b :: b in old(boats) ==>
                boats[b] == if old(boats)[b] in registered then old(boats)[b] else NOBODY
    {
      var left := boats.Keys;
      while left != {}
        invariant left <= boats.Keys == old(boats.Keys)
        invariant forall b :: b in left ==> boats[b] == old(boats)[b]
        invariant forall b :: b in boats && b !in left ==> boats[b] == Drifting(old(boats), registered)[b]
        decreases |left|
      {
        var b :| b in left;
        if boats[b] != NOBODY && boats[b] !in registered {
          boats := boats[b := NOBODY];
        }
        left := left - {b};
      }
    }
  }
}
