/**
 The shared world as a state machine over critical sections. A step is what one goroutine does while
 it holds one set of locks; handlers that release a store before touching the next appear as several
 steps, with what they carry in between kept in the state. Runs interleave steps in any order.
 */
module World {
  import opened Geometry
  import opened Sums
  import opened Inventory
  import opened Mobs

  const FRUIT := Item("fruit")
  const SPEAR := Item("spear")
  const SEED := Item("seed")
  const PINK_GATHER_TARGET := 4
  const HOSTILE_DROP := 10
  const GUARD_PRICE := 10

  /** Where the tick goroutine is while it holds s.mobs. */
  datatype Phase =
    | Unlocked
    | Roaming                                             // between two lock operations of tickMobs
    | Looking(mob: Id, resource: Id, item: Item) // nearest resource found, s.resources released
    | Handing(mob: Id, client: Id)                 // owner found in range, s.mu released

  datatype State = State(
    ground: map<Id, Item>,    // resource id -> item type
    clients: map<Id, Inv>,      // every connection ever accepted
    registered: set<Id>,
    carrying: map<Id, Item>,  // handlePickup: off the ground, not yet in the inventory
    mobs: map<Id, Mob>,
    phase: Phase,
    drops: map<Id, Drop>,       // killed mob -> drop not yet scattered
    spears: multiset<Id>,       // targets of the pinks' spears, in flight or among the collected hits
    history: History)

  /** What has happened so far; no handler reads it. */
  datatype History = History(
    issued: set<Id>,            // ids handed out by newID
    typeOf: map<Id, Item>,    // the type each resource id was created with
    removed: multiset<Id>,      // resource ids taken off the ground
    kills: multiset<Id>,
    scattered: multiset<Id>,
    gathers: int,                   // gather4 contracts paid for
    deliveries: int,
    handed: int,                    // items handed over by deliveries
    abandoned: int)                 // gather4 pinks killed before delivering

  /** What connections and the farm do to inventories and the ground. */
  datatype PlayerStep =
    | Join(client: Id)
    | Leave(client: Id)
    | PickupTake(client: Id, resource: Id)
    | PickupStore(client: Id)
    | Gain(client: Id, item: Item, n: nat)          // wells, returned saddles and spears
    | Spend(client: Id, item: Item)                 // eating, placing, throwing, feeding, planting
    | Craft(client: Id, recipe: Recipe)
    | Get(client: Id, item: Item, qty: int)         // the cheat /get, whose quantity may be negative
    | GetAll(client: Id)                            // /allinv
    | Clear(client: Id)                             // /clearinv
    | Place(resource: Id, item: Item)               // seeds and mammoth drops
    | Harvest(resource: Id, first: Id, second: Id)

  /** Sections that take s.mobs from outside tickMobs, and the drops that follow a kill. */
  datatype FightStep =
    | HitMob(client: Id, mob: Id)
    | Accept(client: Id, mob: Id, contract: Contract)
    | Struck(mob: Id)                                 // one hit of applyMobHits
    | Expire(mob: Id)                                 // a spear that outlives its time
    | Scatter(mob: Id, spawned: map<Id, Item>)  // spawnDrops for one killed mob

  /** tickMobs, which keeps s.mobs locked from TickBegin to TickEnd. */
  datatype TickStep =
    | TickBegin
    | TickEnd
    | Move(mob: Id, pos: Vec)
    | Look(mob: Id, resource: Id)
    | PickUp
    | FindOwner(mob: Id)
    | HandOver
    | Release(mob: Id)                                // guard whose owner is gone
    | Throw(mob: Id, target: Id)                      // pinkAutoShoot

  datatype Step = Player(player: PlayerStep) | Fight(fight: FightStep) | Tick(tick: TickStep)

  // ---------------------------------------------------------------------------------------------
  // Guards and effects

  /** What a pink shoots at. */
  predicate IsThreat(m: Mob) { m.kind == Hostile || (m.kind == Collector && m.angered) }

  ghost predicate MaySearch(m: Mob) {
    match m.kind
    case Collector => !m.angered
    case Pink => m.contract == Gather4 && Size(m.inv) < PINK_GATHER_TARGET
    case Hostile => false
  }

  predicate CanPay(inv: Inv, k: Contract) {
    match k
    case Idle => false
    case Gather4 => Count(inv, FRUIT) > 0
    case Guard => Count(inv, SPEAR) >= GUARD_PRICE
  }

  function Pay(inv: Inv, k: Contract): Inv {
    match k
    case Idle => inv
    case Gather4 => Take(inv, FRUIT)
    case Guard => Add(inv, SPEAR, -GUARD_PRICE)
  }

  function Sign(m: Mob, owner: Id, k: Contract): Mob {
    m.(contract := k, owner := owner, inv := if k == Gather4 then map[] else m.inv)
  }

  function Freed(m: Mob): Mob { m.(inv := map[], contract := Idle, owner := NOBODY) }

  function Wound(m: Mob): Mob { m.(hp := m.hp - 1, angered := m.angered || m.kind == Collector) }

  /** Needs are taken and emptied entries deleted, then the output is added. */
  function Crafted(inv: Inv, r: Recipe): Inv {
    Add(map k | k in inv && !(k in r.need && inv[k] == r.need[k]) :: inv[k] - Count(r.need, k), r.out, r.outQty)
  }

  /** What /allinv hands out, a hundred of each. */
  const ALL_ITEMS: set<string> :=
    {"stone", "wood", "ore", "fruit", "meat", "spear", "torch", "water", "liana", "leash", "house", "saddle", "boat",
     "solar", "battery", "factory", "steel", "gear", "circuit", "drone", "rocket"}

  function Everything(inv: Inv): Inv { inv + map name | name in ALL_ITEMS :: Item(name) := 100 }

  function OfType(t: Item): Item -> int { (item: Item) => if item == t then 1 else 0 }
  function InInventory(t: Item): Inv -> int { (inv: Inv) => Count(inv, t) }
  function OnMob(t: Item): Mob -> int { (m: Mob) => Count(m.inv, t) }
  function InDrop(t: Item): Drop -> int { (d: Drop) => Count(d.inv, t) }
  function Gathering(m: Mob): int { if m.contract == Gather4 then 1 else 0 }
  function OpenGather(): Mob -> int { (m: Mob) => Gathering(m) }

  /** `spawned` is what spawnDrops may put on the ground for `d`. */
  ghost predicate ScatterOf(d: Drop, spawned: map<Id, Item>) {
    forall t :: SumBy(spawned, OfType(t)) ==
                match d.kind
                case Hostile => if t == SPEAR then HOSTILE_DROP else 0
                case Collector => Count(d.inv, t)
                case Pink => 0
  }

  ghost predicate PlayerEnabled(s: State, step: PlayerStep) {
    match step
    case Join(c) => c != NOBODY && c !in s.history.issued
    case Leave(c) => c in s.registered
    case PickupTake(c, r) => c in s.clients && c !in s.carrying && r in s.ground && s.ground[r] != SEED
    case PickupStore(c) => c in s.carrying && c in s.clients
    case Gain(c, _, _) => c in s.clients
    case Spend(c, item) => c in s.clients && Count(s.clients[c], item) > 0
    case Craft(c, r) => c in s.clients && CanCraft(s.clients[c], r) && NonNegative(r.need) && r.outQty >= 0
    case Get(c, _, _) => c in s.clients
    case GetAll(c) => c in s.clients
    case Clear(c) => c in s.clients
    case Place(r, _) => r !in s.history.issued
    case Harvest(r, a, b) =>
      r in s.ground && s.ground[r] == SEED && a != b && a !in s.history.issued && b !in s.history.issued
  }

  ghost predicate FightEnabled(s: State, step: FightStep) {
    match step
    case HitMob(c, m) => s.phase == Unlocked && c in s.clients && m in s.mobs && Count(s.clients[c], SPEAR) > 0
    case Accept(c, m, k) =>
      && s.phase == Unlocked && c in s.clients && m in s.mobs
      && s.mobs[m].kind == Pink && s.mobs[m].contract == Idle && CanPay(s.clients[c], k)
    case Struck(m) => s.phase == Unlocked && m in s.spears
    case Expire(m) => m in s.spears
    case Scatter(m, spawned) => m in s.drops && ScatterOf(s.drops[m], spawned) && spawned.Keys !! s.history.issued
  }

  ghost predicate TickEnabled(s: State, step: TickStep) {
    match step
    case TickBegin => s.phase == Unlocked
    case TickEnd => s.phase == Roaming
    case Move(m, _) => s.phase == Roaming && m in s.mobs
    case Look(m, r) => s.phase == Roaming && m in s.mobs && r in s.ground && MaySearch(s.mobs[m])
    case PickUp => s.phase.Looking? && s.phase.mob in s.mobs
    case FindOwner(m) =>
      && s.phase == Roaming && m in s.mobs && s.mobs[m].kind == Pink && s.mobs[m].contract == Gather4
      && Size(s.mobs[m].inv) >= PINK_GATHER_TARGET && s.mobs[m].owner in s.registered
    case HandOver => s.phase.Handing? && s.phase.mob in s.mobs && s.phase.client in s.clients
    case Release(m) =>
      && s.phase == Roaming && m in s.mobs && s.mobs[m].kind == Pink && s.mobs[m].contract == Guard
      && s.mobs[m].owner !in s.registered
    case Throw(m, target) =>
      && s.phase == Roaming && m in s.mobs && s.mobs[m].kind == Pink
      && target in s.mobs && target != m && IsThreat(s.mobs[target])
  }

  ghost predicate Enabled(s: State, step: Step) {
    match step
    case Player(p) => PlayerEnabled(s, p)
    case Fight(f) => FightEnabled(s, f)
    case Tick(t) => TickEnabled(s, t)
  }

  // The state transformers that steps are made of.

  function SetClient(s: State, c: Id, inv: Inv): State { s.(clients := s.clients[c := inv]) }

  function SetMob(s: State, m: Id, mob: Mob): State { s.(mobs := s.mobs[m := mob]) }

  function Spawn(s: State, items: map<Id, Item>): State {
    s.(ground := s.ground + items,
       history := s.history.(issued := s.history.issued + items.Keys, typeOf := s.history.typeOf + items))
  }

  function Remove(s: State, r: Id): State {
    s.(ground := s.ground - {r}, history := s.history.(removed := s.history.removed + multiset{r}))
  }

  function Kill(s: State, m: Id): State
    requires m in s.mobs
  {
    s.(mobs := s.mobs - {m},
       drops := s.drops[m := DropOf(s.mobs[m])],
       history := s.history.(kills := s.history.kills + multiset{m},
                             abandoned := s.history.abandoned + Gathering(s.mobs[m])))
  }

  function Bury(s: State, m: Id): State {
    s.(drops := s.drops - {m}, history := s.history.(scattered := s.history.scattered + multiset{m}))
  }

  function Spent(s: State, target: Id): State { s.(spears := s.spears - multiset{target}) }

  /** A hit on a mob that is gone by now does nothing. */
  function Hit(s: State, m: Id): State {
    if m !in s.mobs then s
    else if Kills(s.mobs, m) then Kill(s, m)
    else SetMob(s, m, Strike(s.mobs, m)[m])
  }

  ghost function ApplyPlayer(s: State, step: PlayerStep): State
    requires PlayerEnabled(s, step)
  {
    match step
    case Join(c) =>
      SetClient(s, c, map[]).(registered := s.registered + {c}, history := s.history.(issued := s.history.issued + {c}))
    case Leave(c) => s.(registered := s.registered - {c})
    case PickupTake(c, r) => Remove(s, r).(carrying := s.carrying[c := s.ground[r]])
    case PickupStore(c) => SetClient(s, c, Add(s.clients[c], s.carrying[c], 1)).(carrying := s.carrying - {c})
    case Gain(c, item, n) => SetClient(s, c, Add(s.clients[c], item, n))
    case Spend(c, item) => SetClient(s, c, Take(s.clients[c], item))
    case Craft(c, r) => SetClient(s, c, Crafted(s.clients[c], r))
    case Get(c, item, qty) => SetClient(s, c, Add(s.clients[c], item, qty))
    case GetAll(c) => SetClient(s, c, Everything(s.clients[c]))
    case Clear(c) => SetClient(s, c, map[])
    case Place(r, item) => Spawn(s, map[r := item])
    case Harvest(r, a, b) => Spawn(Remove(s, r), map[a := FRUIT, b := FRUIT])
  }

  ghost function ApplyFight(s: State, step: FightStep): State
    requires FightEnabled(s, step)
  {
    match step
    case HitMob(c, m) =>
      var wounded := SetMob(SetClient(s, c, Take(s.clients[c], SPEAR)), m, Wound(s.mobs[m]));
      if s.mobs[m].hp <= 1 then Kill(wounded, m) else wounded
    case Accept(c, m, k) =>
      var signed := SetMob(SetClient(s, c, Pay(s.clients[c], k)), m, Sign(s.mobs[m], c, k));
      signed.(history := s.history.(gathers := s.history.gathers + if k == Gather4 then 1 else 0))
    case Struck(m) => Spent(Hit(s, m), m)
    case Expire(m) => Spent(s, m)
    case Scatter(m, spawned) => Spawn(Bury(s, m), spawned)
  }

  ghost function ApplyTick(s: State, step: TickStep): State
    requires TickEnabled(s, step)
  {
    match step
    case TickBegin => s.(phase := Roaming)
    case TickEnd => s.(phase := Unlocked)
    case Move(m, pos) => SetMob(s, m, s.mobs[m].(pos := pos))
    case Look(m, r) => s.(phase := Looking(m, r, s.ground[r]))
    case PickUp =>
      var Looking(m, r, item) := s.phase;
      if r in s.ground then
        SetMob(Remove(s, r), m, s.mobs[m].(inv := Add(s.mobs[m].inv, item, 1))).(phase := Roaming)
      else s.(phase := Roaming)
    case FindOwner(m) => s.(phase := Handing(m, s.mobs[m].owner))
    case HandOver =>
      var Handing(m, c) := s.phase;
      var merged := SetClient(s, c, Merge(s.clients[c], s.mobs[m].inv));
      SetMob(merged, m, Freed(s.mobs[m])).(
         phase := Roaming,
         history := s.history.(deliveries := s.history.deliveries + 1,
                               handed := s.history.handed + Size(s.mobs[m].inv)))
    case Release(m) => SetMob(s, m, s.mobs[m].(contract := Idle, owner := NOBODY))
    case Throw(_, target) => s.(spears := s.spears + multiset{target})
  }

  ghost function Apply(s: State, step: Step): State
    requires Enabled(s, step)
  {
    match step
    case Player(p) => ApplyPlayer(s, p)
    case Fight(f) => ApplyFight(s, f)
    case Tick(t) => ApplyTick(s, t)
  }

  // ---------------------------------------------------------------------------------------------
  // What every reachable state satisfies

  ghost predicate IdsInOrder(s: State) {
    var h := s.history;
    && s.clients.Keys <= h.issued && s.mobs.Keys <= h.issued && s.ground.Keys <= h.issued && h.typeOf.Keys <= h.issued
    && s.registered <= s.clients.Keys && s.carrying.Keys <= s.clients.Keys && NOBODY !in s.clients
    && (forall r :: r in s.ground ==> r in h.typeOf && h.typeOf[r] == s.ground[r])
  }

  /** Each resource leaves the ground at most once and never comes back. */
  ghost predicate TakenOnce(lying: set<Id>, removed: multiset<Id>, issued: set<Id>) {
    && (forall r :: removed[r] <= if r in lying then 0 else 1)
    && (forall r :: r in removed || r in lying ==> r in issued)
  }

  /** Each mob dies at most once, and every death is waiting to be scattered or has been, exactly once. */
  ghost predicate DiesOnce(alive: set<Id>, waiting: set<Id>, kills: multiset<Id>, scattered: multiset<Id>) {
    && (forall m :: kills[m] <= if m in alive then 0 else 1)
    && (forall m :: kills[m] == scattered[m] + (if m in waiting then 1 else 0))
  }

  ghost predicate BooksInOrder(s: State) {
    var h := s.history;
    && TakenOnce(s.ground.Keys, h.removed, h.issued)
    && DiesOnce(s.mobs.Keys, s.drops.Keys, h.kills, h.scattered)
  }

  /** The contract state machine of a pink mob; other kinds never sign anything and hostiles carry nothing. */
  ghost predicate MobSane(m: Mob) {
    && m.hp > 0 && NonNegative(m.inv)
    && (m.owner == NOBODY <==> m.contract == Idle)
    && (m.kind != Pink ==> m.contract == Idle)
    && (m.kind == Hostile ==> m.inv == map[])
    && (m.kind == Pink && m.contract != Gather4 ==> m.inv == map[])
    && (m.kind == Pink ==> 0 <= Size(m.inv) <= PINK_GATHER_TARGET)
  }

  ghost predicate MobsSane(mobs: map<Id, Mob>) { forall m :: m in mobs ==> MobSane(mobs[m]) }

  ghost predicate DropsSane(drops: map<Id, Drop>) {
    forall m :: m in drops ==> NonNegative(drops[m].inv) && (drops[m].kind == Hostile ==> drops[m].inv == map[])
  }

  /** What the tick goroutine found stays true of what it can still see. */
  ghost predicate PhaseSane(phase: Phase, mobs: map<Id, Mob>, clients: set<Id>, typeOf: map<Id, Item>) {
    match phase
    case Looking(m, r, item) => m in mobs && MaySearch(mobs[m]) && r in typeOf && typeOf[r] == item
    case Handing(m, c) =>
      && m in mobs && c in clients && mobs[m].kind == Pink && mobs[m].contract == Gather4
      && mobs[m].owner == c && Size(mobs[m].inv) == PINK_GATHER_TARGET
    case _ => true
  }

  /** Every gather4 contract paid for is open, delivered or lost with its pink; deliveries are always full. */
  ghost predicate ContractsBalance(s: State) {
    var h := s.history;
    && h.gathers == h.deliveries + h.abandoned + SumBy(s.mobs, OpenGather())
    && h.handed == PINK_GATHER_TARGET * h.deliveries
  }

  ghost predicate Sane(s: State) {
    && MobsSane(s.mobs) && DropsSane(s.drops)
    && PhaseSane(s.phase, s.mobs, s.clients.Keys, s.history.typeOf)
  }

  /** Spears fly only at threats, and a threat stays one. */
  ghost predicate Aimed(spears: multiset<Id>, mobs: map<Id, Mob>) {
    forall m :: m in spears && m in mobs ==> IsThreat(mobs[m])
  }

  ghost predicate Good(s: State) {
    && IdsInOrder(s) && BooksInOrder(s) && Sane(s) && ContractsBalance(s) && Aimed(s.spears, s.mobs)
  }

  ghost predicate Booked(s: State) { IdsInOrder(s) && BooksInOrder(s) }

  lemma {:induction false} SetClientKeepsBooks(s: State, c: Id, inv: Inv)
    requires Booked(s) && c in s.clients
    ensures Booked(SetClient(s, c, inv))
  {
    assert SetClient(s, c, inv).clients.Keys == s.clients.Keys;
  }

  lemma {:induction false} SetMobKeepsBooks(s: State, m: Id, mob: Mob)
    requires Booked(s) && m in s.mobs
    ensures Booked(SetMob(s, m, mob))
  {
    assert SetMob(s, m, mob).mobs.Keys == s.mobs.Keys;
  }

  lemma {:induction false} RemoveKeepsBooks(s: State, r: Id)
    requires Booked(s) && r in s.ground
    ensures Booked(Remove(s, r))
  {
    assert Remove(s, r).ground.Keys == s.ground.Keys - {r};
  }

  lemma {:induction false} SpawnKeepsBooks(s: State, items: map<Id, Item>)
    requires Booked(s) && items.Keys !! s.history.issued
    ensures Booked(Spawn(s, items))
  {
    assert Spawn(s, items).ground.Keys == s.ground.Keys + items.Keys;
  }

  lemma {:induction false} KillKeepsBooks(s: State, m: Id)
    requires Booked(s) && m in s.mobs
    ensures Booked(Kill(s, m))
  {
    assert Kill(s, m).mobs.Keys == s.mobs.Keys - {m};
    assert Kill(s, m).drops.Keys == s.drops.Keys + {m};
  }

  lemma {:induction false} HitKeepsBooks(s: State, m: Id)
    requires Booked(s)
    ensures Booked(Hit(s, m))
  {
    if Kills(s.mobs, m) { KillKeepsBooks(s, m); } else if m in s.mobs { SetMobKeepsBooks(s, m, Strike(s.mobs, m)[m]); }
  }

  lemma {:induction false} BuryKeepsBooks(s: State, m: Id)
    requires Booked(s) && m in s.drops
    ensures Booked(Bury(s, m))
  {
    assert Bury(s, m).drops.Keys == s.drops.Keys - {m};
  }

  lemma {:induction false} PlayerKeepsBooks(s: State, step: PlayerStep)
    requires Booked(s) && PlayerEnabled(s, step)
    ensures Booked(ApplyPlayer(s, step))
  {
    match step
    case Join(_) =>
    case Leave(_) =>
    case PickupTake(_, r) => RemoveKeepsBooks(s, r);
    case PickupStore(c) => SetClientKeepsBooks(s, c, Add(s.clients[c], s.carrying[c], 1));
    case Gain(c, item, n) => SetClientKeepsBooks(s, c, Add(s.clients[c], item, n));
    case Spend(c, item) => SetClientKeepsBooks(s, c, Take(s.clients[c], item));
    case Craft(c, r) => SetClientKeepsBooks(s, c, Crafted(s.clients[c], r));
    case Get(c, item, qty) => SetClientKeepsBooks(s, c, Add(s.clients[c], item, qty));
    case GetAll(c) => SetClientKeepsBooks(s, c, Everything(s.clients[c]));
    case Clear(c) => SetClientKeepsBooks(s, c, map[]);
    case Place(r, item) => SpawnKeepsBooks(s, map[r := item]);
    case Harvest(r, a, b) =>
      RemoveKeepsBooks(s, r);
      SpawnKeepsBooks(Remove(s, r), map[a := FRUIT, b := FRUIT]);
  }

  lemma {:induction false} FightKeepsBooks(s: State, step: FightStep)
    requires Booked(s) && FightEnabled(s, step)
    ensures Booked(ApplyFight(s, step))
  {
    match step
    case HitMob(c, m) =>
      var paid := SetClient(s, c, Take(s.clients[c], SPEAR));
      SetClientKeepsBooks(s, c, Take(s.clients[c], SPEAR));
      SetMobKeepsBooks(paid, m, Wound(s.mobs[m]));
      KillKeepsBooks(SetMob(paid, m, Wound(s.mobs[m])), m);
    case Accept(c, m, k) =>
      SetClientKeepsBooks(s, c, Pay(s.clients[c], k));
      SetMobKeepsBooks(SetClient(s, c, Pay(s.clients[c], k)), m, Sign(s.mobs[m], c, k));
    case Struck(m) => HitKeepsBooks(s, m);
    case Expire(_) =>
    case Scatter(m, spawned) =>
      BuryKeepsBooks(s, m);
      SpawnKeepsBooks(Bury(s, m), spawned);
  }

  lemma {:induction false} TickKeepsBooks(s: State, step: TickStep)
    requires Booked(s) && TickEnabled(s, step)
    ensures Booked(ApplyTick(s, step))
  {
    match step
    case Move(m, pos) => SetMobKeepsBooks(s, m, s.mobs[m].(pos := pos));
    case PickUp =>
      var Looking(m, r, item) := s.phase;
      if r in s.ground {
        RemoveKeepsBooks(s, r);
        SetMobKeepsBooks(Remove(s, r), m, s.mobs[m].(inv := Add(s.mobs[m].inv, item, 1)));
      }
    case HandOver =>
      var Handing(m, c) := s.phase;
      SetClientKeepsBooks(s, c, Merge(s.clients[c], s.mobs[m].inv));
      SetMobKeepsBooks(SetClient(s, c, Merge(s.clients[c], s.mobs[m].inv)), m, Freed(s.mobs[m]));
    case Release(m) => SetMobKeepsBooks(s, m, s.mobs[m].(contract := Idle, owner := NOBODY));
    case _ =>
  }

  lemma {:induction false} SetClientKeepsSane(s: State, c: Id, inv: Inv)
    requires Sane(s)
    ensures Sane(SetClient(s, c, inv))
  {
  }

  /** Away from the mob the tick goroutine is busy with, replacing a sane mob by a sane one is harmless. */
  lemma {:induction false} SetMobKeepsSane(s: State, m: Id, mob: Mob)
    requires Sane(s) && s.phase in {Unlocked, Roaming} && MobSane(mob)
    ensures Sane(SetMob(s, m, mob))
  {
  }

  lemma {:induction false} SpawnKeepsSane(s: State, items: map<Id, Item>)
    requires IdsInOrder(s) && Sane(s) && items.Keys !! s.history.issued
    ensures Sane(Spawn(s, items))
  {
  }

  lemma {:induction false} PlayerKeepsSane(s: State, step: PlayerStep)
    requires Booked(s) && Sane(s) && PlayerEnabled(s, step)
    ensures Sane(ApplyPlayer(s, step))
  {
    match step
    case Join(c) => SetClientKeepsSane(s, c, map[]);
    case Leave(_) =>
    case PickupTake(_, _) =>
    case PickupStore(c) => SetClientKeepsSane(s, c, Add(s.clients[c], s.carrying[c], 1));
    case Gain(c, item, n) => SetClientKeepsSane(s, c, Add(s.clients[c], item, n));
    case Spend(c, item) => SetClientKeepsSane(s, c, Take(s.clients[c], item));
    case Craft(c, r) => SetClientKeepsSane(s, c, Crafted(s.clients[c], r));
    case Get(c, item, qty) => SetClientKeepsSane(s, c, Add(s.clients[c], item, qty));
    case GetAll(c) => SetClientKeepsSane(s, c, Everything(s.clients[c]));
    case Clear(c) => SetClientKeepsSane(s, c, map[]);
    case Place(r, item) => SpawnKeepsSane(s, map[r := item]);
    case Harvest(r, a, b) =>
      RemoveKeepsBooks(s, r);
      SpawnKeepsSane(Remove(s, r), map[a := FRUIT, b := FRUIT]);
  }

  lemma {:induction false} HitKeepsSane(s: State, m: Id)
    requires Sane(s) && s.phase == Unlocked
    ensures Sane(Hit(s, m))
  {
    if m in s.mobs && !Kills(s.mobs, m) { SetMobKeepsSane(s, m, Strike(s.mobs, m)[m]); }
  }

  lemma {:induction false} FightKeepsSane(s: State, step: FightStep)
    requires Booked(s) && Sane(s) && FightEnabled(s, step)
    ensures Sane(ApplyFight(s, step))
  {
    match step
    case HitMob(c, m) =>
      var paid := SetClient(s, c, Take(s.clients[c], SPEAR));
      SetClientKeepsSane(s, c, Take(s.clients[c], SPEAR));
      if s.mobs[m].hp > 1 { SetMobKeepsSane(paid, m, Wound(s.mobs[m])); }
    case Accept(c, m, k) =>
      SetClientKeepsSane(s, c, Pay(s.clients[c], k));
      SetMobKeepsSane(SetClient(s, c, Pay(s.clients[c], k)), m, Sign(s.mobs[m], c, k));
    case Struck(m) => HitKeepsSane(s, m);
    case Expire(_) =>
    case Scatter(m, spawned) => SpawnKeepsSane(Bury(s, m), spawned);
  }

  lemma {:induction false} PickUpKeepsSane(s: State)
    requires Sane(s) && TickEnabled(s, PickUp)
    ensures Sane(ApplyTick(s, PickUp))
  {
    var Looking(m, r, item) := s.phase;
    var mob := s.mobs[m].(inv := Add(s.mobs[m].inv, item, 1));
    AddGrowsSize(s.mobs[m].inv, item, 1);
    SetMobKeepsSane(Remove(s, r).(phase := Roaming), m, mob);
  }

  lemma {:induction false} HandOverKeepsSane(s: State)
    requires Booked(s) && Sane(s) && TickEnabled(s, HandOver)
    ensures Sane(ApplyTick(s, HandOver))
  {
    var Handing(m, c) := s.phase;
    var merged := Merge(s.clients[c], s.mobs[m].inv);
    SetClientKeepsSane(s, c, merged);
    SetMobKeepsSane(SetClient(s, c, merged).(phase := Roaming), m, Freed(s.mobs[m]));
  }

  lemma {:induction false} FindOwnerKeepsSane(s: State, m: Id)
    requires IdsInOrder(s) && Sane(s) && TickEnabled(s, FindOwner(m))
    ensures Sane(ApplyTick(s, FindOwner(m)))
  {
  }

  lemma {:induction false} TickKeepsSane(s: State, step: TickStep)
    requires Booked(s) && Sane(s) && TickEnabled(s, step)
    ensures Sane(ApplyTick(s, step))
  {
    match step
    case Move(m, pos) => SetMobKeepsSane(s, m, s.mobs[m].(pos := pos));
    case PickUp => PickUpKeepsSane(s);
    case FindOwner(m) => FindOwnerKeepsSane(s, m);
    case HandOver => HandOverKeepsSane(s);
    case Release(m) => SetMobKeepsSane(s, m, s.mobs[m].(contract := Idle, owner := NOBODY));
    case _ =>
  }

  lemma {:induction false} SetMobGathers(s: State, m: Id, mob: Mob)
    requires m in s.mobs
    ensures SumBy(SetMob(s, m, mob).mobs, OpenGather()) ==
            SumBy(s.mobs, OpenGather()) - Gathering(s.mobs[m]) + Gathering(mob)
  {
    SumReplace(s.mobs, OpenGather(), m, mob);
  }

  lemma {:induction false} KillKeepsContracts(s: State, m: Id)
    requires m in s.mobs && ContractsBalance(s)
    ensures ContractsBalance(Kill(s, m))
  {
    SumSplit(s.mobs, OpenGather(), m);
  }

  lemma {:induction false} HitKeepsContracts(s: State, m: Id)
    requires ContractsBalance(s)
    ensures ContractsBalance(Hit(s, m))
  {
    if Kills(s.mobs, m) { KillKeepsContracts(s, m); } else if m in s.mobs { SetMobGathers(s, m, Strike(s.mobs, m)[m]); }
  }

  lemma {:induction false} FightKeepsContracts(s: State, step: FightStep)
    requires ContractsBalance(s) && FightEnabled(s, step)
    ensures ContractsBalance(ApplyFight(s, step))
  {
    match step
    case HitMob(c, m) =>
      var paid := SetClient(s, c, Take(s.clients[c], SPEAR));
      SetMobGathers(paid, m, Wound(s.mobs[m]));
      KillKeepsContracts(SetMob(paid, m, Wound(s.mobs[m])), m);
    case Accept(c, m, k) => SetMobGathers(SetClient(s, c, Pay(s.clients[c], k)), m, Sign(s.mobs[m], c, k));
    case Struck(m) => HitKeepsContracts(s, m);
    case Expire(_) =>
    case Scatter(_, _) =>
  }

  lemma {:induction false} PickUpKeepsContracts(s: State)
    requires ContractsBalance(s) && TickEnabled(s, PickUp)
    ensures ContractsBalance(ApplyTick(s, PickUp))
  {
    hide Add;
    var Looking(m, r, item) := s.phase;
    SetMobGathers(Remove(s, r), m, s.mobs[m].(inv := Add(s.mobs[m].inv, item, 1)));
  }

  lemma {:induction false} HandOverKeepsContracts(s: State)
    requires ContractsBalance(s) && Sane(s) && TickEnabled(s, HandOver)
    ensures ContractsBalance(ApplyTick(s, HandOver))
  {
    hide Merge;
    var Handing(m, c) := s.phase;
    SetMobGathers(SetClient(s, c, Merge(s.clients[c], s.mobs[m].inv)), m, Freed(s.mobs[m]));
  }

  lemma {:induction false} TickKeepsContracts(s: State, step: TickStep)
    requires ContractsBalance(s) && Sane(s) && TickEnabled(s, step)
    ensures ContractsBalance(ApplyTick(s, step))
  {
    match step
    case Move(m, pos) => SetMobGathers(s, m, s.mobs[m].(pos := pos));
    case PickUp => PickUpKeepsContracts(s);
    case HandOver => HandOverKeepsContracts(s);
    case Release(m) => SetMobGathers(s, m, s.mobs[m].(contract := Idle, owner := NOBODY));
    case _ =>
  }

  lemma {:induction false} PlayerKeepsContracts(s: State, step: PlayerStep)
    requires ContractsBalance(s) && PlayerEnabled(s, step)
    ensures ContractsBalance(ApplyPlayer(s, step))
  {
  }

  /** No mob appears, changes its kind or calms down. */
  ghost predicate Evolves(mobs: map<Id, Mob>, after: map<Id, Mob>) {
    forall m :: m in after ==>
                  m in mobs && after[m].kind == mobs[m].kind && (mobs[m].angered ==> after[m].angered)
  }

  /** What a fighting section leaves of the mobs. */
  ghost function MobsAfter(mobs: map<Id, Mob>, step: FightStep): map<Id, Mob> {
    match step
    case HitMob(_, m) =>
      if m !in mobs then mobs else if mobs[m].hp <= 1 then mobs - {m} else mobs[m := Wound(mobs[m])]
    case Accept(c, m, k) => if m in mobs then mobs[m := Sign(mobs[m], c, k)] else mobs
    case Struck(m) => Strike(mobs, m)
    case _ => mobs
  }

  lemma {:induction false} HitLeaves(s: State, m: Id)
    ensures Hit(s, m).mobs == Strike(s.mobs, m) && Hit(s, m).spears == s.spears
  {
    hide Wound;
    if m in s.mobs && !Kills(s.mobs, m) { assert s.mobs[m := Strike(s.mobs, m)[m]] == Strike(s.mobs, m); }
  }

  lemma {:induction false} BlowLeaves(s: State, c: Id, m: Id)
    requires FightEnabled(s, HitMob(c, m))
    ensures var after := ApplyFight(s, HitMob(c, m));
            && after.mobs == (if s.mobs[m].hp <= 1 then s.mobs - {m} else s.mobs[m := Wound(s.mobs[m])])
            && after.spears == s.spears
  {
    hide Wound, Take;
    assert s.mobs[m := Wound(s.mobs[m])] - {m} == s.mobs - {m};
  }

  lemma {:induction false} FightMobs(s: State, step: FightStep)
    requires FightEnabled(s, step)
    ensures ApplyFight(s, step).mobs == MobsAfter(s.mobs, step) && ApplyFight(s, step).spears <= s.spears
  {
    hide Hit, Strike, Wound, Take;
    match step
    case HitMob(c, m) => BlowLeaves(s, c, m);
    case Struck(m) => HitLeaves(s, m);
    case _ =>
  }

  lemma {:induction false} MobsAfterEvolves(mobs: map<Id, Mob>, step: FightStep)
    ensures Evolves(mobs, MobsAfter(mobs, step))
  {
  }

  /** The same mobs with the same strength and temper; positions, contracts and cargo may differ. */
  ghost predicate SameBodies(mobs: map<Id, Mob>, after: map<Id, Mob>) {
    && mobs.Keys == after.Keys
    && forall m :: m in mobs ==> after[m].hp == mobs[m].hp && after[m].kind == mobs[m].kind
                                 && after[m].angered == mobs[m].angered
  }

  lemma {:induction false} OneSameBody(mobs: map<Id, Mob>, m: Id, mob: Mob)
    requires m in mobs && mob.hp == mobs[m].hp && mob.kind == mobs[m].kind && mob.angered == mobs[m].angered
    ensures SameBodies(mobs, mobs[m := mob]) && SameBodies(mobs, mobs)
  {
  }

  lemma {:induction false} AllSameBodies(mobs: map<Id, Mob>)
    ensures SameBodies(mobs, mobs)
  {
  }

  lemma {:induction false} TickKeepsBodies(s: State, step: TickStep)
    requires TickEnabled(s, step)
    ensures SameBodies(s.mobs, ApplyTick(s, step).mobs)
    ensures ApplyTick(s, step).spears == if step.Throw? then s.spears + multiset{step.target} else s.spears
  {
    hide SameBodies;
    AllSameBodies(s.mobs);
    match step
    case Move(m, pos) => OneSameBody(s.mobs, m, s.mobs[m].(pos := pos));
    case PickUp =>
      var Looking(m, r, item) := s.phase;
      OneSameBody(s.mobs, m, s.mobs[m].(inv := Add(s.mobs[m].inv, item, 1)));
    case HandOver => OneSameBody(s.mobs, s.phase.mob, Freed(s.mobs[s.phase.mob]));
    case Release(m) => OneSameBody(s.mobs, m, s.mobs[m].(contract := Idle, owner := NOBODY));
    case _ =>
  }

  lemma {:induction false} SameBodiesEvolve(mobs: map<Id, Mob>, after: map<Id, Mob>)
    requires SameBodies(mobs, after)
    ensures Evolves(mobs, after)
  {
  }

  lemma {:induction false} PlayerEvolves(s: State, step: PlayerStep)
    requires PlayerEnabled(s, step)
    ensures ApplyPlayer(s, step).mobs == s.mobs && ApplyPlayer(s, step).spears == s.spears
  {
  }

  lemma {:induction false} AimKept(spears: multiset<Id>, fewer: multiset<Id>, mobs: map<Id, Mob>, after: map<Id, Mob>)
    requires Aimed(spears, mobs) && fewer <= spears && Evolves(mobs, after)
    ensures Aimed(fewer, after)
  {
    forall m | m in fewer && m in after ensures IsThreat(after[m]) {
      assert m in spears;
    }
  }

  lemma {:induction false} ThrowKeepsAim(s: State, m: Id, target: Id)
    requires Aimed(s.spears, s.mobs) && TickEnabled(s, Throw(m, target))
    ensures Aimed(s.spears + multiset{target}, s.mobs)
  {
  }

  lemma {:induction false} StepKeepsAim(s: State, step: Step)
    requires Aimed(s.spears, s.mobs) && Enabled(s, step)
    ensures Aimed(Apply(s, step).spears, Apply(s, step).mobs)
  {
    hide ApplyPlayer, ApplyFight, ApplyTick, PlayerEnabled, FightEnabled, Aimed, Evolves, SameBodies, MobsAfter;
    match step
    case Player(p) => PlayerEvolves(s, p);
    case Fight(f) =>
      FightMobs(s, f);
      MobsAfterEvolves(s.mobs, f);
      AimKept(s.spears, ApplyFight(s, f).spears, s.mobs, ApplyFight(s, f).mobs);
    case Tick(t) =>
      TickKeepsBodies(s, t);
      SameBodiesEvolve(s.mobs, ApplyTick(s, t).mobs);
      if t.Throw? { ThrowKeepsAim(s, t.mob, t.target); }
      var spears := if t.Throw? then s.spears + multiset{t.target} else s.spears;
      AimKept(spears, spears, s.mobs, ApplyTick(s, t).mobs);
  }

  lemma {:induction false} StepKeepsGood(s: State, step: Step)
    requires Good(s) && Enabled(s, step)
    ensures Good(Apply(s, step))
  {
    hide ApplyPlayer, ApplyFight, ApplyTick, PlayerEnabled, FightEnabled, TickEnabled, IdsInOrder, BooksInOrder, Sane,
         ContractsBalance, Aimed;
    StepKeepsAim(s, step);
    match step
    case Player(p) =>
      PlayerKeepsBooks(s, p);
      PlayerKeepsSane(s, p);
      PlayerKeepsContracts(s, p);
    case Fight(f) =>
      FightKeepsBooks(s, f);
      FightKeepsSane(s, f);
      FightKeepsContracts(s, f);
    case Tick(t) =>
      TickKeepsBooks(s, t);
      TickKeepsSane(s, t);
      TickKeepsContracts(s, t);
  }

  // ---------------------------------------------------------------------------------------------
  // Who is hit by whom

  predicate HitsMob(step: Step, m: Id) { step.Fight? && step.fight.HitMob? && step.fight.mob == m }

  /** A mob that is no threat loses HP only to a player, one at a time, and dies of the last; a collector minds. */
  lemma {:induction false} CalmMobStep(s: State, step: Step, m: Id)
    requires Aimed(s.spears, s.mobs) && Enabled(s, step) && m in s.mobs && !IsThreat(s.mobs[m]) && s.mobs[m].hp > 0
    ensures var mob, after := s.mobs[m], Apply(s, step).mobs;
            if HitsMob(step, m)
            then (m in after <==> mob.hp > 1) &&
                 (m in after ==> after[m] == mob.(hp := mob.hp - 1, angered := mob.angered || mob.kind == Collector))
            else m in after && after[m].hp == mob.hp && after[m].kind == mob.kind && !IsThreat(after[m])
  {
    hide ApplyPlayer, ApplyFight, ApplyTick, PlayerEnabled, TickEnabled;
    match step
    case Player(p) => PlayerEvolves(s, p);
    case Fight(f) => FightMobs(s, f);
    case Tick(t) => TickKeepsBodies(s, t);
  }

  lemma {:induction false} StepEvolves(s: State, step: Step)
    requires Enabled(s, step)
    ensures Evolves(s.mobs, Apply(s, step).mobs)
  {
    hide ApplyPlayer, ApplyFight, ApplyTick, PlayerEnabled, FightEnabled, TickEnabled, SameBodies, MobsAfter;
    match step
    case Player(p) => PlayerEvolves(s, p);
    case Fight(f) =>
      FightMobs(s, f);
      MobsAfterEvolves(s.mobs, f);
    case Tick(t) =>
      TickKeepsBodies(s, t);
      SameBodiesEvolve(s.mobs, ApplyTick(s, t).mobs);
  }

  // ---------------------------------------------------------------------------------------------
  // Players' counts

  ghost predicate NoDebts(clients: map<Id, Inv>) { forall c :: c in clients ==> NonNegative(clients[c]) }

  /** A /get takes no more than there is; every other section is covered by its own test. */
  ghost predicate Covered(s: State, step: Step) {
    step.Player? && step.player.Get? && step.player.client in s.clients ==>
      Count(s.clients[step.player.client], step.player.item) + step.player.qty >= 0
  }

  lemma {:induction false} CraftedNonNegative(inv: Inv, r: Recipe)
    requires NonNegative(inv) && CanCraft(inv, r) && NonNegative(r.need) && r.outQty >= 0
    ensures NonNegative(Crafted(inv, r))
  {
    forall k | k in inv ensures inv[k] - Count(r.need, k) >= 0 {
    }
  }

  lemma {:induction false} SetClientDebtsIff(s: State, c: Id, inv: Inv)
    requires NoDebts(s.clients)
    ensures NoDebts(SetClient(s, c, inv).clients) <==> NonNegative(inv)
  {
    var after := SetClient(s, c, inv).clients;
    if !NonNegative(inv) { assert c in after && after[c] == inv; }
  }

  lemma {:induction false} AddDebtsIff(inv: Inv, item: Item, n: int)
    requires NonNegative(inv)
    ensures NonNegative(Add(inv, item, n)) <==> Count(inv, item) + n >= 0
  {
    var after := Add(inv, item, n);
    if Count(inv, item) + n < 0 { assert item in after && after[item] < 0; }
  }

  lemma {:induction false} PlayerDebtsIff(s: State, step: PlayerStep)
    requires NoDebts(s.clients) && PlayerEnabled(s, step)
    ensures NoDebts(ApplyPlayer(s, step).clients) <==> Covered(s, Player(step))
  {
    hide NoDebts;
    match step
    case Join(c) => SetClientDebtsIff(s, c, map[]);
    case PickupStore(c) => PayDebtsIff(s, c, Add(s.clients[c], s.carrying[c], 1));
    case Gain(c, item, n) => PayDebtsIff(s, c, Add(s.clients[c], item, n));
    case Spend(c, item) => PayDebtsIff(s, c, Take(s.clients[c], item));
    case Craft(c, r) =>
      OwnDebts(s, c);
      CraftedNonNegative(s.clients[c], r);
      PayDebtsIff(s, c, Crafted(s.clients[c], r));
    case Get(c, item, qty) =>
      OwnDebts(s, c);
      AddDebtsIff(s.clients[c], item, qty);
      PayDebtsIff(s, c, Add(s.clients[c], item, qty));
    case GetAll(c) => PayDebtsIff(s, c, Everything(s.clients[c]));
    case Clear(c) => SetClientDebtsIff(s, c, map[]);
    case _ =>
  }

  lemma {:induction false} OwnDebts(s: State, c: Id)
    requires NoDebts(s.clients) && c in s.clients
    ensures NonNegative(s.clients[c])
  {
  }

  lemma {:induction false} PayDebtsIff(s: State, c: Id, inv: Inv)
    requires NoDebts(s.clients) && c in s.clients
    ensures NonNegative(s.clients[c]) && (NoDebts(SetClient(s, c, inv).clients) <==> NonNegative(inv))
  {
    SetClientDebtsIff(s, c, inv);
  }

  lemma {:induction false} FightKeepsNoDebts(s: State, step: FightStep)
    requires NoDebts(s.clients) && FightEnabled(s, step)
    ensures NoDebts(ApplyFight(s, step).clients)
  {
    hide NoDebts;
    match step
    case HitMob(c, m) => PayDebtsIff(s, c, Take(s.clients[c], SPEAR));
    case Accept(c, m, k) => PayDebtsIff(s, c, Pay(s.clients[c], k));
    case _ =>
  }

  lemma {:induction false} MergeKeepsNonNegative(to: Inv, from: Inv)
    requires NonNegative(to) && NonNegative(from)
    ensures NonNegative(Merge(to, from))
  {
  }

  lemma {:induction false} TickKeepsNoDebts(s: State, step: TickStep)
    requires NoDebts(s.clients) && MobsSane(s.mobs) && TickEnabled(s, step)
    ensures NoDebts(ApplyTick(s, step).clients)
  {
    hide NoDebts;
    if step.HandOver? {
      var Handing(m, c) := s.phase;
      OwnDebts(s, c);
      MergeKeepsNonNegative(s.clients[c], s.mobs[m].inv);
      SetClientDebtsIff(s, c, Merge(s.clients[c], s.mobs[m].inv));
    }
  }

  /** From a state without debts, a step leads into debt exactly when it is a /get that is not covered. */
  lemma {:induction false} StepDebtsIff(s: State, step: Step)
    requires Good(s) && NoDebts(s.clients) && Enabled(s, step)
    ensures NoDebts(Apply(s, step).clients) <==> Covered(s, step)
  {
    hide ApplyPlayer, ApplyFight, ApplyTick, PlayerEnabled, FightEnabled, TickEnabled, NoDebts;
    match step
    case Player(p) => PlayerDebtsIff(s, p);
    case Fight(f) => FightKeepsNoDebts(s, f);
    case Tick(t) => TickKeepsNoDebts(s, t);
  }

  /** Whose inventory a section may change. */
  ghost function Actor(s: State, step: Step): Id {
    match step
    case Player(Place(_, _)) => NOBODY
    case Player(Harvest(_, _, _)) => NOBODY
    case Player(p) => p.client
    case Fight(HitMob(c, _)) => c
    case Fight(Accept(c, _, _)) => c
    case Tick(HandOver) => if s.phase.Handing? then s.phase.client else NOBODY
    case _ => NOBODY
  }

  lemma {:induction false} PlayerActsAlone(s: State, step: PlayerStep, d: Id)
    requires PlayerEnabled(s, step) && d in s.clients && d != Actor(s, Player(step))
    ensures d in ApplyPlayer(s, step).clients && ApplyPlayer(s, step).clients[d] == s.clients[d]
  {
    hide Everything, Crafted, Take, Add;
  }

  lemma {:induction false} HitKeepsClients(s: State, m: Id)
    ensures Hit(s, m).clients == s.clients
  {
    hide Strike;
  }

  lemma {:induction false} BlowClients(s: State, c: Id, m: Id)
    requires FightEnabled(s, HitMob(c, m))
    ensures ApplyFight(s, HitMob(c, m)).clients == s.clients[c := Take(s.clients[c], SPEAR)]
  {
    hide Take, Wound;
  }

  lemma {:induction false} FightActsAlone(s: State, step: FightStep, d: Id)
    requires FightEnabled(s, step) && d in s.clients && d != Actor(s, Fight(step))
    ensures d in ApplyFight(s, step).clients && ApplyFight(s, step).clients[d] == s.clients[d]
  {
    hide Take, Pay, Wound, Sign, Hit, Kill;
    match step
    case HitMob(c, m) => BlowClients(s, c, m);
    case Struck(m) => HitKeepsClients(s, m);
    case _ =>
  }

  lemma {:induction false} TickActsAlone(s: State, step: TickStep, d: Id)
    requires TickEnabled(s, step) && d in s.clients && d != Actor(s, Tick(step))
    ensures d in ApplyTick(s, step).clients && ApplyTick(s, step).clients[d] == s.clients[d]
  {
    hide Merge, Freed, Add;
  }

  /** No section touches the inventory of anybody but the one who acts or is delivered to. */
  lemma {:induction false} OthersKeepItems(s: State, step: Step, d: Id)
    requires Enabled(s, step) && d in s.clients && d != Actor(s, step)
    ensures d in Apply(s, step).clients && Apply(s, step).clients[d] == s.clients[d]
  {
    hide ApplyPlayer, ApplyFight, ApplyTick, PlayerEnabled, FightEnabled, TickEnabled, Actor;
    match step
    case Player(p) => PlayerActsAlone(s, p, d);
    case Fight(f) => FightActsAlone(s, f, d);
    case Tick(t) => TickActsAlone(s, t, d);
  }
}
