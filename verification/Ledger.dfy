/** The item ledger: where every item of the world is, and what each step adds or removes. */
module Ledger {
  import opened Sums
  import opened Inventory
  import opened Mobs
  import opened World
  import Text

  /** Items of type `t` on the ground, in inventories, in handlers' hands, on mobs and in unscattered drops. */
  ghost function Total(s: State, t: Item): int {
    SumBy(s.ground, OfType(t)) + SumBy(s.clients, InInventory(t)) + SumBy(s.carrying, OfType(t)) +
    SumBy(s.mobs, OnMob(t)) + SumBy(s.drops, InDrop(t))
  }

  function One(a: Item, b: Item): int { if a == b then 1 else 0 }

  function PlayerDelta(s: State, step: PlayerStep, t: Item): int {
    match step
    case Gain(_, item, n) => n * One(item, t)
    case Spend(_, item) => -One(item, t)
    case Craft(_, r) => r.outQty * One(r.out, t) - Count(r.need, t)
    case Get(_, item, qty) => qty * One(item, t)
    case GetAll(c) => if c in s.clients && t.name in ALL_ITEMS then 100 - Count(s.clients[c], t) else 0
    case Clear(c) => if c in s.clients then -Count(s.clients[c], t) else 0
    case Place(_, item) => One(item, t)
    case Harvest(_, _, _) => 2 * One(FRUIT, t) - One(SEED, t)
    case _ => 0
  }

  function FightDelta(s: State, step: FightStep, t: Item): int {
    match step
    case HitMob(_, _) => -One(SPEAR, t)
    case Accept(_, _, k) => if k == Gather4 then -One(FRUIT, t) else -GUARD_PRICE * One(SPEAR, t)
    case Struck(_) => 0
    case Expire(_) => 0
    case Scatter(m, _) =>
      if m !in s.drops then 0
      else match s.drops[m].kind
        case Hostile => HOSTILE_DROP * One(SPEAR, t)
        case Collector => 0
        case Pink => -Count(s.drops[m].inv, t)
  }

  /** The declared balance of a step; everything not listed above moves items without changing any total. */
  function Delta(s: State, step: Step, t: Item): int {
    match step
    case Player(p) => PlayerDelta(s, p, t)
    case Fight(f) => FightDelta(s, f, t)
    case Tick(_) => 0
  }

  // ---------------------------------------------------------------------------------------------
  // Balances of the transformers

  lemma {:induction false} SetClientBalance(s: State, c: Id, inv: Inv, t: Item)
    requires c in s.clients
    ensures Total(SetClient(s, c, inv), t) == Total(s, t) - Count(s.clients[c], t) + Count(inv, t)
  {
    SumReplace(s.clients, InInventory(t), c, inv);
  }

  lemma {:induction false} SetMobBalance(s: State, m: Id, mob: Mob, t: Item)
    requires m in s.mobs
    ensures Total(SetMob(s, m, mob), t) == Total(s, t) - Count(s.mobs[m].inv, t) + Count(mob.inv, t)
  {
    SumReplace(s.mobs, OnMob(t), m, mob);
  }

  lemma {:induction false} RemoveBalance(s: State, r: Id, t: Item)
    requires r in s.ground
    ensures Total(Remove(s, r), t) == Total(s, t) - One(s.ground[r], t)
  {
    SumSplit(s.ground, OfType(t), r);
  }

  lemma {:induction false} SpawnBalance(s: State, items: map<Id, Item>, t: Item)
    requires s.ground.Keys !! items.Keys
    ensures Total(Spawn(s, items), t) == Total(s, t) + SumBy(items, OfType(t))
  {
    SumUnion(s.ground, items, OfType(t));
  }

  lemma {:induction false} KillBalance(s: State, m: Id, t: Item)
    requires m in s.mobs && m !in s.drops
    ensures Total(Kill(s, m), t) == Total(s, t)
  {
    SumSplit(s.mobs, OnMob(t), m);
    SumInsert(s.drops, InDrop(t), m, DropOf(s.mobs[m]));
  }

  lemma {:induction false} BuryBalance(s: State, m: Id, t: Item)
    requires m in s.drops
    ensures Total(Bury(s, m), t) == Total(s, t) - Count(s.drops[m].inv, t)
  {
    SumSplit(s.drops, InDrop(t), m);
  }

  lemma {:induction false} CarryBalance(s: State, c: Id, item: Item, t: Item)
    requires c !in s.carrying
    ensures Total(s.(carrying := s.carrying[c := item]), t) == Total(s, t) + One(item, t)
  {
    SumInsert(s.carrying, OfType(t), c, item);
  }

  lemma {:induction false} SetDownBalance(s: State, c: Id, t: Item)
    requires c in s.carrying
    ensures Total(s.(carrying := s.carrying - {c}), t) == Total(s, t) - One(s.carrying[c], t)
  {
    SumSplit(s.carrying, OfType(t), c);
  }

  lemma {:induction false} CraftedCount(inv: Inv, r: Recipe, t: Item)
    requires CanCraft(inv, r) && NonNegative(r.need)
    ensures Count(Crafted(inv, r), t) == Count(inv, t) - Count(r.need, t) + r.outQty * One(r.out, t)
  {
  }

  lemma {:induction false} EverythingCount(inv: Inv, t: Item)
    ensures Count(Everything(inv), t) == if t.name in ALL_ITEMS then 100 else Count(inv, t)
  {
    assert t == Item(t.name);
  }

  lemma {:induction false} SingletonSum(r: Id, item: Item, t: Item)
    ensures SumBy(map[r := item], OfType(t)) == One(item, t)
  {
    var empty: map<Id, Item> := map[];
    SumInsert(empty, OfType(t), r, item);
    assert empty[r := item] == map[r := item];
  }

  lemma {:induction false} PairSum(a: Id, b: Id, item: Item, t: Item)
    requires a != b
    ensures SumBy(map[a := item, b := item], OfType(t)) == 2 * One(item, t)
  {
    SingletonSum(a, item, t);
    SumInsert(map[a := item], OfType(t), b, item);
    assert map[a := item][b := item] == map[a := item, b := item];
  }

  // ---------------------------------------------------------------------------------------------
  // Balances of the steps

  lemma {:induction false} HarvestBalances(s: State, r: Id, a: Id, b: Id, t: Item)
    requires PlayerEnabled(s, Harvest(r, a, b)) && s.ground.Keys <= s.history.issued
    ensures Total(ApplyPlayer(s, Harvest(r, a, b)), t) == Total(s, t) + 2 * One(FRUIT, t) - One(SEED, t)
  {
    RemoveBalance(s, r, t);
    SpawnBalance(Remove(s, r), map[a := FRUIT, b := FRUIT], t);
    PairSum(a, b, FRUIT, t);
  }

  lemma {:induction false} CheatBalances(s: State, step: PlayerStep, t: Item)
    requires PlayerEnabled(s, step) && (step.Get? || step.GetAll? || step.Clear?)
    ensures Total(ApplyPlayer(s, step), t) == Total(s, t) + PlayerDelta(s, step, t)
  {
    hide Total, Everything;
    match step
    case Get(c, item, qty) => SetClientBalance(s, c, Add(s.clients[c], item, qty), t);
    case GetAll(c) =>
      SetClientBalance(s, c, Everything(s.clients[c]), t);
      EverythingCount(s.clients[c], t);
    case Clear(c) => SetClientBalance(s, c, map[], t);
  }

  lemma {:induction false} PlayerBalances(s: State, step: PlayerStep, t: Item)
    requires IdsInOrder(s) && PlayerEnabled(s, step)
    ensures Total(ApplyPlayer(s, step), t) == Total(s, t) + PlayerDelta(s, step, t)
  {
    match step
    case Join(c) => SumInsert(s.clients, InInventory(t), c, map[]);
    case Leave(_) =>
    case PickupTake(c, r) =>
      RemoveBalance(s, r, t);
      CarryBalance(Remove(s, r), c, s.ground[r], t);
    case PickupStore(c) =>
      var inv := Add(s.clients[c], s.carrying[c], 1);
      SetClientBalance(s, c, inv, t);
      SetDownBalance(SetClient(s, c, inv), c, t);
    case Gain(c, item, n) => SetClientBalance(s, c, Add(s.clients[c], item, n), t);
    case Spend(c, item) => SetClientBalance(s, c, Take(s.clients[c], item), t);
    case Craft(c, r) =>
      SetClientBalance(s, c, Crafted(s.clients[c], r), t);
      CraftedCount(s.clients[c], r, t);
    case Get(_, _, _) => CheatBalances(s, step, t);
    case GetAll(_) => CheatBalances(s, step, t);
    case Clear(_) => CheatBalances(s, step, t);
    case Place(r, item) =>
      SpawnBalance(s, map[r := item], t);
      SingletonSum(r, item, t);
    case Harvest(r, a, b) => HarvestBalances(s, r, a, b, t);
  }

  lemma {:induction false} AliveNotDropped(s: State, m: Id)
    requires BooksInOrder(s) && m in s.mobs
    ensures m !in s.drops
  {
    assert s.history.kills[m] == 0;
  }

  lemma {:induction false} HitBalances(s: State, c: Id, m: Id, t: Item)
    requires FightEnabled(s, HitMob(c, m)) && m !in s.drops
    ensures Total(ApplyFight(s, HitMob(c, m)), t) == Total(s, t) - One(SPEAR, t)
  {
    var inv := Take(s.clients[c], SPEAR);
    var paid := SetClient(s, c, inv);
    SetClientBalance(s, c, inv, t);
    SetMobBalance(paid, m, Wound(s.mobs[m]), t);
    KillBalance(SetMob(paid, m, Wound(s.mobs[m])), m, t);
  }

  /** Signing resets the mob's inventory only when it holds nothing. */
  lemma {:induction false} AcceptBalances(s: State, c: Id, m: Id, k: Contract, t: Item)
    requires FightEnabled(s, Accept(c, m, k)) && MobSane(s.mobs[m])
    ensures s.mobs[m].inv == map[]
    ensures Total(ApplyFight(s, Accept(c, m, k)), t) == Total(s, t) + FightDelta(s, Accept(c, m, k), t)
  {
    hide Pay, Size;
    var inv := Pay(s.clients[c], k);
    PayCount(s.clients[c], k, t);
    SetClientBalance(s, c, inv, t);
    SetMobBalance(SetClient(s, c, inv), m, Sign(s.mobs[m], c, k), t);
  }

  /** A fruit for gathering, ten spears for a guard. */
  lemma {:induction false} PayCount(inv: Inv, k: Contract, t: Item)
    requires CanPay(inv, k)
    ensures Count(Pay(inv, k), t) ==
            Count(inv, t) - (if k == Gather4 then One(FRUIT, t) else GUARD_PRICE * One(SPEAR, t))
  {
  }

  lemma {:induction false} ScatterBalances(s: State, m: Id, spawned: map<Id, Item>, t: Item)
    requires FightEnabled(s, Scatter(m, spawned)) && s.ground.Keys <= s.history.issued && DropsSane(s.drops)
    ensures Total(ApplyFight(s, Scatter(m, spawned)), t) == Total(s, t) + FightDelta(s, Scatter(m, spawned), t)
  {
    BuryBalance(s, m, t);
    SpawnBalance(Bury(s, m), spawned, t);
  }

  lemma {:induction false} StruckBalances(s: State, m: Id, t: Item)
    requires BooksInOrder(s)
    ensures Total(Hit(s, m), t) == Total(s, t)
  {
    if m in s.mobs { AliveNotDropped(s, m); }
    if Kills(s.mobs, m) { KillBalance(s, m, t); } else if m in s.mobs { SetMobBalance(s, m, Strike(s.mobs, m)[m], t); }
  }

  lemma {:induction false} FightBalances(s: State, step: FightStep, t: Item)
    requires Good(s) && FightEnabled(s, step)
    ensures Total(ApplyFight(s, step), t) == Total(s, t) + FightDelta(s, step, t)
  {
    match step
    case HitMob(c, m) =>
      AliveNotDropped(s, m);
      HitBalances(s, c, m, t);
    case Accept(c, m, k) => AcceptBalances(s, c, m, k, t);
    case Struck(m) => StruckBalances(s, m, t);
    case Expire(_) =>
    case Scatter(m, spawned) => ScatterBalances(s, m, spawned, t);
  }

  lemma {:induction false} PickUpBalances(s: State, t: Item)
    requires TickEnabled(s, PickUp)
    requires s.phase.resource in s.ground ==> s.ground[s.phase.resource] == s.phase.item
    ensures Total(ApplyTick(s, PickUp), t) == Total(s, t)
  {
    var Looking(m, r, item) := s.phase;
    if r in s.ground {
      RemoveBalance(s, r, t);
      SetMobBalance(Remove(s, r), m, s.mobs[m].(inv := Add(s.mobs[m].inv, item, 1)), t);
    }
  }

  lemma {:induction false} HandOverBalances(s: State, t: Item)
    requires TickEnabled(s, HandOver)
    ensures Total(ApplyTick(s, HandOver), t) == Total(s, t)
  {
    var Handing(m, c) := s.phase;
    var merged := Merge(s.clients[c], s.mobs[m].inv);
    SetClientBalance(s, c, merged, t);
    SetMobBalance(SetClient(s, c, merged), m, Freed(s.mobs[m]), t);
  }

  lemma {:induction false} TickBalances(s: State, step: TickStep, t: Item)
    requires Good(s) && TickEnabled(s, step)
    ensures Total(ApplyTick(s, step), t) == Total(s, t)
  {
    match step
    case Move(m, pos) => SetMobBalance(s, m, s.mobs[m].(pos := pos), t);
    case PickUp => PickUpBalances(s, t);
    case HandOver => HandOverBalances(s, t);
    case Release(m) => SetMobBalance(s, m, s.mobs[m].(contract := Idle, owner := NOBODY), t);
    case _ =>
  }

  lemma {:induction false} StepBalances(s: State, step: Step, t: Item)
    requires Good(s) && Enabled(s, step)
    ensures Total(Apply(s, step), t) == Total(s, t) + Delta(s, step, t)
  {
    match step
    case Player(p) => PlayerBalances(s, p, t);
    case Fight(f) => FightBalances(s, f, t);
    case Tick(k) => TickBalances(s, k, t);
  }

  // ---------------------------------------------------------------------------------------------
  // Whole runs

  ghost predicate IsRun(s: State, steps: seq<Step>)
    decreases |steps|
  {
    steps == [] || (Enabled(s, steps[0]) && IsRun(Apply(s, steps[0]), steps[1..]))
  }

  ghost function After(s: State, steps: seq<Step>): State
    requires IsRun(s, steps)
    decreases |steps|
  {
    if steps == [] then s else After(Apply(s, steps[0]), steps[1..])
  }

  ghost function TotalDelta(s: State, steps: seq<Step>, t: Item): int
    requires IsRun(s, steps)
    decreases |steps|
  {
    if steps == [] then 0 else Delta(s, steps[0], t) + TotalDelta(Apply(s, steps[0]), steps[1..], t)
  }

  /** A server as New leaves it: mobs that carry nothing and have signed nothing, no clients, no history. */
  ghost predicate Initial(s: State) {
    && s.clients == map[] && s.registered == {} && s.carrying == map[] && s.drops == map[] && s.phase == Unlocked
    && s.spears == multiset{}
    && (forall m :: m in s.mobs ==>
          && s.mobs[m].hp == (if s.mobs[m].kind == Hostile then 1 else 10) && s.mobs[m].inv == map[]
          && !s.mobs[m].angered && s.mobs[m].contract == Idle && s.mobs[m].owner == NOBODY)
    && s.history == History(s.ground.Keys + s.mobs.Keys, s.ground, multiset{}, multiset{}, multiset{}, 0, 0, 0, 0)
  }

  lemma {:induction false} NoOpenGathers(mobs: map<Id, Mob>)
    requires forall m :: m in mobs ==> mobs[m].contract == Idle
    ensures SumBy(mobs, OpenGather()) == 0
    decreases |mobs|
  {
    if mobs != map[] {
      var m :| m in mobs;
      SumSplit(mobs, OpenGather(), m);
      NoOpenGathers(mobs - {m});
    }
  }

  lemma {:induction false} InitialIsGood(s: State)
    requires Initial(s)
    ensures Good(s)
  {
    NoOpenGathers(s.mobs);
  }

  /** Every run keeps the invariants, and its totals are the starting totals plus the declared balances. */
  lemma {:induction false} RunBalances(s: State, steps: seq<Step>, t: Item)
    requires Good(s) && IsRun(s, steps)
    ensures Good(After(s, steps))
    ensures Total(After(s, steps), t) == Total(s, t) + TotalDelta(s, steps, t)
    decreases |steps|
  {
    if steps != [] {
      StepKeepsGood(s, steps[0]);
      StepBalances(s, steps[0], t);
      RunBalances(Apply(s, steps[0]), steps[1..], t);
    }
  }

  /** What RunBalances gives for every item at once. */
  lemma {:induction false} RunStaysGood(s: State, steps: seq<Step>)
    requires Good(s) && IsRun(s, steps)
    ensures Good(After(s, steps))
  {
    RunBalances(s, steps, FRUIT);
  }

  /** Contests: in any run from a fresh server no resource is taken twice, no mob dies or drops twice. */
  lemma {:induction false} ExactlyOnce(s: State, steps: seq<Step>, id: Id)
    requires Initial(s) && IsRun(s, steps)
    ensures var s' := After(s, steps); var h := s'.history;
            && h.removed[id] <= 1 && (id in s'.ground ==> h.removed[id] == 0)
            && h.kills[id] <= 1 && (id in s'.mobs ==> h.kills[id] == 0 && s'.mobs[id].hp > 0)
            && h.scattered[id] <= h.kills[id] && (h.scattered[id] < h.kills[id] <==> id in s'.drops)
  {
    InitialIsGood(s);
    RunStaysGood(s, steps);
  }

  /** In any run from a fresh server contracts obey their state machine. */
  lemma {:induction false} ContractStateMachine(s: State, steps: seq<Step>)
    requires Initial(s) && IsRun(s, steps)
    ensures var s' := After(s, steps);
            && (forall m :: m in s'.mobs && s'.mobs[m].kind == Pink ==>
                  && (s'.mobs[m].owner == NOBODY <==> s'.mobs[m].contract == Idle)
                  && Size(s'.mobs[m].inv) <= PINK_GATHER_TARGET
                  && (s'.mobs[m].contract != Gather4 ==> s'.mobs[m].inv == map[]))
            && s'.history.handed == PINK_GATHER_TARGET * s'.history.deliveries
            && s'.history.deliveries + s'.history.abandoned <= s'.history.gathers
  {
    InitialIsGood(s);
    RunStaysGood(s, steps);
    SumNonNegative(After(s, steps).mobs, OpenGather());
  }

  // ---------------------------------------------------------------------------------------------
  // Negative counts

  /** No player ever owes an item, in any state of the run. */
  ghost predicate NeverInDebt(s: State, steps: seq<Step>)
    requires IsRun(s, steps)
    decreases |steps|
  {
    NoDebts(s.clients) && (steps != [] ==> NeverInDebt(Apply(s, steps[0]), steps[1..]))
  }

  /** Every /get of the run takes no more than its player has. */
  ghost predicate AllCovered(s: State, steps: seq<Step>)
    requires IsRun(s, steps)
    decreases |steps|
  {
    steps != [] ==> Covered(s, steps[0]) && AllCovered(Apply(s, steps[0]), steps[1..])
  }

  lemma {:induction false} DebtsIff(s: State, steps: seq<Step>)
    requires Good(s) && NoDebts(s.clients) && IsRun(s, steps)
    ensures NeverInDebt(s, steps) <==> AllCovered(s, steps)
    decreases |steps|
  {
    hide Good, NoDebts, Covered, Enabled, Apply;
    if steps != [] {
      StepKeepsGood(s, steps[0]);
      StepDebtsIff(s, steps[0]);
      if Covered(s, steps[0]) {
        DebtsIff(Apply(s, steps[0]), steps[1..]);
      } else {
        NotInDebtLater(Apply(s, steps[0]), steps[1..]);
      }
    }
  }

  lemma {:induction false} NotInDebtLater(s: State, steps: seq<Step>)
    requires IsRun(s, steps)
    ensures NeverInDebt(s, steps) ==> NoDebts(s.clients)
  {
  }

  /** From a fresh server: no count is ever negative exactly when every /get is covered. */
  lemma {:induction false} NoNegativeCountIff(s: State, steps: seq<Step>)
    requires Initial(s) && IsRun(s, steps)
    ensures NeverInDebt(s, steps) <==> AllCovered(s, steps)
  {
    InitialIsGood(s);
    DebtsIff(s, steps);
  }

  lemma {:induction false} OneMore(s: State, step: Step, rest: seq<Step>)
    requires Enabled(s, step) && IsRun(Apply(s, step), rest)
    ensures IsRun(s, [step] + rest) && After(s, [step] + rest) == After(Apply(s, step), rest)
    ensures forall t :: TotalDelta(s, [step] + rest, t) == Delta(s, step, t) + TotalDelta(Apply(s, step), rest, t)
  {
    hide Enabled, Apply, Delta;
    assert ([step] + rest)[0] == step && ([step] + rest)[1..] == rest;
  }

  /** On any fresh server a newcomer can owe fruit. */
  lemma {:induction false} DebtExample(s: State, c: Id, owed: int)
    requires Initial(s) && c != NOBODY && c !in s.history.issued && owed > 0
    ensures var steps := [Player(Join(c))] + ([Player(Get(c, FRUIT, -owed))] + []);
            IsRun(s, steps) && c in After(s, steps).clients && Count(After(s, steps).clients[c], FRUIT) == -owed
  {
    var joined := Apply(s, Player(Join(c)));
    OneMore(joined, Player(Get(c, FRUIT, -owed)), []);
    OneMore(s, Player(Join(c)), [Player(Get(c, FRUIT, -owed))] + []);
  }

  /**
   Scattering a dead mob's drop conserves items exactly for collectors and for pinks that carried
   nothing: a hostile's ten spears come from nowhere, and what a pink carried is gone.
   */
  lemma {:induction false} ScatterConservesIff(s: State, m: Id, spawned: map<Id, Item>)
    requires Good(s) && FightEnabled(s, Scatter(m, spawned))
    ensures (forall t :: Total(ApplyFight(s, Scatter(m, spawned)), t) == Total(s, t)) <==>
            (s.drops[m].kind == Collector ||
             (s.drops[m].kind == Pink && forall t :: Count(s.drops[m].inv, t) == 0))
  {
    var step := Scatter(m, spawned);
    forall t ensures Total(ApplyFight(s, step), t) == Total(s, t) + FightDelta(s, step, t) {
      ScatterBalances(s, m, spawned, t);
    }
    if s.drops[m].kind == Hostile {
      assert FightDelta(s, step, SPEAR) == HOSTILE_DROP;
    }
    if s.drops[m].kind == Pink {
      assert forall t :: FightDelta(s, step, t) == -Count(s.drops[m].inv, t);
    }
  }

  // ---------------------------------------------------------------------------------------------
  // The hits of one projectile tick as steps

  function StruckSteps(hits: seq<Id>): seq<Step> {
    if hits == [] then [] else [Fight(Struck(hits[0]))] + StruckSteps(hits[1..])
  }

  lemma {:induction false} HitRecords(s: State, h: Id)
    ensures var t := Hit(s, h);
            && t.phase == s.phase && t.ground == s.ground && t.clients == s.clients
            && t.history.issued == s.history.issued
            && t.history.kills == s.history.kills + (if Kills(s.mobs, h) then multiset{h} else multiset{})
            && t.drops == (if Kills(s.mobs, h) then s.drops[h := DropOf(s.mobs[h])] else s.drops)
  {
  }

  lemma {:induction false} StruckIsHit(s: State, h: Id)
    requires s.phase == Unlocked && h in s.spears
    ensures Enabled(s, Fight(Struck(h))) && Apply(s, Fight(Struck(h))) == Spent(Hit(s, h), h)
  {
    hide Hit, Spent;
  }

  lemma {:induction false} StruckIsStrike(s: State, h: Id)
    requires s.phase == Unlocked && h in s.spears
    ensures var t := Apply(s, Fight(Struck(h)));
            && t.mobs == Strike(s.mobs, h) && t.phase == Unlocked && t.ground == s.ground
            && t.clients == s.clients && t.history.issued == s.history.issued && t.spears == s.spears - multiset{h}
            && t.history.kills == s.history.kills + (if Kills(s.mobs, h) then multiset{h} else multiset{})
            && t.drops == (if Kills(s.mobs, h) then s.drops[h := DropOf(s.mobs[h])] else s.drops)
  {
    hide Apply, Enabled, Hit, Strike, Kills;
    StruckIsHit(s, h);
    HitLeaves(s, h);
    HitRecords(s, h);
  }

  lemma {:induction false} VictimsLived(mobs: map<Id, Mob>, hits: seq<Id>, id: Id)
    requires id in KillOrder(mobs, hits)
    ensures id in mobs
    decreases |hits|
  {
    if !(Kills(mobs, hits[0]) && id == hits[0]) {
      VictimsLived(Strike(mobs, hits[0]), hits[1..], id);
    }
  }

  /** What the kills add to the unscattered drops. */
  ghost predicate DropsAdded(mobs: map<Id, Mob>, victims: seq<Id>, before: map<Id, Drop>, after: map<Id, Drop>) {
    && (forall id :: id in victims ==> id in mobs && id in after && after[id] == DropOf(mobs[id]))
    && (forall id :: id !in victims ==> (id in after <==> id in before) && (id in before ==> after[id] == before[id]))
  }

  lemma {:induction false} DropsAddedStep(
    mobs: map<Id, Mob>, h: Id, rest: seq<Id>, before: map<Id, Drop>, after: map<Id, Drop>)
    requires forall id :: id in rest ==> id in Strike(mobs, h)
    requires DropsAdded(Strike(mobs, h), rest, if Kills(mobs, h) then before[h := DropOf(mobs[h])] else before, after)
    ensures DropsAdded(mobs, (if Kills(mobs, h) then [h] else []) + rest, before, after)
  {
  }

  /** What applyMobHits makes of the state: same mobs, one kill and one drop for each victim, nothing else. */
  ghost predicate HitOutcome(s: State, hits: seq<Id>, after: State) {
    && after.mobs == StrikeAll(s.mobs, hits) && after.phase == s.phase && after.ground == s.ground
    && after.clients == s.clients && after.history.issued == s.history.issued
    && after.spears == s.spears - multiset(hits)
    && after.history.kills == s.history.kills + multiset(KillOrder(s.mobs, hits))
    && DropsAdded(s.mobs, KillOrder(s.mobs, hits), s.drops, after.drops)
  }

  lemma {:induction false} SpearsSplit(spears: multiset<Id>, hits: seq<Id>)
    requires hits != []
    ensures spears - multiset(hits) == spears - multiset{hits[0]} - multiset(hits[1..])
  {
    assert hits == [hits[0]] + hits[1..];
  }

  lemma {:induction false} KillsSplit(kills: multiset<Id>, mobs: map<Id, Mob>, hits: seq<Id>)
    requires hits != []
    ensures kills + multiset(KillOrder(mobs, hits)) ==
            kills + (if Kills(mobs, hits[0]) then multiset{hits[0]} else multiset{}) +
            multiset(KillOrder(Strike(mobs, hits[0]), hits[1..]))
  {
    hide Strike, Kills;
    var later := KillOrder(Strike(mobs, hits[0]), hits[1..]);
    assert multiset([hits[0]] + later) == multiset{hits[0]} + multiset(later);
    assert [] + later == later;
  }

  lemma {:induction false} OutcomeStep(s: State, hits: seq<Id>, after: State)
    requires s.phase == Unlocked && hits != [] && hits[0] in s.spears
    requires HitOutcome(Apply(s, Fight(Struck(hits[0]))), hits[1..], after)
    ensures HitOutcome(s, hits, after)
  {
    hide DropsAdded, Apply, Strike, Kills;
    var h, rest := hits[0], hits[1..];
    StruckIsStrike(s, h);
    SpearsSplit(s.spears, hits);
    KillsSplit(s.history.kills, s.mobs, hits);
    var victims := KillOrder(Strike(s.mobs, h), rest);
    forall id | id in victims ensures id in Strike(s.mobs, h) { VictimsLived(Strike(s.mobs, h), rest, id); }
    DropsAddedStep(s.mobs, h, victims, s.drops, after.drops);
  }

  lemma {:induction false} StruckFirst(s: State, hits: seq<Id>)
    requires s.phase == Unlocked && hits != [] && multiset(hits) <= s.spears
    ensures var step := Fight(Struck(hits[0]));
            && hits[0] in s.spears && Enabled(s, step) && Apply(s, step).phase == Unlocked
            && multiset(hits[1..]) <= Apply(s, step).spears && (forall t :: Delta(s, step, t) == 0)
            && StruckSteps(hits) == [step] + StruckSteps(hits[1..])
  {
    hide Apply;
    assert hits == [hits[0]] + hits[1..];
    assert hits[0] in multiset(hits);
    StruckIsStrike(s, hits[0]);
  }

  /** Applying a list of collected hits is a run of the state machine. */
  lemma {:induction false} HitsAreRun(s: State, hits: seq<Id>)
    requires s.phase == Unlocked && multiset(hits) <= s.spears
    ensures var steps := StruckSteps(hits);
            IsRun(s, steps) && (forall t :: TotalDelta(s, steps, t) == 0) && HitOutcome(s, hits, After(s, steps))
    decreases |hits|
  {
    hide HitOutcome, Apply, Enabled, Delta, StruckSteps;
    if hits == [] {
      NothingHit(s);
    } else {
      StruckFirst(s, hits);
      var step := Fight(Struck(hits[0]));
      var next := Apply(s, step);
      HitsAreRun(next, hits[1..]);
      OneMore(s, step, StruckSteps(hits[1..]));
      OutcomeStep(s, hits, After(next, StruckSteps(hits[1..])));
    }
  }

  lemma {:induction false} NothingHit(s: State)
    ensures StruckSteps([]) == [] && HitOutcome(s, [], s)
  {
    NoDropsAdded(s.mobs, s.drops);
  }

  lemma {:induction false} NoDropsAdded(mobs: map<Id, Mob>, drops: map<Id, Drop>)
    ensures DropsAdded(mobs, [], drops, drops)
  {
  }

  // ---------------------------------------------------------------------------------------------
  // Mobs that are no threat fall only to players

  function HitsBy(steps: seq<Step>, m: Id): nat {
    if steps == [] then 0 else (if HitsMob(steps[0], m) then 1 else 0) + HitsBy(steps[1..], m)
  }

  lemma {:induction false} DeadAreNotHit(s: State, steps: seq<Step>, m: Id)
    requires IsRun(s, steps) && m !in s.mobs
    ensures HitsBy(steps, m) == 0 && m !in After(s, steps).mobs
    decreases |steps|
  {
    hide Apply, Enabled;
    if steps != [] {
      DeadStayDead(s, steps[0], m);
      DeadAreNotHit(Apply(s, steps[0]), steps[1..], m);
    }
  }

  lemma {:induction false} DeadStayDead(s: State, step: Step, m: Id)
    requires Enabled(s, step) && m !in s.mobs
    ensures m !in Apply(s, step).mobs && !HitsMob(step, m)
  {
    hide ApplyPlayer, ApplyFight, ApplyTick, PlayerEnabled, TickEnabled;
    match step
    case Player(p) => PlayerEvolves(s, p);
    case Fight(f) =>
      FightMobs(s, f);
      MobsAfterEvolves(s.mobs, f);
    case Tick(t) => TickKeepsBodies(s, t);
  }

  /** Over any run a pink has lost one HP for each hit by a player, and is dead exactly when those were all it had. */
  lemma {:induction false} PinksFallToPlayers(s: State, steps: seq<Step>, m: Id)
    requires Good(s) && IsRun(s, steps) && m in s.mobs && s.mobs[m].kind == Pink
    ensures var mobs, n := After(s, steps).mobs, HitsBy(steps, m);
            && n <= s.mobs[m].hp && (m in mobs <==> n < s.mobs[m].hp)
            && (m in mobs ==> mobs[m].kind == Pink && mobs[m].hp == s.mobs[m].hp - n)
    decreases |steps|
  {
    hide Apply, Enabled;
    LivingHaveHp(s, m);
    if steps != [] {
      StepKeepsGood(s, steps[0]);
      CalmMobStep(s, steps[0], m);
      var next := Apply(s, steps[0]);
      if m in next.mobs { PinksFallToPlayers(next, steps[1..], m); } else { DeadAreNotHit(next, steps[1..], m); }
    }
  }

  lemma {:induction false} LivingHaveHp(s: State, m: Id)
    requires Good(s) && m in s.mobs
    ensures s.mobs[m].hp > 0
  {
  }

  lemma {:induction false} ThreatsStayThreats(s: State, steps: seq<Step>, m: Id)
    requires IsRun(s, steps) && m in s.mobs && IsThreat(s.mobs[m])
    ensures m in After(s, steps).mobs ==> IsThreat(After(s, steps).mobs[m])
    decreases |steps|
  {
    hide Apply, Enabled;
    if steps != [] {
      StepEvolves(s, steps[0]);
      var next := Apply(s, steps[0]);
      if m in next.mobs { ThreatsStayThreats(next, steps[1..], m); } else { DeadAreNotHit(next, steps[1..], m); }
    }
  }

  /** Over any run a collector that was calm is angry, and a target, exactly when a player has hit it. */
  lemma {:induction false} AngeredIffHit(s: State, steps: seq<Step>, m: Id)
    requires Good(s) && IsRun(s, steps) && m in s.mobs && s.mobs[m].kind == Collector && !s.mobs[m].angered
    ensures m in After(s, steps).mobs ==> (IsThreat(After(s, steps).mobs[m]) <==> HitsBy(steps, m) > 0)
    decreases |steps|
  {
    hide Apply, Enabled;
    LivingHaveHp(s, m);
    if steps != [] {
      StepKeepsGood(s, steps[0]);
      CalmMobStep(s, steps[0], m);
      var next := Apply(s, steps[0]);
      if m !in next.mobs {
        DeadAreNotHit(next, steps[1..], m);
      } else if HitsMob(steps[0], m) {
        ThreatsStayThreats(next, steps[1..], m);
      } else {
        AngeredIffHit(next, steps[1..], m);
      }
    }
  }

  /** A collector that no player hits stays calm and unhurt. */
  lemma {:induction false} CalmUntilHit(s: State, steps: seq<Step>, m: Id)
    requires Good(s) && IsRun(s, steps) && m in s.mobs && !IsThreat(s.mobs[m]) && HitsBy(steps, m) == 0
    ensures m in After(s, steps).mobs && !IsThreat(After(s, steps).mobs[m])
    ensures After(s, steps).mobs[m].hp == s.mobs[m].hp
    decreases |steps|
  {
    hide Apply, Enabled, IsThreat;
    LivingHaveHp(s, m);
    if steps != [] {
      StepKeepsGood(s, steps[0]);
      CalmMobStep(s, steps[0], m);
      CalmUntilHit(Apply(s, steps[0]), steps[1..], m);
    }
  }

  // ---------------------------------------------------------------------------------------------
  // A pink that dies loaded

  lemma {:induction false} RunThenRun(s: State, a: seq<Step>, b: seq<Step>)
    requires IsRun(s, a) && IsRun(After(s, a), b)
    ensures IsRun(s, a + b) && After(s, a + b) == After(After(s, a), b)
    ensures forall t :: TotalDelta(s, a + b, t) == TotalDelta(s, a, t) + TotalDelta(After(s, a), b, t)
    decreases |a|
  {
    hide Enabled, Apply, Delta;
    if a == [] {
      assert a + b == b;
    } else {
      assert (a + b)[1..] == a[1..] + b;
      RunThenRun(Apply(s, a[0]), a[1..], b);
    }
  }

  /** A newcomer helps himself to a fruit and ten spears, and hires an idle pink for the fruit. */
  lemma {:induction false} Hired(s: State, c: Id, m: Id) returns (steps: seq<Step>)
    requires s.phase == Unlocked && c != NOBODY && c !in s.history.issued
    requires m in s.mobs && s.mobs[m].kind == Pink && s.mobs[m].contract == Idle
    ensures IsRun(s, steps) && forall t :: TotalDelta(s, steps, t) == 10 * One(SPEAR, t)
    ensures var after := After(s, steps);
            && after.mobs == s.mobs[m := Sign(s.mobs[m], c, Gather4)] && after.phase == Unlocked
            && after.ground == s.ground && c in after.clients && Count(after.clients[c], SPEAR) == 10
  {
    var join, fruit, spears := Player(Join(c)), Player(Get(c, FRUIT, 1)), Player(Get(c, SPEAR, 10));
    var accept := Fight(Accept(c, m, Gather4));
    var s1 := Apply(s, join);
    var s2 := Apply(s1, fruit);
    var s3 := Apply(s2, spears);
    OneMore(s3, accept, []);
    OneMore(s2, spears, [accept] + []);
    OneMore(s1, fruit, [spears] + ([accept] + []));
    OneMore(s, join, [fruit] + ([spears] + ([accept] + [])));
    steps := [join] + ([fruit] + ([spears] + ([accept] + [])));
  }

  /** A hired pink finds a resource and picks it up. */
  lemma {:induction false} Loaded(s: State, m: Id, r: Id) returns (steps: seq<Step>)
    requires s.phase == Unlocked && m in s.mobs && r in s.ground
    requires s.mobs[m].kind == Pink && s.mobs[m].contract == Gather4 && s.mobs[m].inv == map[]
    ensures IsRun(s, steps) && forall t :: TotalDelta(s, steps, t) == 0
    ensures var after := After(s, steps);
            && after.mobs == s.mobs[m := s.mobs[m].(inv := map[s.ground[r] := 1])] && after.phase == Unlocked
            && after.clients == s.clients
  {
    var begin, look, pick, end := Tick(TickBegin), Tick(Look(m, r)), Tick(PickUp), Tick(TickEnd);
    var s1 := Apply(s, begin);
    assert Size(s.mobs[m].inv) == 0;
    var s2 := Apply(s1, look);
    var s3 := Apply(s2, pick);
    OneMore(s3, end, []);
    OneMore(s2, pick, [end] + []);
    OneMore(s1, look, [pick] + ([end] + []));
    OneMore(s, begin, [look] + ([pick] + ([end] + [])));
    steps := [begin] + ([look] + ([pick] + ([end] + [])));
  }

  lemma {:induction false} OneBlow(s: State, c: Id, m: Id)
    requires s.phase == Unlocked && c in s.clients && m in s.mobs && Count(s.clients[c], SPEAR) > 0
    ensures Enabled(s, Fight(HitMob(c, m)))
    ensures var next := Apply(s, Fight(HitMob(c, m)));
            && next.phase == Unlocked && c in next.clients
            && Count(next.clients[c], SPEAR) == Count(s.clients[c], SPEAR) - 1
            && (if s.mobs[m].hp <= 1 then m in next.drops && next.drops[m] == DropOf(s.mobs[m])
                else m in next.mobs && next.mobs[m] == Wound(s.mobs[m]))
  {
  }

  /** A player with a spear for each HP kills the mob by hand; what it carried waits to be scattered. */
  lemma {:induction false} Felled(s: State, c: Id, m: Id) returns (steps: seq<Step>)
    requires s.phase == Unlocked && c in s.clients && m in s.mobs && 0 < s.mobs[m].hp <= Count(s.clients[c], SPEAR)
    ensures IsRun(s, steps) && forall t :: TotalDelta(s, steps, t) == -(s.mobs[m].hp * One(SPEAR, t))
    ensures m in After(s, steps).drops && After(s, steps).drops[m] == DropOf(s.mobs[m])
    decreases s.mobs[m].hp
  {
    hide Apply, Enabled;
    var blow := Fight(HitMob(c, m));
    OneBlow(s, c, m);
    var rest := [];
    if s.mobs[m].hp > 1 { rest := Felled(Apply(s, blow), c, m); }
    OneMore(s, blow, rest);
    steps := [blow] + rest;
  }

  lemma {:induction false} Scattered(s: State, m: Id, item: Item)
    requires m in s.drops && s.drops[m].kind == Pink && s.drops[m].inv == map[item := 1]
    ensures var steps := [Fight(Scatter(m, map[]))] + [];
            IsRun(s, steps) && forall t :: TotalDelta(s, steps, t) == -One(item, t)
  {
    OneMore(s, Fight(Scatter(m, map[])), []);
  }

  /** On any fresh server with a pink and a resource, some run destroys the resource. */
  lemma {:induction false} LoadedPinkLost(s: State, c: Id, m: Id, r: Id) returns (steps: seq<Step>)
    requires Initial(s) && c != NOBODY && c !in s.history.issued
    requires m in s.mobs && s.mobs[m].kind == Pink && r in s.ground
    ensures IsRun(s, steps) && forall t :: Total(After(s, steps), t) == Total(s, t) - One(s.ground[r], t)
  {
    hide IsRun, After, TotalDelta, Total;
    var hire := Hired(s, c, m);
    var s1 := After(s, hire);
    var load := Loaded(s1, m, r);
    var s2 := After(s1, load);
    var fell := Felled(s2, c, m);
    var lose := [Fight(Scatter(m, map[]))] + [];
    Scattered(After(s2, fell), m, s.ground[r]);
    RunThenRun(s2, fell, lose);
    RunThenRun(s1, load, fell + lose);
    RunThenRun(s, hire, load + (fell + lose));
    steps := hire + (load + (fell + lose));
    InitialIsGood(s);
    forall t ensures Total(After(s, steps), t) == Total(s, t) - One(s.ground[r], t) {
      RunBalances(s, steps, t);
    }
  }

  // ---------------------------------------------------------------------------------------------
  // The command that leads into debt

  /** Typed into the chat, any number from 2^63 below 2^64 leaves the newcomer with a negative count. */
  lemma {:induction false} TypedDebt(s: State, c: Id, n: nat)
    requires Initial(s) && c != NOBODY && c !in s.history.issued && Text.TWO_63 <= n < 2 * Text.TWO_63
    ensures var arg := Text.Parsed("fruit" + Text.Digits(n));
            var steps := [Player(Join(c))] + ([Player(Get(c, Item(arg.name), arg.qty))] + []);
            && arg.ok && IsRun(s, steps) && c in After(s, steps).clients
            && Count(After(s, steps).clients[c], FRUIT) == n - 2 * Text.TWO_63 < 0
  {
    hide Initial, IsRun, After, Text.Parsed;
    assert Text.Parseable("fruit");
    Text.NegativeQuantity("fruit", n);
    DebtExample(s, c, 2 * Text.TWO_63 - n);
  }
}
