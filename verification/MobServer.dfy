/**
 The critical sections of mobs_handlers.go, mobs_pink.go, mobs_collector.go and mobs_projectiles.go as
 code that changes the stores in place, each proved to perform the corresponding step of World.
 */
module MobServer {
  import opened Sums
  import opened Inventory
  import opened Mobs
  import opened World

  ghost predicate Distinct(ids: seq<Id>) { forall i, j :: 0 <= i < j < |ids| ==> ids[i] != ids[j] }

  function Batch(ids: seq<Id>, item: Item): map<Id, Item> { map id | id in ids :: item }

  ghost function IdsNeeded(d: Drop): int {
    match d.kind
    case Hostile => HOSTILE_DROP
    case Collector => Size(d.inv)
    case Pink => 0
  }

  lemma {:induction false} UnionAssociates(a: map<Id, Item>, b: map<Id, Item>, c: map<Id, Item>)
    ensures (a + b) + c == a + (b + c)
  {
  }

  lemma {:induction false} BatchLast(m: map<Id, Item>, ids: seq<Id>, item: Item)
    requires ids != []
    ensures m + Batch(ids, item) == (m + Batch(ids[..|ids| - 1], item))[ids[|ids| - 1] := item]
  {
    var n := |ids| - 1;
    assert ids == ids[..n] + [ids[n]];
  }

  lemma {:induction false} BatchSum(m: map<Id, Item>, ids: seq<Id>, item: Item, t: Item)
    requires Distinct(ids) && forall id :: id in ids ==> id !in m
    ensures SumBy(m + Batch(ids, item), OfType(t)) == SumBy(m, OfType(t)) + |ids| * OfType(t)(item)
    decreases |ids|
  {
    if ids == [] {
      assert m + Batch(ids, item) == m;
    } else {
      var n := |ids| - 1;
      BatchSum(m, ids[..n], item, t);
      BatchLast(m, ids, item);
      SumInsert(m + Batch(ids[..n], item), OfType(t), ids[n], item);
    }
  }

  ghost predicate Remaining(inv: Inv, rest: Inv, ids: seq<Id>, p: int) {
    && 0 <= p <= |ids| && |ids| - p == Size(rest) && NonNegative(rest)
    && (forall t :: t in rest ==> t in inv && rest[t] == inv[t])
  }

  ghost predicate Placed(ids: seq<Id>, p: int, spawned: map<Id, Item>)
    requires 0 <= p <= |ids|
  {
    forall id :: id in spawned ==> id in ids[..p]
  }

  ghost predicate Tallied(inv: Inv, rest: Inv, spawned: map<Id, Item>) {
    forall t :: SumBy(spawned, OfType(t)) == Count(inv, t) - Count(rest, t)
  }

  /** spawnCollectorDrop part way: `rest` is still to be laid out and the first `p` ids are used. */
  ghost predicate Partly(inv: Inv, rest: Inv, ids: seq<Id>, p: int, spawned: map<Id, Item>) {
    Remaining(inv, rest, ids, p) && Placed(ids, p, spawned) && Tallied(inv, rest, spawned)
  }

  lemma {:induction false} PartlyStart(inv: Inv, ids: seq<Id>)
    requires NonNegative(inv) && |ids| == Size(inv)
    ensures Partly(inv, inv, ids, 0, map[])
  {
  }

  lemma {:induction false} PartlyDone(inv: Inv, ids: seq<Id>, p: int, spawned: map<Id, Item>)
    requires Partly(inv, map[], ids, p, spawned)
    ensures forall id :: id in spawned ==> id in ids
    ensures forall t :: SumBy(spawned, OfType(t)) == Count(inv, t)
  {
  }

  lemma {:induction false} BatchIsNew(ids: seq<Id>, p: int, q: int, id: Id)
    requires Distinct(ids) && 0 <= p <= q <= |ids| && id in ids[p..q]
    ensures id !in ids[..p] && id in ids[..q]
  {
    var k :| 0 <= k < q - p && ids[p..q][k] == id;
    assert id == ids[p + k];
  }

  lemma {:induction false} BatchFits(rest: Inv, item: Item)
    requires NonNegative(rest) && item in rest
    ensures 0 <= rest[item] <= Size(rest) && Size(rest - {item}) == Size(rest) - rest[item]
  {
    SumSplit(rest, Identity(), item);
    SumNonNegative(rest - {item}, Identity());
  }

  lemma {:induction false} BatchDisjoint(ids: seq<Id>, p: int, q: int, spawned: map<Id, Item>)
    requires Distinct(ids) && 0 <= p <= q <= |ids| && forall id :: id in spawned ==> id in ids[..p]
    ensures forall id :: id in ids[p..q] ==> id !in spawned
    ensures forall id :: id in spawned || id in ids[p..q] ==> id in ids[..q]
  {
    forall id | id in ids[p..q] ensures id !in spawned && id in ids[..q] {
      BatchIsNew(ids, p, q, id);
    }
    assert ids[..q] == ids[..p] + ids[p..q];
  }

  lemma {:induction false} BatchSums(inv: Inv, rest: Inv, item: Item, spawned: map<Id, Item>, batch: seq<Id>, t: Item)
    requires item in rest && |batch| == rest[item] && Distinct(batch) && forall id :: id in batch ==> id !in spawned
    requires SumBy(spawned, OfType(t)) == Count(inv, t) - Count(rest, t)
    ensures SumBy(spawned + Batch(batch, item), OfType(t)) == Count(inv, t) - Count(rest - {item}, t)
  {
    BatchSum(spawned, batch, item, t);
  }

  lemma {:induction false} TalliedNext(inv: Inv, rest: Inv, item: Item, spawned: map<Id, Item>, batch: seq<Id>)
    requires Tallied(inv, rest, spawned)
    requires item in rest && |batch| == rest[item] && Distinct(batch) && forall id :: id in batch ==> id !in spawned
    ensures Tallied(inv, rest - {item}, spawned + Batch(batch, item))
  {
    hide Batch, Count, Distinct;
    var after := spawned + Batch(batch, item);
    forall t ensures SumBy(after, OfType(t)) == Count(inv, t) - Count(rest - {item}, t) {
      BatchSums(inv, rest, item, spawned, batch, t);
    }
  }

  lemma {:induction false} SliceDistinct(ids: seq<Id>, p: int, q: int)
    requires Distinct(ids) && 0 <= p <= q <= |ids|
    ensures Distinct(ids[p..q])
  {
  }

  lemma {:induction false} PlacedNext(ids: seq<Id>, p: int, q: int, spawned: map<Id, Item>, item: Item)
    requires Distinct(ids) && 0 <= p <= q <= |ids| && Placed(ids, p, spawned)
    ensures Placed(ids, q, spawned + Batch(ids[p..q], item)) && forall id :: id in ids[p..q] ==> id !in spawned
  {
    BatchDisjoint(ids, p, q, spawned);
  }

  lemma {:induction false} PartlyNext(inv: Inv, rest: Inv, ids: seq<Id>, p: int, spawned: map<Id, Item>, item: Item)
    requires Partly(inv, rest, ids, p, spawned) && Distinct(ids) && item in rest
    requires 0 <= rest[item] <= |ids| - p
    ensures Partly(inv, rest - {item}, ids, p + rest[item], spawned + Batch(ids[p..p + rest[item]], item))
  {
    hide Placed, Tallied, Distinct, Batch;
    var q := p + rest[item];
    BatchFits(rest, item);
    SliceDistinct(ids, p, q);
    PlacedNext(ids, p, q, spawned, item);
    TalliedNext(inv, rest, item, spawned, ids[p..q]);
  }

  lemma {:induction false} HostileScatter(d: Drop, ids: seq<Id>)
    requires d.kind == Hostile && Distinct(ids) && |ids| == HOSTILE_DROP
    ensures ScatterOf(d, Batch(ids, SPEAR))
  {
    var spawned := Batch(ids, SPEAR);
    forall t ensures SumBy(spawned, OfType(t)) == if t == SPEAR then HOSTILE_DROP else 0 {
      BatchSum(map[], ids, SPEAR, t);
      assert map[] + spawned == spawned;
    }
  }

  class Server {
    var ground: map<Id, Item>
    var clients: map<Id, Inv>
    var mobs: map<Id, Mob>

    constructor ()
      ensures ground == map[] && clients == map[] && mobs == map[]
    {
      ground, clients, mobs := map[], map[], map[];
    }

    /** This server's stores are those of `s`. */
    ghost predicate Shows(s: State)
      reads this
    {
      ground == s.ground && clients == s.clients && mobs == s.mobs
    }

    /** applyHitMob, called with s.mobs free; `inRange` is its distance test. */
    method ApplyHitMob(c: Id, mobID: Id, inRange: bool, ghost s: State)
      returns (ok: bool, killed: bool, hpAfter: int, drop: Drop)
      requires Shows(s) && s.phase == Unlocked && c in clients
      modifies this
      ensures ok == (mobID in s.mobs && inRange && Count(s.clients[c], SPEAR) > 0)
      ensures !ok ==> Shows(s) && !killed
      ensures ok ==> FightEnabled(s, HitMob(c, mobID)) && Shows(ApplyFight(s, HitMob(c, mobID)))
      ensures ok ==> hpAfter == s.mobs[mobID].hp - 1 && killed == (hpAfter <= 0) && killed == (mobID !in mobs)
      ensures killed ==> drop == ApplyFight(s, HitMob(c, mobID)).drops[mobID]
      ensures killed ==> drop == Drop(s.mobs[mobID].pos, s.mobs[mobID].kind, s.mobs[mobID].inv)
      ensures ok && !killed ==>
                var m := s.mobs[mobID];
                mobs[mobID] == m.(hp := m.hp - 1, angered := m.angered || m.kind == Collector)
      ensures ok ==> forall id :: id != mobID ==>
                (id in mobs <==> id in s.mobs) && (id in mobs ==> mobs[id] == s.mobs[id])
    {
      ok, killed, hpAfter, drop := false, false, 0, Drop(Geometry.ZERO, Hostile, map[]);
      if mobID !in mobs || !inRange || Count(clients[c], SPEAR) <= 0 {
        return;
      }
      clients := clients[c := Take(clients[c], SPEAR)];
      var m := mobs[mobID];
      m := m.(hp := m.hp - 1);
      if m.kind == Collector {
        m := m.(angered := true);
      }
      mobs := mobs[mobID := m];
      ok, hpAfter, killed := true, m.hp, m.hp <= 0;
      if killed {
        drop := DropOf(m);
        mobs := mobs - {mobID};
      }
    }

    /** tryAcceptContract; Idle stands for any contract id the server does not know. */
    method TryAcceptContract(c: Id, mobID: Id, k: Contract, ghost s: State) returns (ok: bool)
      requires Shows(s) && s.phase == Unlocked && c in clients
      modifies this
      ensures ok == (mobID in s.mobs && s.mobs[mobID].kind == Pink && s.mobs[mobID].contract == Idle &&
                     CanPay(s.clients[c], k))
      ensures !ok ==> Shows(s)
      ensures ok ==> FightEnabled(s, Accept(c, mobID, k)) && Shows(ApplyFight(s, Accept(c, mobID, k)))
      ensures ok ==> mobs[mobID].contract == k && mobs[mobID].owner == c
    {
      if mobID !in mobs || mobs[mobID].kind != Pink || mobs[mobID].contract != Idle || k == Idle {
        return false;
      }
      var inv := clients[c];
      if k == Gather4 {
        if Count(inv, FRUIT) <= 0 {
          return false;
        }
        inv := Take(inv, FRUIT);
      } else {
        if Count(inv, SPEAR) < GUARD_PRICE {
          return false;
        }
        inv := Add(inv, SPEAR, -GUARD_PRICE);
      }
      clients := clients[c := inv];
      var m := mobs[mobID].(contract := k, owner := c);
      if k == Gather4 {
        m := m.(inv := map[]);
      }
      mobs := mobs[mobID := m];
      return true;
    }

    /** The pick half of tickCollector and pinkPickUpResource: the resource may be gone by now. */
    method PickUpResource(ghost s: State, mobID: Id, resource: Id, seen: Item)
      requires Shows(s) && s.phase == Looking(mobID, resource, seen) && mobID in mobs
      modifies this
      ensures TickEnabled(s, PickUp) && Shows(ApplyTick(s, PickUp))
    {
      if resource in ground {
        ground := ground - {resource};
        mobs := mobs[mobID := mobs[mobID].(inv := Add(mobs[mobID].inv, seen, 1))];
      }
    }

    /** pinkInventoryCount. */
    method InventoryCount(mobID: Id) returns (total: int)
      requires mobID in mobs
      ensures total == Size(mobs[mobID].inv)
    {
      total := 0;
      var inv := mobs[mobID].inv;
      var rest := inv;
      while rest != map[]
        invariant total + Size(rest) == Size(inv)
        decreases |rest|
      {
        var item :| item in rest;
        SumSplit(rest, Identity(), item);
        total := total + rest[item];
        rest := rest - {item};
      }
    }

    /** pinkDeliver's hand-over, once the owner has been found in range. */
    method Deliver(ghost s: State, mobID: Id, c: Id)
      requires Shows(s) && s.phase == Handing(mobID, c) && mobID in mobs && c in clients
      modifies this
      ensures TickEnabled(s, HandOver) && Shows(ApplyTick(s, HandOver))
    {
      var owner := new Client();
      owner.inventory := clients[c];
      owner.Receive(mobs[mobID].inv);
      clients := clients[c := owner.inventory];
      mobs := mobs[mobID := mobs[mobID].(inv := map[], contract := Idle, owner := NOBODY)];
    }

    /** One new resource of type `item` under each of the fresh ids. */
    method Litter(item: Item, ids: seq<Id>)
      modifies this`ground
      ensures ground == old(ground) + Batch(ids, item)
    {
      for i := 0 to |ids|
        invariant ground == old(ground) + Batch(ids[..i], item)
      {
        ground := ground[ids[i] := item];
        assert ids[..i + 1] == ids[..i] + [ids[i]];
      }
      assert ids[..|ids|] == ids;
    }

    /** spawnDrops for one kill; `ids` are the results of newID, one for each resource it creates. */
    method SpawnDrop(ghost s: State, mobID: Id, d: Drop, ids: seq<Id>) returns (ghost spawned: map<Id, Item>)
      requires Shows(s) && mobID in s.drops && s.drops[mobID] == d && DropsSane(s.drops)
      requires Distinct(ids) && (forall id :: id in ids ==> id !in s.history.issued) && |ids| == IdsNeeded(d)
      modifies this`ground
      ensures FightEnabled(s, Scatter(mobID, spawned)) && Shows(ApplyFight(s, Scatter(mobID, spawned)))
    {
      spawned := map[];
      if d.kind == Hostile {
        Litter(SPEAR, ids);
        spawned := Batch(ids, SPEAR);
        HostileScatter(d, ids);
      } else if d.kind == Collector {
        spawned := LitterAll(d.inv, ids);
      }
      assert ScatterOf(d, spawned);
      assert spawned.Keys !! s.history.issued;
    }

    /** The two nested loops of spawnCollectorDrop. */
    method LitterAll(inv: Inv, ids: seq<Id>) returns (ghost spawned: map<Id, Item>)
      requires NonNegative(inv) && Distinct(ids) && |ids| == Size(inv)
      modifies this`ground
      ensures ground == old(ground) + spawned && forall id :: id in spawned ==> id in ids
      ensures forall t :: SumBy(spawned, OfType(t)) == Count(inv, t)
    {
      spawned := map[];
      var rest, p := inv, 0;
      PartlyStart(inv, ids);
      while rest != map[]
        invariant Partly(inv, rest, ids, p, spawned)
        invariant ground == old(ground) + spawned
        decreases |rest|
      {
        var item :| item in rest;
        BatchFits(rest, item);
        PartlyNext(inv, rest, ids, p, spawned, item);
        var batch := ids[p..p + rest[item]];
        Litter(item, batch);
        UnionAssociates(old(ground), spawned, Batch(batch, item));
        spawned := spawned + Batch(batch, item);
        p := p + rest[item];
        rest := rest - {item};
      }
      PartlyDone(inv, ids, p, spawned);
    }
  }
}
