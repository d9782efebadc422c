/** Mobs, and the deferred projectile hits of mobs_projectiles.go. */
module Mobs {
  import opened Geometry
  import opened Inventory

  /** An identifier made by newID; NOBODY is the empty string the source uses for "no owner". */
  datatype Id = Id(hex: string)

  const NOBODY := Id("")

  datatype Kind = Hostile | Collector | Pink

  /** Idle is the source's empty contract string. */
  datatype Contract = Idle | Gather4 | Guard

  datatype Mob = Mob(kind: Kind, pos: Vec, hp: int, angered: bool, inv: Inv, contract: Contract, owner: Id)

  /** killDrop: what a killed mob leaves to be scattered. */
  datatype Drop = Drop(pos: Vec, kind: Kind, inv: Inv)

  const MOB_ATTACK_DAMAGE := 2

  function DropOf(m: Mob): Drop { Drop(m.pos, m.kind, m.inv) }

  /** One projectile hit on `id`. */
  function Strike(mobs: map<Id, Mob>, id: Id): map<Id, Mob> {
    if id !in mobs then mobs
    else if mobs[id].hp <= MOB_ATTACK_DAMAGE then mobs - {id}
    else mobs[id := mobs[id].(hp := mobs[id].hp - MOB_ATTACK_DAMAGE)]
  }

  predicate Kills(mobs: map<Id, Mob>, id: Id) { id in mobs && mobs[id].hp <= MOB_ATTACK_DAMAGE }

  function StrikeAll(mobs: map<Id, Mob>, hits: seq<Id>): map<Id, Mob> {
    if hits == [] then mobs else StrikeAll(Strike(mobs, hits[0]), hits[1..])
  }

  /** The mobs that die, in the order of their deaths. */
  function KillOrder(mobs: map<Id, Mob>, hits: seq<Id>): seq<Id> {
    if hits == [] then []
    else (if Kills(mobs, hits[0]) then [hits[0]] else []) + KillOrder(Strike(mobs, hits[0]), hits[1..])
  }

  function HitsOn(hits: seq<Id>, id: Id): int { multiset(hits)[id] }

  /** Enough hits to bring `m` to zero, and at least one. */
  predicate Lethal(m: Mob, n: int) { n > 0 && m.hp <= MOB_ATTACK_DAMAGE * n }

  lemma {:induction false} StrikeAllClosedForm(mobs: map<Id, Mob>, hits: seq<Id>, id: Id)
    ensures id in StrikeAll(mobs, hits) <==> id in mobs && !Lethal(mobs[id], HitsOn(hits, id))
    ensures id in StrikeAll(mobs, hits) ==>
              StrikeAll(mobs, hits)[id] == mobs[id].(hp := mobs[id].hp - MOB_ATTACK_DAMAGE * HitsOn(hits, id))
    ensures multiset(KillOrder(mobs, hits))[id] == if id in mobs && Lethal(mobs[id], HitsOn(hits, id)) then 1 else 0
    decreases |hits|
  {
    if hits != [] {
      assert hits == [hits[0]] + hits[1..];
      StrikeAllClosedForm(Strike(mobs, hits[0]), hits[1..], id);
    }
  }

  /** The outcome depends on how often each mob is hit, not on the order of the hits. */
  lemma {:induction false} HitOrderIrrelevant(mobs: map<Id, Mob>, hits: seq<Id>, other: seq<Id>)
    requires multiset(hits) == multiset(other)
    ensures StrikeAll(mobs, hits) == StrikeAll(mobs, other)
    ensures multiset(KillOrder(mobs, hits)) == multiset(KillOrder(mobs, other))
  {
    forall id
      ensures id in StrikeAll(mobs, hits) <==> id in StrikeAll(mobs, other)
      ensures id in StrikeAll(mobs, hits) ==> StrikeAll(mobs, hits)[id] == StrikeAll(mobs, other)[id]
      ensures multiset(KillOrder(mobs, hits))[id] == multiset(KillOrder(mobs, other))[id]
    {
      StrikeAllClosedForm(mobs, hits, id);
      StrikeAllClosedForm(mobs, other, id);
    }
  }

  lemma {:induction false} KillOrderAppend(mobs: map<Id, Mob>, hits: seq<Id>, h: Id)
    ensures StrikeAll(mobs, hits + [h]) == Strike(StrikeAll(mobs, hits), h)
    ensures KillOrder(mobs, hits + [h]) ==
            KillOrder(mobs, hits) + (if Kills(StrikeAll(mobs, hits), h) then [h] else [])
    decreases |hits|
  {
    if hits == [] {
      assert hits + [h] == [h];
      assert StrikeAll(Strike(mobs, h), []) == Strike(mobs, h);
    } else {
      assert (hits + [h])[1..] == hits[1..] + [h];
      KillOrderAppend(Strike(mobs, hits[0]), hits[1..], h);
    }
  }

  /** Everything about a mob that hits cannot change. */
  predicate SameBody(a: Mob, b: Mob) { a == b.(hp := a.hp) }

  class MobStore {
    var mobs: map<Id, Mob>

    constructor (initial: map<Id, Mob>)
      ensures mobs == initial
    {
      mobs := initial;
    }

    /**
     applyMobHits. `victims` names the killed mob behind each kill record: every mob hit often enough
     appears exactly once, with its own position, kind and inventory.
     */
    method ApplyMobHits(hits: seq<Id>) returns (kills: seq<Drop>, ghost victims: seq<Id>)
      modifies this
      ensures mobs == StrikeAll(old(mobs), hits) && victims == KillOrder(old(mobs), hits)
      ensures |kills| == |victims|
      ensures forall i :: 0 <= i < |kills| ==> victims[i] in old(mobs) && kills[i] == DropOf(old(mobs)[victims[i]])
      ensures forall i :: 0 <= i < |kills| ==>
                var m := old(mobs)[victims[i]];
                kills[i].pos == m.pos && kills[i].kind == m.kind && kills[i].inv == m.inv
      ensures forall id :: multiset(victims)[id] ==
                           if id in old(mobs) && Lethal(old(mobs)[id], HitsOn(hits, id)) then 1 else 0
    {
      kills, victims := [], [];
      for i := 0 to |hits|
        invariant mobs == StrikeAll(old(mobs), hits[..i]) && victims == KillOrder(old(mobs), hits[..i])
        invariant |kills| == |victims|
        invariant forall id :: id in mobs ==> id in old(mobs) && SameBody(mobs[id], old(mobs)[id])
        invariant forall k :: 0 <= k < |kills| ==> victims[k] in old(mobs) && kills[k] == DropOf(old(mobs)[victims[k]])
      {
        KillOrderAppend(old(mobs), hits[..i], hits[i]);
        assert hits[..i] + [hits[i]] == hits[..i + 1];
        var h := hits[i];
        if h in mobs {
          mobs := mobs[h := mobs[h].(hp := mobs[h].hp - MOB_ATTACK_DAMAGE)];
          if mobs[h].hp <= 0 {
            kills := kills + [DropOf(mobs[h])];
            victims := victims + [h];
            mobs := mobs - {h};
          }
        }
      }
      assert hits[..|hits|] == hits;
      forall id ensures multiset(victims)[id] ==
                        if id in old(mobs) && Lethal(old(mobs)[id], HitsOn(hits, id)) then 1 else 0
      {
        StrikeAllClosedForm(old(mobs), hits, id);
      }
    }
  }
}
