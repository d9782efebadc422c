/** A player's item counts: player.go's inventory map and the operations that change it under c.mu. */
module Inventory {
  import opened Sums

  /** An item type, by the name it has on the wire. */
  datatype Item = Item(name: string)

  /** A missing entry counts as zero, as reading a Go map does. */
  type Inv = map<Item, int>

  function Count(inv: Inv, item: Item): int { if item in inv then inv[item] else 0 }

  predicate NonNegative(inv: Inv) { forall k :: k in inv ==> inv[k] >= 0 }

  function Add(inv: Inv, item: Item, n: int): Inv { inv[item := Count(inv, item) + n] }

  /** consumeItem's success branch: an entry that reaches zero is deleted. */
  function Take(inv: Inv, item: Item): Inv {
    if Count(inv, item) == 1 then inv - {item} else Add(inv, item, -1)
  }

  /** pinkDeliver's loop: every entry of `from` is added to `to`. */
  function Merge(to: Inv, from: Inv): Inv {
    map k | k in to.Keys + from.Keys :: Count(to, k) + Count(from, k)
  }

  /** What a craft takes and what it yields. */
  datatype Recipe = Recipe(need: Inv, out: Item, outQty: int)

  predicate CanCraft(inv: Inv, r: Recipe) { forall k :: k in r.need ==> Count(inv, k) >= r.need[k] }

  function Identity(): int -> int { (n: int) => n }

  /** pinkInventoryCount: how many items in all. */
  ghost function Size(inv: Inv): int { SumBy(inv, Identity()) }

  lemma {:induction false} AddGrowsSize(inv: Inv, item: Item, n: int)
    ensures Size(Add(inv, item, n)) == Size(inv) + n
  {
    if item in inv {
      SumReplace(inv, Identity(), item, inv[item] + n);
    } else {
      SumInsert(inv, Identity(), item, n);
    }
  }

  lemma {:induction false} MergeStep(to: Inv, from: Inv, k: Item)
    requires k in from
    ensures Merge(to, from) == Add(Merge(to, from - {k}), k, from[k])
  {
    var a, b := Merge(to, from), Add(Merge(to, from - {k}), k, from[k]);
    assert a.Keys == b.Keys;
    forall j | j in a ensures a[j] == b[j] {
      assert j != k ==> Count(from - {k}, j) == Count(from, j);
    }
  }

  lemma {:induction false} MergeAddsSizes(to: Inv, from: Inv)
    ensures Size(Merge(to, from)) == Size(to) + Size(from)
    decreases |from|
  {
    if from == map[] {
      assert Merge(to, from) == to;
    } else {
      var k :| k in from;
      var rest := from - {k};
      assert Size(from) == Size(rest) + from[k] by { SumSplit(from, Identity(), k); }
      MergeAddsSizes(to, rest);
      MergeStep(to, from, k);
      AddGrowsSize(Merge(to, rest), k, from[k]);
    }
  }

  class Client {
    var inventory: Inv

    constructor ()
      ensures inventory == map[]
    {
      inventory := map[];
    }

    method ConsumeItem(item: Item) returns (ok: bool)
      modifies this
      ensures ok == (old(Count(inventory, item)) > 0)
      ensures forall k :: Count(inventory, k) == old(Count(inventory, k)) - (if ok && k == item then 1 else 0)
      ensures inventory == if ok then Take(old(inventory), item) else old(inventory)
    {
      if Count(inventory, item) <= 0 {
        return false;
      }
      inventory := inventory[item := Count(inventory, item) - 1];
      if inventory[item] == 0 {
        inventory := inventory - {item};
        assert inventory == old(inventory) - {item};
      }
      return true;
    }

    method AddItem(item: Item) returns (copy: Inv)
      modifies this
      ensures inventory == Add(old(inventory), item, 1) && copy == inventory
      ensures forall k :: Count(inventory, k) == old(Count(inventory, k)) + (if k == item then 1 else 0)
    {
      inventory := inventory[item := Count(inventory, item) + 1];
      copy := inventory;
    }

    /** The transfer loop of pinkDeliver; the iteration order over the mob's map is arbitrary. */
    method Receive(from: Inv)
      modifies this
      ensures inventory == Merge(old(inventory), from)
      ensures forall k :: Count(inventory, k) == old(Count(inventory, k)) + Count(from, k)
      ensures Size(inventory) == old(Size(inventory)) + Size(from)
    {
      var left := from.Keys;
      while left != {}
        invariant left <= from.Keys
        invariant forall k :: Count(inventory, k) ==
                              old(Count(inventory, k)) + (if k in left then 0 else Count(from, k))
        invariant inventory.Keys == old(inventory.Keys) + (from.Keys - left)
      {
        var item :| item in left;
        inventory := inventory[item := Count(inventory, item) + from[item]];
        left := left - {item};
      }
      var merged := Merge(old(inventory), from);
      forall k | k in merged ensures inventory[k] == merged[k] {
        assert Count(inventory, k) == merged[k];
      }
      assert inventory == merged;
      MergeAddsSizes(old(inventory), from);
    }
  }
}
