/** The client's 256-slot inventory grid against the server's item counts (inventory.go). */
module Slots {
  import opened Inventory

  const SLOT_COUNT := 256

  /** The empty string of an unoccupied slot. */
  const NOTHING := Item("")

  type Grid = s: seq<Item> | |s| == SLOT_COUNT witness seq(SLOT_COUNT, i => NOTHING)

  predicate Positive(inv: Inv, t: Item) { t != NOTHING && Count(inv, t) > 0 }

  /** No item type occupies two slots. */
  ghost predicate Unique(g: Grid) {
    forall i, j :: 0 <= i < j < SLOT_COUNT && g[i] == g[j] ==> g[i] == NOTHING
  }

  /** The new types of `inv` laid into the first empty slots of `g`; one is left over only when no slot is empty. */
  ghost predicate Filled(g: Grid, inv: Inv, mid: Grid) { FilledFrom(g, inv, inv.Keys, mid) }

  /** The same with only the types in `seen` considered so far. */
  ghost predicate FilledFrom(g: Grid, inv: Inv, seen: set<Item>, mid: Grid) {
    && (forall i :: 0 <= i < SLOT_COUNT ==>
          mid[i] == g[i] || (g[i] == NOTHING && Positive(inv, mid[i]) && mid[i] !in g))
    && (forall i, j :: 0 <= i < j < SLOT_COUNT && g[i] == g[j] == NOTHING && mid[i] == mid[j] ==> mid[i] == NOTHING)
    && (forall i, j :: 0 <= i < j < SLOT_COUNT && mid[i] == NOTHING && g[j] == NOTHING ==> mid[j] == NOTHING)
    && (forall t :: t in seen && Positive(inv, t) && t !in mid ==> NOTHING !in mid)
  }

  lemma {:induction false} PlaceOne(g: Grid, inv: Inv, seen: set<Item>, mid: Grid, t: Item, at: int)
    requires FilledFrom(g, inv, seen, mid) && 0 <= at < SLOT_COUNT && mid[at] == NOTHING
    requires Positive(inv, t) && t !in mid && forall k :: 0 <= k < at ==> mid[k] != NOTHING
    ensures FilledFrom(g, inv, seen + {t}, mid[at := t])
  {
    var now := mid[at := t];
    forall i | 0 <= i < SLOT_COUNT ensures g[i] != t {
      assert mid[i] in mid;
    }
    assert mid[at] in mid;
    assert now[at] == t;
    forall u | u in seen + {t} && Positive(inv, u) ensures u in now {
      if u != t {
        var i :| 0 <= i < SLOT_COUNT && mid[i] == u;
        assert now[i] == u;
      }
    }
  }

  /** New types are neither in the grid already nor laid twice, so a grid without duplicates keeps none. */
  lemma {:induction false} FilledKeepsUnique(g: Grid, inv: Inv, mid: Grid)
    requires Unique(g) && Filled(g, inv, mid)
    ensures Unique(mid)
  {
    forall i, j | 0 <= i < j < SLOT_COUNT && mid[i] == mid[j] ensures mid[i] == NOTHING {
      assert g[i] in g && g[j] in g;
    }
  }

  /** Slots whose item is gone are emptied. */
  ghost predicate Cleared(mid: Grid, inv: Inv, after: Grid) {
    forall i :: 0 <= i < SLOT_COUNT ==> after[i] == if Positive(inv, mid[i]) then mid[i] else NOTHING
  }

  /** The grid shows exactly the positive types, each once. */
  ghost predicate Agrees(g: Grid, inv: Inv) {
    && Unique(g) && (forall i :: 0 <= i < SLOT_COUNT ==> g[i] == NOTHING || Positive(inv, g[i]))
    && (forall t :: Positive(inv, t) ==> t in g)
  }

  ghost function TypesIn(g: Grid): set<Item> { set i | 0 <= i < SLOT_COUNT && g[i] != NOTHING :: g[i] }

  ghost function PositiveTypes(inv: Inv): set<Item> { set t | t in inv && Positive(inv, t) }

  lemma {:induction false} TypesAfter(mid: Grid, at: int, t: Item)
    requires 0 <= at < SLOT_COUNT && mid[at] == NOTHING
    ensures forall u :: u != NOTHING ==> (u in mid[at := t] <==> u == t || u in mid)
  {
    var now := mid[at := t];
    assert now[at] == t;
    forall u | u != NOTHING && u in mid ensures u in now {
      var i :| 0 <= i < SLOT_COUNT && mid[i] == u;
      assert now[i] == u;
    }
  }

  class SlotGrid {
    const slots: array<Item>

    constructor ()
      ensures slots.Length == SLOT_COUNT && forall i :: 0 <= i < SLOT_COUNT ==> slots[i] == NOTHING
    {
      slots := new Item[SLOT_COUNT](_ => NOTHING);
    }

    /** The first empty slot takes `t`. */
    method PutInFirstEmpty(t: Item) returns (placed: bool, at: nat)
      requires slots.Length == SLOT_COUNT
      modifies slots
      ensures placed == (NOTHING in old(slots[..]))
      ensures !placed ==> slots[..] == old(slots[..])
      ensures placed ==> at < SLOT_COUNT && old(slots[at]) == NOTHING && slots[..] == old(slots[..])[at := t]
      ensures placed ==> forall k :: 0 <= k < at ==> old(slots[k]) != NOTHING
    {
      for i := 0 to slots.Length
        invariant slots[..] == old(slots[..])
        invariant NOTHING !in slots[..i]
      {
        if slots[i] == NOTHING {
          slots[i] := t;
          return true, i;
        }
      }
      return false, 0;
    }

    /** The loop of syncInvSlots over the inventory, whose order is arbitrary. */
    method Fill(inv: Inv)
      requires slots.Length == SLOT_COUNT
      modifies slots
      ensures Filled(old(slots[..]), inv, slots[..])
    {
      var present := set i | 0 <= i < SLOT_COUNT && slots[i] != NOTHING :: slots[i];
      var left := inv.Keys;
      ghost var g := slots[..];
      while left != {}
        invariant left <= inv.Keys
        invariant FilledFrom(g, inv, inv.Keys - left, slots[..])
        invariant forall t :: t != NOTHING ==> (t in present <==> t in slots[..])
      {
        var t :| t in left;
        ghost var seen, mid := inv.Keys - left, slots[..];
        left := left - {t};
        assert inv.Keys - left == seen + {t};
        if inv[t] > 0 && t !in present {
          var placed, at := PutInFirstEmpty(t);
          if placed {
            present := present + {t};
            if t == NOTHING {
              assert slots[..] == mid;
            } else {
              PlaceOne(g, inv, seen, mid, t, at);
              TypesAfter(mid, at, t);
            }
          }
        }
      }
      assert inv.Keys - left == inv.Keys;
    }

    /** syncInvSlots; `mid` is the grid between its two halves. */
    method Sync(inv: Inv) returns (ghost mid: Grid)
      requires slots.Length == SLOT_COUNT
      modifies slots
      ensures Filled(old(slots[..]), inv, mid) && Cleared(mid, inv, slots[..])
    {
      Fill(inv);
      mid := slots[..];
      for i := 0 to slots.Length
        invariant forall k :: 0 <= k < i ==> slots[k] == if Positive(inv, mid[k]) then mid[k] else NOTHING
        invariant forall k :: i <= k < SLOT_COUNT ==> slots[k] == mid[k]
      {
        if slots[i] != NOTHING && Count(inv, slots[i]) <= 0 {
          slots[i] := NOTHING;
        }
      }
    }

    /** The drag-and-drop exchange of drawInventory. */
    method Swap(from: int, to: int)
      requires slots.Length == SLOT_COUNT && 0 <= from < SLOT_COUNT && 0 <= to < SLOT_COUNT
      modifies slots
      ensures slots[..] == Swapped(old(slots[..]), from, to)
      ensures slots[from] == old(slots[to]) && slots[to] == old(slots[from])
      ensures forall k :: 0 <= k < SLOT_COUNT && k != from && k != to ==> slots[k] == old(slots[k])
    {
      slots[from], slots[to] := slots[to], slots[from];
    }
  }

  function Swapped(g: Grid, i: int, j: int): Grid
    requires 0 <= i < SLOT_COUNT && 0 <= j < SLOT_COUNT
  {
    g[i := g[j]][j := g[i]]
  }

  /** A drag exchanges two slots, shows the same items as before, and is undone by itself. */
  lemma {:induction false} SwapLaw(g: Grid, i: int, j: int)
    requires 0 <= i < SLOT_COUNT && 0 <= j < SLOT_COUNT
    ensures Swapped(g, i, j)[i] == g[j] && Swapped(g, i, j)[j] == g[i] && Swapped(Swapped(g, i, j), i, j) == g
    ensures multiset(Swapped(g, i, j)) == multiset(g)
  {
  }

  // ---------------------------------------------------------------------------------------------
  // What a sync achieves, and whole runs

  lemma {:induction false} SyncKeeps(g: Grid, inv: Inv, mid: Grid, after: Grid)
    requires Filled(g, inv, mid) && Cleared(mid, inv, after)
    ensures Unique(g) ==> Unique(after)
    ensures forall i :: 0 <= i < SLOT_COUNT ==> after[i] == NOTHING || Positive(inv, after[i])
    ensures forall i :: 0 <= i < SLOT_COUNT && Positive(inv, g[i]) ==> after[i] == g[i]
    ensures forall t :: Positive(inv, t) ==> (t in after <==> t in mid)
  {
    if Unique(g) { FilledKeepsUnique(g, inv, mid); }
    forall t | Positive(inv, t) && t in mid ensures t in after {
      var i :| 0 <= i < SLOT_COUNT && mid[i] == t;
      assert after[i] == t;
    }
    forall t | Positive(inv, t) && t in after ensures t in mid {
      var i :| 0 <= i < SLOT_COUNT && after[i] == t;
      assert mid[i] == t;
    }
  }

  /** A grid that already agrees with the inventory is left alone. */
  lemma {:induction false} SyncFixpoint(g: Grid, inv: Inv, mid: Grid, after: Grid)
    requires Agrees(g, inv) && Filled(g, inv, mid) && Cleared(mid, inv, after)
    ensures after == g
  {
    forall i | 0 <= i < SLOT_COUNT ensures after[i] == g[i] {
      assert Positive(inv, mid[i]) ==> mid[i] in g;
    }
  }

  ghost function Prefix(g: Grid, n: nat): set<Item>
    requires n <= SLOT_COUNT
  {
    set i | 0 <= i < n :: g[i]
  }

  lemma {:induction false} PrefixGrows(g: Grid, n: nat)
    requires n < SLOT_COUNT && Unique(g) && g[n] != NOTHING
    ensures Prefix(g, n + 1) == Prefix(g, n) + {g[n]} && g[n] !in Prefix(g, n)
  {
  }

  /** Distinct slots hold distinct types, so the types of a prefix number its occupied slots. */
  lemma {:induction false} CountPrefix(g: Grid, n: nat)
    requires n <= SLOT_COUNT && Unique(g) && NOTHING !in g
    ensures |Prefix(g, n)| == n
  {
    hide Unique;
    if n == 0 {
      assert Prefix(g, 0) == {};
    } else {
      CountPrefix(g, n - 1);
      assert g[n - 1] in g;
      PrefixGrows(g, n - 1);
    }
  }

  lemma {:induction false} FullGridCounts(g: Grid)
    requires Unique(g) && NOTHING !in g
    ensures |TypesIn(g)| == SLOT_COUNT
  {
    CountPrefix(g, SLOT_COUNT);
    forall i | 0 <= i < SLOT_COUNT ensures g[i] != NOTHING {
      assert g[i] in g;
    }
    assert TypesIn(g) == Prefix(g, SLOT_COUNT);
  }

  lemma {:induction false} GridCountsAtMost(g: Grid, n: nat)
    requires n <= SLOT_COUNT
    ensures |set i | 0 <= i < n && g[i] != NOTHING :: g[i]| <= n
  {
    if n > 0 {
      GridCountsAtMost(g, n - 1);
      var fewer := set i | 0 <= i < n - 1 && g[i] != NOTHING :: g[i];
      var all := set i | 0 <= i < n && g[i] != NOTHING :: g[i];
      assert all <= fewer + {g[n - 1]};
      Subset(all, fewer + {g[n - 1]});
    }
  }

  lemma {:induction false} Subset(a: set<Item>, b: set<Item>)
    requires a <= b
    ensures |a| <= |b|
  {
    assert b == a + (b - a);
  }

  lemma {:induction false} MidTypes(g: Grid, inv: Inv, mid: Grid)
    requires Filled(g, inv, mid)
    ensures TypesIn(g) <= TypesIn(mid) <= TypesIn(g) + PositiveTypes(inv)
  {
    forall t | t in TypesIn(g) ensures t in TypesIn(mid) {
      var i :| 0 <= i < SLOT_COUNT && g[i] == t;
      assert mid[i] == t;
    }
  }

  lemma {:induction false} TypeLeftOut(g: Grid, inv: Inv, mid: Grid, t: Item)
    requires Unique(g) && Filled(g, inv, mid) && Positive(inv, t) && t !in mid
    ensures |TypesIn(g) + PositiveTypes(inv)| > SLOT_COUNT
  {
    FilledKeepsUnique(g, inv, mid);
    FullGridCounts(mid);
    MidTypes(g, inv, mid);
    assert t !in TypesIn(mid) && t in PositiveTypes(inv);
    Subset(TypesIn(mid) + {t}, TypesIn(g) + PositiveTypes(inv));
  }

  lemma {:induction false} NoTypeLeftOut(g: Grid, inv: Inv, mid: Grid)
    requires Filled(g, inv, mid) && forall t :: Positive(inv, t) ==> t in mid
    ensures |TypesIn(g) + PositiveTypes(inv)| <= SLOT_COUNT
  {
    MidTypes(g, inv, mid);
    forall t | t in PositiveTypes(inv) ensures t in TypesIn(mid) {
      assert Positive(inv, t) && t in mid;
    }
    Subset(TypesIn(g) + PositiveTypes(inv), TypesIn(mid));
    GridCountsAtMost(mid, SLOT_COUNT);
    assert TypesIn(mid) == set i | 0 <= i < SLOT_COUNT && mid[i] != NOTHING :: mid[i];
  }

  /**
   One sync of a grid without duplicates makes it agree with the inventory exactly when the types
   already shown and the types to be shown together fit into the 256 slots.
   */
  lemma {:induction false} SyncCompleteIff(g: Grid, inv: Inv, mid: Grid, after: Grid)
    requires Unique(g) && Filled(g, inv, mid) && Cleared(mid, inv, after)
    ensures Agrees(after, inv) <==> |TypesIn(g) + PositiveTypes(inv)| <= SLOT_COUNT
  {
    hide TypesIn, PositiveTypes, FilledFrom, Cleared;
    SyncKeeps(g, inv, mid, after);
    if t :| Positive(inv, t) && t !in mid {
      TypeLeftOut(g, inv, mid, t);
      assert t !in after;
    } else {
      NoTypeLeftOut(g, inv, mid);
    }
  }

  lemma {:induction false} TypesShown(g: Grid, inv: Inv)
    requires forall i :: 0 <= i < SLOT_COUNT ==> g[i] == NOTHING || Positive(inv, g[i])
    ensures TypesIn(g) <= PositiveTypes(inv)
  {
  }

  /** Two syncs suffice: the first may find no room, but it clears what the second needs. */
  lemma {:induction false} TwoSyncsCompleteIff(g: Grid, inv: Inv, mid: Grid, once: Grid, mid2: Grid, twice: Grid)
    requires Unique(g) && Filled(g, inv, mid) && Cleared(mid, inv, once)
    requires Filled(once, inv, mid2) && Cleared(mid2, inv, twice)
    ensures Agrees(twice, inv) <==> |PositiveTypes(inv)| <= SLOT_COUNT
  {
    hide TypesIn, PositiveTypes, FilledFrom, Cleared, Agrees;
    SyncKeeps(g, inv, mid, once);
    TypesShown(once, inv);
    SyncCompleteIff(once, inv, mid2, twice);
    assert TypesIn(once) + PositiveTypes(inv) == PositiveTypes(inv);
  }

  datatype Event = Synced(inv: Inv, mid: Grid, after: Grid) | Dragged(from: int, to: int)

  ghost predicate IsRun(g: Grid, events: seq<Event>)
    decreases |events|
  {
    events == [] ||
    match events[0]
    case Synced(inv, mid, after) => Filled(g, inv, mid) && Cleared(mid, inv, after) && IsRun(after, events[1..])
    case Dragged(i, j) => 0 <= i < SLOT_COUNT && 0 <= j < SLOT_COUNT && IsRun(Swapped(g, i, j), events[1..])
  }

  ghost function After(g: Grid, events: seq<Event>): Grid
    requires IsRun(g, events)
    decreases |events|
  {
    if events == [] then g
    else match events[0]
      case Synced(_, _, after) => After(after, events[1..])
      case Dragged(i, j) => After(Swapped(g, i, j), events[1..])
  }

  /** Over every run of syncs and drags no type comes to occupy two slots. */
  lemma {:induction false} RunKeepsUnique(g: Grid, events: seq<Event>)
    requires Unique(g) && IsRun(g, events)
    ensures Unique(After(g, events))
    decreases |events|
  {
    if events != [] {
      match events[0]
      case Synced(inv, mid, after) =>
        SyncKeeps(g, inv, mid, after);
        RunKeepsUnique(after, events[1..]);
      case Dragged(i, j) => RunKeepsUnique(Swapped(g, i, j), events[1..]);
    }
  }
}
