/**
 The lock discipline of the server: which mutexes every handler and tick phase takes, in which
 nesting, and why no run of any number of goroutines deadlocks under Go's RWMutex rules.
 */
module LockDiscipline {
  import opened Sums

  /** s.mu is Registry; every connection has its own ClientMu. */
  datatype Lock =
    | Rockets | Boats | Mammoths | Mobs | Projectiles | Resources
    | Registry | ClientMu(client: int) | Batteries
    | Solar | Factories | Wells | Houses

  datatype Mode = Shared | Exclusive

  function Rank(l: Lock): (r: nat)
    ensures r <= 12
  {
    match l
    case Rockets => 0
    case Boats => 1
    case Mammoths => 2
    case Mobs => 3
    case Projectiles => 4
    case Resources => 5
    case Registry => 6
    case ClientMu(_) => 7
    case Batteries => 8
    case Solar => 9
    case Factories => 10
    case Wells => 11
    case Houses => 12
  }

  /** The locking skeleton of a piece of code: take `lock`, run `inside`, release it, then run `next`. */
  datatype Scope = Done | Hold(lock: Lock, mode: Mode, inside: Scope, next: Scope)

  datatype Op = Acquire(lock: Lock, mode: Mode) | Release(lock: Lock)

  function Then(a: Scope, b: Scope): Scope {
    match a
    case Done => b
    case Hold(l, m, inside, next) => Hold(l, m, inside, Then(next, b))
  }

  /** The lock operations of `p`, followed by `rest`. */
  function Flatten(p: Scope, rest: seq<Op>): seq<Op> {
    match p
    case Done => rest
    case Hold(l, m, inside, next) => [Acquire(l, m)] + Flatten(inside, [Release(l)] + Flatten(next, rest))
  }

  /** Every nested acquisition climbs strictly above `floor` and above every lock around it. */
  predicate Ordered(p: Scope, floor: int) {
    match p
    case Done => true
    case Hold(l, _, inside, next) => floor < Rank(l) && Ordered(inside, Rank(l)) && Ordered(next, floor)
  }

  // ---------------------------------------------------------------------------------------------
  // The catalogue of lock skeletons in the server

  function Leaf(l: Lock, m: Mode): Scope { Hold(l, m, Done, Done) }

  /** c.State(), c.Hunger(): one shared hold of each client's mutex in turn. */
  function ReadClients(cs: seq<int>): Scope {
    if cs == [] then Done else Hold(ClientMu(cs[0]), Shared, Done, ReadClients(cs[1..]))
  }

  /** collectPlayers reads state and hunger of every client. */
  function ReadClientsTwice(cs: seq<int>): Scope {
    if cs == [] then Done
    else Hold(ClientMu(cs[0]), Shared, Done, Hold(ClientMu(cs[0]), Shared, Done, ReadClientsTwice(cs[1..])))
  }

  /** collectNearPlayers locks each client exclusively, then reads its state. */
  function InspectClients(cs: seq<int>): Scope {
    if cs == [] then Done
    else Hold(ClientMu(cs[0]), Exclusive, Done, Hold(ClientMu(cs[0]), Shared, Done, InspectClients(cs[1..])))
  }

  /** What the tick of one mob can do while s.mobs is held. */
  datatype MobAction =
    | Throw                   // pinkAutoShoot, mobThrowSpear
    | SearchGround            // tickCollector, pinkFindNearestResource
    | PickUp                  // the pick that follows a search
    | MissOwner               // findClient returns nil
    | FollowOwner(owner: int) // findPlayerState
    | Deliver(owner: int)     // pinkDeliver in range

  function MobActionScope(a: MobAction, next: Scope): Scope {
    match a
    case Throw => Hold(Projectiles, Exclusive, Done, next)
    case SearchGround => Hold(Resources, Shared, Done, next)
    case PickUp => Hold(Resources, Exclusive, Done, next)
    case MissOwner => Hold(Registry, Shared, Done, next)
    case FollowOwner(c) => Hold(Registry, Shared, Done, Hold(ClientMu(c), Shared, Done, next))
    case Deliver(c) =>
      Hold(Registry, Shared, Done, Hold(ClientMu(c), Shared, Done, Hold(ClientMu(c), Exclusive, Done, next)))
  }

  function MobActions(actions: seq<MobAction>): Scope {
    if actions == [] then Done else MobActionScope(actions[0], MobActions(actions[1..]))
  }

  /** The target test of one flying projectile: registry, then the target's state, then its damage. */
  datatype Flight = NoTarget | Missed(target: int) | Struck(target: int)

  function FlightScope(f: Flight, next: Scope): Scope {
    match f
    case NoTarget => Hold(Registry, Shared, Done, next)
    case Missed(c) => Hold(Registry, Shared, Done, Hold(ClientMu(c), Shared, Done, next))
    case Struck(c) =>
      Hold(Registry, Shared, Done, Hold(ClientMu(c), Shared, Done, Hold(ClientMu(c), Exclusive, Done, next)))
  }

  function Flights(fs: seq<Flight>): Scope {
    if fs == [] then Done else FlightScope(fs[0], Flights(fs[1..]))
  }

  /** tickBoats scans the registry once for each ridden boat and reads at most one rider. */
  function RiderScans(riders: seq<seq<int>>): Scope {
    if riders == [] then Done else Hold(Registry, Shared, ReadClients(riders[0]), RiderScans(riders[1..]))
  }

  datatype Section =
    | Single(lock: Lock, mode: Mode)                            // one store, the registry or one client
    | RocketInput(client: int)                                  // rockets -> c.mu (read)
    | EnterBoat                                                 // boats -> mammoths
    | TickBoats(riders: seq<seq<int>>)                          // boats -> registry -> c.mu
    | FeedOrSaddle(client: int)                                 // mammoths -> c.mu
    | HitMammoth(client: int)                                   // mammoths -> c.mu (read)
    | NearPlayers(clients: seq<int>)                            // registry -> c.mu
    | SnapshotPlayers(clients: seq<int>)                        // registry -> c.mu (read)
    | TickMobs(clients: seq<int>, actions: seq<MobAction>)      // mobs -> everything a mob touches
    | PayMob(client: int)                                       // mobs -> c.mu: hits and contracts
    | TickProjectiles(flights: seq<Flight>)                     // projectiles -> registry, c.mu
    | CraftFactory(client: int)                                 // c.mu -> batteries

  function Skeleton(s: Section): Scope {
    match s
    case Single(l, m) => Leaf(l, m)
    case RocketInput(c) => Hold(Rockets, Exclusive, Leaf(ClientMu(c), Shared), Done)
    case EnterBoat => Hold(Boats, Exclusive, Leaf(Mammoths, Exclusive), Done)
    case TickBoats(riders) => Hold(Boats, Exclusive, RiderScans(riders), Done)
    case FeedOrSaddle(c) => Hold(Mammoths, Exclusive, Leaf(ClientMu(c), Exclusive), Done)
    case HitMammoth(c) => Hold(Mammoths, Exclusive, Leaf(ClientMu(c), Shared), Done)
    case NearPlayers(cs) => Hold(Registry, Shared, InspectClients(cs), Done)
    case SnapshotPlayers(cs) => Hold(Registry, Shared, ReadClientsTwice(cs), Done)
    case TickMobs(cs, actions) =>
      Hold(Mobs, Exclusive, Hold(Registry, Shared, ReadClients(cs), MobActions(actions)), Done)
    case PayMob(c) => Hold(Mobs, Exclusive, Leaf(ClientMu(c), Exclusive), Done)
    case TickProjectiles(fs) => Hold(Projectiles, Exclusive, Flights(fs), Done)
    case CraftFactory(c) => Hold(ClientMu(c), Exclusive, Leaf(Batteries, Exclusive), Done)
  }

  function Program(sections: seq<Section>): Scope {
    if sections == [] then Done else Then(Skeleton(sections[0]), Program(sections[1..]))
  }

  lemma {:induction false} ClientScansOrdered(cs: seq<int>)
    ensures Ordered(ReadClients(cs), Rank(Registry))
    ensures Ordered(ReadClientsTwice(cs), Rank(Registry))
    ensures Ordered(InspectClients(cs), Rank(Registry))
  {
    if cs != [] { ClientScansOrdered(cs[1..]); }
  }

  lemma {:induction false} MobActionOrdered(a: MobAction, next: Scope)
    requires Ordered(next, Rank(Mobs))
    ensures Ordered(MobActionScope(a, next), Rank(Mobs))
  {
    if a.Deliver? { assert Ordered(Hold(ClientMu(a.owner), Exclusive, Done, next), Rank(Mobs)); }
  }

  lemma {:induction false} MobActionsOrdered(actions: seq<MobAction>)
    ensures Ordered(MobActions(actions), Rank(Mobs))
  {
    if actions != [] {
      MobActionsOrdered(actions[1..]);
      MobActionOrdered(actions[0], MobActions(actions[1..]));
    }
  }

  lemma {:induction false} FlightOrdered(f: Flight, next: Scope)
    requires Ordered(next, Rank(Projectiles))
    ensures Ordered(FlightScope(f, next), Rank(Projectiles))
  {
    if f.Struck? { assert Ordered(Hold(ClientMu(f.target), Exclusive, Done, next), Rank(Projectiles)); }
  }

  lemma {:induction false} FlightsOrdered(fs: seq<Flight>)
    ensures Ordered(Flights(fs), Rank(Projectiles))
  {
    if fs != [] {
      FlightsOrdered(fs[1..]);
      FlightOrdered(fs[0], Flights(fs[1..]));
    }
  }

  lemma {:induction false} RiderScansOrdered(riders: seq<seq<int>>)
    ensures Ordered(RiderScans(riders), Rank(Boats))
  {
    if riders != [] {
      ClientScansOrdered(riders[0]);
      RiderScansOrdered(riders[1..]);
    }
  }

  lemma {:induction false} SkeletonOrdered(s: Section)
    ensures Ordered(Skeleton(s), -1)
  {
    match s
    case TickBoats(riders) => RiderScansOrdered(riders);
    case NearPlayers(cs) => ClientScansOrdered(cs);
    case SnapshotPlayers(cs) => ClientScansOrdered(cs);
    case TickMobs(cs, actions) =>
      ClientScansOrdered(cs);
      MobActionsOrdered(actions);
    case TickProjectiles(fs) => FlightsOrdered(fs);
    case _ =>
  }

  lemma {:induction false} ThenOrdered(a: Scope, b: Scope, floor: int)
    requires Ordered(a, floor) && Ordered(b, floor)
    ensures Ordered(Then(a, b), floor)
  {
    if a.Hold? { ThenOrdered(a.next, b, floor); }
  }

  /** Whatever sequence of messages or ticks a goroutine runs, it climbs the ranks. */
  lemma {:induction false} ProgramOrdered(sections: seq<Section>)
    ensures Ordered(Program(sections), -1)
  {
    if sections != [] {
      SkeletonOrdered(sections[0]);
      ProgramOrdered(sections[1..]);
      ThenOrdered(Skeleton(sections[0]), Program(sections[1..]), -1);
    }
  }

  // ---------------------------------------------------------------------------------------------
  // Goroutines under RWMutex rules

  /**
   A goroutine: what it holds, what it still has to do, and whether it has announced itself as the
   pending writer of the lock it acquires next (from then on new readers are turned away).
   */
  datatype Thread = Thread(held: map<Lock, Mode>, todo: seq<Op>, pending: bool)

  type Threads = map<int, Thread>

  ghost predicate Climbs(held: map<Lock, Mode>, todo: seq<Op>)
    decreases |todo|
  {
    if todo == [] then held == map[]
    else match todo[0]
      case Acquire(l, m) => (forall h :: h in held ==> Rank(h) < Rank(l)) && Climbs(held[l := m], todo[1..])
      case Release(l) => l in held && Climbs(held - {l}, todo[1..])
  }

  predicate WantsWrite(t: Thread, l: Lock) { t.todo != [] && t.todo[0] == Acquire(l, Exclusive) }

  predicate HoldsWrite(t: Thread, l: Lock) { l in t.held && t.held[l] == Exclusive }

  predicate Claims(t: Thread, l: Lock) { t.pending && WantsWrite(t, l) }

  /** A writer inside or announced: new readers and other writers must wait. */
  ghost predicate WriterPresent(s: Threads, l: Lock) {
    exists u :: u in s && (HoldsWrite(s[u], l) || Claims(s[u], l))
  }

  ghost predicate HeldByOther(s: Threads, t: int, l: Lock) {
    exists u :: u in s && u != t && l in s[u].held
  }

  function Advance(t: Thread): Thread
    requires t.todo != []
  {
    match t.todo[0]
    case Acquire(l, m) => Thread(t.held[l := m], t.todo[1..], false)
    case Release(l) => Thread(t.held - {l}, t.todo[1..], false)
  }

  datatype Move = Announce(thread: int) | Proceed(thread: int)

  ghost predicate Enabled(s: Threads, m: Move) {
    m.thread in s && s[m.thread].todo != [] &&
    var t := s[m.thread];
    match m
    case Announce(_) =>
      t.todo[0].Acquire? && t.todo[0].mode == Exclusive && !t.pending && !WriterPresent(s, t.todo[0].lock)
    case Proceed(i) =>
      match t.todo[0]
      case Release(_) => true
      case Acquire(l, Shared) => !WriterPresent(s, l)
      case Acquire(l, Exclusive) => t.pending && !HeldByOther(s, i, l)
  }

  /** The rules of sync.RWMutex: a reader waits for writers inside or announced, a writer for everybody inside. */
  lemma {:induction false} RwMutexRules(s: Threads, i: int, l: Lock)
    requires i in s && s[i].todo != []
    ensures s[i].todo[0] == Acquire(l, Shared) ==>
              (Enabled(s, Proceed(i)) <==>
                 forall u :: u in s ==> !(l in s[u].held && s[u].held[l] == Exclusive) &&
                                        !(s[u].pending && s[u].todo != [] && s[u].todo[0] == Acquire(l, Exclusive)))
    ensures s[i].todo[0] == Acquire(l, Exclusive) ==>
              (Enabled(s, Proceed(i)) <==> s[i].pending && forall u :: u in s && u != i ==> l !in s[u].held)
  {
  }

  function Apply(s: Threads, m: Move): Threads
    requires m.thread in s && s[m.thread].todo != []
  {
    match m
    case Announce(i) => s[i := s[i].(pending := true)]
    case Proceed(i) => s[i := Advance(s[i])]
  }

  ghost predicate WellFormed(s: Threads) {
    && (forall i :: i in s ==> Climbs(s[i].held, s[i].todo))
    && (forall i :: i in s && s[i].pending ==>
          s[i].todo != [] && s[i].todo[0].Acquire? && s[i].todo[0].mode == Exclusive)
  }

  ghost predicate Good(s: Threads) { WellFormed(s) && Exclusion(s) }

  ghost predicate Initial(s: Threads) {
    forall i :: i in s ==> s[i].held == map[] && !s[i].pending && Climbs(map[], s[i].todo)
  }

  lemma {:induction false} MoveKeepsWellFormed(s: Threads, m: Move)
    requires WellFormed(s) && Enabled(s, m)
    ensures WellFormed(Apply(s, m))
  {
  }

  /** What a goroutine newly holds or newly claims, it was entitled to. */
  lemma {:induction false} MoveEntitled(s: Threads, m: Move, l: Lock)
    requires Enabled(s, m)
    ensures var t, t' := s[m.thread], Apply(s, m)[m.thread];
            && (HoldsWrite(t', l) && !HoldsWrite(t, l) ==> Claims(t, l) && !HeldByOther(s, m.thread, l))
            && (Claims(t', l) && !Claims(t, l) ==> !WriterPresent(s, l))
            && (l in t'.held && l !in t.held && !HoldsWrite(t', l) ==> !WriterPresent(s, l))
  {
  }

  /** Two goroutines are compatible on `l`: neither writes or claims what the other holds for writing or claims. */
  predicate Compatible(a: Thread, b: Thread, l: Lock) {
    && (HoldsWrite(a, l) ==> l !in b.held) && (HoldsWrite(b, l) ==> l !in a.held)
    && (Claims(a, l) ==> !Claims(b, l) && !HoldsWrite(b, l)) && (Claims(b, l) ==> !HoldsWrite(a, l))
  }

  ghost predicate Exclusion(s: Threads) {
    forall i, j, l :: i in s && j in s && i != j ==> Compatible(s[i], s[j], l)
  }

  lemma {:induction false} MoverStaysCompatible(s: Threads, m: Move, j: int, l: Lock)
    requires Enabled(s, m) && j in s && j != m.thread && Compatible(s[m.thread], s[j], l)
    ensures Compatible(Apply(s, m)[m.thread], s[j], l) && Compatible(s[j], Apply(s, m)[m.thread], l)
  {
    MoveEntitled(s, m, l);
  }

  lemma {:induction false} MoveKeepsExclusion(s: Threads, m: Move)
    requires Exclusion(s) && Enabled(s, m)
    ensures Exclusion(Apply(s, m))
  {
    var s' := Apply(s, m);
    forall i, j, l | i in s' && j in s' && i != j ensures Compatible(s'[i], s'[j], l) {
      assert Compatible(s[i], s[j], l);
      if i == m.thread {
        MoverStaysCompatible(s, m, j, l);
      } else if j == m.thread {
        assert Compatible(s[j], s[i], l);
        MoverStaysCompatible(s, m, i, l);
      }
    }
  }

  ghost predicate Stuck(s: Threads) { forall m :: !Enabled(s, m) }

  /** In a stuck state somebody holds the lock that a waiting goroutine waits for. */
  lemma {:induction false} HolderOf(s: Threads, i: int, l: Lock) returns (h: int)
    requires Good(s) && Stuck(s) && i in s && s[i].todo != [] && s[i].todo[0].Acquire? && s[i].todo[0].lock == l
    ensures h in s && l in s[h].held
  {
    assert WriterPresent(s, l) by {
      assert !Enabled(s, Announce(i)) && !Enabled(s, Proceed(i));
      assert s[i].pending ==> Claims(s[i], l);
    }
    var w :| w in s && (HoldsWrite(s[w], l) || Claims(s[w], l));
    h := w;
    if !HoldsWrite(s[w], l) {
      assert !Enabled(s, Proceed(w));
      h :| h in s && h != w && l in s[h].held;
    }
  }

  /** Following "waits for, held by" climbs the finitely many ranks forever: impossible. */
  lemma {:induction false} NoWaitingCycle(s: Threads, i: int)
    requires Good(s) && Stuck(s) && i in s && s[i].todo != []
    ensures false
    decreases if s[i].todo[0].Acquire? then 12 - Rank(s[i].todo[0].lock) else 13
  {
    assert !Enabled(s, Proceed(i));
    var l := s[i].todo[0].lock;
    var h := HolderOf(s, i, l);
    assert Climbs(s[h].held, s[h].todo);
    assert s[h].todo != [];
    assert !Enabled(s, Proceed(h));
    NoWaitingCycle(s, h);
  }

  ghost predicate Unfinished(s: Threads) { exists i :: i in s && s[i].todo != [] }

  lemma {:induction false} SomeThreadCanMove(s: Threads)
    requires Good(s) && Unfinished(s)
    ensures exists m :: Enabled(s, m)
  {
    if Stuck(s) {
      var i :| i in s && s[i].todo != [];
      NoWaitingCycle(s, i);
    }
  }

  // ---------------------------------------------------------------------------------------------
  // Whole runs

  ghost predicate IsRun(s: Threads, moves: seq<Move>)
    decreases |moves|
  {
    moves == [] || (Enabled(s, moves[0]) && IsRun(Apply(s, moves[0]), moves[1..]))
  }

  ghost function After(s: Threads, moves: seq<Move>): Threads
    requires IsRun(s, moves)
    decreases |moves|
  {
    if moves == [] then s else After(Apply(s, moves[0]), moves[1..])
  }

  function Remaining(): Thread -> int { (t: Thread) => 2 * |t.todo| - (if t.pending then 1 else 0) }

  lemma {:induction false} RunsStayGood(s: Threads, moves: seq<Move>)
    requires Good(s) && IsRun(s, moves)
    ensures Good(After(s, moves))
    ensures |moves| + SumBy(After(s, moves), Remaining()) <= SumBy(s, Remaining())
    decreases |moves|
  {
    if moves != [] {
      var m := moves[0];
      MoveKeepsWellFormed(s, m);
      MoveKeepsExclusion(s, m);
      var s' := Apply(s, m);
      SumReplace(s, Remaining(), m.thread, s'[m.thread]);
      assert Remaining()(s'[m.thread]) < Remaining()(s[m.thread]);
      RunsStayGood(s', moves[1..]);
    }
  }

  /** Goroutines that only run server sections start in an Initial state. */
  lemma {:induction false} FlattenClimbs(p: Scope, floor: int, held: map<Lock, Mode>, rest: seq<Op>)
    requires Ordered(p, floor) && (forall h :: h in held ==> Rank(h) <= floor) && Climbs(held, rest)
    ensures Climbs(held, Flatten(p, rest))
    decreases p
  {
    match p
    case Done =>
    case Hold(l, m, inside, next) =>
      FlattenClimbs(next, floor, held, rest);
      var after := [Release(l)] + Flatten(next, rest);
      assert after[1..] == Flatten(next, rest);
      var within := held[l := m];
      assert within - {l} == held;
      FlattenClimbs(inside, Rank(l), within, after);
      assert Flatten(p, rest)[1..] == Flatten(inside, after);
  }

  function Start(programs: map<int, seq<Section>>): Threads {
    map i | i in programs :: Thread(map[], Flatten(Program(programs[i]), []), false)
  }

  lemma {:induction false} StartIsGood(programs: map<int, seq<Section>>)
    ensures Initial(Start(programs)) && Good(Start(programs))
  {
    var s := Start(programs);
    forall i | i in s ensures Climbs(map[], s[i].todo) {
      ProgramOrdered(programs[i]);
      FlattenClimbs(Program(programs[i]), -1, map[], []);
    }
  }

  lemma {:induction false} WritersExclude(s: Threads)
    requires Exclusion(s)
    ensures forall i, j, l :: i in s && j in s && i != j && HoldsWrite(s[i], l) ==> l !in s[j].held
  {
    forall i, j, l | i in s && j in s && i != j && HoldsWrite(s[i], l) ensures l !in s[j].held {
      assert Compatible(s[i], s[j], l);
    }
  }

  lemma {:induction false} FinishedHoldNothing(s: Threads)
    requires WellFormed(s) && !Unfinished(s)
    ensures forall i :: i in s ==> s[i].held == map[]
  {
    forall i | i in s ensures s[i].held == map[] {
      assert Climbs(s[i].held, s[i].todo);
    }
  }

  /** Somebody can move or everybody is done with every lock free; and writers are alone. */
  ghost predicate Live(s: Threads) {
    && (Unfinished(s) ==> exists m :: Enabled(s, m))
    && (!Unfinished(s) ==> forall i :: i in s ==> s[i].held == map[])
    && (forall i, j, l :: i in s && j in s && i != j && HoldsWrite(s[i], l) ==> l !in s[j].held)
  }

  lemma {:induction false} GoodIsLive(s: Threads)
    requires Good(s)
    ensures Live(s) && SumBy(s, Remaining()) >= 0
  {
    WritersExclude(s);
    forall i | i in s ensures Remaining()(s[i]) >= 0 {
    }
    SumNonNegative(s, Remaining());
    if Unfinished(s) {
      SomeThreadCanMove(s);
    } else {
      FinishedHoldNothing(s);
    }
  }

  /**
   No run deadlocks: however many goroutines run whatever sections, every reachable state is live,
   and a run is over after a fixed number of moves.
   */
  lemma {:induction false} NoDeadlock(programs: map<int, seq<Section>>, moves: seq<Move>)
    requires IsRun(Start(programs), moves)
    ensures Live(After(Start(programs), moves))
    ensures |moves| <= SumBy(Start(programs), Remaining())
  {
    StartIsGood(programs);
    RunsStayGood(Start(programs), moves);
    GoodIsLive(After(Start(programs), moves));
  }

  /** The order matters: one goroutine taking c.mu before s.batteries and one the other way can block for good. */
  lemma {:induction false} InversionDeadlocks(c: int)
    ensures exists s: Threads, moves :: IsRun(s, moves) && Unfinished(After(s, moves)) && Stuck(After(s, moves))
  {
    var l := ClientMu(c);
    var forth := [Acquire(l, Exclusive), Acquire(Batteries, Exclusive), Release(Batteries), Release(l)];
    var back := [Acquire(Batteries, Exclusive), Acquire(l, Exclusive), Release(l), Release(Batteries)];
    var s0: Threads := map[0 := Thread(map[], forth, false), 1 := Thread(map[], back, false)];
    var moves := [Announce(0), Proceed(0), Announce(1), Proceed(1)];
    var s1 := Apply(s0, moves[0]);
    var s2 := Apply(s1, moves[1]);
    var s3 := Apply(s2, moves[2]);
    var s4 := Apply(s3, moves[3]);
    assert HoldsWrite(s4[0], l) && HoldsWrite(s4[1], Batteries);
    assert moves[3..][1..] == [] && moves[2..][1..] == moves[3..] && moves[1..][1..] == moves[2..];
    assert IsRun(s4, []) && After(s4, []) == s4;
    assert IsRun(s3, moves[3..]) && After(s3, moves[3..]) == s4;
    assert IsRun(s2, moves[2..]) && After(s2, moves[2..]) == s4;
    assert IsRun(s1, moves[1..]) && After(s1, moves[1..]) == s4;
    assert IsRun(s0, moves) && After(s0, moves) == s4;
    assert s4[0].todo[0] == Acquire(Batteries, Exclusive) && s4[1].todo[0] == Acquire(l, Exclusive);
    forall m ensures !Enabled(s4, m) {
    }
    assert Unfinished(s4);
  }
}
