/**
 The client's two interpolation buffers: Earth snapshots indexed by server tick (update.go) and player
 states indexed by arrival time (client.go).
 */
module Interpolation {
  import opened Geometry
  import opened Nearest

  const MAX_SNAPS := 30
  const RENDER_LAG := 3.0

  datatype Snap = Snap(tick: int, pos: Vec, vel: Vec)

  type History = seq<Snap>

  function Newest(h: History): real
    requires h != []
  {
    h[|h| - 1].tick as real
  }

  function Oldest(h: History): real
    requires h != []
  {
    h[0].tick as real
  }

  /** At most thirty snapshots with strictly increasing positive ticks. */
  ghost predicate Ordered(h: History) {
    && |h| <= MAX_SNAPS && (forall i :: 0 <= i < |h| ==> h[i].tick > 0)
    && (forall i, j :: 0 <= i < j < |h| ==> h[i].tick < h[j].tick)
  }

  /** The render tick lies where there is a snapshot on either side of it. */
  ghost predicate InWindow(h: History, renderTick: real) {
    |h| >= 2 ==> Oldest(h) <= renderTick <= Newest(h) - 1.0
  }

  // ---------------------------------------------------------------------------------------------
  // The three stages of updateEarthHistory

  function Pushed(h: History, s: Snap): History {
    if s.tick == 0 || (h != [] && s.tick == h[|h| - 1].tick) then h
    else
      var longer := h + [s];
      if |longer| > MAX_SNAPS then longer[|longer| - MAX_SNAPS..] else longer
  }

  function Clamped(h: History, renderTick: real): real {
    if |h| < 2 then renderTick
    else
      var raised := if renderTick < Oldest(h) then Oldest(h) else renderTick;
      if raised > Newest(h) - 1.0 then Newest(h) - 1.0 else raised
  }

  /** Whole-buffer state; `seen` is the highest tick the server has sent. */
  datatype State = State(history: History, renderTick: real, initialised: bool, seen: int)

  /** How many server ticks pass in `dt` seconds. */
  function TicksIn(dt: real, tickRate: real): real { dt * tickRate }

  function Started(s: State): State {
    if s.initialised || s.history == [] then s
    else s.(renderTick := Newest(s.history) - RENDER_LAG, initialised := true)
  }

  function Advanced(s: State, delta: real): State {
    if !s.initialised then s else s.(renderTick := Clamped(s.history, s.renderTick + delta))
  }

  function Framed(s: State, delta: real, snap: Snap): State {
    Advanced(Started(s.(history := Pushed(s.history, snap), seen := snap.tick)), delta)
  }

  lemma {:induction false} FramedStages(s: State, delta: real, snap: Snap, pushed: State)
    requires pushed == s.(history := Pushed(s.history, snap), seen := snap.tick)
    ensures Framed(s, delta, snap) == Advanced(Started(pushed), delta)
  {
  }

  ghost predicate Good(s: State) {
    && Ordered(s.history) && InWindow(s.history, s.renderTick)
    && (s.history != [] ==> Newest(s.history) <= s.seen as real)
    && (s.history != [] ==> s.initialised)
  }

  lemma {:induction false} SuffixOrdered(h: History, n: nat)
    requires n <= |h| && |h| - n <= MAX_SNAPS && (forall i :: 0 <= i < |h| ==> h[i].tick > 0)
    requires forall i, j :: 0 <= i < j < |h| ==> h[i].tick < h[j].tick
    ensures Ordered(h[n..])
  {
  }

  lemma {:induction false} AppendOrdered(h: History, s: Snap)
    requires Ordered(h) && s.tick > 0 && (h != [] ==> h[|h| - 1].tick < s.tick)
    ensures var longer := h + [s];
            && (forall i :: 0 <= i < |longer| ==> 0 < longer[i].tick <= s.tick)
            && (forall i, j :: 0 <= i < j < |longer| ==> longer[i].tick < longer[j].tick)
  {
  }

  lemma {:induction false} PushKeepsOrder(h: History, s: Snap)
    requires Ordered(h) && s.tick >= 0 && (h != [] ==> h[|h| - 1].tick <= s.tick)
    ensures Ordered(Pushed(h, s)) && |Pushed(h, s)| >= (if |h| < MAX_SNAPS then |h| else MAX_SNAPS)
    ensures Pushed(h, s) != [] ==> Newest(Pushed(h, s)) <= s.tick as real
    ensures h != [] ==> Newest(h) <= Newest(Pushed(h, s))
  {
    var longer := h + [s];
    if s.tick != 0 && (h == [] || s.tick != h[|h| - 1].tick) {
      AppendOrdered(h, s);
      SuffixOrdered(longer, if |longer| > MAX_SNAPS then |longer| - MAX_SNAPS else 0);
    }
  }

  /** A new tick becomes the newest snapshot; only the oldest make room for it. */
  lemma {:induction false} PushIs(h: History, s: Snap)
    ensures var p := Pushed(h, s);
            if s.tick == 0 || (h != [] && h[|h| - 1].tick == s.tick) then p == h
            else && p != [] && p[|p| - 1] == s
                 && (|h| < 30 ==> p == h + [s]) && (|h| == 30 ==> p == h[1..] + [s])
  {
  }

  /** The nearest place inside the window. */
  lemma {:induction false} ClampIsNearest(h: History, renderTick: real, x: real)
    requires Ordered(h) && |h| >= 2 && InWindow(h, x)
    ensures var c := Clamped(h, renderTick);
            (renderTick <= c <= x || x <= c <= renderTick) && (InWindow(h, renderTick) ==> c == renderTick)
  {
    assert h[0].tick < h[|h| - 1].tick;
  }

  /** With a single snapshot or none nothing holds the render tick; it starts three ticks behind the first. */
  lemma {:induction false} FrameAdvances(s: State, dt: real, tickRate: real, snap: Snap)
    ensures var h, t := Pushed(s.history, snap), Framed(s, TicksIn(dt, tickRate), snap);
            && t.history == h && t.seen == snap.tick && (t.initialised <==> s.initialised || h != [])
            && var from := if s.initialised || h == [] then s.renderTick else h[|h| - 1].tick as real - 3.0;
               t.renderTick == if !t.initialised then s.renderTick else Clamped(h, from + dt * tickRate)
    ensures forall h, x :: |h| < 2 ==> Clamped(h, x) == x
  {
  }

  lemma {:induction false} ClampLands(h: History, renderTick: real)
    requires Ordered(h)
    ensures InWindow(h, Clamped(h, renderTick))
  {
    if |h| >= 2 { assert h[0].tick < h[|h| - 1].tick; }
  }

  /** Every frame keeps the buffer ordered and the render tick inside it. */
  lemma {:induction false} FrameKeepsGood(s: State, delta: real, snap: Snap)
    requires Good(s) && snap.tick >= s.seen >= 0
    ensures Good(Framed(s, delta, snap))
  {
    PushKeepsOrder(s.history, snap);
    var started := Started(s.(history := Pushed(s.history, snap), seen := snap.tick));
    if started.initialised {
      ClampLands(started.history, started.renderTick + delta);
    }
  }

  /** A frame moves the render tick back exactly when it had run past the newest snapshot but one. */
  lemma {:induction false} ForwardIff(s: State, delta: real, snap: Snap)
    requires Good(s) && snap.tick >= s.seen >= 0 && delta >= 0.0 && s.initialised
    ensures var h := Pushed(s.history, snap);
            Framed(s, delta, snap).renderTick >= s.renderTick <==> |h| < 2 || s.renderTick <= Newest(h) - 1.0
  {
    PushKeepsOrder(s.history, snap);
    var h := Pushed(s.history, snap);
    if |h| >= 2 { assert h[0].tick < h[|h| - 1].tick; }
  }

  // ---------------------------------------------------------------------------------------------
  // Whole runs

  datatype Event = Frame(delta: real, snap: Snap) | Teleport

  function Next(s: State, e: Event): State {
    match e
    case Frame(delta, snap) => Framed(s, delta, snap)
    case Teleport => s.(history := [])
  }

  /** Frames never go back in time, neither the clock's nor the server's. */
  ghost predicate IsRun(s: State, events: seq<Event>)
    decreases |events|
  {
    events == [] ||
    ((events[0].Frame? ==> events[0].delta >= 0.0 && events[0].snap.tick >= s.seen) &&
     IsRun(Next(s, events[0]), events[1..]))
  }

  function After(s: State, events: seq<Event>): State
    decreases |events|
  {
    if events == [] then s else After(Next(s, events[0]), events[1..])
  }

  const FRESH := State([], 0.0, false, 0)

  lemma {:induction false} RunKeepsGood(s: State, events: seq<Event>)
    requires Good(s) && s.seen >= 0 && IsRun(s, events)
    ensures Good(After(s, events)) && After(s, events).seen >= 0
    decreases |events|
  {
    if events != [] {
      if events[0].Frame? { FrameKeepsGood(s, events[0].delta, events[0].snap); }
      RunKeepsGood(Next(s, events[0]), events[1..]);
    }
  }

  /** After any run of the client: at most thirty rising ticks, and an adjacent pair around the render tick. */
  lemma {:induction false} EveryRunBrackets(events: seq<Event>)
    requires IsRun(FRESH, events)
    ensures var s := After(FRESH, events);
            && Ordered(s.history)
            && (|s.history| >= 2 ==>
                  var k := LastAtOrBefore(Ticks(s.history), s.renderTick);
                  && Oldest(s.history) <= s.renderTick <= Newest(s.history) - 1.0
                  && 0 <= k < |s.history| - 1
                  && s.history[k].tick as real <= s.renderTick < s.history[k + 1].tick as real)
  {
    RunKeepsGood(FRESH, events);
    var s := After(FRESH, events);
    if |s.history| >= 2 { WindowBrackets(s.history, s.renderTick); }
  }

  /** Once two snapshots are buffered the render tick never goes back until a teleport empties the buffer. */
  lemma {:induction false} RenderTickMonotone(s: State, events: seq<Event>)
    requires Good(s) && s.seen >= 0 && IsRun(s, events) && |s.history| >= 2 && Teleport !in events
    ensures After(s, events).renderTick >= s.renderTick && |After(s, events).history| >= 2
    decreases |events|
  {
    if events != [] {
      var e := events[0];
      assert e in events;
      FrameKeepsGood(s, e.delta, e.snap);
      ForwardIff(s, e.delta, e.snap);
      PushKeepsOrder(s.history, e.snap);
      assert forall x :: x in events[1..] ==> x in events;
      RenderTickMonotone(Next(s, e), events[1..]);
    }
  }

  /** With a single snapshot nothing holds the render tick: a second of silence and it jumps back. */
  lemma {:induction false} RenderTickCanJumpBack()
    ensures var snap := Snap(10, ZERO, ZERO);
            var events := [Frame(0.0, snap), Frame(20.0, snap)];
            var last := Frame(0.0, Snap(11, ZERO, ZERO));
            && IsRun(FRESH, events + [last])
            && After(FRESH, events).renderTick == 27.0 && After(FRESH, events + [last]).renderTick == 10.0
  {
    var snap := Snap(10, ZERO, ZERO);
    var one, two, last := Frame(0.0, snap), Frame(20.0, snap), Frame(0.0, Snap(11, ZERO, ZERO));
    var s1 := Next(FRESH, one);
    assert s1 == State([snap], 7.0, true, 10);
    var s2 := Next(s1, two);
    assert s2 == State([snap], 27.0, true, 10);
    var s3 := Next(s2, last);
    assert s3.renderTick == 10.0;
    var all := [one, two] + [last];
    assert all[1..] == [two, last] && all[1..][1..] == [last] && [last][1..] == [];
    assert [one, two][1..] == [two] && [two][1..] == [];
    assert After(s3, []) == s3 && After(s2, [last]) == s3 && After(s1, [two, last]) == s3;
    assert After(s2, []) == s2 && After(s1, [two]) == s2;
    assert IsRun(s3, []) && IsRun(s2, [last]) && IsRun(s1, [two, last]);
  }

  // ---------------------------------------------------------------------------------------------
  // The buffer in place

  class EarthBuffer {
    var history: History
    var renderTick: real
    var initialised: bool
    var tickRate: real
    var earthPos: Vec
    var earthVel: Vec

    constructor ()
      ensures history == [] && !initialised && renderTick == 0.0 && tickRate == 0.0
    {
      history, renderTick, initialised, tickRate, earthPos, earthVel := [], 0.0, false, 0.0, ZERO, ZERO;
    }

    ghost predicate Shows(s: State)
      reads this
    {
      history == s.history && renderTick == s.renderTick && initialised == s.initialised
    }

    method PushEarthSnapshot(tick: int, ep: Vec, ev: Vec)
      modifies this`history
      ensures history == Pushed(old(history), Snap(tick, ep, ev))
    {
      if tick == 0 || (|history| > 0 && tick == history[|history| - 1].tick) {
        return;
      }
      history := history + [Snap(tick, ep, ev)];
      if |history| > MAX_SNAPS {
        history := history[|history| - MAX_SNAPS..];
      }
    }

    method InitRenderTick(ghost s: State)
      requires Shows(s)
      modifies this`renderTick, this`initialised
      ensures Shows(Started(s))
    {
      if initialised || |history| == 0 {
        return;
      }
      renderTick := history[|history| - 1].tick as real - 3.0;
      initialised := true;
    }

    method AdvanceRenderTick(dt: real, ghost s: State)
      requires Shows(s)
      modifies this`renderTick
      ensures Shows(Advanced(s, TicksIn(dt, tickRate)))
    {
      if !initialised {
        return;
      }
      renderTick := renderTick + dt * tickRate;
      if |history| < 2 {
        return;
      }
      var oldest, newest := history[0].tick as real, history[|history| - 1].tick as real;
      if renderTick < oldest {
        renderTick := oldest;
      }
      if renderTick > newest - 1.0 {
        renderTick := newest - 1.0;
      }
    }

    /**
     findEarthSurrounding, with the indices of the snapshots it returns. Its second result is not
     reset, so at or past the newest snapshot both point to that one.
     */
    method FindSurrounding() returns (s1: int, s2: Option<int>)
      requires Ordered(history) && history != []
      ensures 0 <= s1 < |history| && s1 == MaxZero(LastAtOrBefore(Ticks(history), renderTick))
      ensures s1 + 1 < |history| ==> s2 == Some(s1 + 1)
      ensures s1 + 1 == |history| > 1 ==> s2 == Some(s1)
      ensures |history| == 1 ==> s2 == None
    {
      var found := false;
      s1, s2 := 0, None;
      for i := 0 to |history|
        invariant found ==> 0 <= s1 < i && history[s1].tick as real <= renderTick
        invariant forall k :: s1 < k < i ==> history[k].tick as real > renderTick
        invariant !found ==> s1 == 0 && s2 == None && forall k :: 0 <= k < i ==> history[k].tick as real > renderTick
        invariant found ==> s2 == if s1 + 1 < |history| then Some(s1 + 1) else if s1 > 0 then Some(s1) else None
      {
        if history[i].tick as real <= renderTick {
          assert i > 0 ==> history[i - 1].tick < history[i].tick;
          found, s1 := true, i;
          if i + 1 < |history| {
            s2 := Some(i + 1);
          }
        }
      }
      if !found {
        if |history| > 1 {
          s2 := Some(1);
        }
      }
      LastIsUnique(Ticks(history), renderTick, if found then s1 else -1);
    }

    /** interpolateEarth: the straight line between the two snapshots around the render tick. */
    method InterpolateEarth(fallbackEP: Vec, fallbackEV: Vec) returns (ep: Vec, ev: Vec)
      requires Ordered(history) && InWindow(history, renderTick)
      ensures Rendered(history, renderTick, fallbackEP, fallbackEV, ep, ev)
    {
      hide Lerp;
      if |history| == 0 {
        return fallbackEP, fallbackEV;
      }
      if |history| == 1 {
        return history[0].pos, history[0].vel;
      }
      var s1, s2 := FindSurrounding();
      WindowBrackets(history, renderTick);
      var a, b := history[s1], history[s2.value];
      var span := (b.tick - a.tick) as real;
      var t := 0.0;
      if span > 0.0 {
        t := (renderTick - a.tick as real) / span;
      }
      FractionOfTicks(a, b, renderTick, span);
      if t < 0.0 {
        t := 0.0;
      } else if t > 1.0 {
        t := 1.0;
      }
      ep, ev := Lerp(a.pos, b.pos, t), Lerp(a.vel, b.vel, t);
    }

    /** updateEarthHistory: one frame. */
    method Update(dt: real, tick: int, serverEP: Vec, serverEV: Vec, ghost s: State)
      requires Shows(s) && Good(s) && tick >= s.seen >= 0
      modifies this
      ensures tickRate == if old(tickRate) == 0.0 then 20.0 else old(tickRate)
      ensures Shows(Framed(s, TicksIn(dt, tickRate), Snap(tick, serverEP, serverEV)))
      ensures Rendered(history, renderTick, serverEP, serverEV, earthPos, earthVel)
    {
      hide Lerp, Rendered, InWindow, Ordered, Pushed, Started, Advanced, Framed, TicksIn;
      if tickRate == 0.0 {
        tickRate := 20.0;
      }
      ghost var snap, delta := Snap(tick, serverEP, serverEV), TicksIn(dt, tickRate);
      ghost var pushed := s.(history := Pushed(s.history, snap), seen := tick);
      PushEarthSnapshot(tick, serverEP, serverEV);
      InitRenderTick(pushed);
      AdvanceRenderTick(dt, Started(pushed));
      FrameKeepsGood(s, delta, snap);
      FramedStages(s, delta, snap, pushed);
      earthPos, earthVel := InterpolateEarth(serverEP, serverEV);
    }
  }

  ghost predicate AtFraction(a: Snap, b: Snap, renderTick: real, ep: Vec, ev: Vec, t: real) {
    && 0.0 <= t < 1.0 && a.tick as real + t * (b.tick - a.tick) as real == renderTick
    && Minus(ep, a.pos) == Scale(t, Minus(b.pos, a.pos)) && Minus(ev, a.vel) == Scale(t, Minus(b.vel, a.vel))
    && InBox(ep, a.pos, b.pos) && InBox(ev, a.vel, b.vel)
  }

  /** Position and velocity at the fraction of the way that the render tick has covered. */
  ghost predicate OnSegment(a: Snap, b: Snap, renderTick: real, ep: Vec, ev: Vec) {
    exists t :: AtFraction(a, b, renderTick, ep, ev, t)
  }

  /** What is shown: the fallback, the only snapshot, or a point between the adjacent pair around the render tick. */
  ghost predicate Rendered(h: History, renderTick: real, fallbackEP: Vec, fallbackEV: Vec, ep: Vec, ev: Vec) {
    if h == [] then ep == fallbackEP && ev == fallbackEV
    else if |h| == 1 then ep == h[0].pos && ev == h[0].vel
    else
      var k := LastAtOrBefore(Ticks(h), renderTick);
      && 0 <= k < |h| - 1 && h[k].tick as real <= renderTick < h[k + 1].tick as real
      && OnSegment(h[k], h[k + 1], renderTick, ep, ev)
  }

  lemma {:induction false} ProperFraction(x: real, y: real)
    requires 0.0 <= x < y
    ensures 0.0 <= x / y < 1.0 && x / y * y == x
  {
  }

  lemma {:induction false} FractionBounds(a: real, b: real, at: real)
    requires a <= at < b
    ensures var t := (at - a) / (b - a); 0.0 <= t < 1.0 && a + t * (b - a) == at
  {
    ProperFraction(at - a, b - a);
  }

  lemma {:induction false} FractionOfTicks(a: Snap, b: Snap, renderTick: real, span: real)
    requires a.tick as real <= renderTick < b.tick as real && span == (b.tick - a.tick) as real
    ensures span > 0.0
    ensures var t := (renderTick - a.tick as real) / span;
            AtFraction(a, b, renderTick, Lerp(a.pos, b.pos, t), Lerp(a.vel, b.vel, t), t)
  {
    hide Lerp, Minus, Scale, InBox;
    assert span == b.tick as real - a.tick as real;
    ProperFraction(renderTick - a.tick as real, span);
    var t := (renderTick - a.tick as real) / span;
    LerpIs(a.pos, b.pos, t);
    LerpIs(a.vel, b.vel, t);
    LerpBetween(a.pos, b.pos, t);
    LerpBetween(a.vel, b.vel, t);
  }

  // ---------------------------------------------------------------------------------------------
  // "The last entry not after the render time", found from either end

  function Ticks(h: History): seq<real> { seq(|h|, i requires 0 <= i < |h| => h[i].tick as real) }

  function LastAtOrBefore(times: seq<real>, at: real): (k: int)
    ensures -1 <= k < |times| && (k >= 0 ==> times[k] <= at) && forall i :: k < i < |times| ==> times[i] > at
  {
    if times == [] then -1
    else if times[|times| - 1] <= at then |times| - 1
    else LastAtOrBefore(times[..|times| - 1], at)
  }

  function MaxZero(k: int): int { if k < 0 then 0 else k }

  lemma {:induction false} LastIsUnique(times: seq<real>, at: real, k: int)
    requires -1 <= k < |times| && (k >= 0 ==> times[k] <= at) && forall i :: k < i < |times| ==> times[i] > at
    ensures LastAtOrBefore(times, at) == k
  {
  }

  lemma {:induction false} WindowBrackets(h: History, renderTick: real)
    requires Ordered(h) && |h| >= 2 && InWindow(h, renderTick)
    ensures var k := LastAtOrBefore(Ticks(h), renderTick);
            0 <= k < |h| - 1 && h[k].tick as real <= renderTick < h[k + 1].tick as real
  {
    var ts := Ticks(h);
    var k := LastAtOrBefore(ts, renderTick);
    assert ts[0] <= renderTick && ts[|ts| - 1] > renderTick;
    assert ts[k] == h[k].tick as real && ts[k + 1] == h[k + 1].tick as real;
  }

  /** A player's state: its position and everything that is copied unchanged. */
  datatype Player<T> = Player(pos: Vec, rest: T)

  datatype Timed<T> = Timed(state: Player<T>, at: real)

  function Times<T>(hist: seq<Timed<T>>): seq<real> { seq(|hist|, i requires 0 <= i < |hist| => hist[i].at) }

  /** On the way from entry k to the next, at the share of the time between them that has passed. */
  ghost predicate OnTheWay<T>(a: Timed<T>, b: Timed<T>, now: real, shown: Player<T>) {
    && shown.rest == a.state.rest && InBox(shown.pos, a.state.pos, b.state.pos)
    && Scale(b.at - a.at, Minus(shown.pos, a.state.pos)) == Scale(now - a.at, Minus(b.state.pos, a.state.pos))
  }

  /** Where a player is shown at `now`: frozen outside the history, on a straight line inside it. */
  ghost predicate ShownAt<T>(hist: seq<Timed<T>>, now: real, shown: Player<T>)
    requires hist != []
  {
    var k := LastAtOrBefore(Times(hist), now);
    if k < 0 then shown == hist[0].state
    else if k + 1 == |hist| then shown == hist[k].state
    else hist[k].at <= now < hist[k + 1].at && OnTheWay(hist[k], hist[k + 1], now, shown)
  }

  lemma {:induction false} ScaleBack(span: real, part: real, rel: Vec, share: Vec)
    requires span != 0.0 && share == Scale(part / span, rel)
    ensures Scale(span, share) == Scale(part, rel)
  {
    Quotient(part, span);
    var q := part / span;
    TwoFactors(span, q, part, rel.x);
    TwoFactors(span, q, part, rel.y);
    TwoFactors(span, q, part, rel.z);
  }

  lemma {:induction false} TwoFactors(span: real, q: real, part: real, x: real)
    requires span * q == part
    ensures span * (q * x) == part * x
  {
  }

  lemma {:induction false} LerpOnTheWay<T>(a: Timed<T>, b: Timed<T>, now: real)
    requires a.at <= now < b.at
    ensures var t := (now - a.at) / (b.at - a.at);
            0.0 <= t < 1.0 && OnTheWay(a, b, now, a.state.(pos := Lerp(a.state.pos, b.state.pos, t)))
  {
    hide Lerp, Scale, Minus, InBox;
    FractionBounds(a.at, b.at, now);
    var t := (now - a.at) / (b.at - a.at);
    var p, q := a.state.pos, b.state.pos;
    LerpIs(p, q, t);
    LerpBetween(p, q, t);
    ScaleBack(b.at - a.at, now - a.at, Minus(q, p), Minus(Lerp(p, q, t), p));
  }

  lemma {:induction false} TimesAt<T>(hist: seq<Timed<T>>, now: real, k: int)
    requires -1 <= k < |hist| && (k >= 0 ==> hist[k].at <= now)
    requires forall i :: k < i < |hist| ==> hist[i].at > now
    ensures LastAtOrBefore(Times(hist), now) == k
  {
    LastIsUnique(Times(hist), now, k);
  }

  /** The backward scan of InterpolatedSnapshot for one player; the history need not be sorted. */
  method InterpolatePlayer<T>(hist: seq<Timed<T>>, now: real) returns (shown: Player<T>)
    requires hist != []
    ensures ShownAt(hist, now, shown)
  {
    hide Lerp, OnTheWay;
    if |hist| == 1 {
      TimesAt(hist, now, if hist[0].at <= now then 0 else -1);
      return hist[0].state;
    }
    var k := |hist| - 1;
    while k >= 0 && hist[k].at > now
      invariant -1 <= k < |hist| && forall i :: k < i < |hist| ==> hist[i].at > now
    {
      k := k - 1;
    }
    TimesAt(hist, now, k);
    if k < 0 {
      return hist[0].state;
    }
    if k + 1 == |hist| {
      return hist[k].state;
    }
    var a, b := hist[k], hist[k + 1];
    LerpOnTheWay(a, b, now);
    var span := b.at - a.at;
    if span <= 0.0 {
      return a.state;
    }
    var t := (now - a.at) / span;
    if t < 0.0 {
      t := 0.0;
    } else if t > 1.0 {
      t := 1.0;
    }
    shown := a.state.(pos := Lerp(a.state.pos, b.state.pos, t));
  }

  /** On a sorted history both scans bracket the render time: at or after the entry, before its successor. */
  lemma {:induction false} SortedBracket(times: seq<real>, now: real)
    requires forall i, j :: 0 <= i < j < |times| ==> times[i] <= times[j]
    ensures var k := LastAtOrBefore(times, now);
            && (forall i :: 0 <= i < |times| ==> (times[i] <= now <==> i <= k))
            && (0 <= k < |times| - 1 ==> times[k] <= now < times[k + 1])
  {
  }
}
