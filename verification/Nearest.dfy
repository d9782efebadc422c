/** The argmin loop that the server repeats over batteries, resources, mobs and players. */
module Nearest {
  import opened Geometry
  import opened Mobs

  datatype Option<T> = None | Some(value: T)

  /** `best` is a closest point strictly within the radius, or there is none. */
  ghost predicate IsNearest(points: map<Id, Vec>, pos: Vec, radius2: real, best: Option<Id>) {
    match best
    case None => forall k :: k in points ==> DistanceSquared(points[k], pos) >= radius2
    case Some(b) =>
      && b in points && DistanceSquared(points[b], pos) < radius2
      && forall k :: k in points ==> DistanceSquared(points[b], pos) <= DistanceSquared(points[k], pos)
  }

  /** Keys come in any order, as in a Go map range; ties may go either way. */
  method FindNearest(points: map<Id, Vec>, pos: Vec, radius2: real) returns (best: Option<Id>, bestD2: real)
    ensures IsNearest(points, pos, radius2, best)
    ensures bestD2 == if best.Some? then DistanceSquared(points[best.value], pos) else radius2
  {
    best, bestD2 := None, radius2;
    var left := points.Keys;
    while left != {}
      invariant left <= points.Keys
      invariant best.Some? ==> best.value in points && bestD2 == DistanceSquared(points[best.value], pos) < radius2
      invariant best.None? ==> bestD2 == radius2
      invariant forall k :: k in points && k !in left ==> bestD2 <= DistanceSquared(points[k], pos)
    {
      var k :| k in left;
      left := left - {k};
      var d2 := DistanceSquared(points[k], pos);
      if d2 < bestD2 {
        best, bestD2 := Some(k), d2;
      }
    }
  }

  /** Whatever the iteration order, every answer is at the same distance. */
  lemma {:induction false} NearestDistanceUnique(
    points: map<Id, Vec>, pos: Vec, radius2: real, a: Option<Id>, b: Option<Id>)
    requires IsNearest(points, pos, radius2, a) && IsNearest(points, pos, radius2, b)
    ensures a.Some? == b.Some?
    ensures a.Some? ==> DistanceSquared(points[a.value], pos) == DistanceSquared(points[b.value], pos)
  {
    if a.Some? { assert DistanceSquared(points[a.value], pos) < radius2; }
    if b.Some? { assert DistanceSquared(points[b.value], pos) < radius2; }
  }

  lemma {:induction false} NearestOfOne(points: map<Id, Vec>, k: Id, pos: Vec, radius2: real)
    requires points.Keys == {k} && points[k] == pos && radius2 > 0.0
    ensures IsNearest(points, pos, radius2, Some(k))
  {
    hide DistanceSquared;
    ZeroDistance(pos);
  }
}
