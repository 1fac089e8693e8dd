/**
 * The teacher's waypoint patrol (TeacherPatrol.cs): step towards the
 * current waypoint and, once within `stopDistance` of it, move on to the
 * next one, wrapping round to the first after the last.
 */
module Patrolling {
  import opened Scene

  /** The waypoint after `i` in a cycle of `n`. */
  function Next(i: nat, n: nat): nat
    requires n > 0
  {
    (i + 1) % n
  }

  /** The waypoint reached from `i` after `k` arrivals. */
  function Advance(i: nat, n: nat, k: nat): nat
    requires n > 0
    decreases k
  {
    if k == 0 then i else Next(Advance(i, n, k - 1), n)
  }

  /** After the last waypoint comes the first. */
  lemma NextWraps(i: nat, n: nat)
    requires i < n
    ensures Next(i, n) == if i + 1 < n then i + 1 else 0
  {
  }

  /** Within two laps, `k` arrivals from `i` land on `i + k`, wrapped once if need be. */
  lemma {:induction false} AdvanceWithinTwoLaps(i: nat, n: nat, k: nat)
    requires i < n && i + k < 2 * n
    ensures Advance(i, n, k) == if i + k < n then i + k else i + k - n
    decreases k
  {
    if k > 0 {
      AdvanceWithinTwoLaps(i, n, k - 1);
      NextWraps(Advance(i, n, k - 1), n);
    }
  }

  /**
   * The patrol is a cycle: `n` arrivals lead back to the starting waypoint,
   * and every waypoint `j` is reached after fewer than `n` arrivals.
   */
  lemma PatrolVisitsEveryWaypoint(i: nat, n: nat, j: nat)
    requires i < n && j < n
    ensures Advance(i, n, n) == i
    ensures var k := if i <= j then j - i else j + n - i; k < n && Advance(i, n, k) == j
  {
    AdvanceWithinTwoLaps(i, n, n);
    AdvanceWithinTwoLaps(i, n, if i <= j then j - i else j + n - i);
  }

  /** The engine's `.normalized` returns zero for vectors no longer than 1e-5: this is that length squared. */
  const NormalisationEpsilonSq := 0.0000000001

  /**
   * `inverseDistance` is the factor `.normalized` applies to the vector from
   * `p` to `t`: one over its length, or 0 when that length is at most 1e-5.
   */
  predicate Normalises(inverseDistance: real, p: Vec3, t: Vec3) {
    if SqrDistance(t, p) > NormalisationEpsilonSq then
      inverseDistance * inverseDistance * SqrDistance(t, p) == 1.0
    else
      inverseDistance == 0.0
  }

  /** A step along the normalised direction from `p` to `t`, scaled by `k`, is `k` long. */
  lemma StepLength(p: Vec3, t: Vec3, inverseDistance: real, k: real)
    requires inverseDistance * inverseDistance * SqrDistance(t, p) == 1.0
    ensures SqrDistance(Add(p, Scale(Scale(Sub(t, p), inverseDistance), k)), p) == k * k
  {
    var d := Sub(t, p);
    var c := inverseDistance * k;
    var q := Add(p, Scale(Scale(d, inverseDistance), k));
    assert d.x * inverseDistance * k == d.x * c && d.y * inverseDistance * k == d.y * c
      && d.z * inverseDistance * k == d.z * c;
    var v := Sub(q, p);
    assert v == Scale(d, c);
    var len2 := SqrDistance(t, p);
    assert len2 == d.x * d.x + d.y * d.y + d.z * d.z;
    assert SqrDistance(q, p) == v.x * v.x + v.y * v.y + v.z * v.z;
    ScaledSquares(d, c, v, len2);
    assert SqrDistance(q, p) == (c * c) * len2;
    assert c * c == (k * k) * (inverseDistance * inverseDistance);
    assert (c * c) * len2 == (k * k) * (inverseDistance * inverseDistance * len2);
  }

  /** Scaling a vector by `c` scales its squared length by `c * c`. */
  lemma ScaledSquares(d: Vec3, c: real, v: Vec3, len2: real)
    requires v == Scale(d, c) && len2 == d.x * d.x + d.y * d.y + d.z * d.z
    ensures v.x * v.x + v.y * v.y + v.z * v.z == (c * c) * len2
  {
    assert v.x * v.x == (c * c) * (d.x * d.x);
    assert v.y * v.y == (c * c) * (d.y * d.y);
    assert v.z * v.z == (c * c) * (d.z * d.z);
  }

  class TeacherPatrol {
    const waypoints: array<Transform>
    const moveSpeed: real
    const stopDistance: real
    var currentIndex: nat
    /** The teacher's own position. */
    var position: Vec3

    ghost predicate Valid()
      reads this
    {
      waypoints.Length > 0 ==> currentIndex < waypoints.Length
    }

    constructor (waypoints: array<Transform>, moveSpeed: real, stopDistance: real, position: Vec3)
      ensures Valid() && currentIndex == 0 && this.position == position
      ensures this.waypoints == waypoints && this.moveSpeed == moveSpeed && this.stopDistance == stopDistance
    {
      this.waypoints := waypoints;
      this.moveSpeed := moveSpeed;
      this.stopDistance := stopDistance;
      currentIndex := 0;
      this.position := position;
    }

    /**
     * One frame of `dt` seconds.  `inverseDistance` is the engine's
     * normalisation factor for the direction to the current waypoint:
     * 1 / |target - position|, or 0 when that distance is at most 1e-5;
     * the step is then exactly `moveSpeed * dt` long, or nothing.
     */
    method Update(dt: real, inverseDistance: real)
      requires Valid() && dt > 0.0 && inverseDistance >= 0.0
      requires waypoints.Length > 0 ==>
        Normalises(inverseDistance, position, waypoints[currentIndex].position)
      modifies this`currentIndex, this`position
      ensures Valid()
      ensures waypoints.Length > 0 ==>
        var gap := SqrDistance(waypoints[old(currentIndex)].position, old(position));
        && (gap > NormalisationEpsilonSq ==>
              SqrDistance(position, old(position)) == (moveSpeed * dt) * (moveSpeed * dt))
        && (gap <= NormalisationEpsilonSq ==> position == old(position))
      ensures waypoints.Length == 0 ==> currentIndex == old(currentIndex) && position == old(position)
      ensures waypoints.Length > 0 ==>
        var target := waypoints[old(currentIndex)].position;
        var direction := Scale(Sub(target, old(position)), inverseDistance);
        && position == Add(old(position), Scale(direction, moveSpeed * dt))
        && currentIndex ==
             if CloserThan(position, target, stopDistance) then Next(old(currentIndex), waypoints.Length)
             else old(currentIndex)
    {
      if waypoints.Length == 0 {
        return;
      }
      var target := waypoints[currentIndex];
      var direction := Scale(Sub(target.position, position), inverseDistance);
      var move := Scale(direction, moveSpeed * dt);
      if SqrDistance(target.position, position) > NormalisationEpsilonSq {
        StepLength(position, target.position, inverseDistance, moveSpeed * dt);
      }
      position := Add(position, move);
      if CloserThan(position, target.position, stopDistance) {
        currentIndex := (currentIndex + 1) % waypoints.Length;
      }
    }
  }
}
