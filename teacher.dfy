/**
 * The teacher's perception and catch state machine (TeacherAIComplete.cs).
 * Each frame the teacher checks whether the player is in its view cone and
 * in unobstructed sight; the catch timer runs while the player stays in
 * sight and resets otherwise; after five seconds of unbroken sight the
 * player is caught and the teacher stops for good.  Not seeing the player,
 * the teacher roams towards random points of the room.
 *
 * Engine queries are frame inputs: the teacher's position, the angle to the
 * player, the two line casts and the random draws.  Turning and stepping
 * (`MoveTowards`) are engine motion; the model returns where the teacher is
 * told to go and how fast.
 */
module Teaching {
  import opened Scene

  /** Seconds of unbroken sight that catch the player. */
  const CatchTime := 5.0
  /** Random points tried before the teacher falls back to standing still. */
  const RoamAttempts := 10
  /** Distance to the roam target under which a new one is chosen. */
  const ArrivalRadius := 0.5

  const DetectedText := "\U{26A0}\U{FE0F} Player Detected!"
  const CaughtText := "\U{274C} Caught!"

  // ---------------------------------------------------------------- perception

  /** One `DetectPlayer` call: whether the player was seen, and the frame's length. */
  datatype Sighting = Sighting(seen: bool, dt: real)

  /** The part of the teacher's state `DetectPlayer` updates. */
  datatype Alert = Alert(caughtTimer: real, playerDetected: bool, caught: bool) {

    function DetectPlayer(s: Sighting): Alert {
      if s.seen then
        var timer := caughtTimer + s.dt;
        Alert(timer, true, caught || timer >= CatchTime)
      else
        Alert(0.0, false, caught)
    }

    /** One `Update` with a player assigned: nothing at all once caught. */
    function Step(s: Sighting): Alert {
      if caught then this else DetectPlayer(s)
    }
  }

  const Calm := Alert(0.0, false, false)

  /**
   * The detection predicate: inside half the view angle, within range and
   * with no obstruction on the line to the player.
   */
  predicate Sees(angleToPlayer: real, detectionAngle: real, teacher: Vec3, player: Vec3,
                 detectionRange: real, lineClear: bool)
  {
    angleToPlayer < detectionAngle / 2.0 && WithinRange(teacher, player, detectionRange) && lineClear
  }

  /** The alert state after a sequence of frames, oldest first. */
  function Watch(a: Alert, ss: seq<Sighting>): Alert
    decreases |ss|
  {
    if ss == [] then a else Watch(a, ss[..|ss| - 1]).Step(ss[|ss| - 1])
  }

  /** How long the player has been in sight without a break at the end of `ss`. */
  function TrailingSight(ss: seq<Sighting>): real
    decreases |ss|
  {
    if ss == [] then 0.0
    else if ss[|ss| - 1].seen then TrailingSight(ss[..|ss| - 1]) + ss[|ss| - 1].dt
    else 0.0
  }

  /** Some frame so far ended an unbroken run of sight lasting at least `CatchTime`. */
  ghost predicate CaughtBy(ss: seq<Sighting>) {
    exists k :: 1 <= k <= |ss| && TrailingSight(ss[..k]) >= CatchTime
  }

  lemma DetectedFrame(a: Alert, dt: real)
    requires !a.caught
    ensures a.Step(Sighting(true, dt)).playerDetected
    ensures a.Step(Sighting(true, dt)).caughtTimer == a.caughtTimer + dt
    ensures a.Step(Sighting(true, dt)).caught <==> a.caughtTimer + dt >= CatchTime
  {
  }

  lemma UndetectedFrame(a: Alert, dt: real)
    requires !a.caught
    ensures a.Step(Sighting(false, dt)) == Calm
  {
  }

  lemma {:induction false} CaughtIsFinal(a: Alert, ss: seq<Sighting>)
    requires a.caught
    ensures Watch(a, ss) == a
    decreases |ss|
  {
    if ss != [] {
      CaughtIsFinal(a, ss[..|ss| - 1]);
    }
  }

  /**
   * From a calm start: until the catch, the timer is exactly the time of the
   * current unbroken run of sight, and the player is caught exactly when
   * some run has reached `CatchTime`.
   */
  lemma {:induction false} CatchNeedsUnbrokenSight(ss: seq<Sighting>)
    ensures !Watch(Calm, ss).caught ==>
      && Watch(Calm, ss).caughtTimer == TrailingSight(ss)
      && Watch(Calm, ss).playerDetected == (ss != [] && ss[|ss| - 1].seen)
    ensures Watch(Calm, ss).caught <==> CaughtBy(ss)
    decreases |ss|
  {
    if ss == [] {
      return;
    }
    var n := |ss|;
    var front := ss[..n - 1];
    CatchNeedsUnbrokenSight(front);
    assert ss[..n] == ss;
    forall k | 1 <= k <= n - 1
      ensures ss[..k] == front[..k]
    {
    }
    if Watch(Calm, front).caught {
      var k :| 1 <= k <= |front| && TrailingSight(front[..k]) >= CatchTime;
      assert TrailingSight(ss[..k]) >= CatchTime;
    } else if Watch(Calm, ss).caught {
      assert TrailingSight(ss[..n]) >= CatchTime;
    }
  }

  // ---------------------------------------------------------------- roaming

  /**
   * One attempt of `SetNewRoamTarget`: the engine's two `Random.Range`
   * draws as fractions `u`, `v` of the room's x and z extents, and whether
   * the line cast to the resulting point found no obstacle.
   */
  datatype Draw = Draw(u: real, v: real, clear: bool)

  predicate UnitDraws(ds: seq<Draw>) {
    forall i :: 0 <= i < |ds| ==> 0.0 <= ds[i].u <= 1.0 && 0.0 <= ds[i].v <= 1.0
  }

  /** The random point of one attempt, at the teacher's own height. */
  function Candidate(b: Bounds, here: Vec3, d: Draw): (p: Vec3)
    requires b.Valid() && 0.0 <= d.u <= 1.0 && 0.0 <= d.v <= 1.0
    ensures InsideXZ(b, p) && p.y == here.y
  {
    Vec3(Lerp(b.min.x, b.max.x, d.u), here.y, Lerp(b.min.z, b.max.z, d.v))
  }

  /** Attempts `i` to `RoamAttempts - 1`: the first clear candidate, else the teacher's position. */
  function FirstClear(b: Bounds, here: Vec3, ds: seq<Draw>, i: nat): (p: Vec3)
    requires b.Valid() && UnitDraws(ds) && |ds| >= RoamAttempts && i <= RoamAttempts
    ensures p == here || (InsideXZ(b, p) && p.y == here.y)
    decreases RoamAttempts - i
  {
    if i == RoamAttempts then here
    else if ds[i].clear then Candidate(b, here, ds[i])
    else FirstClear(b, here, ds, i + 1)
  }

  /** The target `SetNewRoamTarget` picks. */
  function RoamTarget(room: Option<Bounds>, here: Vec3, ds: seq<Draw>): Vec3
    requires room.Some? ==> room.value.Valid()
    requires UnitDraws(ds) && |ds| >= RoamAttempts
  {
    match room
    case None => here
    case Some(b) => FirstClear(b, here, ds, 0)
  }

  /**
   * The roam target is the candidate of the first of the ten attempts with
   * a clear line; with no such attempt, or with no room, it is the
   * teacher's own position.
   */
  lemma {:induction false} RoamTargetIsFirstClearAttempt(b: Bounds, here: Vec3, ds: seq<Draw>, i: nat)
    requires b.Valid() && UnitDraws(ds) && |ds| >= RoamAttempts && i <= RoamAttempts
    ensures (forall j :: i <= j < RoamAttempts ==> !ds[j].clear) ==> FirstClear(b, here, ds, i) == here
    ensures forall j :: i <= j < RoamAttempts && ds[j].clear && (forall k :: i <= k < j ==> !ds[k].clear) ==>
      FirstClear(b, here, ds, i) == Candidate(b, here, ds[j])
    decreases RoamAttempts - i
  {
    if i < RoamAttempts {
      RoamTargetIsFirstClearAttempt(b, here, ds, i + 1);
    }
  }

  // ---------------------------------------------------------------- the component

  /** What one frame asks of `MoveTowards`. */
  datatype Move = Stay | MoveTowards(destination: Vec3, speed: real)

  /** The engine's answers for one frame. */
  datatype TeacherFrame = TeacherFrame(
    position: Vec3,
    angleToPlayer: real,
    lineToPlayerClear: bool,
    obstacleAhead: bool,
    draws: seq<Draw>,
    dt: real)

  class TeacherAIComplete {
    const player: Transform?
    const detectionRange: real
    const detectionAngle: real
    const roamSpeed: real
    const chaseSpeed: real
    const roomBounds: Option<Bounds>
    const hasWarningText: bool
    var warningText: string
    var targetPosition: Vec3
    var caughtTimer: real
    var playerDetected: bool
    var caught: bool
    /** Every `DetectPlayer` call so far, oldest first. */
    ghost var sightings: seq<Sighting>

    function AlertState(): Alert
      reads this
    {
      Alert(caughtTimer, playerDetected, caught)
    }

    ghost predicate Valid()
      reads this
    {
      && AlertState() == Watch(Calm, sightings)
      && (roomBounds.Some? ==> roomBounds.value.Valid())
    }

    constructor (player: Transform?, detectionRange: real, detectionAngle: real, roamSpeed: real,
                 chaseSpeed: real, roomBounds: Option<Bounds>, hasWarningText: bool, warningText: string)
      requires roomBounds.Some? ==> roomBounds.value.Valid()
      ensures Valid() && AlertState() == Calm && sightings == []
      ensures this.player == player && this.detectionRange == detectionRange
      ensures this.detectionAngle == detectionAngle && this.roamSpeed == roamSpeed
      ensures this.chaseSpeed == chaseSpeed && this.roomBounds == roomBounds
      ensures this.hasWarningText == hasWarningText && this.warningText == warningText
    {
      this.player := player;
      this.detectionRange := detectionRange;
      this.detectionAngle := detectionAngle;
      this.roamSpeed := roamSpeed;
      this.chaseSpeed := chaseSpeed;
      this.roomBounds := roomBounds;
      this.hasWarningText := hasWarningText;
      this.warningText := warningText;
      caughtTimer := 0.0;
      playerDetected := false;
      caught := false;
      sightings := [];
    }

    method Start(here: Vec3, draws: seq<Draw>)
      requires Valid() && UnitDraws(draws) && |draws| >= RoamAttempts
      modifies this`targetPosition, this`warningText
      ensures Valid() && targetPosition == RoamTarget(roomBounds, here, draws)
      ensures warningText == if hasWarningText then "" else old(warningText)
    {
      SetNewRoamTarget(here, draws);
      if hasWarningText {
        warningText := "";
      }
    }

    method Update(frame: TeacherFrame) returns (move: Move)
      requires Valid() && UnitDraws(frame.draws) && |frame.draws| >= RoamAttempts
      modifies this
      ensures Valid()
      ensures player == null || old(caught) ==> move == Stay && unchanged(this)
      ensures player != null && !old(caught) ==>
        var seen := Sees(frame.angleToPlayer, detectionAngle, frame.position, player.position,
                         detectionRange, frame.lineToPlayerClear);
        && sightings == old(sightings) + [Sighting(seen, frame.dt)]
        && AlertState() == old(AlertState()).DetectPlayer(Sighting(seen, frame.dt))
        && warningText == (if !hasWarningText then old(warningText)
                           else if !seen then ""
                           else if caught then CaughtText
                           else DetectedText)
        && (seen ==> move == MoveTowards(player.position, chaseSpeed) && targetPosition == old(targetPosition))
        && (!seen ==>
              && targetPosition ==
                   (if CloserThan(frame.position, old(targetPosition), ArrivalRadius) || frame.obstacleAhead
                    then RoamTarget(roomBounds, frame.position, frame.draws)
                    else old(targetPosition))
              && move == MoveTowards(targetPosition, roamSpeed))
    {
      if player == null || caught {
        return Stay;
      }
      DetectPlayer(frame);
      if playerDetected {
        move := MoveTowards(player.position, chaseSpeed);
      } else {
        move := Roam(frame);
      }
    }

    method DetectPlayer(frame: TeacherFrame)
      requires Valid() && player != null && !caught
      modifies this`caughtTimer, this`playerDetected, this`caught, this`warningText, this`sightings
      ensures Valid()
      ensures
        var seen := Sees(frame.angleToPlayer, detectionAngle, frame.position, player.position,
                         detectionRange, frame.lineToPlayerClear);
        && sightings == old(sightings) + [Sighting(seen, frame.dt)]
        && AlertState() == old(AlertState()).DetectPlayer(Sighting(seen, frame.dt))
        && warningText == (if !hasWarningText then old(warningText)
                           else if !seen then ""
                           else if caught then CaughtText
                           else DetectedText)
    {
      var seen := Sees(frame.angleToPlayer, detectionAngle, frame.position, player.position,
                       detectionRange, frame.lineToPlayerClear);
      sightings := sightings + [Sighting(seen, frame.dt)];
      if frame.angleToPlayer < detectionAngle / 2.0 && WithinRange(frame.position, player.position, detectionRange) {
        if frame.lineToPlayerClear {
          playerDetected := true;
          if hasWarningText {
            warningText := DetectedText;
          }
          caughtTimer := caughtTimer + frame.dt;
          if caughtTimer >= CatchTime {
            caught := true;
            if hasWarningText {
              warningText := CaughtText;
            }
          }
          return;
        }
      }
      playerDetected := false;
      caughtTimer := 0.0;
      if hasWarningText {
        warningText := "";
      }
    }

    /** A new target on arrival or when blocked, then head for the target at roaming speed. */
    method Roam(frame: TeacherFrame) returns (move: Move)
      requires Valid() && UnitDraws(frame.draws) && |frame.draws| >= RoamAttempts
      modifies this`targetPosition
      ensures Valid()
      ensures targetPosition ==
        if CloserThan(frame.position, old(targetPosition), ArrivalRadius) || frame.obstacleAhead
        then RoamTarget(roomBounds, frame.position, frame.draws)
        else old(targetPosition)
      ensures move == MoveTowards(targetPosition, roamSpeed)
    {
      if CloserThan(frame.position, targetPosition, ArrivalRadius) || frame.obstacleAhead {
        SetNewRoamTarget(frame.position, frame.draws);
      }
      move := MoveTowards(targetPosition, roamSpeed);
    }

    /** Up to ten random points of the room, the first with a clear line wins; else stay put. */
    method SetNewRoamTarget(here: Vec3, draws: seq<Draw>)
      requires Valid() && UnitDraws(draws) && |draws| >= RoamAttempts
      modifies this`targetPosition
      ensures Valid() && targetPosition == RoamTarget(roomBounds, here, draws)
    {
      if roomBounds.None? {
        targetPosition := here;
        return;
      }
      var bounds := roomBounds.value;
      for i := 0 to RoamAttempts
        invariant FirstClear(bounds, here, draws, i) == FirstClear(bounds, here, draws, 0)
      {
        var randomPoint := Vec3(Lerp(bounds.min.x, bounds.max.x, draws[i].u), here.y,
                                Lerp(bounds.min.z, bounds.max.z, draws[i].v));
        if draws[i].clear {
          targetPosition := randomPoint;
          return;
        }
      }
      targetPosition := here;
    }
  }
}
