/**
 * The player's per-frame driver (PlayerMovement.cs): C/E key dispatch onto
 * the student state machine, the skip-one-frame flag, the "seated blocks
 * movement" gate, the walk/idle update, speed selection and the grounded
 * flag that gates jumping.  Velocities, rotation and forces are engine
 * calls; the model keeps only the outcome of a frame as a `Motion`.
 */
module Movement {
  import opened Students

  /** The keys and axes one frame of `Update` reads. */
  datatype PlayerInput = PlayerInput(
    cDown: bool,
    eDown: bool,
    /** Magnitude of the normalised camera-relative move direction. */
    moveMagnitude: real,
    shiftHeld: bool,
    spaceDown: bool)

  /** What a frame asks of the rigidbody: nothing, or a velocity and maybe a jump impulse. */
  datatype Motion = Halted | Moving(speed: real, jump: bool)

  /** A collision callback: enter or exit, and whether the other object is tagged Ground. */
  datatype Contact = Contact(entering: bool, isGround: bool)

  /** The C key, then the E key, once the skip-one-frame flag has been dealt with. */
  function SitAndEat(s: Student, eatingDuration: real, cDown: bool, eDown: bool): Student {
    var afterC :=
      if !cDown then s
      else if IsSeated(s.state) then s.StandUp()
      else s.SitDown();
    if eDown && afterC.state == Seated && afterC.hasFood then afterC.StartEating(eatingDuration)
    else afterC
  }

  /** The state-update tail of `HandleMovement`. */
  function Locomotion(s: Student, moveMagnitude: real): Student {
    if moveMagnitude > 0.1 then s.SetWalkingOnSight() else s.SetIdle()
  }

  /** The grounded flag after a history of collision callbacks. */
  function Grounded(initial: bool, cs: seq<Contact>): bool
    decreases |cs|
  {
    if cs == [] then initial
    else
      var before := Grounded(initial, cs[..|cs| - 1]);
      var last := cs[|cs| - 1];
      if last.isGround then last.entering else before
  }

  lemma CKeyTogglesSeat(s: Student, d: real)
    ensures IsSeated(s.state) ==> SitAndEat(s, d, true, false) == s.(state := Idle)
    ensures !IsSeated(s.state) ==> SitAndEat(s, d, true, false) == s.SitDown()
    ensures SitAndEat(s, d, false, false) == s
  {
  }

  lemma EKeyEatsOnlySeatedWithFood(s: Student, d: real)
    ensures s.state == Seated && s.hasFood ==>
      SitAndEat(s, d, false, true) == s.(state := SeatedAndEating, eatingTimer := d)
    ensures !(s.state == Seated && s.hasFood) ==> SitAndEat(s, d, false, true) == s
  {
  }

  /**
   * C on a standing student followed by E in the same frame: SitDown, then
   * eating starts straight away when food is in hand.
   */
  lemma SitAndEatInOneFrame(s: Student, d: real)
    requires !IsSeated(s.state) && s.hasFood
    ensures SitAndEat(s, d, true, true) == s.(state := SeatedAndEating, eatingTimer := d)
  {
  }

  lemma SitAndEatKeepsConsistent(s: Student, d: real, c: bool, e: bool)
    requires s.Consistent()
    ensures SitAndEat(s, d, c, e).Consistent()
    ensures SitAndEat(s, d, c, e).hasFood == s.hasFood
  {
  }

  /**
   * The movement gate is needed only for the rigidbody: the student's own
   * guards already make the walk/idle update a no-op while seated.
   */
  lemma LocomotionRespectsSeat(s: Student, m: real)
    ensures IsSeated(s.state) ==> Locomotion(s, m) == s
    ensures !IsSeated(s.state) ==>
      Locomotion(s, m).state == (if m > 0.1 then WalkingOnSight else Idle)
    ensures Locomotion(s, m).hasFood == s.hasFood && Locomotion(s, m).eatingTimer == s.eatingTimer
  {
    LocomotionIgnoredWhileSeated(s);
  }

  /** The grounded flag is the direction of the latest Ground-tagged callback. */
  lemma {:induction false} GroundedIsLatestGroundContact(initial: bool, cs: seq<Contact>)
    ensures (forall i :: 0 <= i < |cs| ==> !cs[i].isGround) ==> Grounded(initial, cs) == initial
    ensures forall i ::
      (0 <= i < |cs| && cs[i].isGround && (forall j :: i < j < |cs| ==> !cs[j].isGround)) ==>
        Grounded(initial, cs) == cs[i].entering
    decreases |cs|
  {
    if cs != [] {
      var front := cs[..|cs| - 1];
      GroundedIsLatestGroundContact(initial, front);
      forall i | 0 <= i < |front| && front[i].isGround
        ensures front[i] == cs[i]
      {
      }
    }
  }

  class PlayerMovement {
    const walkSpeed: real
    const runSpeed: real
    const jumpForce: real
    var isGrounded: bool
    const studentController: StudentController?
    /** Every collision callback so far, oldest first. */
    ghost var contacts: seq<Contact>

    ghost predicate Valid()
      reads this, studentController
    {
      && isGrounded == Grounded(false, contacts)
      && (studentController != null ==> studentController.Valid())
    }

    /** `Start`: the StudentController found on the player, if any. */
    constructor (walkSpeed: real, runSpeed: real, jumpForce: real, studentController: StudentController?)
      requires studentController != null ==> studentController.Valid()
      ensures Valid() && !isGrounded && contacts == []
      ensures this.walkSpeed == walkSpeed && this.runSpeed == runSpeed && this.jumpForce == jumpForce
      ensures this.studentController == studentController
    {
      this.walkSpeed := walkSpeed;
      this.runSpeed := runSpeed;
      this.jumpForce := jumpForce;
      this.studentController := studentController;
      isGrounded := false;
      contacts := [];
    }

    function Speed(shiftHeld: bool): real {
      if shiftHeld then runSpeed else walkSpeed
    }

    method HandleSitAndEatInput(cDown: bool, eDown: bool)
      requires Valid()
      modifies studentController
      ensures Valid()
      ensures studentController != null ==>
        && !studentController.ignoreNextInput
        && studentController.enabled == old(studentController.enabled)
        && studentController.Model() ==
             if old(studentController.ignoreNextInput) then old(studentController.Model())
             else SitAndEat(old(studentController.Model()), studentController.eatingDuration, cDown, eDown)
    {
      if studentController == null {
        return;
      }
      if studentController.ignoreNextInput {
        studentController.ignoreNextInput := false;
        return;
      }
      if cDown {
        if studentController.state == Seated || studentController.state == SeatedAndEating {
          studentController.StandUp();
        } else {
          studentController.SitDown();
        }
      }
      if eDown {
        if studentController.state == Seated && studentController.hasFood {
          studentController.StartEating();
        }
      }
    }

    method HandleMovement(input: PlayerInput) returns (motion: Motion)
      requires Valid()
      modifies studentController
      ensures Valid()
      ensures motion == Moving(Speed(input.shiftHeld), input.spaceDown && isGrounded)
      ensures studentController != null ==>
        && studentController.Model() == Locomotion(old(studentController.Model()), input.moveMagnitude)
        && studentController.ignoreNextInput == old(studentController.ignoreNextInput)
        && studentController.enabled == old(studentController.enabled)
    {
      var speed := if input.shiftHeld then runSpeed else walkSpeed;
      motion := Moving(speed, input.spaceDown && isGrounded);
      if studentController != null {
        if input.moveMagnitude > 0.1 {
          studentController.SetWalkingOnSight();
        } else {
          studentController.SetIdle();
        }
      }
    }

    /**
     * One frame: key handling, then, unless the student is seated, the
     * movement step.
     */
    method Update(input: PlayerInput) returns (motion: Motion)
      requires Valid()
      modifies studentController
      ensures Valid()
      ensures studentController == null ==>
        motion == Moving(Speed(input.shiftHeld), input.spaceDown && isGrounded)
      ensures studentController != null ==>
        var handled :=
          if old(studentController.ignoreNextInput) then old(studentController.Model())
          else SitAndEat(old(studentController.Model()), studentController.eatingDuration,
                         input.cDown, input.eDown);
        && !studentController.ignoreNextInput
        && studentController.enabled == old(studentController.enabled)
        && (IsSeated(handled.state) ==> motion == Halted && studentController.Model() == handled)
        && (!IsSeated(handled.state) ==>
              && motion == Moving(Speed(input.shiftHeld), input.spaceDown && isGrounded)
              && studentController.Model() == Locomotion(handled, input.moveMagnitude))
    {
      HandleSitAndEatInput(input.cDown, input.eDown);
      if studentController != null &&
         (studentController.state == Seated || studentController.state == SeatedAndEating) {
        return Halted;
      }
      motion := HandleMovement(input);
    }

    method OnCollisionEnter(isGround: bool)
      requires Valid()
      modifies this
      ensures Valid() && contacts == old(contacts) + [Contact(true, isGround)]
      ensures isGrounded == (isGround || old(isGrounded))
    {
      if isGround {
        isGrounded := true;
      }
      contacts := contacts + [Contact(true, isGround)];
    }

    method OnCollisionExit(isGround: bool)
      requires Valid()
      modifies this
      ensures Valid() && contacts == old(contacts) + [Contact(false, isGround)]
      ensures isGrounded == (!isGround && old(isGrounded))
    {
      if isGround {
        isGrounded := false;
      }
      contacts := contacts + [Contact(false, isGround)];
    }
  }
}
