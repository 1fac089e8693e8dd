/**
 * The chair-sitting part of the Aj character (BeginnerCharacterController in
 * AjController.cs): the C toggle, standing up on movement or on leaving the
 * chair's trigger, moving the chair next to the character and back, the
 * animator flags that depend on sitting, and the V camera swap.  Rigidbody
 * motion and rotation are engine calls and are not modelled.
 */
module Chairs {
  import opened Scene

  const ChairPrefix := "Chair "
  const ThirdPovName := "Third Pov Camera"
  const FirstPovName := "First Pov Camera"
  /** How far beside the chair's recorded x the character is placed. */
  const SideOffset := 10.0

  /** The keys and axes one frame of `Update` reads. */
  datatype CharacterInput = CharacterInput(
    vertical: real,
    horizontal: real,
    cDown: bool,
    eHeld: bool,
    qHeld: bool,
    vDown: bool)

  predicate IsMoving(input: CharacterInput) {
    input.vertical != 0.0 || input.horizontal != 0.0
  }

  /** Where the character is placed when it sits: beside the chair's recorded pose. */
  function SeatPosition(character: Vec3, facing: Quat, chairOrigin: Vec3): Vec3 {
    Vec3(chairOrigin.x + (if Forward(facing).x > 0.0 then -SideOffset else SideOffset),
         character.y,
         chairOrigin.z)
  }

  class BeginnerCharacterController {
    const transform: Transform
    const thirdPovCamera: GameObject?
    const firstPovCamera: GameObject?
    var isSittingToggled: bool
    var nearestChair: GameObject?
    var isNearChair: bool
    var originalChairPosition: Vec3
    var originalChairRotation: Quat
    // The animator parameters the script sets.
    var animIsWalking: bool
    var animIsMunching: bool
    var animIsSitting: bool
    var animIsPicking: bool

    ghost predicate Valid()
      reads this
    {
      && CamerasNamed()
      && (nearestChair != null ==> isNearChair && nearestChair.transform != transform)
    }

    /** The cameras are the objects `Start` looks up by name, so they are two distinct objects. */
    ghost predicate CamerasNamed()
      reads this
    {
      && (thirdPovCamera != null ==> thirdPovCamera.name == ThirdPovName)
      && (firstPovCamera != null ==> firstPovCamera.name == FirstPovName)
    }

    predicate HasCameras()
      reads this
    {
      thirdPovCamera != null && firstPovCamera != null
    }

    /** Exactly one of the two cameras is active. */
    ghost predicate OneCameraActive()
      reads this, thirdPovCamera, firstPovCamera
    {
      HasCameras() ==> thirdPovCamera.activeSelf != firstPovCamera.activeSelf
    }

    /** The objects whose pose a chair operation writes. */
    ghost function ChairFrame(): set<object>
      reads this
    {
      if nearestChair == null then {} else {nearestChair.transform}
    }

    /** A new controller with the cameras that `GameObject.Find` returned. */
    constructor (transform: Transform, thirdPovCamera: GameObject?, firstPovCamera: GameObject?)
      requires thirdPovCamera != null ==> thirdPovCamera.name == ThirdPovName
      requires firstPovCamera != null ==> firstPovCamera.name == FirstPovName
      ensures Valid() && this.transform == transform
      ensures this.thirdPovCamera == thirdPovCamera && this.firstPovCamera == firstPovCamera
      ensures !isSittingToggled && !isNearChair && nearestChair == null
    {
      this.transform := transform;
      this.thirdPovCamera := thirdPovCamera;
      this.firstPovCamera := firstPovCamera;
      isSittingToggled := false;
      nearestChair := null;
      isNearChair := false;
    }

    /** `Start`: the third-person camera on, the first-person camera off. */
    method Start()
      requires Valid()
      modifies thirdPovCamera, firstPovCamera
      ensures OneCameraActive()
      ensures HasCameras() ==> thirdPovCamera.activeSelf && !firstPovCamera.activeSelf
      ensures !HasCameras() ==>
        (thirdPovCamera != null ==> thirdPovCamera.activeSelf == old(thirdPovCamera.activeSelf))
        && (firstPovCamera != null ==> firstPovCamera.activeSelf == old(firstPovCamera.activeSelf))
    {
      if thirdPovCamera != null && firstPovCamera != null {
        thirdPovCamera.activeSelf := true;
        firstPovCamera.activeSelf := false;
      }
    }

    method Update(input: CharacterInput)
      requires Valid() && OneCameraActive()
      modifies this, transform, ChairFrame(), thirdPovCamera, firstPovCamera
      ensures Valid() && OneCameraActive() && isNearChair == old(isNearChair)
      ensures originalChairPosition == old(originalChairPosition)
      ensures originalChairRotation == old(originalChairRotation)
      ensures isSittingToggled ==
        var stillSitting := old(isSittingToggled) && !IsMoving(input);
        if input.cDown then old(isNearChair) && !stillSitting else stillSitting
      ensures old(isSittingToggled) && (IsMoving(input) || input.cDown) ==> nearestChair == null
      ensures !(old(isSittingToggled) && (IsMoving(input) || input.cDown)) ==>
        nearestChair == old(nearestChair)
      ensures animIsWalking == IsMoving(input)
      ensures animIsMunching == (isSittingToggled && input.eHeld)
      ensures animIsSitting == (isSittingToggled && !input.eHeld)
      ensures animIsPicking == input.qHeld
      // Standing up, by moving or by C, puts the chair back where it was recorded.
      ensures old(isSittingToggled) && (IsMoving(input) || input.cDown) && old(nearestChair) != null ==>
        && old(nearestChair).transform.position == originalChairPosition
        && old(nearestChair).transform.rotation == originalChairRotation
      // Sitting down next to a chair places the character beside it and slides the chair under it.
      ensures input.cDown && old(isNearChair) && !old(isSittingToggled) && old(nearestChair) != null ==>
        && transform.position ==
             SeatPosition(old(transform.position), old(transform.rotation), originalChairPosition)
        && transform.rotation == old(transform.rotation)
        && nearestChair.transform.position ==
             Vec3(transform.position.x, old(nearestChair.transform.position.y), transform.position.z)
        && nearestChair.transform.rotation == old(nearestChair.transform.rotation)
      ensures !(input.cDown && old(isNearChair) && !old(isSittingToggled) && old(nearestChair) != null) ==>
        transform.position == old(transform.position) && transform.rotation == old(transform.rotation)
      ensures (old(nearestChair) != null && !(old(isSittingToggled) && (IsMoving(input) || input.cDown))
               && !(input.cDown && old(isNearChair) && !old(isSittingToggled))) ==>
        unchanged(old(nearestChair).transform)
      ensures input.vDown && HasCameras() ==>
        thirdPovCamera.activeSelf == !old(thirdPovCamera.activeSelf)
        && firstPovCamera.activeSelf == old(thirdPovCamera.activeSelf)
      ensures !(input.vDown && HasCameras()) ==>
        (thirdPovCamera != null ==> thirdPovCamera.activeSelf == old(thirdPovCamera.activeSelf))
        && (firstPovCamera != null ==> firstPovCamera.activeSelf == old(firstPovCamera.activeSelf))
    {
      HandleMovementAndRotation(input);
      HandleAnimationInput(input);
      HandleCameraSwitch(input.vDown);
    }

    /**
     * The sitting-related part of `HandleMovementAndRotation`: any movement
     * input stands the character up and puts the chair back.
     */
    method HandleMovementAndRotation(input: CharacterInput)
      requires Valid()
      modifies this`isSittingToggled, this`nearestChair, this`animIsWalking, ChairFrame()
      ensures Valid() && animIsWalking == IsMoving(input)
      ensures isNearChair == old(isNearChair)
      ensures IsMoving(input) ==> !isSittingToggled
      ensures IsMoving(input) && old(isSittingToggled) ==> nearestChair == null
      ensures IsMoving(input) && old(isSittingToggled) && old(nearestChair) != null ==>
        && old(nearestChair).transform.position == originalChairPosition
        && old(nearestChair).transform.rotation == originalChairRotation
      ensures !(IsMoving(input) && old(isSittingToggled)) ==>
        isSittingToggled == old(isSittingToggled) && nearestChair == old(nearestChair)
      ensures !(IsMoving(input) && old(isSittingToggled)) && old(nearestChair) != null ==>
        unchanged(old(nearestChair).transform)
    {
      var isMoving := input.vertical != 0.0 || input.horizontal != 0.0;
      if isMoving {
        if isSittingToggled {
          isSittingToggled := false;
          RestoreChairPosition();
        }
      }
      animIsWalking := isMoving;
    }

    method HandleAnimationInput(input: CharacterInput)
      requires Valid()
      modifies this`isSittingToggled, this`nearestChair, this`animIsMunching, this`animIsSitting,
        this`animIsPicking, transform, ChairFrame()
      ensures Valid() && isNearChair == old(isNearChair)
      ensures isSittingToggled ==
        if input.cDown then (old(isNearChair) && !old(isSittingToggled)) else old(isSittingToggled)
      ensures animIsMunching == (isSittingToggled && input.eHeld)
      ensures animIsSitting == (isSittingToggled && !animIsMunching)
      ensures animIsPicking == input.qHeld
      ensures input.cDown && old(isSittingToggled) ==> nearestChair == null
      ensures !(input.cDown && old(isSittingToggled)) ==> nearestChair == old(nearestChair)
      // C while sitting puts the chair back where it was recorded.
      ensures input.cDown && old(isSittingToggled) && old(nearestChair) != null ==>
        && old(nearestChair).transform.position == originalChairPosition
        && old(nearestChair).transform.rotation == originalChairRotation
      // C next to a chair places the character beside it and slides the chair under it.
      ensures input.cDown && old(isNearChair) && !old(isSittingToggled) && old(nearestChair) != null ==>
        && transform.position ==
             SeatPosition(old(transform.position), old(transform.rotation), originalChairPosition)
        && transform.rotation == old(transform.rotation)
        && nearestChair.transform.position ==
             Vec3(transform.position.x, old(nearestChair.transform.position.y), transform.position.z)
        && nearestChair.transform.rotation == old(nearestChair.transform.rotation)
      ensures !(input.cDown && old(isNearChair) && !old(isSittingToggled) && old(nearestChair) != null) ==>
        unchanged(transform)
      ensures !(input.cDown && (old(isNearChair) || old(isSittingToggled))) && old(nearestChair) != null ==>
        unchanged(old(nearestChair).transform)
    {
      if input.cDown {
        if isNearChair && !isSittingToggled {
          isSittingToggled := true;
          AlignChairAndCharacter();
        } else if isSittingToggled {
          isSittingToggled := false;
          RestoreChairPosition();
        }
      }
      var isMunchingHeld := isSittingToggled && input.eHeld;
      animIsMunching := isMunchingHeld;
      animIsSitting := isSittingToggled && !isMunchingHeld;
      animIsPicking := input.qHeld;
    }

    method HandleCameraSwitch(vDown: bool)
      requires OneCameraActive()
      modifies thirdPovCamera, firstPovCamera
      ensures OneCameraActive()
      ensures vDown && HasCameras() ==>
        thirdPovCamera.activeSelf == !old(thirdPovCamera.activeSelf)
        && firstPovCamera.activeSelf == old(thirdPovCamera.activeSelf)
      ensures !(vDown && HasCameras()) ==>
        (thirdPovCamera != null ==> thirdPovCamera.activeSelf == old(thirdPovCamera.activeSelf))
        && (firstPovCamera != null ==> firstPovCamera.activeSelf == old(firstPovCamera.activeSelf))
    {
      if vDown {
        if thirdPovCamera != null && firstPovCamera != null {
          var isThirdPersonActive := thirdPovCamera.activeSelf;
          thirdPovCamera.activeSelf := !isThirdPersonActive;
          firstPovCamera.activeSelf := isThirdPersonActive;
        }
      }
    }

    /** A collider entering the trigger; the engine never reports the character itself. */
    method OnTriggerEnter(other: GameObject)
      requires Valid() && other.transform != transform
      modifies this`isNearChair, this`nearestChair, this`originalChairPosition, this`originalChairRotation
      ensures Valid()
      ensures ChairPrefix <= other.name ==>
        && isNearChair && nearestChair == other
        && originalChairPosition == other.transform.position
        && originalChairRotation == other.transform.rotation
      ensures !(ChairPrefix <= other.name) ==>
        && isNearChair == old(isNearChair) && nearestChair == old(nearestChair)
        && originalChairPosition == old(originalChairPosition)
        && originalChairRotation == old(originalChairRotation)
    {
      if ChairPrefix <= other.name {
        isNearChair := true;
        nearestChair := other;
        originalChairPosition := nearestChair.transform.position;
        originalChairRotation := nearestChair.transform.rotation;
      }
    }

    method OnTriggerExit(other: GameObject)
      requires Valid()
      modifies this`isNearChair, this`isSittingToggled, this`nearestChair, other.transform
      ensures Valid()
      ensures other != old(nearestChair) ==>
        && isNearChair == old(isNearChair) && isSittingToggled == old(isSittingToggled)
        && nearestChair == old(nearestChair) && unchanged(other.transform)
      ensures other == old(nearestChair) ==>
        && !isNearChair && !isSittingToggled && nearestChair == null
      ensures other == old(nearestChair) && old(isSittingToggled) ==>
        other.transform.position == originalChairPosition
        && other.transform.rotation == originalChairRotation
      ensures other == old(nearestChair) && !old(isSittingToggled) ==> unchanged(other.transform)
    {
      if other == nearestChair {
        isNearChair := false;
        if isSittingToggled {
          isSittingToggled := false;
          RestoreChairPosition();
        }
        nearestChair := null;
      }
    }

    /**
     * Places the character beside the chair's recorded position (x offset
     * by 10 against the facing direction, z equal, height kept) and slides
     * the chair under it.
     */
    method AlignChairAndCharacter()
      requires Valid()
      modifies transform, ChairFrame()
      ensures !(isSittingToggled && nearestChair != null) ==> unchanged(transform) && unchanged(ChairFrame())
      ensures isSittingToggled && nearestChair != null ==>
        && transform.position ==
             SeatPosition(old(transform.position), old(transform.rotation), originalChairPosition)
        && transform.rotation == old(transform.rotation)
        && nearestChair.transform.position ==
             Vec3(transform.position.x, old(nearestChair.transform.position.y), transform.position.z)
        && nearestChair.transform.rotation == old(nearestChair.transform.rotation)
    {
      if isSittingToggled && nearestChair != null {
        var chairOriginalX := originalChairPosition.x;
        var chairOriginalZ := originalChairPosition.z;
        var isFacingPositiveX := Forward(transform.rotation).x > 0.0;
        var xOffset := if isFacingPositiveX then -SideOffset else SideOffset;
        transform.position := Vec3(chairOriginalX + xOffset, transform.position.y, chairOriginalZ);
        var targetChairPosition := nearestChair.transform.position;
        targetChairPosition := targetChairPosition.(x := transform.position.x, z := transform.position.z);
        nearestChair.transform.position := targetChairPosition;
      }
    }

    /** Puts the tracked chair back where it was recorded and forgets it. */
    method RestoreChairPosition()
      requires CamerasNamed()
      modifies this`nearestChair, ChairFrame()
      ensures Valid() && nearestChair == null
      ensures old(nearestChair) != null ==>
        && old(nearestChair).transform.position == originalChairPosition
        && old(nearestChair).transform.rotation == originalChairRotation
    {
      if nearestChair != null {
        nearestChair.transform.position := originalChairPosition;
        nearestChair.transform.rotation := originalChairRotation;
        nearestChair := null;
      }
    }
  }

  /**
   * Standing up inside a chair's trigger forgets the chair, so leaving the
   * trigger afterwards no longer clears `isNearChair`, and C then sits the
   * character down away from any chair.
   */
  method StandThenLeaveChair() returns (nearChair: bool, sitting: bool)
    ensures nearChair && sitting
  {
    var body := new Transform(Vec3(0.0, 0.0, 0.0), Identity);
    var seat := new Transform(Vec3(5.0, 0.0, 5.0), Identity);
    var chair := new GameObject("Chair 1", true, seat);
    var aj := new BeginnerCharacterController(body, null, null);
    aj.OnTriggerEnter(chair);
    var press := CharacterInput(0.0, 0.0, true, false, false, false);
    aj.Update(press);
    assert aj.isSittingToggled;
    aj.Update(press);
    assert !aj.isSittingToggled && aj.nearestChair == null;
    aj.OnTriggerExit(chair);
    aj.Update(press);
    nearChair, sitting := aj.isNearChair, aj.isSittingToggled;
  }
}
