/**
 * A seat the player toggles with C while inside its trigger (SitPrompt.cs):
 * sitting snaps the player onto the seat point and disables the player's
 * StudentController; standing re-enables it and steps the player half a
 * unit forward.  The on-screen prompt is the text the shared prompt label
 * shows, or Hidden.
 */
module Seats {
  import opened Scene
  import opened Students

  datatype Prompt = Hidden | Shown(text: string)

  const SitText := "Press C to Sit"
  const StandText := "Press C to Stand"
  /** Local position of a seat point created by `Start`. */
  const SeatHeight := 0.6
  /** How far `Stand` moves the player along its forward vector. */
  const StandStep := 0.5

  class SitPrompt {
    /** The seat's own transform. */
    const transform: Transform
    var seatPoint: Transform?
    var isPlayerNear: bool
    var player: Transform?
    /** The StudentController on the player's object, if it has one. */
    var playerController: StudentController?
    var isSitting: bool
    /** Whether the prompt manager (and its label) exists in the scene. */
    const hasPromptManager: bool
    var prompt: Prompt

    ghost predicate Valid()
      reads this
    {
      (isPlayerNear || isSitting) ==> player != null
    }

    constructor (transform: Transform, seatPoint: Transform?, hasPromptManager: bool)
      ensures Valid() && !isPlayerNear && !isSitting && player == null && playerController == null
      ensures this.transform == transform && this.seatPoint == seatPoint
      ensures this.hasPromptManager == hasPromptManager && prompt == Hidden
    {
      this.transform := transform;
      this.seatPoint := seatPoint;
      this.hasPromptManager := hasPromptManager;
      isPlayerNear := false;
      player := null;
      playerController := null;
      isSitting := false;
      prompt := Hidden;
    }

    /**
     * A missing seat point is created as a child at local (0, 0.6, 0): its
     * world position is that offset along the seat's up vector (unit scale),
     * and it keeps the identity world rotation a new object starts with.
     */
    method Start()
      requires Valid()
      modifies this`seatPoint
      ensures Valid() && seatPoint != null
      ensures old(seatPoint) != null ==> seatPoint == old(seatPoint)
      ensures old(seatPoint) == null ==>
        && fresh(seatPoint)
        && seatPoint.position == Add(transform.position, Scale(Up(transform.rotation), SeatHeight))
        && seatPoint.rotation == Identity
    {
      if seatPoint == null {
        var sp := new Transform(Add(transform.position, Scale(Up(transform.rotation), SeatHeight)), Identity);
        seatPoint := sp;
      }
    }

    method ShowPrompt(text: string)
      modifies this`prompt
      ensures prompt == if hasPromptManager then Shown(text) else old(prompt)
    {
      if hasPromptManager {
        prompt := Shown(text);
      }
    }

    method HidePrompt()
      modifies this`prompt
      ensures prompt == if hasPromptManager then Hidden else old(prompt)
    {
      if hasPromptManager {
        prompt := Hidden;
      }
    }

    /**
     * A collider entering the trigger: `isPlayer` is its Player tag, `other`
     * its transform and `controller` the StudentController on its object.
     */
    method OnTriggerEnter(isPlayer: bool, other: Transform, controller: StudentController?)
      requires Valid()
      modifies this`isPlayerNear, this`player, this`playerController, this`prompt
      ensures Valid() && isSitting == old(isSitting)
      ensures !isPlayer ==>
        && isPlayerNear == old(isPlayerNear) && player == old(player)
        && playerController == old(playerController) && prompt == old(prompt)
      ensures isPlayer ==>
        && isPlayerNear && player == other && playerController == controller
        && prompt == (if hasPromptManager then Shown(SitText) else old(prompt))
    {
      if isPlayer {
        isPlayerNear := true;
        player := other;
        playerController := controller;
        ShowPrompt(SitText);
      }
    }

    method OnTriggerExit(isPlayer: bool)
      requires Valid()
      modifies this`isPlayerNear, this`prompt
      ensures Valid() && isSitting == old(isSitting)
      ensures !isPlayer ==> isPlayerNear == old(isPlayerNear) && prompt == old(prompt)
      ensures isPlayer ==> !isPlayerNear && prompt == (if hasPromptManager then Hidden else old(prompt))
    {
      if isPlayer {
        isPlayerNear := false;
        HidePrompt();
      }
    }

    /** One frame: C toggles sitting, but only while the player is inside the trigger. */
    method Update(cDown: bool)
      requires Valid() && seatPoint != null
      modifies this`isSitting, this`prompt, player, playerController
      ensures Valid() && isPlayerNear == old(isPlayerNear) && player == old(player)
      ensures isSitting == if old(isPlayerNear) && cDown then !old(isSitting) else old(isSitting)
      ensures playerController != null ==>
        && playerController.Model() == old(playerController.Model())
        && playerController.ignoreNextInput == old(playerController.ignoreNextInput)
      ensures !(old(isPlayerNear) && cDown) ==>
        && prompt == old(prompt)
        && (player != null ==> player.position == old(player.position) && player.rotation == old(player.rotation))
        && (playerController != null ==> playerController.enabled == old(playerController.enabled))
      // C to sit: the effects of `Sit`.
      ensures old(isPlayerNear) && cDown && !old(isSitting) ==>
        && prompt == (if hasPromptManager then Shown(StandText) else old(prompt))
        && player.position == old(seatPoint.position) && player.rotation == old(seatPoint.rotation)
        && (playerController != null ==> !playerController.enabled)
      // C to stand: the effects of `Stand`.
      ensures old(isPlayerNear) && cDown && old(isSitting) ==>
        && prompt == (if hasPromptManager then Shown(SitText) else old(prompt))
        && (playerController != null ==> playerController.enabled)
        && player.rotation == old(player.rotation)
        && player.position == Add(old(player.position), Scale(Forward(old(player.rotation)), StandStep))
    {
      if isPlayerNear && cDown {
        if !isSitting {
          Sit();
        } else {
          Stand();
        }
      }
    }

    method Sit()
      requires Valid() && player != null && seatPoint != null
      modifies this`isSitting, this`prompt, player, playerController
      ensures Valid() && isSitting
      ensures prompt == if hasPromptManager then Shown(StandText) else old(prompt)
      ensures player.position == old(seatPoint.position) && player.rotation == old(seatPoint.rotation)
      ensures playerController != null ==> !playerController.enabled
      ensures playerController != null ==> playerController.Model() == old(playerController.Model())
      ensures playerController != null ==> playerController.ignoreNextInput == old(playerController.ignoreNextInput)
    {
      isSitting := true;
      ShowPrompt(StandText);
      player.position := seatPoint.position;
      player.rotation := seatPoint.rotation;
      if playerController != null {
        playerController.enabled := false;
      }
    }

    method Stand()
      requires Valid() && player != null
      modifies this`isSitting, this`prompt, player, playerController
      ensures Valid() && !isSitting
      ensures prompt == if hasPromptManager then Shown(SitText) else old(prompt)
      ensures playerController != null ==> playerController.enabled
      ensures playerController != null ==> playerController.Model() == old(playerController.Model())
      ensures playerController != null ==> playerController.ignoreNextInput == old(playerController.ignoreNextInput)
      ensures player.rotation == old(player.rotation)
      ensures player.position ==
        Add(old(player.position), Scale(Forward(old(player.rotation)), StandStep))
    {
      isSitting := false;
      ShowPrompt(SitText);
      if playerController != null {
        playerController.enabled := true;
      }
      player.position := Add(player.position, Scale(Forward(player.rotation), StandStep));
    }
  }
}
