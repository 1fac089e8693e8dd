/**
 * A food item the player grabs with F while inside its trigger
 * (FoodPickup.cs).  The object is destroyed on the grab; the engine calls
 * no method of a destroyed object, which is the precondition `!destroyed`
 * on every callback.  That precondition is what makes the food change
 * hands at most once: the grab sets `destroyed`, so no later call exists.
 */
module Pickup {
  import opened Students

  class FoodPickup {
    /** Whether the inspector assigned an `interactionText` label. */
    const hasInteractionText: bool
    /** The label's text (meaningful only when `hasInteractionText`). */
    var interactionText: string
    const promptMessage: string
    var playerNearby: bool
    var nearbyStudent: StudentController?
    /** `Destroy(gameObject)` has been called. */
    var destroyed: bool

    ghost predicate Valid()
      reads this, nearbyStudent
    {
      nearbyStudent != null ==> nearbyStudent.Valid()
    }

    /** A new pickup, after `Start` has cleared the label. */
    constructor (hasInteractionText: bool, initialText: string, promptMessage: string)
      ensures Valid() && !playerNearby && nearbyStudent == null && !destroyed
      ensures this.hasInteractionText == hasInteractionText && this.promptMessage == promptMessage
      ensures interactionText == if hasInteractionText then "" else initialText
    {
      this.hasInteractionText := hasInteractionText;
      this.promptMessage := promptMessage;
      interactionText := initialText;
      playerNearby := false;
      nearbyStudent := null;
      destroyed := false;
      new;
      if hasInteractionText {
        interactionText := "";
      }
    }

    /** One frame: F grabs the food when a player with a StudentController is inside. */
    method Update(fDown: bool)
      requires Valid() && !destroyed
      modifies this, nearbyStudent
      ensures Valid()
      ensures nearbyStudent == old(nearbyStudent) && playerNearby == old(playerNearby)
      ensures if old(playerNearby) && fDown && old(nearbyStudent) != null then
          && destroyed
          && nearbyStudent.hasFood
          && nearbyStudent.Model() == old(nearbyStudent.Model()).PickUpFood(nearbyStudent.eatingDuration)
          && interactionText == (if hasInteractionText then "" else old(interactionText))
        else
          && !destroyed
          && interactionText == old(interactionText)
          && (old(nearbyStudent) != null ==> nearbyStudent.Model() == old(nearbyStudent.Model()))
      ensures nearbyStudent != null ==>
        && nearbyStudent.enabled == old(nearbyStudent.enabled)
        && nearbyStudent.ignoreNextInput == old(nearbyStudent.ignoreNextInput)
    {
      if playerNearby && fDown && nearbyStudent != null {
        GrabFood(nearbyStudent);
      }
    }

    method GrabFood(student: StudentController)
      requires Valid() && !destroyed && student.Valid()
      modifies this, student
      ensures Valid() && destroyed
      ensures playerNearby == old(playerNearby) && nearbyStudent == old(nearbyStudent)
      ensures interactionText == if hasInteractionText then "" else old(interactionText)
      ensures student.hasFood
      ensures student.Model() == old(student.Model()).PickUpFood(student.eatingDuration)
      ensures student.enabled == old(student.enabled) && student.ignoreNextInput == old(student.ignoreNextInput)
    {
      if hasInteractionText {
        interactionText := "";
      }
      student.PickUpFood();
      destroyed := true;
    }

    /**
     * A collider entering the trigger: `isPlayer` is its Player tag and
     * `student` its StudentController component, if any.
     */
    method OnTriggerEnter(isPlayer: bool, student: StudentController?)
      requires Valid() && !destroyed
      requires student != null ==> student.Valid()
      modifies this
      ensures Valid() && !destroyed
      ensures !isPlayer ==>
        && playerNearby == old(playerNearby) && nearbyStudent == old(nearbyStudent)
        && interactionText == old(interactionText)
      ensures isPlayer ==> nearbyStudent == student
      ensures isPlayer && student != null ==>
        && playerNearby
        && interactionText == (if hasInteractionText then promptMessage else old(interactionText))
      ensures isPlayer && student == null ==>
        playerNearby == old(playerNearby) && interactionText == old(interactionText)
    {
      if isPlayer {
        nearbyStudent := student;
        if nearbyStudent != null {
          playerNearby := true;
          if hasInteractionText {
            interactionText := promptMessage;
          }
        }
      }
    }

    method OnTriggerExit(isPlayer: bool)
      requires Valid() && !destroyed
      modifies this
      ensures Valid() && !destroyed
      ensures !isPlayer ==>
        && playerNearby == old(playerNearby) && nearbyStudent == old(nearbyStudent)
        && interactionText == old(interactionText)
      ensures isPlayer ==>
        && !playerNearby && nearbyStudent == null
        && interactionText == (if hasInteractionText then "" else old(interactionText))
    {
      if isPlayer {
        playerNearby := false;
        nearbyStudent := null;
        if hasInteractionText {
          interactionText := "";
        }
      }
    }
  }
}
