/**
 * `ButtonController`: a pressable button linked to an opposite button.
 * Pressing one resets the other, and a lever may lock it.
 */
module Buttons {
  import opened Actions
  import opened Interactables

  /** Where the button's cap sits: at its start position, or pushed in by the press depth. */
  datatype Pose = Rest | PushedIn

  /** The six voice commands a button offers: three press commands, then three ways out. */
  function ButtonActions(): (r: seq<Action>)
    ensures |r| == 6
    ensures forall i :: 0 <= i < 3 ==> r[i].verb == "PressButton"
    ensures forall i :: 3 <= i < 6 ==> IsDisengageVerb(r[i].verb) && r[i].verb == "back"
    ensures forall i :: 0 <= i < 6 ==> r[i].noun == ""
  {
    [Action("press the button", "PressButton", ""), Action("press", "PressButton", ""),
     Action("push the button", "PressButton", ""),
     Action("back", "back", ""), Action("exit", "back", ""), Action("stop", "back", "")]
  }

  class ButtonController {
    /** The `Interactable` part the button extends. */
    const base: Interactable
    /** The opposite button, if one is assigned. */
    var otherButton: ButtonController?
    var locked: bool
    var isPressed: bool
    var pose: Pose

    constructor (base: Interactable, otherButton: ButtonController?)
      ensures this.base == base && this.otherButton == otherButton
      ensures !locked && !isPressed && pose == Rest
    {
      this.base := base;
      this.otherButton := otherButton;
      locked := false;
      isPressed := false;
      pose := Rest;
    }

    /**
     * `Start`: the current pose becomes the rest pose and the command list
     * is replaced by the six button commands.  The base `Start` it calls is
     * not a member of `Interactable` and is not modelled.
     */
    method Start()
      modifies this`pose, base`possibleInteractions
      ensures base.possibleInteractions == ButtonActions() && pose == Rest
    {
      pose := Rest;
      base.possibleInteractions := [];
      base.possibleInteractions := base.possibleInteractions + [Action("press the button", "PressButton", "")];
      base.possibleInteractions := base.possibleInteractions + [Action("press", "PressButton", "")];
      base.possibleInteractions := base.possibleInteractions + [Action("push the button", "PressButton", "")];
      base.possibleInteractions := base.possibleInteractions + [Action("back", "back", "")];
      base.possibleInteractions := base.possibleInteractions + [Action("exit", "back", "")];
      base.possibleInteractions := base.possibleInteractions + [Action("stop", "back", "")];
    }

    /** `ForceReset`: released and back at rest, whether or not the button is locked. */
    method ForceReset()
      modifies this`isPressed, this`pose
      ensures !isPressed && pose == Rest
    {
      isPressed := false;
      pose := Rest;
    }

    /**
     * The whole effect of `Press`, against the state before: a locked button
     * ignores the press entirely, and so does its opposite.  Otherwise the
     * opposite button is reset first, and this button ends pressed; it moves
     * in only if it was not pressed already (or if it is its own opposite,
     * which the reset has just released).  Links and locks never change.
     */
    twostate predicate Pressed()
      reads this, otherButton
    {
      && otherButton == old(otherButton) && locked == old(locked)
      && (old(locked) ==>
            isPressed == old(isPressed) && pose == old(pose)
            && (otherButton != null ==> unchanged(otherButton)))
      && (!old(locked) ==> isPressed)
      && (!old(locked) && otherButton != this && old(isPressed) ==> pose == old(pose))
      && (!old(locked) && (otherButton == this || !old(isPressed)) ==> pose == PushedIn)
      && (!old(locked) && otherButton != null && otherButton != this ==>
            !otherButton.isPressed && otherButton.pose == Rest)
      && (otherButton != null ==>
            otherButton.locked == old(otherButton.locked) && otherButton.otherButton == old(otherButton.otherButton))
    }

    /** `Press`, with the effect `Pressed` states. */
    method Press()
      modifies this`isPressed, this`pose
      modifies if otherButton == null then {} else {otherButton}
      ensures Pressed()
    {
      if locked {
        return;
      }
      if otherButton != null {
        otherButton.ForceReset();
      }
      if isPressed {
        return;
      }
      isPressed := true;
      pose := PushedIn;
    }

    /** `PerformInteraction`: only the verb "PressButton" presses the button; any other changes nothing. */
    method PerformInteraction(action: Action)
      modifies this`isPressed, this`pose
      modifies if otherButton == null then {} else {otherButton}
      ensures action.verb == "PressButton" ==> Pressed()
      ensures action.verb != "PressButton" ==>
        unchanged(this) && (otherButton != null ==> unchanged(otherButton))
    {
      if action.verb == "PressButton" {
        Press();
      }
    }

    /**
     * `StartInteraction`, inherited from `Interactable`: the close-up camera
     * takes over if there is one, the button's own `PerformInteraction` runs
     * exactly when the base has action/event pairs, the interaction ends
     * again when no command is available, and the command list is returned.
     */
    method StartInteraction(lastAction: Action) returns (r: seq<Action>)
      modifies this`isPressed, this`pose, base.playerCam, base.interactCam
      modifies if otherButton == null then {} else {otherButton}
      ensures r == base.possibleInteractions
      ensures base.actionEventPairs != [] && lastAction.verb == "PressButton" ==> Pressed()
      ensures base.actionEventPairs == [] || lastAction.verb != "PressButton" ==>
        unchanged(this) && (otherButton != null ==> unchanged(otherButton))
      ensures base.interactCam == null ==> base.playerCam.active == old(base.playerCam.active)
      ensures base.interactCam != null ==> base.interactCam.active == (base.possibleInteractions != [])
      ensures base.interactCam != null && base.interactCam != base.playerCam ==>
        base.playerCam.active == (base.possibleInteractions == [])
    {
      if base.interactCam != null {
        base.playerCam.active := false;
        base.interactCam.active := true;
      }
      if |base.actionEventPairs| > 0 {
        PerformInteraction(lastAction);
      }
      if |base.possibleInteractions| == 0 {
        base.EndInteraction();
      }
      r := base.possibleInteractions;
    }
  }
}
