/**
 * `LeverController`: a lever that can be pulled down only once its
 * required (red) button is pressed, and that locks a set of buttons while
 * it is down.
 */
module Levers {
  import opened Actions
  import opened Interactables
  import opened Buttons

  /** The six voice commands a lever offers: the three puzzle verbs, then three ways out. */
  function LeverActions(): (r: seq<Action>)
    ensures |r| == 6
    ensures r[0].verb == "PressRedButton" && r[1].verb == "PullLeverDown" && r[2].verb == "PushLeverUp"
    ensures forall i :: 3 <= i < 6 ==> r[i].verb == "back"
    ensures forall i :: 0 <= i < 6 ==> r[i].noun == ""
  {
    [Action("press the red button", "PressRedButton", ""), Action("pull the lever down", "PullLeverDown", ""),
     Action("push the lever up", "PushLeverUp", ""),
     Action("back", "back", ""), Action("exit", "back", ""), Action("stop", "back", "")]
  }

  class LeverController {
    /** The `Interactable` part the lever extends. */
    const base: Interactable
    const requiredButton: ButtonController?
    /** The assigned buttons; an empty entry is skipped. */
    const buttonsToLock: seq<ButtonController?>
    var isDown: bool

    constructor (base: Interactable, requiredButton: ButtonController?, buttonsToLock: seq<ButtonController?>)
      ensures this.base == base && this.requiredButton == requiredButton && this.buttonsToLock == buttonsToLock
      ensures !isDown
    {
      this.base := base;
      this.requiredButton := requiredButton;
      this.buttonsToLock := buttonsToLock;
      isDown := false;
    }

    /** The non-empty entries of `buttonsToLock`. */
    function Locks(): set<ButtonController>
      reads this
    {
      set b: ButtonController | b in buttonsToLock
    }

    /** Every assigned button has lock state `v`. */
    predicate AllLocked(v: bool)
      reads this, Locks()
    {
      forall j :: 0 <= j < |buttonsToLock| && buttonsToLock[j] != null ==> buttonsToLock[j].locked == v
    }

    /** While the lever is down every assigned button is locked. */
    predicate LocksHeld()
      reads this, Locks()
    {
      isDown ==> AllLocked(true)
    }

    /** Sets `locked` of every assigned button to `v`, touching nothing else. */
    method SetLocks(v: bool)
      modifies Locks()
      ensures AllLocked(v)
      ensures forall b :: b in Locks() ==>
        b.isPressed == old(b.isPressed) && b.pose == old(b.pose) && b.otherButton == old(b.otherButton)
    {
      var i := 0;
      while i < |buttonsToLock|
        invariant 0 <= i <= |buttonsToLock|
        invariant forall j :: 0 <= j < i && buttonsToLock[j] != null ==> buttonsToLock[j].locked == v
        invariant forall b :: b in Locks() ==>
          b.isPressed == old(b.isPressed) && b.pose == old(b.pose) && b.otherButton == old(b.otherButton)
      {
        var btn := buttonsToLock[i];
        if btn != null {
          btn.locked := v;
        }
        i := i + 1;
      }
    }

    /**
     * `Start`: the lever is up, every assigned button is unlocked, and the
     * command list is replaced by the six lever commands.  The base `Start`
     * it calls is not a member of `Interactable` and is not modelled.
     */
    method Start()
      modifies this`isDown, base`possibleInteractions, Locks()
      ensures !isDown && AllLocked(false) && LocksHeld()
      ensures base.possibleInteractions == LeverActions()
      ensures forall b :: b in Locks() ==> b.isPressed == old(b.isPressed) && b.pose == old(b.pose)
    {
      isDown := false;
      SetLocks(false);
      base.possibleInteractions := [];
      base.possibleInteractions := base.possibleInteractions + [Action("press the red button", "PressRedButton", "")];
      base.possibleInteractions := base.possibleInteractions + [Action("pull the lever down", "PullLeverDown", "")];
      base.possibleInteractions := base.possibleInteractions + [Action("push the lever up", "PushLeverUp", "")];
      base.possibleInteractions := base.possibleInteractions + [Action("back", "back", "")];
      base.possibleInteractions := base.possibleInteractions + [Action("exit", "back", "")];
      base.possibleInteractions := base.possibleInteractions + [Action("stop", "back", "")];
    }

    /**
     * `PullDown`: nothing happens when the lever is already down or the
     * required button exists and is not pressed; otherwise the lever goes
     * down and locks every assigned button.
     */
    method PullDown()
      modifies this`isDown, Locks()
      ensures old(isDown) || (requiredButton != null && !old(requiredButton.isPressed)) ==>
        isDown == old(isDown) && forall b :: b in Locks() ==> b.locked == old(b.locked)
      ensures !old(isDown) && !(requiredButton != null && !old(requiredButton.isPressed)) ==>
        isDown && AllLocked(true)
      ensures forall b :: b in Locks() ==>
        b.isPressed == old(b.isPressed) && b.pose == old(b.pose) && b.otherButton == old(b.otherButton)
      ensures old(LocksHeld()) ==> LocksHeld()
    {
      if isDown {
        return;
      }
      if requiredButton != null && !requiredButton.isPressed {
        return;
      }
      isDown := true;
      SetLocks(true);
    }

    /** `PushUp`: nothing happens when the lever is up; otherwise it goes up and unlocks every assigned button. */
    method PushUp()
      modifies this`isDown, Locks()
      ensures !old(isDown) ==> !isDown && forall b :: b in Locks() ==> b.locked == old(b.locked)
      ensures old(isDown) ==> !isDown && AllLocked(false)
      ensures forall b :: b in Locks() ==>
        b.isPressed == old(b.isPressed) && b.pose == old(b.pose) && b.otherButton == old(b.otherButton)
      ensures LocksHeld()
    {
      if !isDown {
        return;
      }
      isDown := false;
      SetLocks(false);
    }

    /**
     * The whole effect of the verb `verb` on the lever, its assigned buttons
     * and its required button, against the state before:
     * "PressRedButton" marks an existing, unlocked required button pressed
     * directly, without `Press`, so its partner is not reset and its cap does
     * not move; "PullLeverDown" and "PushLeverUp" pull and push, changing
     * only the lever and the locks; any other verb changes nothing.
     */
    twostate predicate VerbApplied(verb: string)
      reads this, Locks(), requiredButton
    {
      && (verb == "PressRedButton" ==>
            isDown == old(isDown)
            && (forall b :: b in Locks() && b != requiredButton ==> unchanged(b))
            && (requiredButton != null ==>
                  requiredButton.isPressed == (old(requiredButton.isPressed) || !old(requiredButton.locked))
                  && requiredButton.locked == old(requiredButton.locked)
                  && requiredButton.pose == old(requiredButton.pose)
                  && requiredButton.otherButton == old(requiredButton.otherButton)))
      && (verb == "PullLeverDown" || verb == "PushLeverUp" ==>
            (forall b :: b in Locks() ==>
               b.isPressed == old(b.isPressed) && b.pose == old(b.pose) && b.otherButton == old(b.otherButton))
            && (requiredButton != null && requiredButton !in Locks() ==> unchanged(requiredButton)))
      && (verb == "PullLeverDown" ==>
            if old(isDown) || (requiredButton != null && !old(requiredButton.isPressed))
            then isDown == old(isDown) && forall b :: b in Locks() ==> b.locked == old(b.locked)
            else isDown && AllLocked(true))
      && (verb == "PushLeverUp" ==>
            !isDown
            && if old(isDown) then AllLocked(false) else forall b :: b in Locks() ==> b.locked == old(b.locked))
      && (verb !in {"PressRedButton", "PullLeverDown", "PushLeverUp"} ==>
            isDown == old(isDown) && unchanged(Locks()) && (requiredButton != null ==> unchanged(requiredButton)))
    }

    /** `PerformInteraction`: the verb of `action` has the effect `VerbApplied` states, and the lock invariant is kept. */
    method PerformInteraction(action: Action)
      modifies this`isDown, Locks()
      modifies if requiredButton == null then {} else {requiredButton}
      ensures VerbApplied(action.verb)
      ensures old(LocksHeld()) ==> LocksHeld()
    {
      if action.verb == "PressRedButton" {
        if requiredButton == null {
          return;
        }
        if requiredButton.locked {
          return;
        }
        requiredButton.isPressed := true;
      } else if action.verb == "PullLeverDown" {
        PullDown();
      } else if action.verb == "PushLeverUp" {
        PushUp();
      }
    }

    /**
     * `StartInteraction`, inherited from `Interactable`: the close-up camera
     * takes over if there is one, the lever's own `PerformInteraction` runs
     * exactly when the base has action/event pairs, the interaction ends
     * again when no command is available, and the command list is returned.
     */
    method StartInteraction(lastAction: Action) returns (r: seq<Action>)
      modifies this`isDown, Locks(), base.playerCam, base.interactCam
      modifies if requiredButton == null then {} else {requiredButton}
      ensures r == base.possibleInteractions
      ensures base.actionEventPairs != [] ==> VerbApplied(lastAction.verb)
      ensures base.actionEventPairs == [] ==>
        isDown == old(isDown) && unchanged(Locks()) && (requiredButton != null ==> unchanged(requiredButton))
      ensures old(LocksHeld()) ==> LocksHeld()
      ensures base.interactCam == null ==> base.playerCam.active == old(base.playerCam.active)
      ensures base.interactCam != null ==> base.interactCam.active == (base.possibleInteractions != [])
      ensures base.interactCam != null && base.interactCam != base.playerCam ==>
        base.playerCam.active == (base.possibleInteractions == [])
    {
      if base.interactCam != null {
        base.playerCam.active := false;
        base.interactCam.active := true;
      }
      if |base.actionEventPairs| > 0 {
        PerformInteraction(lastAction);
      }
      if |base.possibleInteractions| == 0 {
        base.EndInteraction();
      }
      r := base.possibleInteractions;
    }
  }
}
