/**
 * `Crate`: an interactable whose own event fires when an interaction
 * starts; a one-shot crate fires it only the first time.
 */
module Crates {
  import opened Actions
  import opened Interactables
  import opened Inventories

  class Crate {
    /** The `Interactable` part the crate extends. */
    const base: Interactable
    const isOneShot: bool
    var hasbeentriggered: bool
    /** How often `onInteractEvent` has been invoked. */
    var eventCount: nat

    constructor (base: Interactable, isOneShot: bool)
      ensures this.base == base && this.isOneShot == isOneShot && !hasbeentriggered && eventCount == 0
    {
      this.base := base;
      this.isOneShot := isOneShot;
      hasbeentriggered := false;
      eventCount := 0;
    }

    /**
     * `StartInteraction`: unless the crate is one-shot and has fired, it
     * marks itself triggered and invokes its event once; either way the base
     * `StartInteraction` runs and its list is returned.
     */
    method StartInteraction(lastAction: Action, inv: Inventory) returns (r: seq<Action>)
      modifies this`hasbeentriggered, this`eventCount, base`fired, inv, base.playerCam, base.interactCam
      ensures r == base.possibleInteractions
      ensures hasbeentriggered
      ensures isOneShot && old(hasbeentriggered) ==> eventCount == old(eventCount)
      ensures !(isOneShot && old(hasbeentriggered)) ==> eventCount == old(eventCount) + 1
      ensures base.actionEventPairs != [] ==>
        base.fired == old(base.fired) + Perform(base.actionEventPairs, lastAction, old(inv.children)).fired
        && inv.children == Perform(base.actionEventPairs, lastAction, old(inv.children)).items
        && inv.notices == old(inv.notices) + Perform(base.actionEventPairs, lastAction, old(inv.children)).notices
      ensures base.actionEventPairs == [] ==>
        base.fired == old(base.fired) && inv.children == old(inv.children) && inv.notices == old(inv.notices)
      ensures base.interactCam == null ==> base.playerCam.active == old(base.playerCam.active)
      ensures base.interactCam != null ==> base.interactCam.active == (base.possibleInteractions != [])
      ensures base.interactCam != null && base.interactCam != base.playerCam ==>
        base.playerCam.active == (base.possibleInteractions == [])
    {
      if isOneShot && hasbeentriggered {
        r := base.StartInteraction(lastAction, inv);
        return;
      }
      hasbeentriggered := true;
      eventCount := eventCount + 1;
      r := base.StartInteraction(lastAction, inv);
    }
  }
}
