/**
 * `ChairInteractable`: an interactable that offers only "sit down" and
 * seats the agent when told to.  `GetCurrentActions` is inherited
 * unchanged: it is `Interactables.Interactable.GetCurrentActions` of `base`.
 */
module Chairs {
  import opened Actions
  import opened World
  import opened Interactables
  import opened Player

  class ChairInteractable {
    /** The `Interactable` part the chair extends. */
    const base: Interactable
    /** Where the agent is placed to sit. */
    const sitPoint: Vec3

    constructor (base: Interactable, sitPoint: Vec3)
      ensures this.base == base && this.sitPoint == sitPoint
    {
      this.base := base;
      this.sitPoint := sitPoint;
    }

    /**
     * `StartInteraction`: the single "sit down" command for this chair.  The
     * base behaviour is not run: no camera switch, no events, no ending.
     */
    method StartInteraction(lastAction: Action) returns (r: seq<Action>)
      ensures r == [Action("sit down", "Sit", base.name)]
      ensures |r| == 1 && r[0].verb == StateName(Sit) && r[0].noun == base.name
    {
      r := [Action("sit down", "Sit", base.name)];
    }

    /** `PerformInteraction`: the verb "Sit" seats the agent on this chair's seat; anything else is ignored. */
    method PerformInteraction(action: Action, player: PlayerBehavior)
      modifies player`state, player`position
      ensures action.verb == "Sit" ==> player.state == Sit && player.position == sitPoint
      ensures action.verb != "Sit" ==> player.state == old(player.state) && player.position == old(player.position)
    {
      if action.verb == "Sit" {
        player.SitDown(sitPoint);
      }
    }
  }

  /**
   * The agent's view of a chair agrees with the chair: the list the agent
   * adopts on reaching one is the chair's "sit down" list.
   */
  lemma ChairRecordAgrees(c: ChairInteractable, o: WorldObject)
    requires o.name == c.base.name && o.interactable.Some? && o.interactable.value.kind == ChairKind
    ensures StartInteractionResult(o) == [Action("sit down", "Sit", c.base.name)]
  {
  }
}
