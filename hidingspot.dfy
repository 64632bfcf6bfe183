/**
 * `Hidingspot`: an interactable the agent can hide in.  Every enabled spot
 * sits in a static registry, searched for the one nearest the agent.
 */
module Hidingspots {
  import opened Actions
  import opened World
  import opened Interactables
  import Lists

  class Hidingspot {
    /** The `Interactable` part the spot extends. */
    const base: Interactable
    /** The spot's game object as the agent sees it. */
    const obj: WorldObject

    constructor (base: Interactable, obj: WorldObject)
      ensures this.base == base && this.obj == obj
    {
      this.base := base;
      this.obj := obj;
    }

    /** `OnEnable`: the spot joins the registry. */
    method OnEnable(registry: HidingspotRegistry)
      modifies registry
      ensures registry.hidingspots == old(registry.hidingspots) + [this]
    {
      registry.hidingspots := registry.hidingspots + [this];
    }

    /** `OnDisable`: the spot's first registration is removed. */
    method OnDisable(registry: HidingspotRegistry)
      modifies registry
      ensures registry.hidingspots == Lists.RemoveFirst(old(registry.hidingspots), this)
    {
      registry.hidingspots := Lists.RemoveFirst(registry.hidingspots, this);
    }

    /** `OnDestroy`: as `OnDisable`. */
    method OnDestroy(registry: HidingspotRegistry)
      modifies registry
      ensures registry.hidingspots == Lists.RemoveFirst(old(registry.hidingspots), this)
    {
      OnDisable(registry);
    }

    /**
     * `Awake`: "Hide" joins the use-synonyms, the base `Awake` runs, and four
     * back actions are appended whatever the list held: 8 back actions for a
     * list that was non-empty, 4 for one that was empty.
     */
    method Awake(registry: InteractableRegistry)
      modifies base, registry
      ensures registry.interactables == old(registry.interactables) + [base]
      ensures base.useSynonyms == old(base.useSynonyms) + ["Hide"]
      ensures old(base.possibleInteractions) == [] ==> base.possibleInteractions == BackActions()
      ensures old(base.possibleInteractions) != [] ==>
        base.possibleInteractions == old(base.possibleInteractions) + BackActions() + BackActions()
      ensures base.fired == old(base.fired)
    {
      base.useSynonyms := base.useSynonyms + ["Hide"];
      base.Awake(registry);
      base.possibleInteractions := base.possibleInteractions + [Action("stop", "back", "")];
      base.possibleInteractions := base.possibleInteractions + [Action("exit", "back", "")];
      base.possibleInteractions := base.possibleInteractions + [Action("back", "back", "")];
      base.possibleInteractions := base.possibleInteractions + [Action("let us go", "back", "")];
    }

    /** `GetCurrentActions`: the base list. */
    method GetCurrentActions() returns (r: seq<Action>)
      ensures r == base.possibleInteractions
    {
      r := base.GetCurrentActions();
    }

    /**
     * `StartInteraction`: only the camera switch.  No event fires, the
     * interaction is never ended here, and the action list is returned as is.
     */
    method StartInteraction(lastAction: Action) returns (r: seq<Action>)
      modifies base.playerCam, base.interactCam
      ensures r == base.possibleInteractions
      ensures base.interactCam == null ==> base.playerCam.active == old(base.playerCam.active)
      ensures base.interactCam != null ==> base.interactCam.active
      ensures base.interactCam != null && base.interactCam != base.playerCam ==> !base.playerCam.active
    {
      if base.interactCam != null {
        base.playerCam.active := false;
        base.interactCam.active := true;
      }
      r := base.possibleInteractions;
    }

    /** `EndInteraction`: the base behaviour. */
    method EndInteraction()
      modifies base.playerCam, base.interactCam
      ensures base.interactCam == null ==> base.playerCam.active == old(base.playerCam.active)
      ensures base.interactCam != null ==> !base.interactCam.active
      ensures base.interactCam != null && base.interactCam != base.playerCam ==> base.playerCam.active
    {
      base.EndInteraction();
    }
  }

  /** The game objects of the registered spots, in registration order. */
  function Objects(spots: seq<Hidingspot>): (r: seq<WorldObject>)
    ensures |r| == |spots|
    ensures forall i :: 0 <= i < |spots| ==> r[i] == spots[i].obj
  {
    if spots == [] then [] else [spots[0].obj] + Objects(spots[1..])
  }

  /** The static `hidingspots` list. */
  class HidingspotRegistry {
    var hidingspots: seq<Hidingspot>

    constructor ()
      ensures hidingspots == []
    {
      hidingspots := [];
    }

    /**
     * `ClosestHidingSpot`: over every registered spot, in whatever room, the
     * one at the least planar distance from the agent, the lowest index
     * winning ties; none when the registry is empty.
     */
    method ClosestHidingSpot(player: Vec3) returns (r: Option<WorldObject>)
      ensures r == Closest(player, Objects(hidingspots))
    {
      var objs := Objects(hidingspots);
      var ds := PlanarDistances(player, objs);
      var closest := -1;
      var i := 0;
      while i < |hidingspots|
        invariant 0 <= i <= |hidingspots|
        invariant closest == EarliestMinIndex(ds[..i])
      {
        EarliestMinStep(ds, i);
        assert ds[i] == PlanarSquaredDistance(player, hidingspots[i].obj.position);
        assert closest != -1 ==> ds[closest] == PlanarSquaredDistance(player, hidingspots[closest].obj.position);
        if closest == -1
           || PlanarSquaredDistance(player, hidingspots[i].obj.position)
              < PlanarSquaredDistance(player, hidingspots[closest].obj.position) {
          closest := i;
        }
        i := i + 1;
      }
      assert ds[..i] == ds;
      if closest == -1 {
        return None;
      }
      assert objs[closest] == hidingspots[closest].obj;
      return Some(hidingspots[closest].obj);
    }
  }
}
