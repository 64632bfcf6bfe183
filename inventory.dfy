/**
 * The agent's inventory: picked-up objects are re-parented under the
 * inventory transform, so its children are the items held.
 */
module Inventories {
  import opened World
  import opened PickUps
  import Lists

  /** Some child carries exactly this name. */
  predicate Holds(items: seq<WorldObject>, item: string)
  {
    exists i :: 0 <= i < |items| && items[i].name == item
  }

  /** The items left after every child named `item` is destroyed. */
  function Without(items: seq<WorldObject>, item: string): (r: seq<WorldObject>)
    ensures |r| <= |items|
    ensures !Holds(r, item)
    ensures forall o :: o in r <==> o in items && o.name != item
  {
    if items == [] then []
    else (if items[0].name == item then [] else [items[0]]) + Without(items[1..], item)
  }

  /** Consuming an item nobody holds changes nothing. */
  lemma {:induction false} WithoutAbsent(items: seq<WorldObject>, item: string)
    requires !Holds(items, item)
    ensures Without(items, item) == items
  {
    if items != [] {
      assert items[0].name != item;
      WithoutAbsent(items[1..], item);
    }
  }

  /** What `ConsumeItem` reports, one line per destroyed child, scanning last to first. */
  function UsedNotices(items: seq<WorldObject>, item: string): (r: seq<string>)
    ensures |r| <= |items|
    ensures forall k :: 0 <= k < |r| ==> r[k] == item + " used"
  {
    if items == [] then []
    else UsedNotices(items[1..], item) + (if items[0].name == item then [item + " used"] else [])
  }

  /** The loop of `ConsumeItem`, from the last child to the first: what is kept and the notices sent. */
  method ScanForConsumption(c: seq<WorldObject>, item: string) returns (kept: seq<WorldObject>, used: seq<string>)
    ensures kept == Without(c, item)
    ensures used == UsedNotices(c, item)
  {
    kept := [];
    used := [];
    var i := |c| - 1;
    while i > -1
      invariant -1 <= i < |c|
      invariant kept == Without(c[i + 1..], item)
      invariant used == UsedNotices(c[i + 1..], item)
      decreases i
    {
      assert c[i..][1..] == c[i + 1..];
      if c[i].name == item {
        used := used + [c[i].name + " used"];
      }
      kept := (if c[i].name == item then [] else [c[i]]) + kept;
      i := i - 1;
    }
    assert c[0..] == c;
  }

  datatype Outcome = Ok | NullReference

  class Inventory {
    /** The child transforms, in sibling order. */
    var children: seq<WorldObject>
    /** Notifications sent to the UI manager. */
    var notices: seq<string>

    constructor ()
      ensures children == [] && notices == []
    {
      children := [];
      notices := [];
    }

    /** `HasItem`: true iff some child's name equals `item` exactly. */
    method HasItem(item: string) returns (b: bool)
      ensures b <==> Holds(children, item)
    {
      var i := 0;
      while i < |children|
        invariant 0 <= i <= |children|
        invariant forall j :: 0 <= j < i ==> children[j].name != item
      {
        if children[i].name == item {
          return true;
        }
        i := i + 1;
      }
      return false;
    }

    /**
     * `ConsumeItem`: scans the children from last to first and destroys every
     * one named `item`, notifying the UI for each.  The destruction takes
     * effect when the scan is over.
     */
    method ConsumeItem(item: string)
      modifies this
      ensures children == Without(old(children), item)
      ensures notices == old(notices) + UsedNotices(old(children), item)
    {
      var kept, used := ScanForConsumption(children, item);
      children := kept;
      notices := notices + used;
    }

    /** `GetItems`: the children's game objects, in sibling order. */
    method GetItems() returns (r: seq<WorldObject>)
      ensures |r| == |children|
      ensures forall i :: 0 <= i < |children| ==> r[i] == children[i]
    {
      r := [];
      var i := 0;
      while i < |children|
        invariant 0 <= i <= |children|
        invariant r == children[..i]
      {
        r := r + [children[i]];
        i := i + 1;
      }
    }

    /**
     * `AddItem`: re-parents `g` under the inventory, then tells its `PickUp`
     * component it was picked up; an object without one dereferences null
     * after the re-parenting.
     */
    method AddItem(g: WorldObject, registry: PickUpRegistry) returns (o: Outcome)
      modifies this, registry
      ensures children == old(children) + [g]
      ensures notices == old(notices)
      ensures o == Ok <==> IsPickUp(g)
      ensures registry.possiblePickUps == (if IsPickUp(g) then Lists.RemoveFirst(old(registry.possiblePickUps), g)
                                           else old(registry.possiblePickUps))
    {
      children := children + [g];
      if g.pickUp.None? {
        return NullReference;
      }
      registry.PickedUp(g);
      return Ok;
    }
  }
}
