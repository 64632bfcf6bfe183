/**
 * `RoomInteractableManager`: knows which room the agent is in and answers
 * every by-name, nearest-object and command-list query against the game
 * objects under that room's root.
 */
module Rooms {
  import opened Actions
  import opened World
  import opened Interactables
  import opened PickUps
  import Inventories
  import Lists

  /**
   * A room: its name, the instance id of its root object, and every game
   * object under that root (the root included) in hierarchy order.
   */
  datatype Room = Room(name: string, rootId: int, children: seq<WorldObject>)

  /** The objects left under a root once the object with instance id `id` is re-parented away. */
  function WithoutId(objs: seq<WorldObject>, id: int): (r: seq<WorldObject>)
    ensures |r| <= |objs|
    ensures forall o :: o in r <==> o in objs && o.id != id
  {
    if objs == [] then [] else (if objs[0].id == id then [] else [objs[0]]) + WithoutId(objs[1..], id)
  }

  /** A room after the object with instance id `id` left its hierarchy. */
  function Detached(r: Room, id: int): Room
  {
    r.(children := WithoutId(r.children, id))
  }

  datatype RoomEvent = Exit(room: string) | Enter(room: string)

  /** How `SetCurrentRoom` picks rooms: by the root's instance id, or by name. */
  datatype RoomKey = ById(id: int) | ByName(n: string)

  predicate KeyMatches(r: Room, key: RoomKey)
  {
    match key
    case ById(id) => r.rootId == id
    case ByName(n) => r.name == n
  }

  // ---------------------------------------------------------------------
  // `GetComponentsInChildren<T>` of a room root

  function InteractablesIn(objs: seq<WorldObject>): (r: seq<WorldObject>)
    ensures forall o :: o in r <==> o in objs && IsInteractable(o)
  {
    if objs == [] then []
    else (if IsInteractable(objs[0]) then [objs[0]] else []) + InteractablesIn(objs[1..])
  }

  function PickUpsIn(objs: seq<WorldObject>): (r: seq<WorldObject>)
    ensures forall o :: o in r <==> o in objs && IsPickUp(o)
  {
    if objs == [] then [] else (if IsPickUp(objs[0]) then [objs[0]] else []) + PickUpsIn(objs[1..])
  }

  function SwitchersIn(objs: seq<WorldObject>): (r: seq<WorldObject>)
    ensures forall o :: o in r <==> o in objs && IsSwitcher(o)
  {
    if objs == [] then [] else (if IsSwitcher(objs[0]) then [objs[0]] else []) + SwitchersIn(objs[1..])
  }

  function HidingspotsIn(objs: seq<WorldObject>): (r: seq<WorldObject>)
    ensures forall o :: o in r <==> o in objs && IsHidingspot(o)
  {
    if objs == [] then [] else (if IsHidingspot(objs[0]) then [objs[0]] else []) + HidingspotsIn(objs[1..])
  }

  // ---------------------------------------------------------------------
  // Command lists

  /** An interactable's own command list, built by its `GetPossibleActions`. */
  function ObjectActions(o: WorldObject): seq<Action>
  {
    if o.interactable.Some? then PossibleActions(o.name, [o.name] + o.interactable.value.synonyms, o.interactable.value.useSynonyms)
    else []
  }

  function ObjectSentences(o: WorldObject): seq<string>
  {
    if o.interactable.Some? then PossibleSentences([o.name] + o.interactable.value.synonyms, o.interactable.value.useSynonyms)
    else []
  }

  function SwitcherSynonyms(o: WorldObject): seq<string>
  {
    if o.switcher.Some? then o.switcher.value.synonyms else []
  }

  /** "Move to the"/"Go to the" a name, walking to the switcher. */
  function SwitcherPair(noun: string, n: string): seq<Action>
  {
    [Action("Move to the " + n, "MoveTo", noun), Action("Go to the " + n, "MoveTo", noun)]
  }

  /** A switcher's commands: a pair for its own name, then a pair per synonym. */
  function SwitcherActions(noun: string, names: seq<string>): seq<Action>
  {
    if names == [] then [] else SwitcherActions(noun, names[..|names| - 1]) + SwitcherPair(noun, names[|names| - 1])
  }

  /** 2·(1 + |synonyms|) actions per switcher, all `MoveTo` the switcher itself. */
  lemma {:induction false} SwitcherActionsShape(noun: string, names: seq<string>)
    ensures |SwitcherActions(noun, names)| == 2 * |names|
    ensures forall k :: 0 <= k < |SwitcherActions(noun, names)| ==>
      SwitcherActions(noun, names)[k].verb == "MoveTo" && SwitcherActions(noun, names)[k].noun == noun
  {
    if names != [] {
      SwitcherActionsShape(noun, names[..|names| - 1]);
    }
  }

  function AllObjectActions(objs: seq<WorldObject>): seq<Action>
  {
    if objs == [] then [] else AllObjectActions(objs[..|objs| - 1]) + ObjectActions(objs[|objs| - 1])
  }

  function AllObjectSentences(objs: seq<WorldObject>): seq<string>
  {
    if objs == [] then [] else AllObjectSentences(objs[..|objs| - 1]) + ObjectSentences(objs[|objs| - 1])
  }

  function AllSwitcherActions(objs: seq<WorldObject>): seq<Action>
  {
    if objs == [] then []
    else
      var o := objs[|objs| - 1];
      AllSwitcherActions(objs[..|objs| - 1]) + SwitcherActions(o.name, [o.name] + SwitcherSynonyms(o))
  }

  /** `GetCurrentRoomActions` of a room: interactables, then pickups, then switchers. */
  function RoomActions(objs: seq<WorldObject>): seq<Action>
  {
    AllObjectActions(InteractablesIn(objs)) + AllPickUpActions(PickUpsIn(objs)) + AllSwitcherActions(SwitchersIn(objs))
  }

  /** `GetCurrentRoomSentences` of a room: interactables, then pickups, and no switchers. */
  function RoomSentences(objs: seq<WorldObject>): seq<string>
  {
    AllObjectSentences(InteractablesIn(objs)) + AllPickUpSentences(PickUpsIn(objs))
  }

  lemma {:induction false} AllObjectCounts(objs: seq<WorldObject>)
    ensures |AllObjectSentences(objs)| == |AllObjectActions(objs)|
  {
    if objs != [] {
      AllObjectCounts(objs[..|objs| - 1]);
      var o := objs[|objs| - 1];
      if o.interactable.Some? {
        PossibleSentencesCount(o.name, [o.name] + o.interactable.value.synonyms, o.interactable.value.useSynonyms);
      }
    }
  }

  lemma {:induction false} AllPickUpCounts(ps: seq<WorldObject>)
    ensures |AllPickUpSentences(ps)| == |AllPickUpActions(ps)|
  {
    if ps != [] {
      AllPickUpCounts(ps[..|ps| - 1]);
      var p := ps[|ps| - 1];
      PickUpSentencesVersusActions(p.name, PickUpNames(p));
    }
  }

  /**
   * The room's sentence list is shorter than its action list by exactly the
   * switcher commands, so the two are not aligned once a switcher is present.
   */
  lemma RoomSentencesMissSwitchers(objs: seq<WorldObject>)
    ensures |RoomSentences(objs)| + |AllSwitcherActions(SwitchersIn(objs))| == |RoomActions(objs)|
  {
    AllObjectCounts(InteractablesIn(objs));
    AllPickUpCounts(PickUpsIn(objs));
  }

  // ---------------------------------------------------------------------
  // Lookups shared by the manager's queries

  /**
   * The loop of the `GetClosest...` queries: keeps the object so far
   * nearest, replacing it only with a strictly nearer one; the first
   * object always beats the initial infinite distance.
   */
  method ScanClosest(player: Vec3, objs: seq<WorldObject>) returns (r: Option<WorldObject>)
    ensures r == Closest(player, objs)
  {
    var ds := PlanarDistances(player, objs);
    var closest: Option<WorldObject> := None;
    ghost var k := -1;
    var i := 0;
    while i < |objs|
      invariant 0 <= i <= |objs| && -1 <= k < i
      invariant k == EarliestMinIndex(ds[..i])
      invariant closest == (if k == -1 then None else Some(objs[k]))
    {
      EarliestMinStep(ds, i);
      var distCurr := PlanarSquaredDistance(player, objs[i].position);
      assert distCurr == ds[i];
      assert k != -1 ==> PlanarSquaredDistance(player, closest.value.position) == ds[k];
      if closest.None? || distCurr < PlanarSquaredDistance(player, closest.value.position) {
        closest := Some(objs[i]);
        k := i;
      }
      i := i + 1;
    }
    assert ds[..i] == ds;
    r := closest;
  }

  method CollectObjectActions(its: seq<WorldObject>) returns (result: seq<Action>)
    ensures result == AllObjectActions(its)
  {
    result := [];
    var i := 0;
    while i < |its|
      invariant 0 <= i <= |its|
      invariant result == AllObjectActions(its[..i])
    {
      assert its[..i + 1][..i] == its[..i];
      result := result + ObjectActions(its[i]);
      i := i + 1;
    }
    assert its[..i] == its;
  }

  method CollectPickUpActions(pus: seq<WorldObject>) returns (result: seq<Action>)
    ensures result == AllPickUpActions(pus)
  {
    result := [];
    var i := 0;
    while i < |pus|
      invariant 0 <= i <= |pus|
      invariant result == AllPickUpActions(pus[..i])
    {
      assert pus[..i + 1][..i] == pus[..i];
      var acts := GetPossibleActions(pus[i]);
      result := result + acts;
      i := i + 1;
    }
    assert pus[..i] == pus;
  }

  method CollectSwitcherActions(sws: seq<WorldObject>) returns (result: seq<Action>)
    ensures result == AllSwitcherActions(sws)
  {
    result := [];
    var i := 0;
    while i < |sws|
      invariant 0 <= i <= |sws|
      invariant result == AllSwitcherActions(sws[..i])
    {
      assert sws[..i + 1][..i] == sws[..i];
      var s := sws[i];
      var before := result;
      result := result + SwitcherPair(s.name, s.name);
      var syn := SwitcherSynonyms(s);
      var j := 0;
      while j < |syn|
        invariant 0 <= j <= |syn|
        invariant result == before + SwitcherActions(s.name, [s.name] + syn[..j])
      {
        assert ([s.name] + syn[..j + 1])[..j + 1] == [s.name] + syn[..j];
        result := result + SwitcherPair(s.name, syn[j]);
        j := j + 1;
      }
      assert [s.name] + syn[..j] == [s.name] + syn;
      i := i + 1;
    }
    assert sws[..i] == sws;
  }

  method CollectObjectSentences(its: seq<WorldObject>) returns (result: seq<string>)
    ensures result == AllObjectSentences(its)
  {
    result := [];
    var i := 0;
    while i < |its|
      invariant 0 <= i <= |its|
      invariant result == AllObjectSentences(its[..i])
    {
      assert its[..i + 1][..i] == its[..i];
      result := result + ObjectSentences(its[i]);
      i := i + 1;
    }
    assert its[..i] == its;
  }

  method CollectPickUpSentences(pus: seq<WorldObject>) returns (result: seq<string>)
    ensures result == AllPickUpSentences(pus)
  {
    result := [];
    var i := 0;
    while i < |pus|
      invariant 0 <= i <= |pus|
      invariant result == AllPickUpSentences(pus[..i])
    {
      assert pus[..i + 1][..i] == pus[..i];
      var ss := GetPossibleSentences(pus[i]);
      result := result + ss;
      i := i + 1;
    }
    assert pus[..i] == pus;
  }

  class RoomInteractableManager {
    var currentRoom: Room
    var allRooms: seq<Room>
    /** Whether each room's camera is switched on, index for index with `allRooms`. */
    var cameraActive: seq<bool>
    /** Room enter/exit events fired, in order. */
    var events: seq<RoomEvent>

    predicate Valid()
      reads this
    {
      |cameraActive| == |allRooms|
    }

    constructor (start: Room, rooms: seq<Room>, cams: seq<bool>)
      requires |cams| == |rooms|
      ensures Valid()
      ensures currentRoom == start && allRooms == rooms && cameraActive == cams && events == []
    {
      currentRoom := start;
      allRooms := rooms;
      cameraActive := cams;
      events := [];
    }

    /** `IsCurrentRoom`: plain name equality with the current room. */
    predicate IsCurrentRoom(roomToCheck: string)
      reads this
    {
      roomToCheck == currentRoom.name
    }

    method GetCurrentRoomPickUpByName(n: string) returns (r: Option<WorldObject>)
      ensures r == FindByName(PickUpsIn(currentRoom.children), n)
    {
      r := SearchByName(PickUpsIn(currentRoom.children), n);
    }

    method GetCurrentRoomSwitchersByName(n: string) returns (r: Option<WorldObject>)
      ensures r == FindByName(SwitchersIn(currentRoom.children), n)
    {
      r := SearchByName(SwitchersIn(currentRoom.children), n);
    }

    method GetCurrentRoomInteractableByName(n: string) returns (r: Option<WorldObject>)
      ensures r == FindByName(InteractablesIn(currentRoom.children), n)
    {
      r := SearchByName(InteractablesIn(currentRoom.children), n);
    }

    method GetClosestHidingSpotinCurrentRoom(player: Vec3) returns (r: Option<WorldObject>)
      ensures r == Closest(player, HidingspotsIn(currentRoom.children))
    {
      r := ScanClosest(player, HidingspotsIn(currentRoom.children));
    }

    method GetClosestPickUpFromCurrentRoom(player: Vec3) returns (r: Option<WorldObject>)
      ensures r == Closest(player, PickUpsIn(currentRoom.children))
    {
      r := ScanClosest(player, PickUpsIn(currentRoom.children));
    }

    /** `GetCurrentRoomActions`: the three groups of commands, appended in order. */
    method GetCurrentRoomActions() returns (result: seq<Action>)
      ensures result == RoomActions(currentRoom.children)
    {
      var a := CollectObjectActions(InteractablesIn(currentRoom.children));
      var b := CollectPickUpActions(PickUpsIn(currentRoom.children));
      var c := CollectSwitcherActions(SwitchersIn(currentRoom.children));
      result := a + b + c;
    }

    /** `GetCurrentRoomSentences`: interactables' and pickups' sentences only. */
    method GetCurrentRoomSentences() returns (result: seq<string>)
      ensures result == RoomSentences(currentRoom.children)
    {
      var a := CollectObjectSentences(InteractablesIn(currentRoom.children));
      var b := CollectPickUpSentences(PickUpsIn(currentRoom.children));
      result := a + b;
    }

    /**
     * The loop both `SetCurrentRoom` overloads run: every room matching the
     * key fires the current room's exit event, becomes current, fires its
     * enter event and has its camera switched on; every other room's camera
     * is switched off.
     */
    method SetCurrentRoomWhere(key: RoomKey)
      requires Valid()
      modifies this`currentRoom, this`cameraActive, this`events
      ensures Valid()
      ensures forall i :: 0 <= i < |allRooms| ==> cameraActive[i] == KeyMatches(allRooms[i], key)
      ensures currentRoom == Switched(allRooms, key, old(currentRoom)).current
      ensures events == old(events) + Switched(allRooms, key, old(currentRoom)).fired
    {
      var i := 0;
      while i < |allRooms|
        invariant 0 <= i <= |allRooms| && |cameraActive| == |allRooms|
        invariant forall j :: 0 <= j < i ==> cameraActive[j] == KeyMatches(allRooms[j], key)
        invariant currentRoom == Switched(allRooms[..i], key, old(currentRoom)).current
        invariant events == old(events) + Switched(allRooms[..i], key, old(currentRoom)).fired
      {
        assert allRooms[..i + 1][..i] == allRooms[..i];
        var ri := allRooms[i];
        if KeyMatches(ri, key) {
          events := events + [Exit(currentRoom.name)];
          currentRoom := ri;
          events := events + [Enter(currentRoom.name)];
          cameraActive := cameraActive[i := true];
        } else {
          cameraActive := cameraActive[i := false];
        }
        i := i + 1;
      }
      assert allRooms[..i] == allRooms;
    }

    /** `SetCurrentRoom(GameObject)`: rooms are matched by their root's instance id. */
    method SetCurrentRoomById(g: int)
      requires Valid()
      modifies this`currentRoom, this`cameraActive, this`events
      ensures Valid()
      ensures forall i :: 0 <= i < |allRooms| ==> cameraActive[i] == (allRooms[i].rootId == g)
      ensures currentRoom == Switched(allRooms, ById(g), old(currentRoom)).current
      ensures events == old(events) + Switched(allRooms, ById(g), old(currentRoom)).fired
    {
      SetCurrentRoomWhere(ById(g));
    }

    /** `SetCurrentRoom(string)`: rooms are matched by name. */
    method SetCurrentRoomByName(rname: string)
      requires Valid()
      modifies this`currentRoom, this`cameraActive, this`events
      ensures Valid()
      ensures forall i :: 0 <= i < |allRooms| ==> cameraActive[i] == (allRooms[i].name == rname)
      ensures currentRoom == Switched(allRooms, ByName(rname), old(currentRoom)).current
      ensures events == old(events) + Switched(allRooms, ByName(rname), old(currentRoom)).fired
    {
      SetCurrentRoomWhere(ByName(rname));
    }

    /** `Awake`: selects the configured room through its root object. */
    method Awake()
      requires Valid()
      modifies this`currentRoom, this`cameraActive, this`events
      ensures Valid()
      ensures forall i :: 0 <= i < |allRooms| ==> cameraActive[i] == (allRooms[i].rootId == old(currentRoom).rootId)
      ensures currentRoom == Switched(allRooms, ById(old(currentRoom).rootId), old(currentRoom)).current
      ensures events == old(events) + Switched(allRooms, ById(old(currentRoom).rootId), old(currentRoom)).fired
    {
      SetCurrentRoomById(currentRoom.rootId);
    }

    /**
     * The room side of `Transform.SetParent` moving the object with instance
     * id `id` out of the room hierarchy: every room, the current one
     * included, stops listing it; nothing else about the rooms changes.
     */
    method Detach(id: int)
      requires Valid()
      modifies this`currentRoom, this`allRooms
      ensures Valid()
      ensures currentRoom == Detached(old(currentRoom), id)
      ensures |allRooms| == |old(allRooms)|
      ensures forall i :: 0 <= i < |allRooms| ==> allRooms[i] == Detached(old(allRooms)[i], id)
    {
      var rs := allRooms;
      currentRoom := Detached(currentRoom, id);
      allRooms := seq(|rs|, i requires 0 <= i < |rs| => Detached(rs[i], id));
    }
  }

  /**
   * `Inventory.AddItem` together with the room side of its re-parenting:
   * `g` leaves every room's hierarchy, joins the inventory's children, and
   * its `PickUp` is told it was picked up (a null dereference without one).
   */
  method AddItemFromRoom(inv: Inventories.Inventory, g: WorldObject, registry: PickUpRegistry, rooms: RoomInteractableManager)
    returns (o: Inventories.Outcome)
    requires rooms.Valid()
    modifies inv, registry, rooms`currentRoom, rooms`allRooms
    ensures rooms.Valid()
    ensures rooms.currentRoom == Detached(old(rooms.currentRoom), g.id)
    ensures |rooms.allRooms| == |old(rooms.allRooms)|
    ensures forall i :: 0 <= i < |rooms.allRooms| ==> rooms.allRooms[i] == Detached(old(rooms.allRooms)[i], g.id)
    ensures inv.children == old(inv.children) + [g] && inv.notices == old(inv.notices)
    ensures o == Inventories.Ok <==> IsPickUp(g)
    ensures registry.possiblePickUps == (if IsPickUp(g) then Lists.RemoveFirst(old(registry.possiblePickUps), g)
                                         else old(registry.possiblePickUps))
  {
    rooms.Detach(g.id);
    o := inv.AddItem(g, registry);
  }

  /**
   * Once `g` has left a room, none of the room's by-name lookups and
   * nearest-object queries can return it again.
   */
  lemma DetachedNotOffered(r: Room, g: WorldObject, n: string, player: Vec3)
    ensures FindByName(PickUpsIn(Detached(r, g.id).children), n) != Some(g)
    ensures FindByName(InteractablesIn(Detached(r, g.id).children), n) != Some(g)
    ensures FindByName(SwitchersIn(Detached(r, g.id).children), n) != Some(g)
    ensures Closest(player, PickUpsIn(Detached(r, g.id).children)) != Some(g)
    ensures Closest(player, HidingspotsIn(Detached(r, g.id).children)) != Some(g)
  {
    var left := Detached(r, g.id).children;
    assert g !in left;
    assert g !in PickUpsIn(left) && g !in InteractablesIn(left) && g !in SwitchersIn(left) && g !in HidingspotsIn(left);
  }

  /** Detaching an object no room holds leaves the room as it was. */
  lemma {:induction false} DetachAbsent(objs: seq<WorldObject>, id: int)
    requires forall k :: 0 <= k < |objs| ==> objs[k].id != id
    ensures WithoutId(objs, id) == objs
  {
    if objs != [] {
      DetachAbsent(objs[1..], id);
    }
  }

  /** The current room and the events fired after `SetCurrentRoom` visits `rooms`. */
  datatype SwitchState = SwitchState(current: Room, fired: seq<RoomEvent>)

  function Switched(rooms: seq<Room>, key: RoomKey, start: Room): SwitchState
  {
    if rooms == [] then SwitchState(start, [])
    else
      var st := Switched(rooms[..|rooms| - 1], key, start);
      var r := rooms[|rooms| - 1];
      if KeyMatches(r, key) then SwitchState(r, st.fired + [Exit(st.current.name), Enter(r.name)]) else st
  }

  /** With no matching room the current room stays and no event fires. */
  lemma {:induction false} SwitchedNoMatch(rooms: seq<Room>, key: RoomKey, start: Room)
    requires forall i :: 0 <= i < |rooms| ==> !KeyMatches(rooms[i], key)
    ensures Switched(rooms, key, start) == SwitchState(start, [])
  {
    if rooms != [] {
      SwitchedNoMatch(rooms[..|rooms| - 1], key, start);
    }
  }

  /**
   * With exactly one matching room, the old room's exit event and the new
   * room's enter event fire, in that order, and that room becomes current.
   */
  lemma {:induction false} SwitchedUniqueMatch(rooms: seq<Room>, key: RoomKey, start: Room, k: nat)
    requires k < |rooms| && KeyMatches(rooms[k], key)
    requires forall i :: 0 <= i < |rooms| && i != k ==> !KeyMatches(rooms[i], key)
    ensures Switched(rooms, key, start) == SwitchState(rooms[k], [Exit(start.name), Enter(rooms[k].name)])
  {
    var init := rooms[..|rooms| - 1];
    if k == |rooms| - 1 {
      SwitchedNoMatch(init, key, start);
    } else {
      SwitchedUniqueMatch(init, key, start, k);
    }
  }

  /** After a switch that found its room, that room is the current one. */
  lemma {:induction false} SwitchedToMatch(rooms: seq<Room>, key: RoomKey, start: Room)
    requires exists i :: 0 <= i < |rooms| && KeyMatches(rooms[i], key)
    ensures KeyMatches(Switched(rooms, key, start).current, key)
  {
    var init := rooms[..|rooms| - 1];
    if !KeyMatches(rooms[|rooms| - 1], key) {
      var i :| 0 <= i < |rooms| && KeyMatches(rooms[i], key);
      assert init[i] == rooms[i];
      SwitchedToMatch(init, key, start);
    }
  }
}
