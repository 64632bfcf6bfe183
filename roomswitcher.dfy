/**
 * `RoomSwitcher`: a trigger volume that moves the agent into another room
 * when the agent walks through it.
 */
module RoomSwitchers {
  import opened Strings
  import opened Actions
  import opened Rooms
  import Lists

  /** `FindRoomSwitcher`'s test: both sides lowercased, dots kept. */
  predicate LowerNameMatches(name: string, arg: string)
  {
    ToLower(name) == ToLower(arg)
  }

  /** The test ignores case on either side. */
  lemma LowerNameMatchesIgnoresCase(name: string, arg: string)
    ensures LowerNameMatches(name, arg) <==> LowerNameMatches(ToLower(name), arg)
    ensures LowerNameMatches(name, arg) <==> LowerNameMatches(name, ToLower(arg))
  {
    ToLowerIdempotent(name);
    ToLowerIdempotent(arg);
  }

  /** Unlike the room manager's lookups, a dot in the switcher's name must be spoken. */
  lemma FindRoomSwitcherKeepsDots()
    ensures NormalizedName("a.b") == "ab"
    ensures !LowerNameMatches("a.b", "ab")
  {
    assert ToLower("a.b") == "a.b";
    assert ToLower("ab") == "ab";
    assert ToLower("a.b")[1] != ToLower("ab")[1];
    assert Remove("a.b", '.') == "ab" by {
      assert "a.b"[1..] == ".b" && ".b"[1..] == "b" && "b"[1..] == [];
    }
  }

  class RoomSwitcher {
    const name: string
    const synonyms: seq<string>
    /** Instance id of the root of the room the switcher leads to. */
    const room: int
    /** How often the switcher's own `unityEvent` has been invoked. */
    var eventCount: nat

    constructor (name: string, synonyms: seq<string>, room: int)
      ensures this.name == name && this.synonyms == synonyms && this.room == room && eventCount == 0
    {
      this.name := name;
      this.synonyms := synonyms;
      this.room := room;
      eventCount := 0;
    }

    /** `OnEnable`: the switcher joins the registry. */
    method OnEnable(registry: RoomSwitcherRegistry)
      modifies registry
      ensures registry.roomSwitchers == old(registry.roomSwitchers) + [this]
    {
      registry.roomSwitchers := registry.roomSwitchers + [this];
    }

    /** `OnDisable`: its first registration is removed. */
    method OnDisable(registry: RoomSwitcherRegistry)
      modifies registry
      ensures registry.roomSwitchers == Lists.RemoveFirst(old(registry.roomSwitchers), this)
    {
      registry.roomSwitchers := Lists.RemoveFirst(registry.roomSwitchers, this);
    }

    /**
     * `OnTriggerEnter`: only a collider tagged "Player" switches the current
     * room to the switcher's target and invokes the switcher's event.
     */
    method OnTriggerEnter(tag: string, manager: RoomInteractableManager)
      requires manager.Valid()
      modifies this, manager`currentRoom, manager`cameraActive, manager`events
      ensures manager.Valid()
      ensures tag != "Player" ==>
        eventCount == old(eventCount) && manager.currentRoom == old(manager.currentRoom)
        && manager.cameraActive == old(manager.cameraActive) && manager.events == old(manager.events)
      ensures tag == "Player" ==>
        eventCount == old(eventCount) + 1
        && manager.currentRoom == Switched(manager.allRooms, ById(room), old(manager.currentRoom)).current
        && manager.events == old(manager.events) + Switched(manager.allRooms, ById(room), old(manager.currentRoom)).fired
        && forall i :: 0 <= i < |manager.allRooms| ==> manager.cameraActive[i] == (manager.allRooms[i].rootId == room)
    {
      if tag == "Player" {
        manager.SetCurrentRoomById(room);
        eventCount := eventCount + 1;
      }
    }
  }

  /** The static `roomSwitchers` list. */
  class RoomSwitcherRegistry {
    var roomSwitchers: seq<RoomSwitcher>

    constructor ()
      ensures roomSwitchers == []
    {
      roomSwitchers := [];
    }

    /**
     * `FindRoomSwitcher`: the first registered switcher whose lowercased name
     * equals the lowercased argument, else null.
     */
    method FindRoomSwitcher(n: string) returns (r: RoomSwitcher?)
      ensures r == null <==> forall j :: 0 <= j < |roomSwitchers| ==> !LowerNameMatches(roomSwitchers[j].name, n)
      ensures r != null ==> LowerNameMatches(r.name, n)
      ensures r != null ==> exists k :: 0 <= k < |roomSwitchers| && roomSwitchers[k] == r && FirstMatch(k, n)
    {
      var i := 0;
      while i < |roomSwitchers|
        invariant 0 <= i <= |roomSwitchers|
        invariant forall j :: 0 <= j < i ==> !LowerNameMatches(roomSwitchers[j].name, n)
      {
        if ToLower(roomSwitchers[i].name) == ToLower(n) {
          assert FirstMatch(i, n);
          return roomSwitchers[i];
        }
        i := i + 1;
      }
      return null;
    }

    /** No switcher registered before index `k` matches `n`. */
    predicate FirstMatch(k: int, n: string)
      reads this
    {
      0 <= k <= |roomSwitchers| && forall j :: 0 <= j < k ==> !LowerNameMatches(roomSwitchers[j].name, n)
    }
  }
}
