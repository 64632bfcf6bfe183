/**
 * The wire puzzle.  Each wire must be dragged onto the end that carries its
 * own id; the manager declares victory once every registered wire is
 * connected, and a click on empty space disconnects everything and
 * reshuffles the ends.
 */
module Wires {
  import opened World

  /** A wire's `EndWire` transform, with the id of its `WireEnd` component when it has one. */
  class EndPoint {
    var position: Vec3
    const wireEnd: Option<int>

    constructor (position: Vec3, wireEnd: Option<int>)
      ensures this.position == position && this.wireEnd == wireEnd
    {
      this.position := position;
      this.wireEnd := wireEnd;
    }
  }

  class Wire {
    const endWire: EndPoint
    const wireId: int
    var originalPosition: Vec3
    var position: Vec3
    var connected: bool
    var dragging: bool

    constructor (endWire: EndPoint, wireId: int, position: Vec3)
      ensures this.endWire == endWire && this.wireId == wireId && this.position == position
      ensures !connected && !dragging
    {
      this.endWire := endWire;
      this.wireId := wireId;
      this.position := position;
      originalPosition := position;
      connected := false;
      dragging := false;
    }

    /** `Start`: the current position becomes the one to return to, and the wire registers. */
    method Start(manager: WireManager)
      modifies this`originalPosition, manager`wires
      ensures originalPosition == position
      ensures manager.wires == Registered(old(manager.wires), this)
    {
      originalPosition := position;
      manager.Register(this);
    }

    /** `Connect`: the wire snaps onto its end, and the manager checks the puzzle. */
    method Connect(manager: WireManager)
      modifies this`position, this`connected, this`dragging, manager`victorious, manager`successSounds
      ensures position == endWire.position && connected && !dragging
      ensures old(manager.victorious) ==>
        manager.victorious && manager.successSounds == old(manager.successSounds)
      ensures !old(manager.victorious) ==>
        (manager.victorious <==> manager.AllConnected())
        && manager.successSounds == old(manager.successSounds) + (if manager.AllConnected() then 1 else 0)
    {
      position := endWire.position;
      connected := true;
      dragging := false;
      manager.CheckPuzzle();
    }

    /** `Disconnect`: the wire lets go and returns to where it started. */
    method Disconnect()
      modifies this`position, this`connected, this`dragging
      ensures !connected && !dragging && position == originalPosition
    {
      connected := false;
      dragging := false;
      position := originalPosition;
    }
  }

  /** The end positions of `ws`, index for index. */
  function Positions(ws: seq<Wire>): (r: seq<Vec3>)
    reads set w | w in ws :: w.endWire
    ensures |r| == |ws|
    ensures forall i :: 0 <= i < |ws| ==> r[i] == ws[i].endWire.position
  {
    if ws == [] then [] else [ws[0].endWire.position] + Positions(ws[1..])
  }

  /** No element occurs twice. */
  predicate NoDuplicates<T(==)>(s: seq<T>)
  {
    forall i, j :: 0 <= i < j < |s| ==> s[i] != s[j]
  }

  /** `Register`'s list: `w` is added at the end unless it is already there. */
  function Registered(ws: seq<Wire>, w: Wire): (r: seq<Wire>)
    ensures w in r
    ensures |r| == |ws| + (if w in ws then 0 else 1)
    ensures r[..|ws|] == ws
  {
    if w in ws then ws else ws + [w]
  }

  /** Registering never creates a duplicate, and registering twice is registering once. */
  lemma RegisteredKeepsNoDuplicates(ws: seq<Wire>, w: Wire)
    requires NoDuplicates(ws)
    ensures NoDuplicates(Registered(ws, w))
    ensures Registered(Registered(ws, w), w) == Registered(ws, w)
  {
    if w !in ws {
      var r := ws + [w];
      forall i, j | 0 <= i < j < |r|
        ensures r[i] != r[j]
      {
        if j == |ws| {
          assert r[i] == ws[i];
        }
      }
    }
  }

  /**
   * The draws of `ShuffleWires`: step by step, one of the positions not yet
   * handed out is picked at random and removed from the pool.  Every position
   * is handed out exactly once.
   */
  method Deal(pool: seq<Vec3>) returns (dealt: seq<Vec3>)
    ensures |dealt| == |pool|
    ensures multiset(dealt) == multiset(pool)
  {
    var positions := pool;
    dealt := [];
    while positions != []
      invariant |dealt| + |positions| == |pool|
      invariant multiset(dealt) + multiset(positions) == multiset(pool)
      decreases |positions|
    {
      var r :| 0 <= r < |positions|;
      var p := positions[r];
      assert positions == positions[..r] + [p] + positions[r + 1..];
      positions := positions[..r] + positions[r + 1..];
      dealt := dealt + [p];
    }
  }

  /** No two of `ws` share an end. */
  predicate DistinctEnds(ws: seq<Wire>)
  {
    forall i, j :: 0 <= i < j < |ws| ==> ws[i].endWire != ws[j].endWire
  }

  class WireManager {
    var wires: seq<Wire>
    var victorious: bool
    /** How often the success sound has been played. */
    var successSounds: nat

    constructor ()
      ensures wires == [] && !victorious && successSounds == 0
    {
      wires := [];
      victorious := false;
      successSounds := 0;
    }

    function WireSet(): set<Wire>
      reads this
    {
      set w | w in wires
    }

    function Ends(): set<EndPoint>
      reads this
    {
      set w | w in wires :: w.endWire
    }

    /** Every registered wire is connected (vacuously so for none). */
    predicate AllConnected()
      reads this, WireSet()
    {
      forall i :: 0 <= i < |wires| ==> wires[i].connected
    }

    function EndPositions(): seq<Vec3>
      reads this, Ends()
    {
      Positions(wires)
    }

    /** `Register`: adds the wire unless it is already registered. */
    method Register(w: Wire)
      modifies this`wires
      ensures wires == Registered(old(wires), w)
    {
      if w !in wires {
        wires := wires + [w];
      }
    }

    /** `CanConnect`: the end has a `WireEnd` component, and its id is the wire's. */
    method CanConnect(w: Wire) returns (b: bool)
      ensures b <==> w.endWire.wireEnd.Some? && w.endWire.wireEnd.value == w.wireId
    {
      match w.endWire.wireEnd {
        case None => b := false;
        case Some(id) => b := id == w.wireId;
      }
    }

    /**
     * `CheckPuzzle`: once victorious nothing happens; otherwise the puzzle is
     * solved exactly when every registered wire is connected.
     */
    method CheckPuzzle()
      modifies this`victorious, this`successSounds
      ensures old(victorious) ==> victorious && successSounds == old(successSounds)
      ensures !old(victorious) ==>
        (victorious <==> AllConnected())
        && successSounds == old(successSounds) + (if AllConnected() then 1 else 0)
    {
      if victorious {
        return;
      }
      var i := 0;
      while i < |wires|
        invariant 0 <= i <= |wires|
        invariant forall j :: 0 <= j < i ==> wires[j].connected
      {
        if !wires[i].connected {
          return;
        }
        i := i + 1;
      }
      PuzzleSolved();
    }

    /** `PuzzleSolved`: victory, announced by the success sound. */
    method PuzzleSolved()
      modifies this`victorious, this`successSounds
      ensures victorious && successSounds == old(successSounds) + 1
    {
      victorious := true;
      successSounds := successSounds + 1;
    }

    /**
     * `ResetAll`: victory is withdrawn, every wire is disconnected and back at
     * its start, and the ends are shuffled.
     */
    method ResetAll()
      modifies this`victorious, WireSet(), Ends()
      ensures !victorious && wires == old(wires)
      ensures forall i :: 0 <= i < |wires| ==>
        !wires[i].connected && !wires[i].dragging && wires[i].position == wires[i].originalPosition
      ensures forall i :: 0 <= i < |wires| ==> wires[i].endWire.position in old(EndPositions())
      ensures DistinctEnds(wires) ==> multiset(EndPositions()) == multiset(old(EndPositions()))
    {
      ghost var before := EndPositions();
      victorious := false;
      DisconnectAll();
      assert EndPositions() == before;
      ShuffleWires();
    }

    /** The `foreach` of `ResetAll` that disconnects every wire. */
    method DisconnectAll()
      modifies WireSet()
      ensures forall i :: 0 <= i < |wires| ==>
        !wires[i].connected && !wires[i].dragging && wires[i].position == wires[i].originalPosition
    {
      var i := 0;
      while i < |wires|
        invariant 0 <= i <= |wires|
        invariant forall j :: 0 <= j < i ==>
          !wires[j].connected && !wires[j].dragging && wires[j].position == wires[j].originalPosition
      {
        wires[i].Disconnect();
        i := i + 1;
      }
    }

    /** The first loop of `ShuffleWires`: the end positions in wire order. */
    method CollectEndPositions() returns (positions: seq<Vec3>)
      ensures positions == EndPositions()
    {
      positions := [];
      var i := 0;
      while i < |wires|
        invariant 0 <= i <= |wires| && |positions| == i
        invariant forall j :: 0 <= j < i ==> positions[j] == wires[j].endWire.position
      {
        positions := positions + [wires[i].endWire.position];
        i := i + 1;
      }
    }

    /**
     * The assignments of `ShuffleWires`' second loop, in wire order: each end
     * holds a dealt position afterwards, and when no two wires share an end,
     * wire `k`'s end holds the `k`-th.
     */
    method PlaceEnds(dealt: seq<Vec3>)
      requires |dealt| == |wires|
      modifies Ends()
      ensures forall j :: 0 <= j < |wires| ==> wires[j].endWire.position in dealt
      ensures DistinctEnds(wires) ==> forall j :: 0 <= j < |wires| ==> wires[j].endWire.position == dealt[j]
    {
      var ws := wires;
      var k := 0;
      while k < |ws|
        invariant 0 <= k <= |ws|
        invariant forall j :: 0 <= j < k ==> ws[j].endWire.position in dealt[..k]
        invariant DistinctEnds(ws) ==> forall j :: 0 <= j < k ==> ws[j].endWire.position == dealt[j]
      {
        var e := ws[k].endWire;
        e.position := dealt[k];
        assert dealt[..k + 1] == dealt[..k] + [dealt[k]];
        k := k + 1;
      }
    }

    /**
     * `ShuffleWires`: each wire in turn takes a position drawn at random from
     * those not yet handed out.  The draws do not depend on the ends, so they
     * are made first and then assigned in the same order.  Every end ends up
     * at one of the original end positions, and when no two wires share an
     * end the new positions are a permutation of the old ones.
     */
    method ShuffleWires()
      modifies Ends()
      ensures forall i :: 0 <= i < |wires| ==> wires[i].endWire.position in old(EndPositions())
      ensures DistinctEnds(wires) ==> multiset(EndPositions()) == multiset(old(EndPositions()))
    {
      var positions := CollectEndPositions();
      var dealt := Deal(positions);
      PlaceEnds(dealt);
      forall i | 0 <= i < |wires|
        ensures wires[i].endWire.position in positions
      {
        assert wires[i].endWire.position in multiset(dealt);
      }
      if DistinctEnds(wires) {
        assert EndPositions() == dealt;
      }
    }
  }
}
