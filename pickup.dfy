/**
 * `PickUp`: objects the agent can carry, the static registry of those in
 * play, and the commands offered for each of them.
 */
module PickUps {
  import opened Actions
  import opened World
  import Lists

  /** The object's own name followed by its synonyms. */
  function PickUpNames(o: WorldObject): (r: seq<string>)
    ensures |r| >= 1 && r[0] == o.name
  {
    [o.name] + (if o.pickUp.Some? then o.pickUp.value.synonyms else [])
  }

  function PickUpBlock(noun: string, n: string): seq<Action>
  {
    [Action("Move to the " + n, "MoveTo", noun), Action("Go to the " + n, "MoveTo", noun),
     Action("Pick up the " + n, "PickUp", noun)]
  }

  /** The actions `GetPossibleActions` builds, three per name, in name order. */
  function PickUpActions(noun: string, names: seq<string>): seq<Action>
  {
    if names == [] then []
    else PickUpActions(noun, names[..|names| - 1]) + PickUpBlock(noun, names[|names| - 1])
  }

  /** The sentences `GetPossibleSentences` builds, three per name, in name order. */
  function PickUpSentences(names: seq<string>): seq<string>
  {
    if names == [] then []
    else
      var n := names[|names| - 1];
      PickUpSentences(names[..|names| - 1]) + ["Move to the " + n, "Go to the " + n, "Pick Up the " + n]
  }

  /**
   * Three actions per name, all aimed at `noun`: two `MoveTo` and then one
   * `PickUp` saying "Pick up the <name>".
   */
  lemma {:induction false} PickUpActionsShape(noun: string, names: seq<string>)
    ensures |PickUpActions(noun, names)| == 3 * |names|
    ensures forall i :: 0 <= i < |names| ==>
      PickUpActions(noun, names)[3 * i..3 * i + 3] == PickUpBlock(noun, names[i])
    ensures forall k :: 0 <= k < 3 * |names| ==> PickUpActions(noun, names)[k].noun == noun
  {
    if names != [] {
      var init := names[..|names| - 1];
      PickUpActionsShape(noun, init);
      var r := PickUpActions(noun, names);
      assert r == PickUpActions(noun, init) + PickUpBlock(noun, names[|names| - 1]);
      forall i | 0 <= i < |names|
        ensures r[3 * i..3 * i + 3] == PickUpBlock(noun, names[i])
      {
        if i < |init| {
          assert r[3 * i..3 * i + 3] == PickUpActions(noun, init)[3 * i..3 * i + 3];
        }
      }
      forall k | 0 <= k < 3 * |names|
        ensures r[k].noun == noun
      {
        if k >= 3 * |init| {
          assert r[k] == PickUpBlock(noun, names[|names| - 1])[k - 3 * |init|];
        }
      }
    }
  }

  /**
   * The sentences line up with the actions except at every third entry,
   * where the sentence says "Pick Up the" and the action "Pick up the".
   */
  lemma {:induction false} PickUpSentencesVersusActions(noun: string, names: seq<string>)
    ensures |PickUpSentences(names)| == |PickUpActions(noun, names)|
    ensures forall k :: 0 <= k < |PickUpSentences(names)| ==>
      (PickUpSentences(names)[k] == Sentences(PickUpActions(noun, names))[k] <==> k % 3 != 2)
  {
    if names != [] {
      var init := names[..|names| - 1];
      var n := names[|names| - 1];
      PickUpSentencesVersusActions(noun, init);
      PickUpActionsShape(noun, init);
      var s := PickUpSentences(names);
      var a := Sentences(PickUpActions(noun, names));
      forall k | 0 <= k < |s|
        ensures s[k] == a[k] <==> k % 3 != 2
      {
        if k >= 3 * |init| {
          var j := k - 3 * |init|;
          assert k % 3 == j;
          if j == 2 {
            assert s[k] == "Pick Up the " + n;
            assert a[k] == "Pick up the " + n;
            assert s[k][5] != a[k][5];
          }
        }
      }
    }
  }

  /** What `GetPossibleActionsForAll` gathers: each registered pickup's actions, in registration order. */
  function AllPickUpActions(ps: seq<WorldObject>): seq<Action>
  {
    if ps == [] then []
    else
      var p := ps[|ps| - 1];
      AllPickUpActions(ps[..|ps| - 1]) + PickUpActions(p.name, PickUpNames(p))
  }

  /** What `GetPossibleSentencesForAll` gathers, in registration order. */
  function AllPickUpSentences(ps: seq<WorldObject>): seq<string>
  {
    if ps == [] then [] else AllPickUpSentences(ps[..|ps| - 1]) + PickUpSentences(PickUpNames(ps[|ps| - 1]))
  }

  /** Gathering over two groups of pickups is gathering over each, one after the other. */
  lemma {:induction false} AllPickUpActionsAppend(a: seq<WorldObject>, b: seq<WorldObject>)
    ensures AllPickUpActions(a + b) == AllPickUpActions(a) + AllPickUpActions(b)
  {
    if b == [] {
      assert a + b == a;
    } else {
      var b' := b[..|b| - 1];
      var x := b[|b| - 1];
      var last := PickUpActions(x.name, PickUpNames(x));
      assert (a + b)[..|a + b| - 1] == a + b';
      assert (a + b)[|a + b| - 1] == x;
      AllPickUpActionsAppend(a, b');
      Lists.ConcatAssoc(AllPickUpActions(a), AllPickUpActions(b'), last);
    }
  }

  /** `GetPossibleActions` of one pickup. */
  method GetPossibleActions(p: WorldObject) returns (r: seq<Action>)
    ensures r == PickUpActions(p.name, PickUpNames(p))
  {
    var names := PickUpNames(p);
    r := [];
    var i := 0;
    while i < |names|
      invariant 0 <= i <= |names|
      invariant r == PickUpActions(p.name, names[..i])
    {
      assert names[..i + 1][..i] == names[..i];
      r := r + [Action("Move to the " + names[i], "MoveTo", p.name)];
      r := r + [Action("Go to the " + names[i], "MoveTo", p.name)];
      r := r + [Action("Pick up the " + names[i], "PickUp", p.name)];
      i := i + 1;
    }
    assert names[..i] == names;
  }

  /** `GetPossibleSentences` of one pickup. */
  method GetPossibleSentences(p: WorldObject) returns (r: seq<string>)
    ensures r == PickUpSentences(PickUpNames(p))
  {
    var names := PickUpNames(p);
    r := [];
    var i := 0;
    while i < |names|
      invariant 0 <= i <= |names|
      invariant r == PickUpSentences(names[..i])
    {
      assert names[..i + 1][..i] == names[..i];
      r := r + ["Move to the " + names[i]];
      r := r + ["Go to the " + names[i]];
      r := r + ["Pick Up the " + names[i]];
      i := i + 1;
    }
    assert names[..i] == names;
  }

  /** The static `possiblePickUps` list. */
  class PickUpRegistry {
    var possiblePickUps: seq<WorldObject>

    constructor ()
      ensures possiblePickUps == []
    {
      possiblePickUps := [];
    }

    /** `Start`: the pickup registers itself at the end of the list. */
    method Start(p: WorldObject)
      modifies this
      ensures possiblePickUps == old(possiblePickUps) + [p]
    {
      possiblePickUps := possiblePickUps + [p];
    }

    /** `PickedUp`: the first registration of the pickup is removed. */
    method PickedUp(p: WorldObject)
      modifies this
      ensures possiblePickUps == Lists.RemoveFirst(old(possiblePickUps), p)
    {
      possiblePickUps := Lists.RemoveFirst(possiblePickUps, p);
    }

    /** `GetPickUp`: the first registered pickup whose normalised name is `name`. */
    method GetPickUp(name: string) returns (r: Option<WorldObject>)
      ensures r == FindByName(possiblePickUps, name)
    {
      r := SearchByName(possiblePickUps, name);
    }

    method GetPossibleActionsForAll() returns (r: seq<Action>)
      ensures r == AllPickUpActions(possiblePickUps)
    {
      r := [];
      var i := 0;
      while i < |possiblePickUps|
        invariant 0 <= i <= |possiblePickUps|
        invariant r == AllPickUpActions(possiblePickUps[..i])
      {
        assert possiblePickUps[..i + 1][..i] == possiblePickUps[..i];
        var acts := GetPossibleActions(possiblePickUps[i]);
        r := r + acts;
        i := i + 1;
      }
      assert possiblePickUps[..i] == possiblePickUps;
    }

    method GetPossibleSentencesForAll() returns (r: seq<string>)
      ensures r == AllPickUpSentences(possiblePickUps)
    {
      r := [];
      var i := 0;
      while i < |possiblePickUps|
        invariant 0 <= i <= |possiblePickUps|
        invariant r == AllPickUpSentences(possiblePickUps[..i])
      {
        assert possiblePickUps[..i + 1][..i] == possiblePickUps[..i];
        var ss := GetPossibleSentences(possiblePickUps[i]);
        r := r + ss;
        i := i + 1;
      }
      assert possiblePickUps[..i] == possiblePickUps;
    }
  }
}
