/**
 * `Interactable`: an object the agent can walk to and use.  It offers
 * voice commands built from its names, keeps the list of actions available
 * while it is in use, and fires inspector-wired events when an action
 * matches one of its action/event pairs.
 */
module Interactables {
  import opened Strings
  import opened Actions
  import opened World
  import opened Inventories
  import Lists

  // ---------------------------------------------------------------------
  // Command generation

  /** One `UseInteract` action per use-synonym, saying "<synonym> <name>". */
  function UseSynonymActions(noun: string, n: string, use: seq<string>): (r: seq<Action>)
    ensures |r| == |use|
    ensures forall j :: 0 <= j < |use| ==> r[j] == Action(use[j] + " " + n, "UseInteract", noun)
  {
    if use == [] then []
    else UseSynonymActions(noun, n, use[..|use| - 1]) + [Action(use[|use| - 1] + " " + n, "UseInteract", noun)]
  }

  /** The actions made from one name: two `MoveTo`, two `UseInteract`, then the use-synonyms. */
  function NameActions(noun: string, n: string, use: seq<string>): (r: seq<Action>)
    ensures |r| == 4 + |use|
    ensures r[0].verb == "MoveTo" && r[1].verb == "MoveTo"
    ensures forall k :: 2 <= k < |r| ==> r[k].verb == "UseInteract"
    ensures forall k :: 0 <= k < |r| ==> r[k].noun == noun
  {
    [Action("Move to the " + n, "MoveTo", noun), Action("Go to the " + n, "MoveTo", noun),
     Action("Use the " + n, "UseInteract", noun), Action("Interact with the " + n, "UseInteract", noun)]
    + UseSynonymActions(noun, n, use)
  }

  /** What `GetPossibleActions` builds for the names given, in name order. */
  function PossibleActions(noun: string, names: seq<string>, use: seq<string>): seq<Action>
  {
    if names == [] then []
    else PossibleActions(noun, names[..|names| - 1], use) + NameActions(noun, names[|names| - 1], use)
  }

  /** One pass of `GetPossibleActions`' outer loop: the block for name `n` is appended to `r0`. */
  method AppendNameActions(r0: seq<Action>, noun: string, n: string, use: seq<string>) returns (r: seq<Action>)
    ensures r == r0 + NameActions(noun, n, use)
  {
    r := r0;
    r := r + [Action("Move to the " + n, "MoveTo", noun)];
    r := r + [Action("Go to the " + n, "MoveTo", noun)];
    r := r + [Action("Use the " + n, "UseInteract", noun)];
    r := r + [Action("Interact with the " + n, "UseInteract", noun)];
    var j := 0;
    while j < |use|
      invariant 0 <= j <= |use|
      invariant r == r0 + NameActions(noun, n, use[..j])
    {
      assert use[..j + 1][..j] == use[..j];
      r := r + [Action(use[j] + " " + n, "UseInteract", noun)];
      j := j + 1;
    }
    assert use[..j] == use;
  }

  /** One sentence per use-synonym, written "<synonym>the <name>". */
  function UseSynonymSentences(n: string, use: seq<string>): (r: seq<string>)
    ensures |r| == |use|
    ensures forall j :: 0 <= j < |use| ==> r[j] == use[j] + "the " + n
  {
    if use == [] then []
    else UseSynonymSentences(n, use[..|use| - 1]) + [use[|use| - 1] + "the " + n]
  }

  function NameSentences(n: string, use: seq<string>): (r: seq<string>)
    ensures |r| == 4 + |use|
  {
    ["Move to the " + n, "Go to the " + n, "Use the " + n, "Interact with the " + n]
    + UseSynonymSentences(n, use)
  }

  /** What `GetPossibleSentences` builds for the names given, in name order. */
  function PossibleSentences(names: seq<string>, use: seq<string>): seq<string>
  {
    if names == [] then []
    else PossibleSentences(names[..|names| - 1], use) + NameSentences(names[|names| - 1], use)
  }

  /** (1 + |synonyms|)·(4 + |useSynonyms|) actions, every one naming the object itself as noun. */
  lemma {:induction false} PossibleActionsCount(noun: string, names: seq<string>, use: seq<string>)
    ensures |PossibleActions(noun, names, use)| == |names| * (4 + |use|)
    ensures forall k :: 0 <= k < |PossibleActions(noun, names, use)| ==> PossibleActions(noun, names, use)[k].noun == noun
  {
    if names != [] {
      var init := names[..|names| - 1];
      PossibleActionsCount(noun, init, use);
      var p := PossibleActions(noun, init, use);
      var last := NameActions(noun, names[|names| - 1], use);
      assert PossibleActions(noun, names, use) == p + last;
      assert |names| * (4 + |use|) == |init| * (4 + |use|) + (4 + |use|);
    }
  }

  /** Building the actions for two lists of names one after the other is building them for the joined list. */
  lemma {:induction false} PossibleActionsAppend(noun: string, a: seq<string>, b: seq<string>, use: seq<string>)
    ensures PossibleActions(noun, a + b, use) == PossibleActions(noun, a, use) + PossibleActions(noun, b, use)
  {
    if b == [] {
      assert a + b == a;
    } else {
      var b' := b[..|b| - 1];
      var last := NameActions(noun, b[|b| - 1], use);
      assert PossibleActions(noun, a + b, use) == PossibleActions(noun, a + b', use) + last by {
        assert (a + b)[..|a + b| - 1] == a + b';
        assert (a + b)[|a + b| - 1] == b[|b| - 1];
      }
      PossibleActionsAppend(noun, a, b', use);
      Lists.ConcatAssoc(PossibleActions(noun, a, use), PossibleActions(noun, b', use), last);
    }
  }

  /**
   * The actions come in one block per name, in name order: block `i`, of
   * `4 + |use|` actions starting at `i * (4 + |use|)`, is that of `names[i]`.
   */
  lemma PossibleActionsBlocks(noun: string, names: seq<string>, use: seq<string>, i: nat)
    requires i < |names|
    ensures PossibleActions(noun, names, use)
            == PossibleActions(noun, names[..i], use) + NameActions(noun, names[i], use)
               + PossibleActions(noun, names[i + 1..], use)
    ensures |PossibleActions(noun, names[..i], use)| == i * (4 + |use|)
  {
    assert names == names[..i] + [names[i]] + names[i + 1..];
    PossibleActionsAppend(noun, names[..i] + [names[i]], names[i + 1..], use);
    PossibleActionsAppend(noun, names[..i], [names[i]], use);
    assert [names[i]][..0] == [];
    assert PossibleActions(noun, [names[i]], use) == NameActions(noun, names[i], use);
    PossibleActionsCount(noun, names[..i], use);
  }

  /** The sentence list has exactly as many entries as the action list. */
  lemma {:induction false} PossibleSentencesCount(noun: string, names: seq<string>, use: seq<string>)
    ensures |PossibleSentences(names, use)| == |PossibleActions(noun, names, use)|
  {
    if names != [] {
      PossibleSentencesCount(noun, names[..|names| - 1], use);
    }
  }

  /**
   * With a use-synonym, the sentence list is not the projection of the
   * action list: "<s>the <name>" against "<s> <name>".
   */
  lemma SentencesDisagreeWithActions(noun: string, names: seq<string>, use: seq<string>)
    requires |names| > 0 && |use| > 0
    ensures Sentences(PossibleActions(noun, names, use)) != PossibleSentences(names, use)
  {
    var init := names[..|names| - 1];
    var n := names[|names| - 1];
    PossibleActionsCount(noun, init, use);
    PossibleSentencesCount(noun, init, use);
    var k := |PossibleActions(noun, init, use)| + 4;
    var a := PossibleActions(noun, names, use)[k].sentence;
    var s := PossibleSentences(names, use)[k];
    assert a == use[0] + " " + n;
    assert s == use[0] + "the " + n;
    assert a[|use[0]|] != s[|use[0]|];
  }

  // ---------------------------------------------------------------------
  // Action/event pairs

  /** An inspector entry: the action text, an optional required item and whether it is used up. */
  datatype ActionEventPair = ActionEventPair(action: string, requiredItem: string, consumesItem: bool)

  /** The pair's action equals the sentence or the verb, ignoring case. */
  predicate Matches(p: ActionEventPair, a: Action)
  {
    ToLower(p.action) == ToLower(a.sentence) || ToLower(p.action) == ToLower(a.verb)
  }

  /** Indices of the events fired, the inventory afterwards, and the notices it sent. */
  datatype Performed = Performed(fired: seq<nat>, items: seq<WorldObject>, notices: seq<string>)

  /** One pair's turn in `PerformInteraction`, against the inventory as it stands. */
  function PerformStep(st: Performed, p: ActionEventPair, k: nat, a: Action): Performed
  {
    if Matches(p, a) && (p.requiredItem == "" || Holds(st.items, p.requiredItem)) then
      if p.requiredItem != "" && p.consumesItem then
        Performed(st.fired + [k], Without(st.items, p.requiredItem),
                  st.notices + UsedNotices(st.items, p.requiredItem))
      else Performed(st.fired + [k], st.items, st.notices)
    else st
  }

  /** `PerformInteraction`: the pairs take their turns in list order. */
  function Perform(pairs: seq<ActionEventPair>, a: Action, items: seq<WorldObject>): Performed
  {
    if pairs == [] then Performed([], items, [])
    else PerformStep(Perform(pairs[..|pairs| - 1], a, items), pairs[|pairs| - 1], |pairs| - 1, a)
  }

  /** Pair `k` fires: it matches, and its item is not required or is held when its turn comes. */
  predicate Fires(pairs: seq<ActionEventPair>, a: Action, items: seq<WorldObject>, k: nat)
    requires k < |pairs|
  {
    Matches(pairs[k], a)
    && (pairs[k].requiredItem == "" || Holds(Perform(pairs[..k], a, items).items, pairs[k].requiredItem))
  }

  /**
   * The events fired are exactly the pairs that fire, each once and in list
   * order.
   */
  lemma {:induction false} PerformFiresInOrder(pairs: seq<ActionEventPair>, a: Action, items: seq<WorldObject>)
    ensures forall k :: 0 <= k < |pairs| ==> (k in Perform(pairs, a, items).fired <==> Fires(pairs, a, items, k))
    ensures forall k :: k in Perform(pairs, a, items).fired ==> k < |pairs|
    ensures forall i, j :: 0 <= i < j < |Perform(pairs, a, items).fired| ==>
      Perform(pairs, a, items).fired[i] < Perform(pairs, a, items).fired[j]
  {
    if pairs != [] {
      var init := pairs[..|pairs| - 1];
      PerformFiresInOrder(init, a, items);
      forall k | 0 <= k < |init|
        ensures Fires(pairs, a, items, k) == Fires(init, a, items, k)
      {
        assert pairs[..k] == init[..k];
      }
      assert pairs[..|pairs| - 1] == init;
      var st := Perform(init, a, items);
      var r := Perform(pairs, a, items);
      assert r.fired == st.fired || r.fired == st.fired + [|init|];
      forall i, j | 0 <= i < j < |r.fired|
        ensures r.fired[i] < r.fired[j]
      {
        if j == |st.fired| {
          assert r.fired[i] == st.fired[i] && st.fired[i] in st.fired;
        }
      }
    }
  }

  /** A pair with no required item fires whenever it matches. */
  lemma MatchingFreePairFires(pairs: seq<ActionEventPair>, a: Action, items: seq<WorldObject>, k: nat)
    requires k < |pairs| && Matches(pairs[k], a) && pairs[k].requiredItem == ""
    ensures k in Perform(pairs, a, items).fired
  {
    PerformFiresInOrder(pairs, a, items);
  }

  /**
   * An item disappears only when a pair that fired required it by name and
   * consumes it; everything left was already held.
   */
  lemma {:induction false} PerformConsumesOnlyFired(pairs: seq<ActionEventPair>, a: Action, items: seq<WorldObject>)
    ensures forall o :: o in Perform(pairs, a, items).items ==> o in items
    ensures forall o :: o in items && o !in Perform(pairs, a, items).items ==>
      exists k :: k in Perform(pairs, a, items).fired && k < |pairs| && pairs[k].requiredItem == o.name
                  && pairs[k].requiredItem != "" && pairs[k].consumesItem
  {
    if pairs != [] {
      var init := pairs[..|pairs| - 1];
      var k := |pairs| - 1;
      PerformConsumesOnlyFired(init, a, items);
      var st := Perform(init, a, items);
      var r := Perform(pairs, a, items);
      forall o | o in items && o !in r.items
        ensures exists k' :: k' in r.fired && k' < |pairs| && pairs[k'].requiredItem == o.name
                             && pairs[k'].requiredItem != "" && pairs[k'].consumesItem
      {
        if o in st.items {
          assert k in r.fired;
        } else {
          var k' :| k' in st.fired && k' < |init| && init[k'].requiredItem == o.name
                    && init[k'].requiredItem != "" && init[k'].consumesItem;
          assert k' in r.fired && pairs[k'] == init[k'];
        }
      }
    }
  }

  /** With no action/event pair, nothing fires and the inventory is untouched. */
  lemma NoPairsNoEffect(a: Action, items: seq<WorldObject>)
    ensures Perform([], a, items) == Performed([], items, [])
  {
  }

  // ---------------------------------------------------------------------
  // The component

  /** `k` is the first registered interactable whose normalised name is `n`. */
  predicate FirstNamedAt(s: seq<Interactable>, n: string, k: int)
  {
    0 <= k < |s| && NormalizedName(s[k].name) == n && forall j :: 0 <= j < k ==> NormalizedName(s[j].name) != n
  }

  /** The static `interactables` list. */
  class InteractableRegistry {
    var interactables: seq<Interactable>

    constructor ()
      ensures interactables == []
    {
      interactables := [];
    }

    /**
     * `GetInteractable`: the first registered interactable whose lowercased,
     * dot-stripped name equals the argument, else null.
     */
    method GetInteractable(n: string) returns (r: Interactable?)
      ensures r == null <==> forall j :: 0 <= j < |interactables| ==> NormalizedName(interactables[j].name) != n
      ensures r != null ==> NormalizedName(r.name) == n
      ensures r != null ==> exists k :: FirstNamedAt(interactables, n, k) && interactables[k] == r
    {
      var i := 0;
      while i < |interactables|
        invariant 0 <= i <= |interactables|
        invariant forall j :: 0 <= j < i ==> NormalizedName(interactables[j].name) != n
      {
        if NormalizedName(interactables[i].name) == n {
          assert FirstNamedAt(interactables, n, i);
          return interactables[i];
        }
        i := i + 1;
      }
      return null;
    }
  }

  class Interactable {
    const name: string
    const synonyms: seq<string>
    var useSynonyms: seq<string>
    var possibleInteractions: seq<Action>
    const actionEventPairs: seq<ActionEventPair>
    /** The close-up camera, if the object has one. */
    const interactCam: Camera?
    /** The agent's own camera, `PlayerBehavior.Instance.cam`. */
    const playerCam: Camera
    /** Indices into `actionEventPairs` of the events invoked so far. */
    var fired: seq<nat>

    constructor (name: string, synonyms: seq<string>, useSynonyms: seq<string>, possibleInteractions: seq<Action>,
                 pairs: seq<ActionEventPair>, interactCam: Camera?, playerCam: Camera)
      ensures this.name == name && this.synonyms == synonyms && this.useSynonyms == useSynonyms
      ensures this.possibleInteractions == possibleInteractions && actionEventPairs == pairs
      ensures this.interactCam == interactCam && this.playerCam == playerCam && fired == []
    {
      this.name := name;
      this.synonyms := synonyms;
      this.useSynonyms := useSynonyms;
      this.possibleInteractions := possibleInteractions;
      actionEventPairs := pairs;
      this.interactCam := interactCam;
      this.playerCam := playerCam;
      fired := [];
    }

    /**
     * `Awake`: registers the object; a non-empty action list gets the four
     * verb-"back" actions appended, an empty one stays empty.
     */
    method Awake(registry: InteractableRegistry)
      modifies this, registry
      ensures registry.interactables == old(registry.interactables) + [this]
      ensures old(possibleInteractions) == [] ==> possibleInteractions == []
      ensures old(possibleInteractions) != [] ==> possibleInteractions == old(possibleInteractions) + BackActions()
      ensures useSynonyms == old(useSynonyms) && fired == old(fired)
    {
      registry.interactables := registry.interactables + [this];
      if |possibleInteractions| == 0 {
        return;
      }
      possibleInteractions := possibleInteractions + [Action("stop", "back", "")];
      possibleInteractions := possibleInteractions + [Action("exit", "back", "")];
      possibleInteractions := possibleInteractions + [Action("back", "back", "")];
      possibleInteractions := possibleInteractions + [Action("let us go", "back", "")];
    }

    /** `GetPossibleActions`: one block of actions per name, the object's own name first. */
    method GetPossibleActions() returns (r: seq<Action>)
      ensures r == PossibleActions(name, [name] + synonyms, useSynonyms)
    {
      var names := [name] + synonyms;
      r := [];
      var i := 0;
      while i < |names|
        invariant 0 <= i <= |names|
        invariant r == PossibleActions(name, names[..i], useSynonyms)
      {
        assert names[..i + 1][..i] == names[..i];
        r := AppendNameActions(r, name, names[i], useSynonyms);
        i := i + 1;
      }
      assert names[..i] == names;
    }

    /** `GetPossibleSentences`: one block of sentences per name, the object's own name first. */
    method GetPossibleSentences() returns (r: seq<string>)
      ensures r == PossibleSentences([name] + synonyms, useSynonyms)
    {
      var names := [name] + synonyms;
      r := [];
      var i := 0;
      while i < |names|
        invariant 0 <= i <= |names|
        invariant r == PossibleSentences(names[..i], useSynonyms)
      {
        assert names[..i + 1][..i] == names[..i];
        var n := names[i];
        var base := r;
        r := r + ["Move to the " + n, "Go to the " + n, "Use the " + n, "Interact with the " + n];
        var j := 0;
        while j < |useSynonyms|
          invariant 0 <= j <= |useSynonyms|
          invariant r == base + NameSentences(n, useSynonyms[..j])
        {
          assert useSynonyms[..j + 1][..j] == useSynonyms[..j];
          r := r + [useSynonyms[j] + "the " + n];
          j := j + 1;
        }
        assert useSynonyms[..j] == useSynonyms;
        i := i + 1;
      }
      assert names[..i] == names;
    }

    /** `GetCurrentActions`: the actions available while the object is in use. */
    method GetCurrentActions() returns (r: seq<Action>)
      ensures r == possibleInteractions
    {
      r := possibleInteractions;
    }

    /**
     * `PerformInteraction`: every pair that fires invokes its event, and a
     * fired pair with a required item that it consumes has the inventory
     * destroy that item before the next pair's turn.
     */
    method PerformInteraction(action: Action, inv: Inventory)
      modifies this`fired, inv
      ensures fired == old(fired) + Perform(actionEventPairs, action, old(inv.children)).fired
      ensures inv.children == Perform(actionEventPairs, action, old(inv.children)).items
      ensures inv.notices == old(inv.notices) + Perform(actionEventPairs, action, old(inv.children)).notices
    {
      var i := 0;
      while i < |actionEventPairs|
        invariant 0 <= i <= |actionEventPairs|
        invariant fired == old(fired) + Perform(actionEventPairs[..i], action, old(inv.children)).fired
        invariant inv.children == Perform(actionEventPairs[..i], action, old(inv.children)).items
        invariant inv.notices == old(inv.notices) + Perform(actionEventPairs[..i], action, old(inv.children)).notices
      {
        assert actionEventPairs[..i + 1][..i] == actionEventPairs[..i];
        var aep := actionEventPairs[i];
        ghost var st := Perform(actionEventPairs[..i], action, old(inv.children));
        assert Perform(actionEventPairs[..i + 1], action, old(inv.children)) == PerformStep(st, aep, i, action);
        if ToLower(aep.action) == ToLower(action.sentence) || ToLower(aep.action) == ToLower(action.verb) {
          var held := false;
          if aep.requiredItem != "" {
            held := inv.HasItem(aep.requiredItem);
          }
          if aep.requiredItem == "" || held {
            fired := fired + [i];
            if aep.requiredItem != "" && aep.consumesItem {
              inv.ConsumeItem(aep.requiredItem);
            }
          }
        }
        i := i + 1;
      }
      assert actionEventPairs[..i] == actionEventPairs;
    }

    /** `EndInteraction`: hands the view back from the close-up camera to the agent's. */
    method EndInteraction()
      modifies playerCam, interactCam
      ensures interactCam == null ==> playerCam.active == old(playerCam.active)
      ensures interactCam != null ==> !interactCam.active
      ensures interactCam != null && interactCam != playerCam ==> playerCam.active
    {
      if interactCam != null {
        playerCam.active := true;
        interactCam.active := false;
      }
    }

    /**
     * `StartInteraction`: switches to the close-up camera, runs
     * `PerformInteraction` iff there are action/event pairs, ends the
     * interaction again iff no action is available, and returns the
     * available actions.
     */
    method StartInteraction(lastAction: Action, inv: Inventory) returns (r: seq<Action>)
      modifies this`fired, inv, playerCam, interactCam
      ensures r == possibleInteractions
      ensures actionEventPairs != [] ==>
        fired == old(fired) + Perform(actionEventPairs, lastAction, old(inv.children)).fired
        && inv.children == Perform(actionEventPairs, lastAction, old(inv.children)).items
        && inv.notices == old(inv.notices) + Perform(actionEventPairs, lastAction, old(inv.children)).notices
      ensures actionEventPairs == [] ==> fired == old(fired) && inv.children == old(inv.children) && inv.notices == old(inv.notices)
      ensures interactCam == null ==> playerCam.active == old(playerCam.active)
      ensures interactCam != null ==> interactCam.active == (possibleInteractions != [])
      ensures interactCam != null && interactCam != playerCam ==> playerCam.active == (possibleInteractions == [])
    {
      if interactCam != null {
        playerCam.active := false;
        interactCam.active := true;
      }
      if |actionEventPairs| > 0 {
        PerformInteraction(lastAction, inv);
      }
      if |possibleInteractions| == 0 {
        EndInteraction();
      }
      r := possibleInteractions;
    }
  }
}
