/**
 * `PlayerBehavior`: the voice-commanded robot.  Each utterance is ranked
 * against the sentences of the current command list; `Utility` turns the
 * best index and score into one of twelve states and a goal object, and
 * `Update` advances that state one step per frame.
 *
 * Calls the robot makes into other objects (ending, performing and starting
 * interactions, handing an item to the inventory, reloading the scene) are
 * recorded in `calls`, in order; what they do on the other side is modelled
 * by those objects' own modules.
 */
module Player {
  import opened Strings
  import opened Actions
  import opened World
  import opened Rooms
  import opened Hidingspots

  datatype State = Idle | Sit | Hello | Dance | Puzzled | GoHide | Hiding | MoveTo | UseInteract
                 | PickUp | BringObject | BringObjectToPlayer

  /** The enum member names, as `Enum.TryParse` matches them. */
  function StateName(s: State): string
  {
    match s
    case Idle => "Idle"
    case Sit => "Sit"
    case Hello => "Hello"
    case Dance => "Dance"
    case Puzzled => "Puzzled"
    case GoHide => "GoHide"
    case Hiding => "Hiding"
    case MoveTo => "MoveTo"
    case UseInteract => "UseInteract"
    case PickUp => "PickUp"
    case BringObject => "BringObject"
    case BringObjectToPlayer => "BringObjectToPlayer"
  }

  /** `Enum.TryParse(typeof(State), verb, out _)`: a case-sensitive match of a member name. */
  function StateNamed(verb: string): (r: Option<State>)
    ensures r.Some? ==> StateName(r.value) == verb
  {
    if verb == "Idle" then Some(Idle)
    else if verb == "Sit" then Some(Sit)
    else if verb == "Hello" then Some(Hello)
    else if verb == "Dance" then Some(Dance)
    else if verb == "Puzzled" then Some(Puzzled)
    else if verb == "GoHide" then Some(GoHide)
    else if verb == "Hiding" then Some(Hiding)
    else if verb == "MoveTo" then Some(MoveTo)
    else if verb == "UseInteract" then Some(UseInteract)
    else if verb == "PickUp" then Some(PickUp)
    else if verb == "BringObject" then Some(BringObject)
    else if verb == "BringObjectToPlayer" then Some(BringObjectToPlayer)
    else None
  }

  /** Every member name parses back to its member. */
  lemma StateNamedInverts(s: State)
    ensures StateNamed(StateName(s)) == Some(s)
  {
  }

  /** Case matters: the lower-case spelling of a member is no member. */
  lemma StateNamedIsCaseSensitive()
    ensures StateNamed("moveto").None? && StateNamed("MoveTo") == Some(MoveTo)
  {
  }

  /** A call the robot makes into another object. */
  datatype Call =
    | EndInteraction(target: WorldObject)
    | PerformInteraction(target: WorldObject, action: Action)
    | StartInteraction(target: WorldObject, action: Action)
    | AddItem(item: WorldObject)
    | ReloadScene

  /** The exceptions the code can throw: a null dereference, an index out of range. */
  datatype Fault = NullReference | IndexOutOfRange

  /** The robot's fields that `Utility` and `Update` read and write. */
  datatype Agent = Agent(
    state: State,
    goal: Option<WorldObject>,
    current: Option<WorldObject>,
    actionsList: seq<Action>,
    lastAction: Action,
    isHiding: bool,
    rigVisible: bool,
    gameOver: bool,
    calls: seq<Call>)

  /** What `Utility` reads from the rest of the scene. */
  datatype Scene = Scene(
    roomObjects: seq<WorldObject>,
    hidingspots: seq<WorldObject>,
    position: Vec3,
    actionsListOfCurrentRoom: seq<Action>)

  /** The fields after a call, and the exception that ended it, if any. */
  datatype Step = Step(fault: Option<Fault>, agent: Agent)

  // ---------------------------------------------------------------------
  // Utility, stage by stage

  /** The states that need a goal object. */
  predicate NeedsGoal(s: State)
  {
    s == MoveTo || s == BringObject || s == BringObjectToPlayer || s == UseInteract || s == PickUp
  }

  /** Leaving a hiding spot: the rig reappears, the spot's interaction ends, the robot idles. */
  function Unhide(a: Agent): Agent
    requires a.isHiding ==> a.current.Some?
  {
    if a.isHiding then
      a.(isHiding := false, rigVisible := true, calls := a.calls + [EndInteraction(a.current.value)], state := Idle)
    else a
  }

  /**
   * With an active interaction, a way-out verb ends it and swaps in the room
   * list; any other verb is forwarded to the object.
   */
  function Engage(a: Agent, verb: string, idx: int, roomList: seq<Action>): Agent
    requires 0 <= idx < |a.actionsList|
  {
    if a.current.Some? && IsDisengageVerb(verb) then
      a.(calls := a.calls + [EndInteraction(a.current.value)], actionsList := roomList)
    else if a.current.Some? then
      a.(calls := a.calls + [PerformInteraction(a.current.value, a.actionsList[idx])])
    else a
  }

  /** The state after the verb is parsed; `Hiding` always turns into `GoHide`. */
  function ParsedState(s: State, verb: string): (r: State)
    ensures r != Hiding
    ensures StateNamed(verb).Some? && StateNamed(verb).value != Hiding ==> r == StateNamed(verb).value
    ensures StateNamed(verb) == Some(Hiding) ==> r == GoHide
    ensures StateNamed(verb).None? ==> r == (if s == Hiding then GoHide else s)
  {
    var t := if StateNamed(verb).Some? then StateNamed(verb).value else s;
    if t == Hiding then GoHide else t
  }

  /**
   * A lookup of the command's normalised noun among `objs` that throws when
   * nothing is found (the source dereferences the missing component).
   */
  function LookUp(a: Agent, idx: int, objs: seq<WorldObject>): Step
  {
    if !(0 <= idx < |a.actionsList|) then Step(Some(IndexOutOfRange), a)
    else
      var f := FindByName(objs, NormalizedName(a.actionsList[idx].noun));
      if f.None? then Step(Some(NullReference), a) else Step(None, a.(goal := f))
  }

  /** `MoveTo`'s lookup: the goal is cleared, then an interactable, else a room switcher. */
  function MoveToLookUp(a: Agent, idx: int, objs: seq<WorldObject>): Step
  {
    if !(0 <= idx < |a.actionsList|) then Step(Some(IndexOutOfRange), a.(goal := None))
    else
      var n := NormalizedName(a.actionsList[idx].noun);
      var i := FindByName(InteractablesIn(objs), n);
      if i.Some? then Step(None, a.(goal := i))
      else
        var w := FindByName(SwitchersIn(objs), n);
        if w.None? then Step(Some(NullReference), a.(goal := None)) else Step(None, a.(goal := w))
  }

  /** The goal lookup for the parsed state, against the list as it now stands. */
  function Resolve(a: Agent, verb: string, idx: int, sc: Scene): Step
  {
    if a.state == PickUp then LookUp(a, idx, PickUpsIn(sc.roomObjects))
    else if a.state == UseInteract then LookUp(a, idx, InteractablesIn(sc.roomObjects))
    else if verb == "hide" && !(0 <= idx < |a.actionsList|) then Step(Some(IndexOutOfRange), a)
    else if verb == "hide" && a.actionsList[idx].noun == "" then
      Step(None, a.(goal := Closest(sc.position, sc.hidingspots), state := GoHide))
    else if a.state == MoveTo then MoveToLookUp(a, idx, sc.roomObjects)
    else Step(None, a.(goal := None))
  }

  /** A state that needs a goal but has none becomes `Puzzled`. */
  function RequireGoal(a: Agent): (r: Agent)
    ensures NeedsGoal(r.state) ==> r.goal.Some?
    ensures r == a || (r == a.(state := Puzzled) && NeedsGoal(a.state) && a.goal.None?)
  {
    if NeedsGoal(a.state) && a.goal.None? then a.(state := Puzzled) else a
  }

  /** The closing `lastAction` update, guarded by comparing the score (not the index) with the count. */
  function RecordLast(a: Agent, score: real, idx: int): Step
  {
    if score < |a.actionsList| as real && score >= 0.0 then
      if 0 <= idx < |a.actionsList| then Step(None, a.(lastAction := a.actionsList[idx]))
      else Step(Some(IndexOutOfRange), a)
    else Step(None, a)
  }

  /** `Utility(maxScore, maxScoreIndex)`. */
  function UtilitySpec(a: Agent, sc: Scene, score: real, idx: int): Step
  {
    if score < 0.15 then Step(None, a.(state := Puzzled))
    else
      var a1 := if a.gameOver && idx == 0 then a.(calls := a.calls + [ReloadScene]) else a;
      if a1.state == Idle && idx >= |a1.actionsList| then Step(None, a1.(state := Puzzled, goal := None))
      else if idx < 0 || idx >= |a1.actionsList| then Step(Some(IndexOutOfRange), a1)
      else Dispatch(a1, sc, score, idx)
  }

  /**
   * The verb's effect before the goal lookup: leaving a hiding spot, ending
   * or forwarding to the current interaction, and parsing the state.
   */
  function Prepared(a: Agent, idx: int, roomList: seq<Action>): (r: Agent)
    requires 0 <= idx < |a.actionsList| && (a.isHiding ==> a.current.Some?)
    ensures r.state == ParsedState(if a.isHiding then Idle else a.state, a.actionsList[idx].verb)
    ensures r.actionsList == (if a.current.Some? && IsDisengageVerb(a.actionsList[idx].verb) then roomList else a.actionsList)
    ensures r.goal == a.goal && r.current == a.current && r.lastAction == a.lastAction && !r.isHiding
  {
    var verb := a.actionsList[idx].verb;
    var a3 := Engage(Unhide(a), verb, idx, roomList);
    a3.(state := ParsedState(a3.state, verb))
  }

  /** The rest of `Utility` after the goal lookup, unless the lookup threw. */
  function Finish(s: Step, score: real, idx: int): Step
  {
    if s.fault.Some? then s else RecordLast(RequireGoal(s.agent), score, idx)
  }

  /** `Utility` once the index is known to be in range: the verb is acted on. */
  function Dispatch(a: Agent, sc: Scene, score: real, idx: int): Step
    requires 0 <= idx < |a.actionsList|
  {
    if a.isHiding && a.current.None? then Step(Some(NullReference), a.(isHiding := false, rigVisible := true))
    else
      var verb := a.actionsList[idx].verb;
      Finish(Resolve(Prepared(a, idx, sc.actionsListOfCurrentRoom), verb, idx, sc), score, idx)
  }

  // ---------------------------------------------------------------------
  // Update, one frame

  /**
   * The arrival test: the mover has nearly stopped, (optionally) the goal
   * is within 3 units of height, and the goal is within
   * `reachedPositionDistance` on the ground plane.
   */
  predicate Arrived(pos: Vec3, speed: real, g: WorldObject, reached: real, checkHeight: bool)
  {
    speed < 0.3
    && (checkHeight ==> -3.0 < pos.y - g.position.y < 3.0)
    && Below(PlanarSquaredDistance(pos, g.position), reached)
  }

  /** Where a walk that reached `g` leaves the robot: greeting, hiding or idle. */
  function ArrivalState(g: WorldObject): State
  {
    if g.name == "audiencepos" then Hello else if IsHidingspot(g) then Hiding else Idle
  }

  /** Entering a hiding spot on arrival: it becomes the current interaction and is started. */
  function EnterSpot(a: Agent, g: WorldObject): Agent
  {
    if g.name != "audiencepos" && IsHidingspot(g) then
      a.(current := Some(g), calls := a.calls + [StartInteraction(g, a.lastAction)])
    else a
  }

  /** One frame of `Update` from the state `a`. */
  function TickSpec(a: Agent, pos: Vec3, speed: real, playerSpot: Vec3, reached: real, reachedObject: real): Step
  {
    match a.state
    case Idle => Step(None, a)
    case Hiding => Step(None, if !a.isHiding then a.(isHiding := true, rigVisible := false) else a)
    case Dance => Step(None, a.(state := Idle))
    case Puzzled => Step(None, a.(state := Idle))
    case Sit => Step(None, a.(state := Idle))
    case Hello => Step(None, a.(state := Idle))
    case GoHide =>
      if a.goal.None? then Step(Some(NullReference), a)
      else if !Arrived(pos, speed, a.goal.value, reached, true) then Step(None, a)
      else
        var g := a.goal.value;
        if IsHidingspot(g) then
          Step(None, a.(current := Some(g), calls := a.calls + [StartInteraction(g, a.lastAction)], state := Hiding, goal := None))
        else Step(None, a.(goal := None))
    case MoveTo =>
      if a.goal.None? then Step(Some(NullReference), a)
      else if !Arrived(pos, speed, a.goal.value, reached, true) then Step(None, a)
      else
        var g := a.goal.value;
        Step(None, EnterSpot(a, g).(state := ArrivalState(g), goal := None))
    case UseInteract =>
      if a.goal.None? then Step(Some(NullReference), a)
      else if !Arrived(pos, speed, a.goal.value, reached, false) then Step(None, a)
      else
        var g := a.goal.value;
        var b := EnterSpot(a, g).(state := ArrivalState(g));
        var c := if IsInteractable(g) then
                   var newActions := StartInteractionResult(g);
                   b.(current := Some(g), calls := b.calls + [StartInteraction(g, b.lastAction)],
                      actionsList := if |newActions| > 0 then newActions else b.actionsList)
                 else b;
        Step(None, c.(goal := None))
    case PickUp =>
      if a.goal.None? then Step(Some(NullReference), a)
      else if !Arrived(pos, speed, a.goal.value, reached, true) then Step(None, a)
      else
        var g := a.goal.value;
        if IsPickUp(g) then Step(None, a.(state := Idle, calls := a.calls + [AddItem(g)], goal := None))
        else Step(None, a.(state := Puzzled, goal := None))
    case BringObject =>
      if a.goal.None? then Step(Some(NullReference), a)
      else if Below(SquaredDistance(pos, a.goal.value.position), reachedObject) then Step(None, a.(state := BringObjectToPlayer))
      else Step(None, a)
    case BringObjectToPlayer =>
      if a.goal.None? then Step(Some(NullReference), a)
      else if Below(SquaredDistance(pos, playerSpot), reachedObject) then Step(None, a.(state := Idle))
      else Step(None, a)
  }

  // ---------------------------------------------------------------------
  // Command list

  /** `GetCurrentActions` of the object in use. */
  function CurrentActions(o: WorldObject): seq<Action>
  {
    if o.interactable.Some? then o.interactable.value.possibleInteractions else []
  }

  /**
   * `RegenerateActionsAndSentences`: after game over only "restart";
   * otherwise the current interaction's actions, the bonus actions and the
   * room's actions, in that order.
   */
  function Regenerated(gameOver: bool, current: Option<WorldObject>, bonus: seq<Action>, roomActions: seq<Action>): seq<Action>
  {
    if gameOver then [RestartAction]
    else (if current.Some? then CurrentActions(current.value) else []) + bonus + roomActions
  }

  // ---------------------------------------------------------------------
  // Properties of Utility

  /** The alias for the reload the game-over branch may append. */
  function Reloaded(a: Agent, idx: int): Agent
  {
    if a.gameOver && idx == 0 then a.(calls := a.calls + [ReloadScene]) else a
  }

  /** A score under 0.15 only puzzles the robot: no goal, no list, no call changes. */
  lemma LowScoreOnlyPuzzles(a: Agent, sc: Scene, score: real, idx: int)
    requires score < 0.15
    ensures UtilitySpec(a, sc, score, idx) == Step(None, a.(state := Puzzled))
  {
  }

  /**
   * In `Idle`, an index past the end of the list puzzles the robot and
   * clears its goal; nothing is dispatched.
   */
  lemma IdleOutOfRangePuzzles(a: Agent, sc: Scene, score: real, idx: int)
    requires score >= 0.15 && a.state == Idle && idx >= |a.actionsList|
    ensures UtilitySpec(a, sc, score, idx) == Step(None, Reloaded(a, idx).(state := Puzzled, goal := None))
  {
  }

  /** The out-of-range guard covers only `Idle`: in any other state the indexing throws. */
  lemma OutOfRangeThrowsOutsideIdle(a: Agent, sc: Scene, score: real, idx: int)
    requires score >= 0.15 && (idx < 0 || idx >= |a.actionsList|)
    requires a.state != Idle || idx < 0
    ensures UtilitySpec(a, sc, score, idx) == Step(Some(IndexOutOfRange), Reloaded(a, idx))
  {
  }

  /** Hiding with no interaction recorded: the rig reappears, then the null interaction throws. */
  lemma HidingWithoutInteractionThrows(a: Agent, sc: Scene, score: real, idx: int)
    requires score >= 0.15 && 0 <= idx < |a.actionsList| && a.isHiding && a.current.None?
    ensures UtilitySpec(a, sc, score, idx)
            == Step(Some(NullReference), Reloaded(a, idx).(isHiding := false, rigVisible := true))
  {
  }

  /** The goal lookup leaves the list, the interaction, the calls and `lastAction` alone. */
  lemma ResolveKeeps(a: Agent, verb: string, idx: int, sc: Scene)
    ensures var s := Resolve(a, verb, idx, sc);
            s.agent == a.(goal := s.agent.goal, state := s.agent.state)
  {
    var s := Resolve(a, verb, idx, sc);
    if a.state == PickUp || a.state == UseInteract {
      var objs := if a.state == PickUp then PickUpsIn(sc.roomObjects) else InteractablesIn(sc.roomObjects);
      assert s == LookUp(a, idx, objs);
    } else if verb == "hide" && !(0 <= idx < |a.actionsList|) {
    } else if verb == "hide" && a.actionsList[idx].noun == "" {
    } else if a.state == MoveTo {
      assert s == MoveToLookUp(a, idx, sc.roomObjects);
    }
  }

  /** So does the closing block, apart from `lastAction`; it also keeps the goal. */
  lemma FinishKeeps(s: Step, score: real, idx: int)
    ensures var r := Finish(s, score, idx);
            r.agent.actionsList == s.agent.actionsList && r.agent.current == s.agent.current
            && r.agent.calls == s.agent.calls && r.agent.goal == s.agent.goal
  {
  }

  /** `Utility` past its guards is `Dispatch` on the state with any reload recorded. */
  lemma UtilityDispatches(a: Agent, sc: Scene, score: real, idx: int)
    requires score >= 0.15 && 0 <= idx < |a.actionsList|
    ensures UtilitySpec(a, sc, score, idx) == Dispatch(Reloaded(a, idx), sc, score, idx)
  {
  }

  /** The calls made before `Utility`'s goal lookup: leaving a hiding spot, then ending or forwarding. */
  function DispatchCalls(a: Agent, idx: int): seq<Call>
    requires 0 <= idx < |a.actionsList| && a.current.Some?
  {
    var verb := a.actionsList[idx].verb;
    (if a.isHiding then [EndInteraction(a.current.value)] else [])
    + (if IsDisengageVerb(verb) then [EndInteraction(a.current.value)]
       else [PerformInteraction(a.current.value, a.actionsList[idx])])
  }

  /** The calls `Prepared` makes. */
  lemma PreparedCalls(a: Agent, idx: int, roomList: seq<Action>)
    requires 0 <= idx < |a.actionsList| && (a.isHiding ==> a.current.Some?)
    ensures a.current.Some? ==> Prepared(a, idx, roomList).calls == a.calls + DispatchCalls(a, idx)
    ensures a.current.None? ==> Prepared(a, idx, roomList).calls == a.calls
  {
    if a.current.Some? {
      var c := a.current.value;
      var u := Unhide(a);
      assert u.calls == a.calls + (if a.isHiding then [EndInteraction(c)] else []);
      assert u.current == a.current && u.actionsList == a.actionsList;
    }
  }

  /**
   * With an interaction running, a way-out verb ends it and swaps in the
   * room list, but the interaction stays recorded as current; any other
   * verb is forwarded to it exactly once.  This holds whether or not the
   * rest of the call throws.
   */
  lemma DispatchEngages(a: Agent, sc: Scene, score: real, idx: int)
    requires 0 <= idx < |a.actionsList| && a.current.Some?
    ensures var r := Dispatch(a, sc, score, idx);
            r.agent.calls == a.calls + DispatchCalls(a, idx)
            && r.agent.current == a.current
            && r.agent.actionsList == (if IsDisengageVerb(a.actionsList[idx].verb) then sc.actionsListOfCurrentRoom else a.actionsList)
  {
    var p := Prepared(a, idx, sc.actionsListOfCurrentRoom);
    PreparedCalls(a, idx, sc.actionsListOfCurrentRoom);
    var s := Resolve(p, a.actionsList[idx].verb, idx, sc);
    ResolveKeeps(p, a.actionsList[idx].verb, idx, sc);
    FinishKeeps(s, score, idx);
  }

  /** With no interaction running, `Utility` calls into nothing but a possible reload. */
  lemma DispatchWithoutInteraction(a: Agent, sc: Scene, score: real, idx: int)
    requires 0 <= idx < |a.actionsList| && a.current.None? && !a.isHiding
    ensures var r := Dispatch(a, sc, score, idx);
            r.agent.calls == a.calls && r.agent.current.None? && r.agent.actionsList == a.actionsList
  {
    var p := Prepared(a, idx, sc.actionsListOfCurrentRoom);
    PreparedCalls(a, idx, sc.actionsListOfCurrentRoom);
    var s := Resolve(p, a.actionsList[idx].verb, idx, sc);
    ResolveKeeps(p, a.actionsList[idx].verb, idx, sc);
    FinishKeeps(s, score, idx);
  }

  /** The goal lookup only ever adds `GoHide` to the states it is given. */
  lemma ResolveState(a: Agent, verb: string, idx: int, sc: Scene)
    ensures var s := Resolve(a, verb, idx, sc); s.agent.state == a.state || s.agent.state == GoHide
  {
  }

  /**
   * After a `Utility` call that does not throw, the robot is never in
   * `Hiding` (only `Update` enters it), and a state that needs a goal has one.
   */
  lemma UtilityLeavesNoHidingAndNoMissingGoal(a: Agent, sc: Scene, score: real, idx: int)
    ensures var r := UtilitySpec(a, sc, score, idx);
            r.fault.None? ==> r.agent.state != Hiding && (NeedsGoal(r.agent.state) ==> r.agent.goal.Some?)
  {
    if score >= 0.15 && 0 <= idx < |a.actionsList| {
      var a1 := Reloaded(a, idx);
      assert UtilitySpec(a, sc, score, idx) == Dispatch(a1, sc, score, idx) by {
        UtilityDispatches(a, sc, score, idx);
      }
      if !(a1.isHiding && a1.current.None?) {
        var p := Prepared(a1, idx, sc.actionsListOfCurrentRoom);
        ResolveState(p, a1.actionsList[idx].verb, idx, sc);
      }
    }
  }

  /** The step a command takes once the guards pass: the goal lookup on the prepared state. */
  lemma UtilityResolves(a: Agent, sc: Scene, score: real, idx: int)
    requires score >= 0.15 && 0 <= idx < |a.actionsList| && !(a.isHiding && a.current.None?)
    ensures var a1 := Reloaded(a, idx);
            UtilitySpec(a, sc, score, idx)
            == Finish(Resolve(Prepared(a1, idx, sc.actionsListOfCurrentRoom), a.actionsList[idx].verb, idx, sc), score, idx)
  {
    UtilityDispatches(a, sc, score, idx);
  }

  /** The closing block keeps the state and goal of a lookup that found a goal. */
  lemma FinishWithGoal(s: Step, score: real, idx: int)
    requires s.fault.None? && s.agent.goal.Some? && 0 <= idx < |s.agent.actionsList|
    ensures var r := Finish(s, score, idx);
            r.fault.None? && r.agent.state == s.agent.state && r.agent.goal == s.agent.goal
  {
  }

  /** The closing block puzzles a state that needs a goal and has none. */
  lemma FinishWithoutGoal(s: Step, score: real, idx: int)
    requires s.fault.None? && s.agent.goal.None? && 0 <= idx < |s.agent.actionsList|
    ensures var r := Finish(s, score, idx);
            r.fault.None? && r.agent.goal.None? && r.agent.state == (if NeedsGoal(s.agent.state) then Puzzled else s.agent.state)
  {
  }

  /** The state a command's own verb leads to when that verb names a state other than `Hiding`. */
  lemma PreparedNamedState(a: Agent, idx: int, roomList: seq<Action>, t: State)
    requires 0 <= idx < |a.actionsList| && (a.isHiding ==> a.current.Some?)
    requires a.actionsList[idx].verb == StateName(t) && t != Hiding
    ensures var p := Prepared(a, idx, roomList); p.state == t && p.actionsList == a.actionsList
  {
    StateNamedInverts(t);
  }

  /**
   * A fetch command is never carried out: `BringObject` and
   * `BringObjectToPlayer` find no goal and always end `Puzzled`.
   */
  lemma BringCommandPuzzles(a: Agent, sc: Scene, score: real, idx: int)
    requires score >= 0.15 && 0 <= idx < |a.actionsList| && !(a.isHiding && a.current.None?)
    requires a.actionsList[idx].verb == "BringObject" || a.actionsList[idx].verb == "BringObjectToPlayer"
    ensures var r := UtilitySpec(a, sc, score, idx);
            r.fault.None? && r.agent.state == Puzzled && r.agent.goal.None?
  {
    var a1 := Reloaded(a, idx);
    var verb := a.actionsList[idx].verb;
    var t := if verb == "BringObject" then BringObject else BringObjectToPlayer;
    PreparedNamedState(a1, idx, sc.actionsListOfCurrentRoom, t);
    var p := Prepared(a1, idx, sc.actionsListOfCurrentRoom);
    ResolveWithoutLookup(p, verb, idx, sc);
    var s := Step(None, p.(goal := None));
    FinishWithoutGoal(s, score, idx);
    assert UtilitySpec(a, sc, score, idx) == Finish(s, score, idx) by {
      UtilityResolves(a, sc, score, idx);
    }
  }

  /** A fetch state looks nothing up: the goal is cleared. */
  lemma ResolveWithoutLookup(p: Agent, verb: string, idx: int, sc: Scene)
    requires p.state == BringObject || p.state == BringObjectToPlayer
    requires verb == "BringObject" || verb == "BringObjectToPlayer"
    ensures Resolve(p, verb, idx, sc) == Step(None, p.(goal := None))
  {
    assert verb != "hide" by {
      assert |verb| != |"hide"|;
    }
  }

  /**
   * The bare "hide" command sends the robot toward the nearest hiding spot
   * of any room, unless a pick-up or use command is still pending.
   */
  lemma HideCommandTargetsClosestSpot(a: Agent, sc: Scene, score: real, idx: int)
    requires score >= 0.15 && 0 <= idx < |a.actionsList| && !(a.isHiding && a.current.None?)
    requires a.actionsList[idx].verb == "hide" && a.actionsList[idx].noun == ""
    requires var s := if a.isHiding then Idle else a.state; s != PickUp && s != UseInteract
    ensures var r := UtilitySpec(a, sc, score, idx);
            r.fault.None? && r.agent.state == GoHide && r.agent.goal == Closest(sc.position, sc.hidingspots)
  {
    var p := Prepared(Reloaded(a, idx), idx, sc.actionsListOfCurrentRoom);
    PreparedHide(Reloaded(a, idx), idx, sc.actionsListOfCurrentRoom);
    var s := Resolve(p, "hide", idx, sc);
    assert s == Step(None, p.(goal := Closest(sc.position, sc.hidingspots), state := GoHide));
    assert UtilitySpec(a, sc, score, idx) == Finish(s, score, idx) by {
      UtilityResolves(a, sc, score, idx);
    }
  }

  /** "hide" names no state and does not disengage, so `Prepared` keeps the state and the list. */
  lemma PreparedHide(a: Agent, idx: int, roomList: seq<Action>)
    requires 0 <= idx < |a.actionsList| && (a.isHiding ==> a.current.Some?)
    requires a.actionsList[idx].verb == "hide"
    ensures var p := Prepared(a, idx, roomList);
            p.state == (var t := if a.isHiding then Idle else a.state; if t == Hiding then GoHide else t)
            && p.actionsList == a.actionsList
  {
    assert StateNamed("hide").None?;
    assert !IsDisengageVerb("hide");
  }

  /**
   * With no hiding spot registered the "hide" command still enters
   * `GoHide`, with no goal, and the next frame throws.
   */
  lemma HideWithoutSpotsFaultsNextFrame(a: Agent, sc: Scene, score: real, idx: int,
                                        pos: Vec3, speed: real, spot: Vec3, reached: real, reachedObject: real)
    requires score >= 0.15 && 0 <= idx < |a.actionsList| && !(a.isHiding && a.current.None?)
    requires a.actionsList[idx].verb == "hide" && a.actionsList[idx].noun == ""
    requires var s := if a.isHiding then Idle else a.state; s != PickUp && s != UseInteract
    requires sc.hidingspots == []
    ensures var r := UtilitySpec(a, sc, score, idx);
            r.fault.None? && TickSpec(r.agent, pos, speed, spot, reached, reachedObject).fault == Some(NullReference)
  {
    HideCommandTargetsClosestSpot(a, sc, score, idx);
  }

  /**
   * "PickUp" targets the first pick-up of the current room named by the
   * normalised noun; when there is none, `Utility` throws instead of
   * puzzling.
   */
  lemma PickUpCommandLooksUpRoom(a: Agent, sc: Scene, score: real, idx: int)
    requires score >= 0.15 && 0 <= idx < |a.actionsList| && !(a.isHiding && a.current.None?)
    requires a.actionsList[idx].verb == "PickUp"
    ensures var r := UtilitySpec(a, sc, score, idx);
            var p := FindByName(PickUpsIn(sc.roomObjects), NormalizedName(a.actionsList[idx].noun));
            (p.None? ==> r.fault == Some(NullReference))
            && (p.Some? ==> r.fault.None? && r.agent.state == PickUp && r.agent.goal == p)
  {
    PreparedNamedState(Reloaded(a, idx), idx, sc.actionsListOfCurrentRoom, PickUp);
    var p := Prepared(Reloaded(a, idx), idx, sc.actionsListOfCurrentRoom);
    var f := FindByName(PickUpsIn(sc.roomObjects), NormalizedName(a.actionsList[idx].noun));
    var s := Resolve(p, "PickUp", idx, sc);
    if f.None? {
      assert s == Step(Some(NullReference), p);
    } else {
      assert s == Step(None, p.(goal := f));
      FinishWithGoal(s, score, idx);
    }
    assert UtilitySpec(a, sc, score, idx) == Finish(s, score, idx) by {
      UtilityResolves(a, sc, score, idx);
    }
  }

  /**
   * The outcome of a "MoveTo" command: an interactable of the current room
   * first, a room switcher second; when neither exists, the goal is cleared
   * and the call throws.
   */
  predicate MoveToOutcome(r: Step, objs: seq<WorldObject>, noun: string)
  {
    var n := NormalizedName(noun);
    var i := FindByName(InteractablesIn(objs), n);
    var w := FindByName(SwitchersIn(objs), n);
    (i.Some? ==> r.fault.None? && r.agent.state == MoveTo && r.agent.goal == i)
    && (i.None? && w.Some? ==> r.fault.None? && r.agent.state == MoveTo && r.agent.goal == w)
    && (i.None? && w.None? ==> r.fault == Some(NullReference) && r.agent.goal.None?)
  }

  /** "MoveTo" falls back from interactables to room switchers, then throws. */
  lemma MoveToCommandFallsBackToSwitcher(a: Agent, sc: Scene, score: real, idx: int)
    requires score >= 0.15 && 0 <= idx < |a.actionsList| && !(a.isHiding && a.current.None?)
    requires a.actionsList[idx].verb == "MoveTo"
    ensures MoveToOutcome(UtilitySpec(a, sc, score, idx), sc.roomObjects, a.actionsList[idx].noun)
  {
    var p := Prepared(Reloaded(a, idx), idx, sc.actionsListOfCurrentRoom);
    PreparedNamedState(Reloaded(a, idx), idx, sc.actionsListOfCurrentRoom, MoveTo);
    var r := Finish(MoveToLookUp(p, idx, sc.roomObjects), score, idx);
    assert UtilitySpec(a, sc, score, idx) == r by {
      UtilityResolves(a, sc, score, idx);
      ResolveMoveTo(p, "MoveTo", idx, sc);
    }
    MoveToLookUpFallsBack(p, idx, sc.roomObjects, score);
  }

  /** In `MoveTo` the goal lookup is `MoveToLookUp`. */
  lemma ResolveMoveTo(p: Agent, verb: string, idx: int, sc: Scene)
    requires p.state == MoveTo && verb != "hide"
    ensures Resolve(p, verb, idx, sc) == MoveToLookUp(p, idx, sc.roomObjects)
  {
  }

  /** `MoveToLookUp` followed by the closing block, case by case. */
  lemma MoveToLookUpFallsBack(p: Agent, idx: int, objs: seq<WorldObject>, score: real)
    requires 0 <= idx < |p.actionsList| && p.state == MoveTo
    ensures MoveToOutcome(Finish(MoveToLookUp(p, idx, objs), score, idx), objs, p.actionsList[idx].noun)
  {
    var s := MoveToLookUp(p, idx, objs);
    if s.fault.None? {
      FinishWithGoal(s, score, idx);
    }
  }

  /**
   * The `lastAction` update compares the score, not the index, with the
   * number of commands: a dispatched command is recorded exactly when the
   * score is below that number.
   */
  lemma LastActionFollowsScore(a: Agent, sc: Scene, score: real, idx: int)
    requires score >= 0.15 && 0 <= idx < |a.actionsList|
    ensures var r := Dispatch(a, sc, score, idx);
            r.fault.None? && score < |r.agent.actionsList| as real ==> r.agent.lastAction == r.agent.actionsList[idx]
    ensures var r := Dispatch(a, sc, score, idx);
            r.fault.None? && score >= |r.agent.actionsList| as real ==> r.agent.lastAction == a.lastAction
  {
    if !(a.isHiding && a.current.None?) {
      var p := Prepared(a, idx, sc.actionsListOfCurrentRoom);
      ResolveKeeps(p, a.actionsList[idx].verb, idx, sc);
    }
  }

  /** So a perfect match on a one-command list is acted on but never recorded. */
  lemma SingleCommandNotRecorded(a: Agent, sc: Scene, act: Action)
    requires a.actionsList == [act] && a.current.None? && !a.isHiding
    ensures var r := UtilitySpec(a, sc, 1.0, 0);
            r.fault.None? ==> r.agent.lastAction == a.lastAction
  {
    UtilityDispatches(a, sc, 1.0, 0);
    LastActionFollowsScore(Reloaded(a, 0), sc, 1.0, 0);
    DispatchWithoutInteraction(Reloaded(a, 0), sc, 1.0, 0);
  }

  // ---------------------------------------------------------------------
  // Properties of Update

  /** `Idle` waits. */
  lemma IdleTickWaits(a: Agent, pos: Vec3, speed: real, spot: Vec3, reached: real, reachedObject: real)
    requires a.state == Idle
    ensures TickSpec(a, pos, speed, spot, reached, reachedObject) == Step(None, a)
  {
  }

  /** The one-frame states return to `Idle` with nothing else changed. */
  lemma FlashStatesReturnToIdle(a: Agent, pos: Vec3, speed: real, spot: Vec3, reached: real, reachedObject: real)
    requires a.state in {Hello, Dance, Puzzled, Sit}
    ensures TickSpec(a, pos, speed, spot, reached, reachedObject) == Step(None, a.(state := Idle))
  {
  }

  /** `Hiding` hides the rig once; later frames change nothing. */
  lemma HidingTickHidesOnce(a: Agent, pos: Vec3, speed: real, spot: Vec3, reached: real, reachedObject: real)
    requires a.state == Hiding
    ensures var r := TickSpec(a, pos, speed, spot, reached, reachedObject);
            r.fault.None? && r.agent.isHiding && (!a.isHiding ==> !r.agent.rigVisible) && r.agent.state == Hiding
            && TickSpec(r.agent, pos, speed, spot, reached, reachedObject) == r
  {
  }

  /** A walking state with no goal throws on its next frame. */
  lemma MissingGoalThrows(a: Agent, pos: Vec3, speed: real, spot: Vec3, reached: real, reachedObject: real)
    requires NeedsGoal(a.state) || a.state == GoHide
    requires a.goal.None?
    ensures TickSpec(a, pos, speed, spot, reached, reachedObject) == Step(Some(NullReference), a)
  {
  }

  /**
   * `MoveTo`: until arrival nothing changes; on arrival the goal is
   * dropped, the audience position makes the robot greet, a hiding spot is
   * entered and started, anything else leaves it idle.
   */
  lemma MoveToArrival(a: Agent, pos: Vec3, speed: real, spot: Vec3, reached: real, reachedObject: real)
    requires a.state == MoveTo && a.goal.Some?
    ensures var r := TickSpec(a, pos, speed, spot, reached, reachedObject);
            var g := a.goal.value;
            (!Arrived(pos, speed, g, reached, true) ==> r == Step(None, a))
            && (Arrived(pos, speed, g, reached, true) ==>
                  r.fault.None? && r.agent.goal.None? && r.agent.state == ArrivalState(g)
                  && (r.agent.state == Hiding <==> g.name != "audiencepos" && IsHidingspot(g))
                  && (r.agent.state == Hiding ==>
                        r.agent.current == Some(g) && r.agent.calls == a.calls + [StartInteraction(g, a.lastAction)])
                  && (r.agent.state != Hiding ==> r.agent.current == a.current && r.agent.calls == a.calls))
  {
  }

  /**
   * `GoHide` toward an object that is no hiding spot: on arrival the goal is
   * cleared but the state stays `GoHide`, so the next frame throws.
   */
  lemma GoHideToNonSpotThrowsNextFrame(a: Agent, pos: Vec3, speed: real, spot: Vec3, reached: real, reachedObject: real,
                                       pos': Vec3, speed': real)
    requires a.state == GoHide && a.goal.Some? && !IsHidingspot(a.goal.value)
    requires Arrived(pos, speed, a.goal.value, reached, true)
    ensures var r := TickSpec(a, pos, speed, spot, reached, reachedObject);
            r == Step(None, a.(goal := None))
            && TickSpec(r.agent, pos', speed', spot, reached, reachedObject).fault == Some(NullReference)
  {
  }

  /** `GoHide` to a hiding spot: on arrival the spot is entered and started once. */
  lemma GoHideEntersSpot(a: Agent, pos: Vec3, speed: real, spot: Vec3, reached: real, reachedObject: real)
    requires a.state == GoHide && a.goal.Some? && IsHidingspot(a.goal.value)
    requires Arrived(pos, speed, a.goal.value, reached, true)
    ensures var r := TickSpec(a, pos, speed, spot, reached, reachedObject);
            var g := a.goal.value;
            r.fault.None? && r.agent.state == Hiding && r.agent.goal.None? && r.agent.current == Some(g)
            && r.agent.calls == a.calls + [StartInteraction(g, a.lastAction)]
  {
  }

  /**
   * `UseInteract` on a hiding spot starts its interaction twice, once as a
   * hiding spot and once as an interactable.
   */
  lemma UseInteractStartsSpotTwice(a: Agent, pos: Vec3, speed: real, spot: Vec3, reached: real, reachedObject: real)
    requires a.state == UseInteract && a.goal.Some? && IsHidingspot(a.goal.value) && a.goal.value.name != "audiencepos"
    requires Arrived(pos, speed, a.goal.value, reached, false)
    ensures var r := TickSpec(a, pos, speed, spot, reached, reachedObject);
            var g := a.goal.value;
            r.fault.None? && r.agent.state == Hiding && r.agent.current == Some(g)
            && r.agent.calls == a.calls + [StartInteraction(g, a.lastAction), StartInteraction(g, a.lastAction)]
  {
  }

  /**
   * `UseInteract` on an interactable: it becomes the current interaction,
   * and the list it hands back replaces the command list unless empty; a
   * chair hands back only "sit down".
   */
  lemma UseInteractAdoptsActions(a: Agent, pos: Vec3, speed: real, spot: Vec3, reached: real, reachedObject: real)
    requires a.state == UseInteract && a.goal.Some? && IsInteractable(a.goal.value)
    requires Arrived(pos, speed, a.goal.value, reached, false)
    ensures var r := TickSpec(a, pos, speed, spot, reached, reachedObject);
            var g := a.goal.value;
            r.fault.None? && r.agent.goal.None? && r.agent.current == Some(g)
            && r.agent.actionsList == (if StartInteractionResult(g) != [] then StartInteractionResult(g) else a.actionsList)
            && (g.interactable.value.kind == ChairKind ==> r.agent.actionsList == [Action("sit down", "Sit", g.name)])
  {
  }

  /** `PickUp`: on arrival a pick-up is handed to the inventory; anything else puzzles. */
  lemma PickUpArrival(a: Agent, pos: Vec3, speed: real, spot: Vec3, reached: real, reachedObject: real)
    requires a.state == PickUp && a.goal.Some? && Arrived(pos, speed, a.goal.value, reached, true)
    ensures var r := TickSpec(a, pos, speed, spot, reached, reachedObject);
            var g := a.goal.value;
            r.fault.None? && r.agent.goal.None?
            && (IsPickUp(g) ==> r.agent.state == Idle && r.agent.calls == a.calls + [AddItem(g)])
            && (!IsPickUp(g) ==> r.agent.state == Puzzled && r.agent.calls == a.calls)
  {
  }

  /** `Update` never touches the command list except on a `UseInteract` arrival. */
  lemma TickKeepsListOutsideUseInteract(a: Agent, pos: Vec3, speed: real, spot: Vec3, reached: real, reachedObject: real)
    requires a.state != UseInteract
    ensures TickSpec(a, pos, speed, spot, reached, reachedObject).agent.actionsList == a.actionsList
    ensures TickSpec(a, pos, speed, spot, reached, reachedObject).agent.lastAction == a.lastAction
  {
  }

  // ---------------------------------------------------------------------
  // Properties of the command list

  /**
   * The sentence list is the projection of the command list, so the index
   * the ranker returns for a sentence names the command it came from.
   */
  lemma RankedIndexNamesCommand(gameOver: bool, current: Option<WorldObject>, bonus: seq<Action>, room: seq<Action>, idx: int)
    requires 0 <= idx < |Sentences(Regenerated(gameOver, current, bonus, room))|
    ensures idx < |Regenerated(gameOver, current, bonus, room)|
    ensures Sentences(Regenerated(gameOver, current, bonus, room))[idx] == Regenerated(gameOver, current, bonus, room)[idx].sentence
  {
  }

  /**
   * Outside game over the list is the current interaction's actions, then
   * the bonus actions, then the room's: a room command sits at its room
   * index shifted by the two groups before it.
   */
  lemma RegeneratedPlacesRoomLast(current: Option<WorldObject>, bonus: seq<Action>, room: seq<Action>, j: int)
    requires 0 <= j < |room|
    ensures var l := Regenerated(false, current, bonus, room);
            var off := |l| - |room|;
            off == |bonus| + (if current.Some? then |CurrentActions(current.value)| else 0)
            && l[off + j] == room[j]
  {
  }

  /** After game over "restart" is the only command, whatever the room offers. */
  lemma GameOverOffersOnlyRestart(current: Option<WorldObject>, bonus: seq<Action>, room: seq<Action>)
    ensures Regenerated(true, current, bonus, room) == [RestartAction]
    ensures Sentences(Regenerated(true, current, bonus, room)) == ["restart"]
  {
    assert Sentences([RestartAction]) == [RestartAction.sentence] + Sentences([]);
  }

  /** The sentence of each action, collected in one pass. */
  method CollectSentences(acts: seq<Action>) returns (r: seq<string>)
    ensures r == Sentences(acts)
  {
    r := [];
    var i := 0;
    while i < |acts|
      invariant 0 <= i <= |acts|
      invariant r == Sentences(acts[..i])
    {
      SentencesAppend(acts[..i], [acts[i]]);
      assert acts[..i + 1] == acts[..i] + [acts[i]];
      r := r + [acts[i].sentence];
      i := i + 1;
    }
    assert acts[..i] == acts;
  }

  // ---------------------------------------------------------------------
  // The component

  class PlayerBehavior {
    var state: State
    var goalObject: Option<WorldObject>
    var currentlyInteractingWith: Option<WorldObject>
    var actionsList: seq<Action>
    const actionsListOfCurrentRoom: seq<Action>
    const actionsListBonus: seq<Action>
    var sentences: seq<string>
    var sentencesArray: seq<string>
    var isHiding: bool
    var isGameOver: bool
    var lastAction: Action
    /** Whether the rig holder is active (the robot is visible). */
    var rigVisible: bool
    var calls: seq<Call>
    /** The robot's position, moved by the navigation agent. */
    var position: Vec3
    const reachedPositionDistance: real
    const reachedObjectPositionDistance: real
    const rooms: RoomInteractableManager
    const hidingspots: HidingspotRegistry

    constructor (actionsList: seq<Action>, ofCurrentRoom: seq<Action>, bonus: seq<Action>, position: Vec3,
                 reached: real, reachedObject: real, rooms: RoomInteractableManager, hidingspots: HidingspotRegistry)
      ensures this.actionsList == actionsList && actionsListOfCurrentRoom == ofCurrentRoom && actionsListBonus == bonus
      ensures this.position == position && reachedPositionDistance == reached && reachedObjectPositionDistance == reachedObject
      ensures this.rooms == rooms && this.hidingspots == hidingspots
      ensures state == Idle && goalObject.None? && currentlyInteractingWith.None? && !isHiding && !isGameOver
      ensures rigVisible && calls == [] && sentences == [] && sentencesArray == []
    {
      this.actionsList := actionsList;
      actionsListOfCurrentRoom := ofCurrentRoom;
      actionsListBonus := bonus;
      sentences := [];
      sentencesArray := [];
      state := Idle;
      goalObject := None;
      currentlyInteractingWith := None;
      isHiding := false;
      isGameOver := false;
      lastAction := Action("", "", "");
      rigVisible := true;
      calls := [];
      this.position := position;
      reachedPositionDistance := reached;
      reachedObjectPositionDistance := reachedObject;
      this.rooms := rooms;
      this.hidingspots := hidingspots;
    }

    function Snapshot(): Agent
      reads this
    {
      Agent(state, goalObject, currentlyInteractingWith, actionsList, lastAction, isHiding, rigVisible, isGameOver, calls)
    }

    function SceneNow(): Scene
      reads this, rooms, hidingspots
    {
      Scene(rooms.currentRoom.children, Objects(hidingspots.hidingspots), position, actionsListOfCurrentRoom)
    }

    /** `Awake`: idle, with the sentences of the configured action list. */
    method Awake()
      modifies this`state, this`sentences, this`sentencesArray
      ensures state == Idle && sentences == Sentences(actionsList) && sentencesArray == sentences
    {
      state := Idle;
      sentences := CollectSentences(actionsList);
      sentencesArray := sentences;
    }

    /** `GameOver`: only the flag is modelled. */
    method GameOver()
      modifies this`isGameOver
      ensures isGameOver
    {
      isGameOver := true;
    }

    /**
     * `SitDown` at the seat position `sitPoint`: the robot is placed on the
     * seat and sits.  Stopping the navigation agent and copying the seat's
     * rotation are engine effects and are not modelled.
     */
    method SitDown(sitPoint: Vec3)
      modifies this`state, this`position
      ensures state == Sit && position == sitPoint
    {
      position := sitPoint;
      state := Sit;
    }

    /**
     * `RegenerateActionsAndSentences`: rebuilds the command list, and the
     * sentence list as its projection.
     */
    method RegenerateActionsAndSentences()
      modifies this`actionsList, this`sentences
      ensures actionsList == Regenerated(isGameOver, currentlyInteractingWith, actionsListBonus, RoomActions(rooms.currentRoom.children))
      ensures sentences == Sentences(actionsList)
    {
      if isGameOver {
        actionsList := [RestartAction];
        sentences := ["restart"];
        assert Sentences(actionsList) == [RestartAction.sentence] + Sentences([]);
        return;
      }
      var roomActions := rooms.GetCurrentRoomActions();
      actionsList := (if currentlyInteractingWith.Some? then CurrentActions(currentlyInteractingWith.value) else [])
                     + actionsListBonus + roomActions;
      sentences := CollectSentences(actionsList);
    }

    /** The `isHiding` block of `Utility`, past its null check. */
    method UnhideStep()
      requires isHiding ==> currentlyInteractingWith.Some?
      modifies this`isHiding, this`rigVisible, this`calls, this`state
      ensures Snapshot() == Unhide(old(Snapshot()))
    {
      if isHiding {
        isHiding := false;
        rigVisible := true;
        calls := calls + [EndInteraction(currentlyInteractingWith.value)];
        state := Idle;
      }
    }

    /** The disengage-or-forward block of `Utility`. */
    method EngageStep(verb: string, idx: int)
      requires 0 <= idx < |actionsList|
      modifies this`calls, this`actionsList
      ensures Snapshot() == Engage(old(Snapshot()), verb, idx, actionsListOfCurrentRoom)
    {
      if currentlyInteractingWith.Some? && IsDisengageVerb(verb) {
        calls := calls + [EndInteraction(currentlyInteractingWith.value)];
        actionsList := actionsListOfCurrentRoom;
      } else if currentlyInteractingWith.Some? {
        calls := calls + [PerformInteraction(currentlyInteractingWith.value, actionsList[idx])];
      }
    }

    /** `TryParse` of the verb, then `Hiding` rewritten to `GoHide`. */
    method ParseStep(verb: string)
      modifies this`state
      ensures state == ParsedState(old(state), verb)
    {
      var parsed := StateNamed(verb);
      if parsed.Some? {
        state := parsed.value;
      }
      if state == Hiding {
        state := GoHide;
      }
    }

    /** The goal lookup of `Utility`. */
    method ResolveStep(verb: string, idx: int) returns (fault: Option<Fault>)
      requires 0 <= idx
      modifies this`goalObject, this`state
      ensures Step(fault, Snapshot()) == Resolve(old(Snapshot()), verb, idx, SceneNow())
    {
      fault := None;
      if state == PickUp {
        if idx >= |actionsList| {
          return Some(IndexOutOfRange);
        }
        var p := rooms.GetCurrentRoomPickUpByName(NormalizedName(actionsList[idx].noun));
        if p.None? {
          return Some(NullReference);
        }
        goalObject := p;
      } else if state == UseInteract {
        if idx >= |actionsList| {
          return Some(IndexOutOfRange);
        }
        var i := rooms.GetCurrentRoomInteractableByName(NormalizedName(actionsList[idx].noun));
        if i.None? {
          return Some(NullReference);
        }
        goalObject := i;
      } else if verb == "hide" && (idx >= |actionsList| || actionsList[idx].noun == "") {
        if idx >= |actionsList| {
          return Some(IndexOutOfRange);
        }
        goalObject := hidingspots.ClosestHidingSpot(position);
        state := GoHide;
      } else if state == MoveTo {
        goalObject := None;
        if idx >= |actionsList| {
          return Some(IndexOutOfRange);
        }
        var inta := rooms.GetCurrentRoomInteractableByName(NormalizedName(actionsList[idx].noun));
        if inta.Some? {
          goalObject := inta;
        } else {
          var sw := rooms.GetCurrentRoomSwitchersByName(NormalizedName(actionsList[idx].noun));
          if sw.None? {
            return Some(NullReference);
          }
          goalObject := sw;
        }
      } else {
        goalObject := None;
      }
    }

    /** The closing block of `Utility`: the goal check and the `lastAction` update. */
    method FinishStep(maxScore: real, idx: int) returns (fault: Option<Fault>)
      modifies this`state, this`lastAction
      ensures Step(fault, Snapshot()) == RecordLast(RequireGoal(old(Snapshot())), maxScore, idx)
    {
      if NeedsGoal(state) && goalObject.None? {
        state := Puzzled;
      }
      if maxScore < |actionsList| as real && maxScore >= 0.0 {
        if !(0 <= idx < |actionsList|) {
          return Some(IndexOutOfRange);
        }
        lastAction := actionsList[idx];
      }
      return None;
    }

    /** `Utility`: reproduces the source's statement order, including where it throws. */
    method Utility(maxScore: real, maxScoreIndex: int) returns (fault: Option<Fault>)
      modifies this
      ensures Step(fault, Snapshot()) == UtilitySpec(old(Snapshot()), SceneNow(), maxScore, maxScoreIndex)
      ensures sentences == old(sentences) && sentencesArray == old(sentencesArray) && position == old(position)
      ensures isGameOver == old(isGameOver)
    {
      if maxScore < 0.15 {
        state := Puzzled;
        return None;
      }
      if isGameOver && maxScoreIndex == 0 {
        calls := calls + [ReloadScene];
      }
      if state == Idle && maxScoreIndex >= |actionsList| {
        state := Puzzled;
        goalObject := None;
        return None;
      }
      if maxScoreIndex < 0 || maxScoreIndex >= |actionsList| {
        return Some(IndexOutOfRange);
      }
      fault := DispatchStep(maxScore, maxScoreIndex);
    }

    /** The part of `Utility` that acts on the verb. */
    method DispatchStep(maxScore: real, idx: int) returns (fault: Option<Fault>)
      requires 0 <= idx < |actionsList|
      modifies this`isHiding, this`rigVisible, this`calls, this`state, this`actionsList, this`goalObject, this`lastAction
      ensures Step(fault, Snapshot()) == Dispatch(old(Snapshot()), SceneNow(), maxScore, idx)
    {
      var verb := actionsList[idx].verb;
      if isHiding && currentlyInteractingWith.None? {
        isHiding := false;
        rigVisible := true;
        return Some(NullReference);
      }
      ghost var before := Snapshot();
      UnhideStep();
      EngageStep(verb, idx);
      ParseStep(verb);
      assert Snapshot() == Prepared(before, idx, actionsListOfCurrentRoom);
      fault := ResolveStep(verb, idx);
      if fault.Some? {
        return;
      }
      fault := FinishStep(maxScore, idx);
    }

    /**
     * `OnOrderGiven`: rebuilds the command list, ranks the utterance against
     * its sentences and hands the ranker's index and score to `Utility`.
     */
    method OnOrderGiven(prompt: string, rank: (string, seq<string>) -> (int, real)) returns (fault: Option<Fault>)
      modifies this
      ensures sentencesArray == Sentences(Regenerated(old(isGameOver), old(currentlyInteractingWith), actionsListBonus,
                                                      RoomActions(rooms.currentRoom.children)))
      ensures Step(fault, Snapshot()) ==
        UtilitySpec(old(Snapshot()).(actionsList := Regenerated(old(isGameOver), old(currentlyInteractingWith), actionsListBonus,
                                                                RoomActions(rooms.currentRoom.children))),
                    SceneNow(), rank(prompt, sentencesArray).1, rank(prompt, sentencesArray).0)
    {
      RegenerateActionsAndSentences();
      sentencesArray := sentences;
      ghost var regenerated := Snapshot();
      assert regenerated == old(Snapshot()).(actionsList := actionsList);
      var ranked := rank(prompt, sentencesArray);
      fault := Utility(ranked.1, ranked.0);
    }

    /** `Update`: one frame of the state machine; the mover supplies the current speed. */
    method Update(speed: real, playerSpot: Vec3) returns (fault: Option<Fault>)
      modifies this
      ensures Step(fault, Snapshot()) ==
        TickSpec(old(Snapshot()), position, speed, playerSpot, reachedPositionDistance, reachedObjectPositionDistance)
      ensures position == old(position) && sentences == old(sentences) && sentencesArray == old(sentencesArray)
    {
      fault := None;
      match state {
        case Idle =>
        case Hiding =>
          if !isHiding {
            isHiding := true;
            rigVisible := false;
          }
        case Dance => state := Idle;
        case Puzzled => state := Idle;
        case Sit => state := Idle;
        case Hello => state := Idle;
        case GoHide => fault := WalkTick(speed, playerSpot);
        case MoveTo => fault := WalkTick(speed, playerSpot);
        case PickUp => fault := WalkTick(speed, playerSpot);
        case UseInteract => fault := UseInteractTick(speed, playerSpot);
        case BringObject => fault := BringTick(speed, playerSpot);
        case BringObjectToPlayer => fault := BringTick(speed, playerSpot);
      }
    }

    /** `Update` in `GoHide`, `MoveTo` and `PickUp`: walk to the goal, act on arrival. */
    method WalkTick(speed: real, playerSpot: Vec3) returns (fault: Option<Fault>)
      requires state == GoHide || state == MoveTo || state == PickUp
      modifies this`state, this`goalObject, this`currentlyInteractingWith, this`calls
      ensures Step(fault, Snapshot()) ==
        TickSpec(old(Snapshot()), position, speed, playerSpot, reachedPositionDistance, reachedObjectPositionDistance)
    {
      if goalObject.None? {
        return Some(NullReference);
      }
      var g := goalObject.value;
      if !Arrived(position, speed, g, reachedPositionDistance, true) {
        return None;
      }
      if state == GoHide {
        if IsHidingspot(g) {
          currentlyInteractingWith := Some(g);
          calls := calls + [StartInteraction(g, lastAction)];
          state := Hiding;
        }
      } else if state == MoveTo {
        if g.name == "audiencepos" {
          state := Hello;
        } else if IsHidingspot(g) {
          state := Hiding;
          currentlyInteractingWith := Some(g);
          calls := calls + [StartInteraction(g, lastAction)];
        } else {
          state := Idle;
        }
      } else {
        if IsPickUp(g) {
          state := Idle;
          calls := calls + [AddItem(g)];
        } else {
          state := Puzzled;
        }
      }
      goalObject := None;
      return None;
    }

    /**
     * `Update` in `UseInteract`: on arrival (height not checked) as `MoveTo`,
     * then an interactable goal becomes the current interaction, is started,
     * and a non-empty result replaces the command list.
     */
    method UseInteractTick(speed: real, playerSpot: Vec3) returns (fault: Option<Fault>)
      requires state == UseInteract
      modifies this`state, this`goalObject, this`currentlyInteractingWith, this`calls, this`actionsList
      ensures Step(fault, Snapshot()) ==
        TickSpec(old(Snapshot()), position, speed, playerSpot, reachedPositionDistance, reachedObjectPositionDistance)
    {
      if goalObject.None? {
        return Some(NullReference);
      }
      var g := goalObject.value;
      if !Arrived(position, speed, g, reachedPositionDistance, false) {
        return None;
      }
      if g.name == "audiencepos" {
        state := Hello;
      } else if IsHidingspot(g) {
        state := Hiding;
        currentlyInteractingWith := Some(g);
        calls := calls + [StartInteraction(g, lastAction)];
      } else {
        state := Idle;
      }
      if IsInteractable(g) {
        currentlyInteractingWith := Some(g);
        calls := calls + [StartInteraction(g, lastAction)];
        var newActions := StartInteractionResult(g);
        if |newActions| > 0 {
          actionsList := newActions;
        }
      }
      goalObject := None;
      return None;
    }

    /** `Update` while fetching: reach the object, then carry it back to the player's spot. */
    method BringTick(speed: real, playerSpot: Vec3) returns (fault: Option<Fault>)
      requires state == BringObject || state == BringObjectToPlayer
      modifies this`state
      ensures Step(fault, Snapshot()) ==
        TickSpec(old(Snapshot()), position, speed, playerSpot, reachedPositionDistance, reachedObjectPositionDistance)
    {
      if goalObject.None? {
        return Some(NullReference);
      }
      if state == BringObject {
        if Below(SquaredDistance(position, goalObject.value.position), reachedObjectPositionDistance) {
          state := BringObjectToPlayer;
        }
      } else if Below(SquaredDistance(position, playerSpot), reachedObjectPositionDistance) {
        state := Idle;
      }
      return None;
    }
  }
}
