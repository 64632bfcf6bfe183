# SpaceScream core, modelled in Dafny

SpaceScream is a Unity game played by voice. This project models the logic
at its centre and proves properties of that model. There are four groups.

- **The voice-commanded robot (Jammo).** Each utterance regenerates the
  list of actions the robot can take. An action is a sentence, a verb and a
  noun, drawn from the current interaction, a bonus list and the current
  room. The sentences go to a ranker. `Utility` turns the ranker's best score
  and index into one of twelve states, a goal object and the next action
  list. `Update` then advances the state one frame at a time: moving,
  hiding, picking up and interacting.
  - Modules: `Player` (`PlayerBehavior`), `Actions`, `World`,
    `Interactables`, `PickUps`, `Hidingspots`, `RoomSwitchers`, `Rooms`
    (`RoomInteractableManager`) and `Inventories`.
- **The puzzle objects.** These are linked buttons with a lock, a lever
  that needs the red button and locks others, a one-shot crate, a chair,
  and the wire puzzle with its shuffle.
  - Modules: `Buttons`, `Levers`, `Crates`, `Chairs`, `Wires`.
- **Text matching and the voice menu.**
  - `TextUtils`: cleaning strings, Levenshtein distance by the
    Wagner–Fischer table, and the similarity ratio.
  - `VoiceMenu`: keyword priority in the main menu.
  - `VoiceLevel`: the decibel thresholds of the voice level detector.
  - `Strings`, `Lists`: shared helpers.
- **The mini-game bookkeeping.**
  - `Score`: score, combo and high score.
  - `Game`: the five game states.
  - `Collision`: walls, gap triggers and the gap cooldown.
  - `Walls`: the spawn-ahead loop.
  - `Gaps`: gap size and the four placement modes.
  - `Calibration`: microphone calibration.
  - `Smoothing`: the audio smoother.
  - `Mathf`: the `Mathf` routines these rely on.

Objects whose fields the game changes in place are classes with those
fields. Examples are the agent, interactables, buttons, levers, the wire
manager, the room manager and the mini-game managers. Their methods state
the whole new state. Pure computations are functions with lemmas beside
them.

Scene objects are immutable `World.WorldObject` records. Each holds a
name, a position and optional interactable, pickup or room-switcher parts.
Unity's static registries are seq-valued fields of registry classes. A
call the agent makes into another object is appended to a call log. These
calls cover ending, performing or starting an interaction, adding an item,
and sitting down. The agent's model only records these calls; it does not
apply them to its own scene. What each call does is modelled by the
callee's method in its own module (for adding an item,
`Rooms.AddItemFromRoom`, which also takes the object out of the rooms).

Some inputs come from code or devices outside this model. They are
parameters:

- the sentence ranker (an index and a score, with no promise that the index
  is in range);
- the robot's position, speed and a planar distance for the NavMesh mover;
- the clock (`now`, `deltaTime`);
- microphone readings and the decibel conversion (`toDb`);
- the high score stored in `PlayerPrefs`;
- the colliders the physics engine reports;
- the key presses of a frame.

Unity's `Random.value` and `Random.Range` are nondeterministic choices
within their documented ranges.

In `Player.PlayerBehavior`, a C# null dereference or index out of range
is modelled as a `Fault` outcome, and in `Inventories.Inventory.AddItem`
the missing `PickUp` component is the `NullReference` outcome. Where the
program would throw, these models keep the fields assigned up to that
point. Elsewhere, references the code dereferences without a check are
taken to be present; "## Left out" lists them.

Floating point numbers are modelled as `real`, and integers as `int`.

Two behaviours the code shows are kept as written:

- The by-name lookups of `Utility` dereference a missing result, so the
  nearest-pickup fallback cannot fire.
- The two Bring verbs always end `Puzzled`.

## Model

| member | source | states |
|---|---|---|
| Strings.ToLower | Assets/Scenes/MainMenuScene/VoiceMenuController.cs:33 | every character is lowered (ASCII letters only), the length is kept, and no upper-case letter remains |
| Strings.ToLowerIdempotent | Assets/RoomSwitcher.cs:29 | lowering an already lowered string changes nothing, so comparing lowered names is stable |
| Strings.Remove | Assets/Scenes/MainMenuScene/VoiceMenuController.cs:41 | `Replace(c, "")` leaves no `c`, never grows the string, keeps only characters it had and keeps a lower-case string lower case |
| Strings.RemoveAbsent | Assets/PickUp.cs:18 | removing a character the string does not hold returns the string unchanged |
| Strings.ContainsAt | Assets/Scenes/MainMenuScene/VoiceMenuController.cs:47-58 | an occurrence of the needle at some index makes `Contains` true |
| Strings.ContainsWitness | Assets/TextUtils.cs:17 | when `Contains` holds, there is an index at which the needle occurs |
| Strings.TrimStart | Assets/Scenes/MainMenuScene/VoiceMenuController.cs:41 | the result is a suffix of the input that starts with a non-whitespace character (or is empty), and everything dropped is whitespace |
| Strings.TrimEnd | Assets/Scenes/MainMenuScene/VoiceMenuController.cs:41 | the result is a prefix of the input that ends with a non-whitespace character (or is empty), and everything dropped is whitespace |
| Strings.Trim | Assets/Scenes/MainMenuScene/VoiceMenuController.cs:41 | `Trim()` returns a block of the input with only whitespace before and after it, and neither leading nor trailing whitespace left |
| Strings.RemoveConcat | Assets/Scenes/MainMenuScene/VoiceMenuController.cs:41 | `Replace(c, "")` of a concatenation is the concatenation of the two replacements |
| Strings.RemoveKeepsNeedle | Assets/Scenes/MainMenuScene/VoiceMenuController.cs:41 | removing a character a word lacks keeps every occurrence of that word |
| Strings.TrimStartAround | Assets/Scenes/MainMenuScene/VoiceMenuController.cs:41 | leading whitespace is trimmed only up to the first non-whitespace character |
| Strings.TrimEndAround | Assets/Scenes/MainMenuScene/VoiceMenuController.cs:41 | trailing whitespace is trimmed only back to the last non-whitespace character |
| Strings.TrimKeepsNeedle | Assets/Scenes/MainMenuScene/VoiceMenuController.cs:41 | trimming keeps every occurrence of a word that neither starts nor ends with whitespace |
| Strings.TrimmedAtOffset | Assets/Scenes/MainMenuScene/VoiceMenuController.cs:41 | `Trim()` cuts exactly where the whitespace prefix ends, leaving whitespace only around the block |
| Strings.TrimmedAtParts | Assets/Scenes/MainMenuScene/VoiceMenuController.cs:41 | a block whose prefix and suffix in the string are all whitespace is a trimmed form of it |
| Strings.NatToString | Assets/Scenes/MiniGameScene/WallSpawner.cs:90 | a count is written as a non-empty string of decimal digits |
| Strings.NatToStringInjective | Assets/Scenes/MiniGameScene/WallSpawner.cs:83-90 | different counts are written differently, so numbered names never collide |
| Lists.RemoveFirst | Assets/PickUp.cs:111-114 | `List.Remove(x)` drops exactly one copy of `x` when there is one and changes nothing otherwise |
| Lists.RemoveFirstAt | Assets/Hidingspot.cs:13-21 | the copy removed is the first one; the other elements keep their order |
| Lists.AppendThenRemove | Assets/RoomSwitcher.cs:11-19 | registering in `OnEnable` and unregistering in `OnDisable` restores the registry that did not hold the object |
| Actions.Sentences | Assets/Scripts/Jammo/PlayerBehavior.cs:106-113 | the sentence list handed to the ranker has one entry per action, index for index |
| Actions.SentencesAppend | Assets/Scripts/Jammo/PlayerBehavior.cs:305-314 | the sentences of joined action lists are the joined sentence lists |
| Actions.NormalizedName | Assets/Scripts/Jammo/PlayerBehavior.cs:230-252 | `ToLower().Replace(".", "")` yields a dot-free, lower-case name no longer than the original |
| Actions.NormalizedNameFixed | Assets/RoomInteractableManager.cs:47 | a name already lower case and dot-free is its own normal form |
| Actions.NormalizedNameIdempotent | Assets/RoomInteractableManager.cs:93 | normalising a normalised name changes nothing |
| Actions.BackActions | Assets/Interactable.cs:43-46 | `Awake` appends four ways out, each with verb "back" and no noun |
| World.PlanarSquaredDistance | Assets/Hidingspot.cs:23-26 | the distance to an object measured at the player's height |
| World.PlanarIgnoresHeight | Assets/Hidingspot.cs:23-26 | neither the player's height nor the object's affects the planar distance |
| World.BelowMeansCloser | Assets/Scripts/Jammo/PlayerBehavior.cs:583 | comparing squared distances with a squared radius decides `Vector3.Distance(...) < r` exactly, in both directions |
| World.StartInteractionResult | Assets/interactable_chair.cs:8-17 | a chair hands back its single "sit down" action; every other script its `possibleInteractions` |
| World.FindByName | Assets/RoomInteractableManager.cs:99-109 | none exactly when no object's normalised name matches; otherwise the first object that matches |
| World.SearchByName | Assets/RoomInteractableManager.cs:41-51 | the search loop returns the first object whose normalised name matches, or null |
| World.PlanarDistances | Assets/RoomInteractableManager.cs:61 | one planar distance per object, index for index |
| World.EarliestMinIndex | Assets/RoomInteractableManager.cs:59-65 | a scan keeping the strictly smaller distance ends on a least distance that no earlier index shares; -1 for an empty list |
| World.EarliestMinUnique | Assets/RoomInteractableManager.cs:59-65 | the scan's answer is determined: only one index is the earliest least distance |
| World.Closest | Assets/RoomInteractableManager.cs:53-68 | null exactly for an empty list; otherwise the earliest object at the least planar distance |
| PickUps.PickUpNames | Assets/PickUp.cs:67-69 | the names a pickup answers to start with its own name, followed by its synonyms |
| PickUps.PickUpActionsShape | Assets/PickUp.cs:63-77 | three actions per name, in name order: "Move to the", "Go to the" (verb `MoveTo`) and "Pick up the" (verb `PickUp`), every one aimed at the pickup's own name |
| PickUps.PickUpSentencesVersusActions | Assets/PickUp.cs:25-38 | the sentence list is as long as the action list and agrees with its sentences everywhere except every third entry, where "Pick Up the" differs from "Pick up the" |
| PickUps.AllPickUpActionsAppend | Assets/PickUp.cs:79-100 | gathering over two groups of registered pickups is gathering over each, in registration order |
| PickUps.GetPossibleActions | Assets/PickUp.cs:63-77 | the loop builds exactly the three-per-name action list |
| PickUps.GetPossibleSentences | Assets/PickUp.cs:25-38 | the loop builds exactly the three-per-name sentence list |
| PickUps.PickUpRegistry.constructor | Assets/PickUp.cs:42-45 | the static list starts empty |
| PickUps.PickUpRegistry.Start | Assets/PickUp.cs:102-109 | a pickup registers itself at the end of the list |
| PickUps.PickUpRegistry.PickedUp | Assets/PickUp.cs:111-114 | a picked-up object's first registration is removed, nothing else changes |
| PickUps.PickUpRegistry.GetPickUp | Assets/PickUp.cs:14-23 | the first registered pickup whose normalised name equals the query, or null |
| PickUps.PickUpRegistry.GetPossibleActionsForAll | Assets/PickUp.cs:79-100 | every registered pickup's actions, concatenated in registration order |
| PickUps.PickUpRegistry.GetPossibleSentencesForAll | Assets/PickUp.cs:40-61 | every registered pickup's sentences, concatenated in registration order |
| Inventories.Without | Assets/Inventory.cs:31-38 | after consumption no child carries the name, and exactly the other children remain |
| Inventories.WithoutAbsent | Assets/Inventory.cs:27-40 | consuming an item nobody holds leaves the children as they were |
| Inventories.UsedNotices | Assets/Inventory.cs:36 | one "<item> used" notice per destroyed child |
| Inventories.ScanForConsumption | Assets/Inventory.cs:29-39 | the last-to-first scan keeps exactly the children not named `item` and sends one notice per destroyed one |
| Inventories.Inventory.constructor | Assets/Inventory.cs:7-15 | an inventory starts with no children and no notices |
| Inventories.Inventory.HasItem | Assets/Inventory.cs:17-25 | true exactly when some child's name equals the item, both directions |
| Inventories.Inventory.ConsumeItem | Assets/Inventory.cs:27-40 | every child named `item` is gone, the rest stay in order, and one notice per destroyed child is appended |
| Inventories.Inventory.GetItems | Assets/Inventory.cs:42-51 | the children's objects, one per child, in sibling order |
| Inventories.Inventory.AddItem | Assets/Inventory.cs:53-57 | the object becomes the last child; it leaves the pickup registry if it is a pickup, and otherwise the call dereferences null after the re-parenting |
| Interactables.UseSynonymActions | Assets/Interactable.cs:103-104 | one `UseInteract` action per use-synonym, "<synonym> <name>", aimed at the object |
| Interactables.NameActions | Assets/Interactable.cs:97-104 | per name: two `MoveTo` actions, then `UseInteract` actions only, all aimed at the object itself |
| Interactables.UseSynonymSentences | Assets/Interactable.cs:64-65 | one sentence per use-synonym, written "<synonym>the <name>" without a space |
| Interactables.NameSentences | Assets/Interactable.cs:58-65 | per name: four fixed sentences and one per use-synonym |
| Interactables.PossibleActionsCount | Assets/Interactable.cs:88-108 | `(1 + synonyms) * (4 + useSynonyms)` actions, every one naming the object itself as noun |
| Interactables.PossibleActionsAppend | Assets/Interactable.cs:95-106 | the outer loop over names composes: building for two name lists in turn is building for the joined list |
| Interactables.PossibleActionsBlocks | Assets/Interactable.cs:95-106 | the actions come in one block per name, in name order, block `i` starting at `i * (4 + useSynonyms)` |
| Interactables.PossibleSentencesCount | Assets/Interactable.cs:49-69 | there are exactly as many sentences as actions |
| Interactables.SentencesDisagreeWithActions | Assets/Interactable.cs:64-65 | with a use-synonym the sentence list is not the projection of the action list: "<s>the <n>" against "<s> <n>" at 103-104 |
| Interactables.PerformFiresInOrder | Assets/Interactable.cs:151-167 | the events invoked are exactly the pairs that match and whose item is not required or is held at their turn, each once, in list order |
| Interactables.MatchingFreePairFires | Assets/Interactable.cs:155-157 | a matching pair with no required item always fires |
| Interactables.PerformConsumesOnlyFired | Assets/Interactable.cs:157-163 | nothing new enters the inventory, and an item leaves only when a pair that fired required it by name |
| Interactables.NoPairsNoEffect | Assets/Interactable.cs:153 | with no pairs nothing fires and the inventory is untouched |
| Interactables.InteractableRegistry.constructor | Assets/Interactable.cs:32-34 | the static list starts empty |
| Interactables.InteractableRegistry.GetInteractable | Assets/Interactable.cs:120-128 | null exactly when no registered name normalises to the query; otherwise the first one that does |
| Interactables.Interactable.constructor | Assets/Interactable.cs:8-28 | the inspector fields as given, no event fired yet |
| Interactables.Interactable.Awake | Assets/Interactable.cs:30-47 | the object registers itself; an empty action list stays empty, a non-empty one gains the four back actions, nothing else changes |
| Interactables.Interactable.GetPossibleActions | Assets/Interactable.cs:88-108 | the actions for the object's own name and then each synonym |
| Interactables.AppendNameActions | Assets/Interactable.cs:97-104 | one pass of the outer loop appends exactly the block of actions for that name: the four fixed ones and one per use-synonym, in order |
| Interactables.Interactable.GetPossibleSentences | Assets/Interactable.cs:49-69 | the sentences for the object's own name and then each synonym |
| Interactables.Interactable.GetCurrentActions | Assets/Interactable.cs:130-133 | the actions available while in use, unchanged |
| Interactables.Interactable.PerformInteraction | Assets/Interactable.cs:151-167 | the events fired, the inventory afterwards and the notices sent are those of the pairs' turns in list order |
| Interactables.Interactable.EndInteraction | Assets/Interactable.cs:170-176 | the close-up camera, if any, is switched off and the agent's camera on |
| Interactables.Interactable.StartInteraction | Assets/Interactable.cs:135-149 | cameras switched, `PerformInteraction` run exactly when pairs exist, the interaction ended again exactly when no action is available, the actions returned |
| Hidingspots.Hidingspot.constructor | Assets/Hidingspot.cs:4 | a spot wraps its `Interactable` part |
| Hidingspots.Hidingspot.OnEnable | Assets/Hidingspot.cs:8-11 | the spot joins the end of the registry |
| Hidingspots.Hidingspot.OnDisable | Assets/Hidingspot.cs:18-21 | the spot's first registration is removed |
| Hidingspots.Hidingspot.OnDestroy | Assets/Hidingspot.cs:13-16 | as `OnDisable` |
| Hidingspots.Hidingspot.Awake | Assets/Hidingspot.cs:28-36 | "Hide" joins the use-synonyms, the base `Awake` runs, and four more back actions follow whatever the list held |
| Hidingspots.Hidingspot.GetCurrentActions | Assets/Hidingspot.cs:54-57 | the base list, unchanged |
| Hidingspots.Hidingspot.StartInteraction | Assets/Hidingspot.cs:59-67 | only the camera switch: nothing fires, the interaction is never ended, the list is returned as is |
| Hidingspots.Hidingspot.EndInteraction | Assets/Hidingspot.cs:69-72 | the base behaviour |
| Hidingspots.Objects | Assets/Hidingspot.cs:42-51 | the registered spots' objects, in registration order |
| Hidingspots.HidingspotRegistry.constructor | Assets/Hidingspot.cs:6 | the static list starts empty |
| Hidingspots.HidingspotRegistry.ClosestHidingSpot | Assets/Hidingspot.cs:38-52 | over every registered spot, in any room: the earliest one at the least planar distance, none when there is none |
| RoomSwitchers.LowerNameMatchesIgnoresCase | Assets/RoomSwitcher.cs:29 | the switcher test ignores case on either side |
| RoomSwitchers.FindRoomSwitcherKeepsDots | Assets/RoomSwitcher.cs:29 | unlike the room manager's lookups, a dot in a switcher's name must be spoken: "a.b" does not match "ab" |
| RoomSwitchers.RoomSwitcher.constructor | Assets/RoomSwitcher.cs:9-23 | the inspector fields as given, no event yet |
| RoomSwitchers.RoomSwitcher.OnEnable | Assets/RoomSwitcher.cs:11-14 | the switcher joins the end of the registry |
| RoomSwitchers.RoomSwitcher.OnDisable | Assets/RoomSwitcher.cs:16-19 | its first registration is removed |
| RoomSwitchers.RoomSwitcher.OnTriggerEnter | Assets/RoomSwitcher.cs:36-44 | only a collider tagged "Player" switches the current room to the target and invokes the event once; anything else changes nothing |
| RoomSwitchers.RoomSwitcherRegistry.constructor | Assets/RoomSwitcher.cs:7 | the static list starts empty |
| RoomSwitchers.RoomSwitcherRegistry.FindRoomSwitcher | Assets/RoomSwitcher.cs:25-34 | null exactly when no lowered name equals the lowered query; otherwise the first registered match |
| Rooms.InteractablesIn | Assets/RoomInteractableManager.cs:36-39 | exactly the room's objects carrying an `Interactable` |
| Rooms.PickUpsIn | Assets/RoomInteractableManager.cs:111-114 | exactly the room's objects carrying a `PickUp` |
| Rooms.SwitchersIn | Assets/RoomInteractableManager.cs:89 | exactly the room's objects carrying a `RoomSwitcher` |
| Rooms.HidingspotsIn | Assets/RoomInteractableManager.cs:116-119 | exactly the room's objects carrying a `Hidingspot` |
| Rooms.SwitcherActionsShape | Assets/RoomInteractableManager.cs:138-147 | two actions per switcher name, every one `MoveTo` the switcher's own name |
| Rooms.AllObjectCounts | Assets/RoomInteractableManager.cs:128-131 | the interactables give as many sentences as actions |
| Rooms.AllPickUpCounts | Assets/RoomInteractableManager.cs:133-136 | the pickups give as many sentences as actions |
| Rooms.RoomSentencesMissSwitchers | Assets/RoomInteractableManager.cs:121-169 | the room's sentence list is shorter than its action list by exactly the switcher commands, so the two are misaligned once a switcher is present |
| Rooms.ScanClosest | Assets/RoomInteractableManager.cs:55-67 | the loop's answer is the earliest object at the least planar distance, none for an empty list |
| Rooms.CollectObjectActions | Assets/RoomInteractableManager.cs:128-131 | each interactable's actions, appended in hierarchy order |
| Rooms.CollectPickUpActions | Assets/RoomInteractableManager.cs:133-136 | each pickup's actions, appended in hierarchy order |
| Rooms.CollectSwitcherActions | Assets/RoomInteractableManager.cs:138-147 | each switcher's "Move to the"/"Go to the" pairs, own name first |
| Rooms.CollectObjectSentences | Assets/RoomInteractableManager.cs:159-162 | each interactable's sentences, appended in hierarchy order |
| Rooms.CollectPickUpSentences | Assets/RoomInteractableManager.cs:163-166 | each pickup's sentences, appended in hierarchy order |
| Rooms.RoomInteractableManager.constructor | Assets/RoomInteractableManager.cs:11-13 | the configured start room, the room list and one camera switch per room |
| Rooms.RoomInteractableManager.GetCurrentRoomPickUpByName | Assets/RoomInteractableManager.cs:41-51 | the first pickup of the current room whose normalised name matches, or null |
| Rooms.RoomInteractableManager.GetCurrentRoomSwitchersByName | Assets/RoomInteractableManager.cs:87-97 | the first switcher of the current room whose normalised name matches, or null |
| Rooms.RoomInteractableManager.GetCurrentRoomInteractableByName | Assets/RoomInteractableManager.cs:99-109 | the first interactable of the current room whose normalised name matches, or null |
| Rooms.RoomInteractableManager.GetClosestHidingSpotinCurrentRoom | Assets/RoomInteractableManager.cs:53-68 | the current room's earliest hiding spot at the least planar distance, or null |
| Rooms.RoomInteractableManager.GetClosestPickUpFromCurrentRoom | Assets/RoomInteractableManager.cs:70-85 | the current room's earliest pickup at the least planar distance, or null |
| Rooms.RoomInteractableManager.GetCurrentRoomActions | Assets/RoomInteractableManager.cs:121-151 | interactables' actions, then pickups', then switchers' |
| Rooms.RoomInteractableManager.GetCurrentRoomSentences | Assets/RoomInteractableManager.cs:153-169 | interactables' sentences, then pickups', and none for switchers |
| Rooms.RoomInteractableManager.SetCurrentRoomWhere | Assets/RoomInteractableManager.cs:171-203 | every room's camera is on exactly when it matches the key; current room and events are those of the visit in list order |
| Rooms.RoomInteractableManager.SetCurrentRoomById | Assets/RoomInteractableManager.cs:171-186 | rooms matched by root instance id: camera on exactly for the matches |
| Rooms.RoomInteractableManager.SetCurrentRoomByName | Assets/RoomInteractableManager.cs:188-203 | rooms matched by name: camera on exactly for the matches |
| Rooms.RoomInteractableManager.Awake | Assets/RoomInteractableManager.cs:30-34 | the configured room is selected through its root object |
| Rooms.WithoutId | Assets/Inventory.cs:55 | the hierarchy left after re-parenting keeps exactly the objects with another instance id |
| Rooms.RoomInteractableManager.Detach | Assets/Inventory.cs:55 | the re-parented object leaves the current room and every listed room; the cameras and events are untouched |
| Rooms.AddItemFromRoom | Assets/Inventory.cs:53-57 | the whole of `AddItem`: the object leaves every room, becomes the inventory's last child, and leaves the pickup registry exactly when it is a pickup |
| Rooms.DetachedNotOffered | Assets/RoomInteractableManager.cs:38-151 | a picked-up object is no longer returned by any by-name or nearest-object query of a room it left |
| Rooms.DetachAbsent | Assets/Inventory.cs:55 | re-parenting an object a room does not hold leaves that room unchanged |
| Rooms.SwitchedNoMatch | Assets/RoomInteractableManager.cs:173-185 | with no matching room the current room stays and no event fires |
| Rooms.SwitchedUniqueMatch | Assets/RoomInteractableManager.cs:175-180 | with exactly one match, the old room's exit and the new room's enter fire in that order and the match becomes current |
| Rooms.SwitchedToMatch | Assets/RoomInteractableManager.cs:175-178 | after a switch that found a room, the current room matches the key |
| Player.StateNamed | Assets/Scripts/Jammo/PlayerBehavior.cs:221 | `Enum.TryParse` succeeds only on a verb that is exactly a member's name, and then yields that member |
| Player.StateNamedInverts | Assets/Scripts/Jammo/PlayerBehavior.cs:49-63 | every member's name parses back to that member |
| Player.StateNamedIsCaseSensitive | Assets/Scripts/Jammo/PlayerBehavior.cs:221 | "moveto" parses to nothing while "MoveTo" parses to `MoveTo` |
| Player.ParsedState | Assets/Scripts/Jammo/PlayerBehavior.cs:219-224 | a verb naming a state sets it, a verb naming none keeps the state, and `Hiding` always becomes `GoHide` |
| Player.RequireGoal | Assets/Scripts/Jammo/PlayerBehavior.cs:262-281 | afterwards a state that needs a goal has one; the only change ever made is to `Puzzled`, for such a state without a goal |
| Player.Prepared | Assets/Scripts/Jammo/PlayerBehavior.cs:199-224 | before the goal lookup: hiding is left, a way-out verb swaps in the room list, the verb's state is parsed, and goal, interaction and last action are kept |
| Player.LowScoreOnlyPuzzles | Assets/Scripts/Jammo/PlayerBehavior.cs:175-178 | a best score under 0.15 sets `Puzzled` and changes nothing else: no goal, list, interaction or call |
| Player.IdleOutOfRangePuzzles | Assets/Scripts/Jammo/PlayerBehavior.cs:187-192 | in `Idle`, an index past the list's end puzzles the robot and clears its goal, before any interaction callback |
| Player.OutOfRangeThrowsOutsideIdle | Assets/Scripts/Jammo/PlayerBehavior.cs:187-194 | outside `Idle` (or for a negative index) an out-of-range index throws at the verb lookup |
| Player.HidingWithoutInteractionThrows | Assets/Scripts/Jammo/PlayerBehavior.cs:199-203 | hiding with no interaction recorded: the rig reappears and then the null interaction throws |
| Player.ResolveKeeps | Assets/Scripts/Jammo/PlayerBehavior.cs:226-260 | the goal lookup leaves the command list, the interaction, the calls and the last action alone |
| Player.FinishKeeps | Assets/Scripts/Jammo/PlayerBehavior.cs:262-283 | the closing block changes at most the state (to `Puzzled`) and the last action |
| Player.UtilityDispatches | Assets/Scripts/Jammo/PlayerBehavior.cs:179-194 | past the score and range guards, `Utility` acts on the verb, with the reload of a game-over restart recorded first |
| Player.PreparedCalls | Assets/Scripts/Jammo/PlayerBehavior.cs:199-216 | the calls made before the goal lookup: the hiding spot's end, then ending or forwarding to the current interaction |
| Player.DispatchEngages | Assets/Scripts/Jammo/PlayerBehavior.cs:210-216 | with an interaction running, a way-out verb ends it and installs the room list but leaves it recorded as current; any other verb is forwarded once with the chosen action, whether or not the call later throws |
| Player.DispatchWithoutInteraction | Assets/Scripts/Jammo/PlayerBehavior.cs:210-216 | with no interaction running, nothing is ended or forwarded |
| Player.ResolveState | Assets/Scripts/Jammo/PlayerBehavior.cs:239-243 | the goal lookup changes the state only to `GoHide` |
| Player.UtilityLeavesNoHidingAndNoMissingGoal | Assets/Scripts/Jammo/PlayerBehavior.cs:171-285 | after a call that does not throw, the robot is never in `Hiding`, and a state that needs a goal has one |
| Player.UtilityResolves | Assets/Scripts/Jammo/PlayerBehavior.cs:194-283 | once the guards pass, `Utility` is the prepared state's goal lookup followed by the closing block |
| Player.FinishWithGoal | Assets/Scripts/Jammo/PlayerBehavior.cs:262-283 | a lookup that found a goal keeps its state and goal |
| Player.FinishWithoutGoal | Assets/Scripts/Jammo/PlayerBehavior.cs:262-281 | a lookup that found no goal puzzles a state that needs one and keeps any other |
| Player.PreparedNamedState | Assets/Scripts/Jammo/PlayerBehavior.cs:221-222 | a verb naming a state other than `Hiding` leads to exactly that state, the list unchanged |
| Player.BringCommandPuzzles | Assets/Scripts/Jammo/PlayerBehavior.cs:259-273 | `BringObject` and `BringObjectToPlayer` never get a goal and always end `Puzzled` |
| Player.ResolveWithoutLookup | Assets/Scripts/Jammo/PlayerBehavior.cs:259-260 | a fetch state looks nothing up: the goal is cleared |
| Player.HideCommandTargetsClosestSpot | Assets/Scripts/Jammo/PlayerBehavior.cs:239-243 | the bare "hide" command heads in `GoHide` for the nearest registered hiding spot of any room, unless a pick-up or use command is pending |
| Player.PreparedHide | Assets/Scripts/Jammo/PlayerBehavior.cs:219-224 | "hide" names no state and is no way out: the state is kept (`Hiding` turned to `GoHide`) and so is the list |
| Player.HideWithoutSpotsFaultsNextFrame | Assets/Scripts/Jammo/PlayerBehavior.cs:239-243 | with no hiding spot registered "hide" still enters `GoHide`, with no goal, and the next frame throws at 414 |
| Player.PickUpCommandLooksUpRoom | Assets/Scripts/Jammo/PlayerBehavior.cs:227-233 | `PickUp` targets the current room's first pickup named by the normalised noun; with none, the call throws and the fallback at 231-232 is never reached |
| Player.MoveToCommandFallsBackToSwitcher | Assets/Scripts/Jammo/PlayerBehavior.cs:244-256 | `MoveTo` targets a named interactable of the room first, a named switcher second, and throws with the goal cleared when neither exists |
| Player.ResolveMoveTo | Assets/Scripts/Jammo/PlayerBehavior.cs:244-256 | in `MoveTo` the goal lookup is the interactable-then-switcher lookup |
| Player.MoveToLookUpFallsBack | Assets/Scripts/Jammo/PlayerBehavior.cs:246-253 | the interactable-then-switcher lookup with the closing block, case by case |
| Player.LastActionFollowsScore | Assets/Scripts/Jammo/PlayerBehavior.cs:282-283 | a dispatched command is recorded as the last action exactly when the score (not the index) is below the number of commands |
| Player.SingleCommandNotRecorded | Assets/Scripts/Jammo/PlayerBehavior.cs:282-283 | so a perfect match on a one-command list is acted on but never recorded |
| Player.IdleTickWaits | Assets/Scripts/Jammo/PlayerBehavior.cs:383-385 | an `Idle` frame changes nothing |
| Player.FlashStatesReturnToIdle | Assets/Scripts/Jammo/PlayerBehavior.cs:436-471 | `Hello`, `Dance`, `Puzzled` and `Sit` return to `Idle` after one frame, nothing else changed |
| Player.HidingTickHidesOnce | Assets/Scripts/Jammo/PlayerBehavior.cs:394-410 | the first `Hiding` frame hides the rig; later frames change nothing |
| Player.MissingGoalThrows | Assets/Scripts/Jammo/PlayerBehavior.cs:412-414 | a walking state with no goal throws on its next frame |
| Player.MoveToArrival | Assets/Scripts/Jammo/PlayerBehavior.cs:504-531 | until arrival nothing changes; on arrival the goal is dropped and the robot greets at "audiencepos", enters and starts a hiding spot, or idles |
| Player.GoHideToNonSpotThrowsNextFrame | Assets/Scripts/Jammo/PlayerBehavior.cs:424-434 | arriving at an object that is no hiding spot clears the goal but stays in `GoHide`, so the next frame throws |
| Player.GoHideEntersSpot | Assets/Scripts/Jammo/PlayerBehavior.cs:421-433 | arriving at a hiding spot makes it the current interaction, starts it once and enters `Hiding` |
| Player.UseInteractStartsSpotTwice | Assets/Scripts/Jammo/PlayerBehavior.cs:539-558 | `UseInteract` on a hiding spot starts its interaction twice, once as a spot and once as an interactable |
| Player.UseInteractAdoptsActions | Assets/Scripts/Jammo/PlayerBehavior.cs:551-558 | an interactable reached becomes the current interaction and a non-empty list it hands back replaces the command list; a chair hands back only "sit down" |
| Player.PickUpArrival | Assets/Scripts/Jammo/PlayerBehavior.cs:563-578 | on arrival a pickup is handed to the inventory and the robot idles; anything else puzzles it |
| Player.TickKeepsListOutsideUseInteract | Assets/Scripts/Jammo/PlayerBehavior.cs:381-598 | a frame changes the command list and the last action only in `UseInteract` |
| Player.RankedIndexNamesCommand | Assets/Scripts/Jammo/PlayerBehavior.cs:311-326 | the ranker's index into the sentences names the command that sentence came from |
| Player.RegeneratedPlacesRoomLast | Assets/Scripts/Jammo/PlayerBehavior.cs:305-310 | outside game over, a room command sits at its room index shifted by the interaction's and the bonus actions |
| Player.GameOverOffersOnlyRestart | Assets/Scripts/Jammo/PlayerBehavior.cs:298-303 | after game over "restart" is the only command and the only sentence |
| Player.CollectSentences | Assets/Scripts/Jammo/PlayerBehavior.cs:109-113 | the loop collects each action's sentence, in order |
| Player.PlayerBehavior.constructor | Assets/Scripts/Jammo/PlayerBehavior.cs:19-99 | the inspector fields as given; idle, no goal, no interaction, visible, not game over |
| Player.PlayerBehavior.Awake | Assets/Scripts/Jammo/PlayerBehavior.cs:102-114 | idle, with the sentences of the configured action list |
| Player.PlayerBehavior.GameOver | Assets/Scripts/Jammo/PlayerBehavior.cs:129-134 | the game-over flag is set |
| Player.PlayerBehavior.SitDown | Assets/Scripts/Jammo/PlayerBehavior.cs:335-349 | the robot is placed at the seat position it is given and enters `Sit` |
| Player.PlayerBehavior.RegenerateActionsAndSentences | Assets/Scripts/Jammo/PlayerBehavior.cs:293-315 | only "restart" after game over; otherwise interaction actions, bonus actions and room actions, with the sentences as their index-for-index projection |
| Player.PlayerBehavior.UnhideStep | Assets/Scripts/Jammo/PlayerBehavior.cs:199-207 | the `isHiding` block: rig shown, spot's interaction ended, idle |
| Player.PlayerBehavior.EngageStep | Assets/Scripts/Jammo/PlayerBehavior.cs:210-216 | the disengage-or-forward block |
| Player.PlayerBehavior.ParseStep | Assets/Scripts/Jammo/PlayerBehavior.cs:219-224 | the state after parsing the verb |
| Player.PlayerBehavior.ResolveStep | Assets/Scripts/Jammo/PlayerBehavior.cs:226-260 | the goal lookup, throwing where the source dereferences null |
| Player.PlayerBehavior.FinishStep | Assets/Scripts/Jammo/PlayerBehavior.cs:262-283 | the goal check and the `lastAction` update |
| Player.PlayerBehavior.Utility | Assets/Scripts/Jammo/PlayerBehavior.cs:171-285 | the statement order of `Utility`, including where it throws; sentences, position and game-over flag untouched |
| Player.PlayerBehavior.DispatchStep | Assets/Scripts/Jammo/PlayerBehavior.cs:194-283 | the part of `Utility` acting on the verb |
| Player.PlayerBehavior.OnOrderGiven | Assets/Scripts/Jammo/PlayerBehavior.cs:321-327 | the rebuilt sentences go to the ranker, and its index and score go to `Utility` |
| Player.PlayerBehavior.Update | Assets/Scripts/Jammo/PlayerBehavior.cs:351-599 | one frame of the state machine; position and sentences untouched |
| Player.PlayerBehavior.WalkTick | Assets/Scripts/Jammo/PlayerBehavior.cs:412-434 | walking to the goal in `GoHide`, `MoveTo` or `PickUp` and acting on arrival (also 504-531, 563-578) |
| Player.PlayerBehavior.UseInteractTick | Assets/Scripts/Jammo/PlayerBehavior.cs:533-561 | arrival judged without the height check, then the spot and interactable starts and the list replacement |
| Player.PlayerBehavior.BringTick | Assets/Scripts/Jammo/PlayerBehavior.cs:580-597 | reach the object, then carry it to the player's spot and idle |
| Buttons.ButtonActions | Assets/Scripts/ButtonController.cs:33-43 | six commands without noun: three "PressButton", then three verb-"back" ways out |
| Buttons.ButtonController.constructor | Assets/Scripts/ButtonController.cs:7-19 | unlocked, not pressed, at rest, with its opposite button as assigned |
| Buttons.ButtonController.Start | Assets/Scripts/ButtonController.cs:21-44 | the cap's current pose is the rest pose and the command list is exactly the six button commands |
| Buttons.ButtonController.ForceReset | Assets/Scripts/ButtonController.cs:83-88 | released and back at rest, locked or not |
| Buttons.ButtonController.Press | Assets/Scripts/ButtonController.cs:51-80 | the whole new state of both buttons (`Pressed`): a locked button ignores the press and leaves its opposite untouched; otherwise the opposite button is released to rest first, and this one ends pressed, moving in only if it was not pressed already; links and locks never change |
| Buttons.ButtonController.PerformInteraction | Assets/Scripts/ButtonController.cs:91-95 | the verb "PressButton" has exactly the effect of `Press` (`Pressed`, including the locked case and the caps); any other verb changes neither button |
| Buttons.ButtonController.StartInteraction | Assets/Interactable.cs:135-149 | the inherited entry point with the button's override: close-up camera on, exactly `Press`'s effect (`Pressed`) for "PressButton" when the base has action/event pairs and neither button changed otherwise, the interaction ended when no command is available, and the command list returned |
| Levers.LeverActions | Assets/Scripts/LeverController.cs:54-65 | six commands without noun: the three puzzle verbs in order, then three verb-"back" ways out |
| Levers.LeverController.constructor | Assets/Scripts/LeverController.cs:8-20 | up, with its required button and its buttons to lock as assigned |
| Levers.LeverController.SetLocks | Assets/Scripts/LeverController.cs:84-90 | every assigned button (empty entries skipped) gets the lock state, and nothing else of any button changes |
| Levers.LeverController.Start | Assets/Scripts/LeverController.cs:25-66 | up, every assigned button unlocked, the command list exactly the six lever commands |
| Levers.LeverController.PullDown | Assets/Scripts/LeverController.cs:69-91 | nothing happens when already down or when the required button exists and is not pressed; otherwise down, with every assigned button locked; locks held while down stay held |
| Levers.LeverController.PushUp | Assets/Scripts/LeverController.cs:94-109 | nothing happens when up; otherwise up, with every assigned button unlocked |
| Levers.LeverController.PerformInteraction | Assets/Scripts/LeverController.cs:136-162 | the whole effect of the verb (`VerbApplied`): "PressRedButton" marks an existing, unlocked required button pressed without resetting its partner or moving its cap; "PullLeverDown" goes down and locks every assigned button unless already down or the required button is unpressed; "PushLeverUp" from down goes up and unlocks every assigned button; these two touch only the lever and the locks; any other verb changes nothing; the lock invariant is kept |
| Levers.LeverController.StartInteraction | Assets/Interactable.cs:135-149 | the inherited entry point with the lever's override: close-up camera on, the verb's whole effect (`VerbApplied`) exactly when the base has action/event pairs and nothing changed otherwise, the lock invariant kept, the interaction ended when no command is available, and the command list returned |
| Crates.Crate.constructor | Assets/Scripts/Crate.cs:7-11 | not yet triggered, no event invoked |
| Crates.Crate.StartInteraction | Assets/Scripts/Crate.cs:13-23 | unless one-shot and already triggered, the crate is marked and its event invoked once; either way the base `StartInteraction` runs: the pairs' events, inventory changes and notices, the camera switch, and its list returned |
| Chairs.ChairInteractable.constructor | Assets/interactable_chair.cs:4-6 | a chair wraps its `Interactable` part and its seat |
| Chairs.ChairInteractable.StartInteraction | Assets/interactable_chair.cs:8-17 | exactly one command, "sit down" with verb `Sit` aimed at the chair; no camera switch, no event, no ending |
| Chairs.ChairInteractable.PerformInteraction | Assets/interactable_chair.cs:19-26 | "Sit" seats the agent at this chair's seat position; any other verb leaves its state and position as they were |
| Chairs.ChairRecordAgrees | Assets/interactable_chair.cs:8-17 | the agent's record of a chair hands back the same "sit down" list as the chair itself |
| Wires.EndPoint.constructor | Assets/Wire.cs:7 | an end transform at its position, with the id of its `WireEnd` if it has one |
| Wires.Wire.constructor | Assets/Wire.cs:6-17 | a wire with its end and id, neither connected nor dragged |
| Wires.Wire.Start | Assets/Wire.cs:21-26 | the current position becomes the one to return to, and the wire registers with the manager |
| Wires.Wire.Connect | Assets/Wire.cs:83-90 | the wire snaps onto its end, connected and not dragged, and the manager checks the puzzle |
| Wires.Wire.Disconnect | Assets/Wire.cs:92-102 | not connected, not dragged, back at its original position |
| Wires.Positions | Assets/WireManager.cs:89-90 | the wires' end positions, index for index |
| Wires.Registered | Assets/WireManager.cs:21-25 | the wire is in the list afterwards, appended at the end exactly when it was missing, the earlier entries kept |
| Wires.RegisteredKeepsNoDuplicates | Assets/WireManager.cs:21-25 | registration never creates a duplicate, and registering twice is registering once |
| Wires.Deal | Assets/WireManager.cs:92-97 | the random draws without replacement hand out every position exactly once: the dealt list is a permutation of the pool |
| Wires.WireManager.constructor | Assets/WireManager.cs:9-13 | no wires, not victorious, no sound played |
| Wires.WireManager.Register | Assets/WireManager.cs:21-25 | the wire is added unless it is already registered |
| Wires.WireManager.CanConnect | Assets/WireManager.cs:32-36 | true exactly when the end has a `WireEnd` whose id is the wire's |
| Wires.WireManager.CheckPuzzle | Assets/WireManager.cs:38-49 | once victorious nothing happens; otherwise the puzzle is solved, with one success sound, exactly when every registered wire is connected |
| Wires.WireManager.PuzzleSolved | Assets/WireManager.cs:51-57 | victorious, with one more success sound |
| Wires.WireManager.ResetAll | Assets/WireManager.cs:75-83 | victory withdrawn, every wire disconnected and back at its start, every end at one of the old end positions, and a permutation of them when no two wires share an end |
| Wires.WireManager.DisconnectAll | Assets/WireManager.cs:79-80 | every registered wire is disconnected and back at its start |
| Wires.WireManager.CollectEndPositions | Assets/WireManager.cs:87-90 | the end positions in wire order |
| Wires.WireManager.PlaceEnds | Assets/WireManager.cs:92-97 | each end holds one of the dealt positions, and wire `k`'s end the `k`-th when no two wires share an end |
| Wires.WireManager.ShuffleWires | Assets/WireManager.cs:85-98 | every end ends up at one of the original end positions, and the new positions are a permutation of the old ones when no two wires share an end |
| TextUtils.StripPunctuation | Assets/TextUtils.cs:32 | only word characters and white space remain, and the string never grows |
| TextUtils.StripWhiteSpace | Assets/TextUtils.cs:37 | no white space remains, and the string never grows |
| TextUtils.CleanString | Assets/TextUtils.cs:29-40 | the result holds only lower-case word characters and is no longer than the input |
| TextUtils.StripPunctuationAppend | Assets/TextUtils.cs:32 | stripping punctuation works piece by piece |
| TextUtils.StripWhiteSpaceAppend | Assets/TextUtils.cs:37 | stripping white space works piece by piece |
| TextUtils.ToLowerAppend | Assets/TextUtils.cs:39 | lowering works piece by piece |
| TextUtils.CleanStringAppend | Assets/TextUtils.cs:29-40 | the cleaned whole is the cleaned parts joined |
| TextUtils.CleanStringIgnoresSeparator | Assets/TextUtils.cs:29-40 | a space, a dot, a comma or any other non-word character makes no difference to the cleaned string |
| TextUtils.CleanStringKeepsClean | Assets/TextUtils.cs:29-40 | a string that is already clean is left as it is |
| TextUtils.CleanStringIdempotent | Assets/TextUtils.cs:29-40 | cleaning twice is cleaning once |
| TextUtils.EditDistance | Assets/TextUtils.cs:42-65 | the edit distance is at most the longer length and at least the difference of the lengths |
| TextUtils.EditDistanceZeroIff | Assets/TextUtils.cs:42-65 | the distance is 0 exactly between equal strings |
| TextUtils.EditDistanceSymmetric | Assets/TextUtils.cs:42-65 | the distance does not depend on the order of its arguments |
| TextUtils.PrefixDistanceEdges | Assets/TextUtils.cs:51-52 | the table's first column and first row count the characters |
| TextUtils.PrefixDistanceStep | Assets/TextUtils.cs:58-61 | an inner cell is the least of its three neighbours' candidates |
| TextUtils.ComputeLevenshteinDistance | Assets/TextUtils.cs:42-65 | the table's corner, including the early returns for an empty side, is the edit distance |
| TextUtils.FillRow | Assets/TextUtils.cs:56-62 | the inner loop fills row `i` with the prefix distances and touches no other row |
| TextUtils.CalculateSimilarity | Assets/TextUtils.cs:7-27 | 0 for an empty argument; 1 when the cleaned input contains the cleaned target; otherwise 1 minus the distance over the longer cleaned length; always within [0, 1] |
| TextUtils.RatioAtMostOne | Assets/TextUtils.cs:26 | a distance no greater than the longer length gives a ratio within [0, 1], so the score never leaves [0, 1] |
| VoiceMenu.Normalized | Assets/Scenes/MainMenuScene/VoiceMenuController.cs:41 | the matched text holds no "." and no "!", only characters of the transcript, and neither starts nor ends with white space |
| VoiceMenu.NormalizedKeepsWord | Assets/Scenes/MainMenuScene/VoiceMenuController.cs:41 | normalising keeps every word without ".", "!" or whitespace at its ends that the transcript contains |
| VoiceMenu.NormalizedKeepsKeywords | Assets/Scenes/MainMenuScene/VoiceMenuController.cs:41-58 | a transcript containing any of the keywords "start", "option", "exit" and "quit" still contains it after normalising, so no keyword is lost before matching |
| VoiceMenu.ClassifyByPriority | Assets/Scenes/MainMenuScene/VoiceMenuController.cs:47-58 | each entry is recognised exactly when its keyword occurs and no keyword of higher priority does: "start", then "option", then "exit" or "quit" |
| VoiceMenu.ClassifyNoneIffNoKeyword | Assets/Scenes/MainMenuScene/VoiceMenuController.cs:47-58 | nothing is recognised exactly when none of the four keywords occurs |
| VoiceMenu.StartBeatsExit | Assets/Scenes/MainMenuScene/VoiceMenuController.cs:47-55 | a transcript naming "exit" before "start" still starts the game |
| VoiceMenu.MenuLabel.constructor | Assets/Scenes/MainMenuScene/VoiceMenuController.cs:15-17 | a label with its colour |
| VoiceMenu.VoiceMenuController.constructor | Assets/Scenes/MainMenuScene/VoiceMenuController.cs:14-21 | the three labels and the highlight as given, white as the default, no action yet |
| VoiceMenu.VoiceMenuController.AtMostOneHighlighted | Assets/Scenes/MainMenuScene/VoiceMenuController.cs:45-58 | with distinct labels and a highlight unlike the default, at most one label is highlighted after any command |
| VoiceMenu.VoiceMenuController.Start | Assets/Scenes/MainMenuScene/VoiceMenuController.cs:23-28 | the default colour is taken from the start label |
| VoiceMenu.VoiceMenuController.ResetColors | Assets/Scenes/MainMenuScene/VoiceMenuController.cs:61-67 | all three labels back to the default colour |
| VoiceMenu.VoiceMenuController.HighlightAndAction | Assets/Scenes/MainMenuScene/VoiceMenuController.cs:69-75 | the label is highlighted, then its action runs once |
| VoiceMenu.VoiceMenuController.Respond | Assets/Scenes/MainMenuScene/VoiceMenuController.cs:45-58 | each label is highlighted exactly when it is the recognised entry's, and the entry's action, if any, runs once |
| VoiceMenu.VoiceMenuController.ProcessCommand | Assets/Scenes/MainMenuScene/VoiceMenuController.cs:39-59 | after normalising, the labels are reset and the first keyword's label is highlighted and its action run; without a keyword nothing else happens |
| VoiceMenu.VoiceMenuController.OnTranscriptionReady | Assets/Scenes/MainMenuScene/VoiceMenuController.cs:30-37 | the recogniser's text is lowered before it is processed |
| VoiceLevel.Clamp | Assets/VoiceLevelDetector.cs:68 | `Mathf.Clamp`: within the bounds, and a value already within them is kept |
| VoiceLevel.SumOfSquares | Assets/VoiceLevelDetector.cs:60-64 | the square sum of the samples is never negative |
| VoiceLevel.VoiceLevelDetector.constructor | Assets/VoiceLevelDetector.cs:9-26 | the inspector defaults: floor -60 dB, whisper 5-25, normal 15-45, shout from 40 |
| VoiceLevel.VoiceLevelDetector.GetEffectiveBaseline | Assets/VoiceLevelDetector.cs:77-82 | the recorded noise floor, but never below -50 dB |
| VoiceLevel.VoiceLevelDetector.IsAboveNoiseFloor | Assets/VoiceLevelDetector.cs:84-87 | above the floor means more than 3 dB over both the recorded floor and -50 dB |
| VoiceLevel.VoiceLevelDetector.HasViolatedLowerLimit | Assets/VoiceLevelDetector.cs:90-107 | too quiet exactly when below the effective baseline plus the mode's minimum offset; an unknown mode is always too quiet |
| VoiceLevel.VoiceLevelDetector.HasViolatedUpperLimit | Assets/VoiceLevelDetector.cs:110-127 | too loud exactly when above the effective baseline plus the whisper or normal maximum; a shout or an unknown mode is never too loud |
| VoiceLevel.VoiceLevelDetector.SetBaseline | Assets/VoiceLevelDetector.cs:71-75 | the current reading becomes the floor, so right afterwards it is not above it |
| VoiceLevel.VoiceLevelDetector.CalculateRMS | Assets/VoiceLevelDetector.cs:50-69 | -80 dB without a clip or before a full buffer is recorded; otherwise the level of the square sum, clamped to [-80, 10] |
| VoiceLevel.VoiceLevelDetector.Update | Assets/VoiceLevelDetector.cs:36-48 | the debug targets follow the effective baseline, and only while recording is the reading refreshed |
| VoiceLevel.SilenceIsTooQuiet | Assets/VoiceLevelDetector.cs:71-107 | right after `SetBaseline`, with positive minimum offsets, the reading is too quiet in every mode |
| VoiceLevel.LouderIsNeverTooQuiet | Assets/VoiceLevelDetector.cs:90-107 | against the same floor the louder of two readings is too quiet only if the quieter is |
| VoiceLevel.QuieterIsNeverTooLoud | Assets/VoiceLevelDetector.cs:110-127 | against the same floor the quieter of two readings is too loud only if the louder is |
| VoiceLevel.WhisperWindow | Assets/VoiceLevelDetector.cs:14-17 | with the default offsets, 10 dB over the floor is an acceptable whisper: the whisper window is not empty |
| Score.ScoreManager.constructor | Assets/Scenes/MiniGameScene/ScoreManager.cs:13-38 | the serialized settings as given; score, high score, gaps, combo and last score time start at zero, no events |
| Score.ScoreManager.Start | Assets/Scenes/MiniGameScene/ScoreManager.cs:56-59 | the high score is the stored value loaded at start |
| Score.ScoreManager.Update | Assets/Scenes/MiniGameScene/ScoreManager.cs:61-71 | with combos on, a running combo whose window has elapsed is reset to zero (announced); otherwise nothing changes |
| Score.ScoreManager.Multiplier | Assets/Scenes/MiniGameScene/ScoreManager.cs:86 | the combo multiplier is the combo capped at the maximum multiplier: at most both, and equal to one of them |
| Score.ScoreManager.AddScore | Assets/Scenes/MiniGameScene/ScoreManager.cs:76-119 | the whole new state (`Scored`): gaps are added to the session; with combos on the combo grows by one and its time is now, otherwise both are kept; the score grows by the award for the new combo and total; the high score is the larger of old high score and new score; combo, score and high-score events are announced in that order |
| Score.ScoreManager.BonusOnThreshold | Assets/Scenes/MiniGameScene/ScoreManager.cs:94-96 | without combos a gap earns its points plus the bonus exactly when the session total is a multiple of the threshold, so the threshold-th gap earns the bonus |
| Score.ScoreManager.ResetCombo | Assets/Scenes/MiniGameScene/ScoreManager.cs:124-136 | a positive combo drops to zero and is announced; otherwise nothing changes |
| Score.ScoreManager.ResetScore | Assets/Scenes/MiniGameScene/ScoreManager.cs:141-155 | score, gaps, combo and last score time are zero and the zero score and combo are announced; the high score is kept |
| Score.ScoreManager.GetAccuracy | Assets/Scenes/MiniGameScene/ScoreManager.cs:201-213 | 100 without a collision handler or with no attempts; otherwise gaps over attempts as a percentage, which lies in [0, 100] for non-negative counts |
| Score.ShareAtMostOne | Assets/Scenes/MiniGameScene/ScoreManager.cs:209 | a part of a positive whole is a share in [0, 1] |
| Calibration.Peak | Assets/Scenes/MiniGameScene/CalibrationManager.cs:118-132 | the running maximum of the loud phase, starting at 0, is never negative |
| Calibration.PeakIsMaximum | Assets/Scenes/MiniGameScene/CalibrationManager.cs:118-132 | the running maximum bounds every loud reading and is one of them unless it is still 0 |
| Calibration.CappedVolume | Assets/Scenes/MiniGameScene/CalibrationManager.cs:134 | the calibrated maximum is the buffered peak capped at 1: never above 1 or the buffered peak, and equal to one of them |
| Calibration.CalibrationManager.constructor | Assets/Scenes/MiniGameScene/CalibrationManager.cs:12-32 | the settings as given, not calibrated, no calibration running |
| Calibration.CalibrationManager.Start | Assets/Scenes/MiniGameScene/CalibrationManager.cs:34-39 | default baseline 0.05 and maximum 0.8, not yet calibrated |
| Calibration.CalibrationManager.StartCalibration | Assets/Scenes/MiniGameScene/CalibrationManager.cs:54-59 | ignored while a calibration runs; otherwise the calibration runs and the silence phase starts with nothing summed |
| Calibration.CalibrationManager.SkipCalibration | Assets/Scenes/MiniGameScene/CalibrationManager.cs:64-69 | the current values become the calibration |
| Calibration.CalibrationManager.SilenceFrame | Assets/Scenes/MiniGameScene/CalibrationManager.cs:92-112 | each frame adds its reading; once the timer reaches the duration the baseline is 1.1 times the mean of all silence readings, the smoother's gate is that baseline clamped, and the loud phase follows |
| Calibration.CalibrationManager.EnterLoud | Assets/Scenes/MiniGameScene/CalibrationManager.cs:114-121 | the loud phase starts from a zero maximum; with no loud duration it ends at once with a zero peak |
| Calibration.CalibrationManager.LoudFrame | Assets/Scenes/MiniGameScene/CalibrationManager.cs:121-134 | each frame adds its reading to the running maximum; once the timer reaches the duration the maximum volume is the capped buffered peak of all loud readings and calibration is complete |
| Calibration.CalibrationManager.FinishLoud | Assets/Scenes/MiniGameScene/CalibrationManager.cs:134-140 | the maximum volume is the capped buffered peak of the loud readings, at most 1, and the calibration is marked done |
| Calibration.CalibrationManager.CompleteWait | Assets/Scenes/MiniGameScene/CalibrationManager.cs:141-144 | after the final wait no calibration is running |
| Calibration.CalibrationManager.GetNormalizedVolume | Assets/Scenes/MiniGameScene/CalibrationManager.cs:150-164 | always in [0, 1]; uncalibrated, the raw value clamped; calibrated, the part above the baseline as a share of the baseline-to-maximum range, clamped, so anything at or below the baseline is 0 |
| Calibration.CalibrationManager.GetGameplayVolume | Assets/Scenes/MiniGameScene/CalibrationManager.cs:191-204 | the reading is smoothed and the smoothed value normalised, giving a volume in [0, 1] |
| Calibration.NormalizedMonotone | Assets/Scenes/MiniGameScene/CalibrationManager.cs:150-164 | once calibrated with a maximum above the baseline, a louder reading never normalises lower |
| Calibration.MaximumIsFullScale | Assets/Scenes/MiniGameScene/CalibrationManager.cs:150-164 | once calibrated, a reading at or above the maximum normalises to 1 |
| Smoothing.SumBounds | Assets/Scenes/MiniGameScene/AudioSmoother.cs:43-47 | readings in [lo, hi] add up to between lo and hi times their count |
| Smoothing.MeanBounds | Assets/Scenes/MiniGameScene/AudioSmoother.cs:48 | the running average of readings in [lo, hi] lies in [lo, hi] |
| Smoothing.Buffered | Assets/Scenes/MiniGameScene/AudioSmoother.cs:38-40 | the queue after a reading ends with it, never exceeds its capacity, grows by one until full, and otherwise keeps the most recent readings in order |
| Smoothing.Gate | Assets/Scenes/MiniGameScene/AudioSmoother.cs:34-35 | readings below the noise threshold count as 0, the others pass unchanged |
| Smoothing.AudioSmoother.constructor | Assets/Scenes/MiniGameScene/AudioSmoother.cs:11-24 | the settings as given, an empty queue and zero smoothed and target values |
| Smoothing.AudioSmoother.SmoothVolume | Assets/Scenes/MiniGameScene/AudioSmoother.cs:31-54 | the gated reading joins the bounded queue, the target is the mean of the queue, and the returned smoothed value moves from the old one toward it by the lerp speed |
| Smoothing.AudioSmoother.Reset | Assets/Scenes/MiniGameScene/AudioSmoother.cs:67-72 | the queue is empty and both values are zero |
| Smoothing.AudioSmoother.SetNoiseThreshold | Assets/Scenes/MiniGameScene/AudioSmoother.cs:77-80 | the threshold is the given one clamped into [0, 1] |
| Smoothing.SmoothingStaysInUnitRange | Assets/Scenes/MiniGameScene/AudioSmoother.cs:43-51 | readings in [0, 1] give a target in [0, 1], and a smoothed value in [0, 1] stays there |
| Smoothing.GateKeepsUnitRange | Assets/Scenes/MiniGameScene/AudioSmoother.cs:34-35 | the gate keeps a reading in [0, 1] within [0, 1] |
| Mathf.Clamp01 | Assets/Scenes/MiniGameScene/CalibrationManager.cs:153 | the result lies in [0, 1], equals a value already there, and is the nearer end otherwise |
| Mathf.Clamp | Assets/Scenes/MiniGameScene/GapGenerator.cs:93 | with ordered bounds the result lies between them, and a value already between them is kept |
| Mathf.ClampMonotone | Assets/Scenes/MiniGameScene/GapGenerator.cs:93 | clamping preserves order |
| Mathf.Lerp | Assets/Scenes/MiniGameScene/AudioSmoother.cs:51 | the result lies between the two ends and is the first end for a fraction at most 0 and the second for a fraction at least 1 |
| Mathf.LerpDownwardMonotone | Assets/Scenes/MiniGameScene/GapGenerator.cs:91 | interpolating toward a lower end never rises as the fraction grows |
| Mathf.DivideMonotone | Assets/Scenes/MiniGameScene/CalibrationManager.cs:161 | dividing by a positive range preserves order |
| Mathf.MinReal | Assets/Scenes/MiniGameScene/CalibrationManager.cs:134 | the smaller of the two: at most both and equal to one |
| Mathf.MaxReal | Assets/Scenes/MiniGameScene/CalibrationManager.cs:156-157 | the larger of the two: at least both and equal to one |
| Mathf.Abs | Assets/Scenes/MiniGameScene/GapGenerator.cs:148 | non-negative and equal to the value or its negation |
| Collision.InLayerMask | Assets/Scenes/MiniGameScene/CollisionHandler.cs:74-79 | an empty mask contains no layer and a full mask every layer |
| Collision.TagsAreDisjoint | Assets/Scenes/MiniGameScene/CollisionHandler.cs:74-91 | an object tagged as a wall is a wall, and with no layer match and no gap name it is never taken for a gap trigger |
| Collision.CollisionHandler.constructor | Assets/Scenes/MiniGameScene/CollisionHandler.cs:12-41 | the layers and cooldown as given, zero counters, no wall told, the last gap pass far in the past |
| Collision.CollisionHandler.OnCollisionEnter2D | Assets/Scenes/MiniGameScene/CollisionHandler.cs:71-80 | a collision adds one wall hit exactly when the object is a wall by layer or tag |
| Collision.CollisionHandler.HandleWallCollision | Assets/Scenes/MiniGameScene/CollisionHandler.cs:107-144 | one more wall hit |
| Collision.CollisionHandler.OnTriggerEnter2D | Assets/Scenes/MiniGameScene/CollisionHandler.cs:85-102 | a gap trigger outside the cooldown counts one pass at time now, tells its wall and has the whole effect of adding one gap to the score (`ScoreManager.Scored`: combo, score time, score, high score, events); anything else changes nothing and no wall hit is counted |
| Collision.CollisionHandler.HandleGapPass | Assets/Scenes/MiniGameScene/CollisionHandler.cs:149-194 | inside the cooldown nothing changes; otherwise the pass time is now, one more gap is counted, its wall (if found) is told and the score manager has the whole effect of adding one gap (`ScoreManager.Scored`) |
| Collision.CollisionHandler.Reset | Assets/Scenes/MiniGameScene/CollisionHandler.cs:217-222 | both counters are zero and any pass a cooldown after time -999 counts |
| Collision.CountedPassesSpaced | Assets/Scenes/MiniGameScene/CollisionHandler.cs:152-155 | counted passes are drawn from the triggers, the first a full cooldown after the last counted pass, and each a cooldown after the one before |
| Collision.WithinCooldownIgnored | Assets/Scenes/MiniGameScene/CollisionHandler.cs:152-155 | triggers all within the cooldown of the last pass count not at all |
| Collision.SimultaneousTriggersCountOnce | Assets/Scenes/MiniGameScene/CollisionHandler.cs:152-155 | with a positive cooldown, triggers arriving at one instant count at most once |
| Gaps.RandomValue | Assets/Scenes/MiniGameScene/GapGenerator.cs:120 | `Random.value` is some value in [0, 1] |
| Gaps.RandomRange | Assets/Scenes/MiniGameScene/GapGenerator.cs:103 | a float `Random.Range` lies between its two bounds, whichever is smaller |
| Gaps.RandomInt | Assets/Scenes/MiniGameScene/GapGenerator.cs:204 | an integer `Random.Range` lies from the lower bound up to but excluding the upper |
| Gaps.GapGenerator.constructor | Assets/Scenes/MiniGameScene/GapGenerator.cs:10-50 | the settings as given (any non-zero `obstaclesUntilMinGap`); no walls counted, last centre 0, extreme count 999, empty history, pattern counters zero |
| Gaps.GapGenerator.Progress | Assets/Scenes/MiniGameScene/GapGenerator.cs:90 | the share of the way to the minimum gap lies in [0, 1] |
| Gaps.GapGenerator.GapSizeAt | Assets/Scenes/MiniGameScene/GapGenerator.cs:84-94 | without scaling the base size; with scaling a size within [minimum, maximum] |
| Gaps.GapGenerator.GetDifficultyMultiplier | Assets/Scenes/MiniGameScene/GapGenerator.cs:220-226 | in [0, 1]: 0 without scaling, otherwise the progress toward the minimum gap for the walls counted so far |
| Gaps.GapGenerator.GenerateRandomPosition | Assets/Scenes/MiniGameScene/GapGenerator.cs:99-104 | a centre between the two safe bounds, so inside the safe band when it is not empty |
| Gaps.GapGenerator.GenerateSmartPosition | Assets/Scenes/MiniGameScene/GapGenerator.cs:109-156 | the centre lies in the safe band when it is not empty; the extreme count either grows by one or drops to 0, and drops only when enough gaps have passed since the last extreme |
| Gaps.GapGenerator.GenerateAlternatingPosition | Assets/Scenes/MiniGameScene/GapGenerator.cs:161-191 | the centre lies in the safe band, within 0.3 of the anchor for the index modulo 3 (both clamped); the index advances by one |
| Gaps.GapGenerator.GenerateProgressivePosition | Assets/Scenes/MiniGameScene/GapGenerator.cs:196-215 | the steps at the target grow by one, and after 3 to 5 steps restart at 0 with a new target between the safe bounds; the centre moves 40% from the last centre toward the target and lies in the safe band |
| Gaps.GapGenerator.GenerateGap | Assets/Scenes/MiniGameScene/GapGenerator.cs:55-79 | one more wall is counted; the size follows the new count; the centre comes from the configured mode and lies in the safe band; it becomes the last centre and joins the five-entry history; the other modes' counters are unchanged |
| Gaps.GapGenerator.Remember | Assets/Scenes/MiniGameScene/GapGenerator.cs:73-76 | the centre is the last one and the history keeps the most recent centres, at most five |
| Gaps.GapGenerator.Reset | Assets/Scenes/MiniGameScene/GapGenerator.cs:231-240 | every counter and the history back to their initial values |
| Gaps.GapNeverWidens | Assets/Scenes/MiniGameScene/GapGenerator.cs:84-94 | with scaling on and a minimum below the base size, more walls never give a wider gap |
| Gaps.MinimumGapReached | Assets/Scenes/MiniGameScene/GapGenerator.cs:84-94 | once `obstaclesUntilMinGap` walls are counted, the gap has its minimum size |
| Gaps.NegativeGoalKeepsBaseGap | Assets/Scenes/MiniGameScene/GapGenerator.cs:84-94 | with a negative `obstaclesUntilMinGap` the progress is 0 for every wall count, so with scaling on the gap keeps its clamped base size |
| Gaps.AnchorsAscend | Assets/Scenes/MiniGameScene/GapGenerator.cs:169-183 | the low, middle and high anchors lie in that order inside the safe band |
| Walls.Surviving | Assets/Scenes/MiniGameScene/WallSpawner.cs:70 | the cleaned wall list holds exactly the walls that were listed and not destroyed, and is no longer than before |
| Walls.ExtendSpawned | Assets/Scenes/MiniGameScene/WallSpawner.cs:81-105 | a wall numbered and placed one spacing after the last continues a run of spawned walls |
| Walls.SpawnedAscending | Assets/Scenes/MiniGameScene/WallSpawner.cs:83-93 | walls of one run are numbered on from the starting count and lie beyond the starting position in strictly increasing order |
| Walls.SpawnedNamed | Assets/Scenes/MiniGameScene/WallSpawner.cs:90-98 | every wall of a run is named after its number and set up with speed 0 |
| Walls.WallNamesDistinct | Assets/Scenes/MiniGameScene/WallSpawner.cs:90 | walls with different numbers get different names |
| Walls.SpawnedNamesDistinct | Assets/Scenes/MiniGameScene/WallSpawner.cs:83-90 | the walls of one run all carry distinct names |
| Walls.WallSpawner.constructor | Assets/Scenes/MiniGameScene/WallSpawner.cs:6-27 | the settings and generator as given; not spawning, not initialised, no walls, furthest position -999 |
| Walls.WallSpawner.Start | Assets/Scenes/MiniGameScene/WallSpawner.cs:29-49 | the start delay is counted from now |
| Walls.WallSpawner.Update | Assets/Scenes/MiniGameScene/WallSpawner.cs:51-79 | before the delay nothing changes; when it has passed, spawning starts 5 units past the camera; afterwards, if spawning with a prefab and a generator, destroyed walls are dropped and just enough walls are spawned to reach the spawn-ahead distance past the camera, each counted once in the spawner and the generator; otherwise nothing changes, in the spawner or its generator |
| Walls.WallSpawner.SpawnAhead | Assets/Scenes/MiniGameScene/WallSpawner.cs:73-78 | the loop leaves the earlier walls in place, appends a run of walls one spacing apart, stops at the first wall at or past the target and spawns nothing when the furthest wall is already there |
| Walls.WallSpawner.SpawnWall | Assets/Scenes/MiniGameScene/WallSpawner.cs:81-105 | one more wall, one spacing past the furthest, named after the new count, appended to the list, with one gap drawn from the generator, inside the safe band, and speed 0 |
| Walls.WallSpawner.StartSpawning | Assets/Scenes/MiniGameScene/WallSpawner.cs:108-111 | a call changes nothing |
| Walls.WallSpawner.StopSpawning | Assets/Scenes/MiniGameScene/WallSpawner.cs:113-116 | spawning stops |
| Walls.WallSpawner.Reset | Assets/Scenes/MiniGameScene/WallSpawner.cs:118-135 | not spawning or initialised, no walls, furthest position -999, the delay counted from now, and every generator counter, the last gap, the progressive target and the history reset |
| Game.ToggleIsPauseOrResume | Assets/Scenes/MiniGameScene/GameManager.cs:256-266 | toggling is pausing while playing, resuming while paused, and nothing otherwise |
| Game.ToggleTwiceRestores | Assets/Scenes/MiniGameScene/GameManager.cs:218-266 | two toggles from playing or paused come back to the starting state |
| Game.GameOverIsSticky | Assets/Scenes/MiniGameScene/GameManager.cs:174-304 | game over is left exactly by starting gameplay outside a scene transition or by a completed calibration, and pausing, resuming or toggling never reach it |
| Game.GameManager.constructor | Assets/Scenes/MiniGameScene/GameManager.cs:15-53 | the settings and references as given; calibration state, no transition, time running, no scene loaded, no start pending |
| Game.GameManager.SetState | Assets/Scenes/MiniGameScene/GameManager.cs:372-383 | the state becomes the new one |
| Game.GameManager.IsPlaying | Assets/Scenes/MiniGameScene/GameManager.cs:393 | true exactly while playing |
| Game.GameManager.GetSessionTime | Assets/Scenes/MiniGameScene/GameManager.cs:398-405 | while playing the time since gameplay started, otherwise 0 |
| Game.GameManager.InitializeGame | Assets/Scenes/MiniGameScene/GameManager.cs:131-159 | in the calibration scene the calibration state; in the gameplay scene ready, with a delayed start pending exactly when calibrated and starting automatically; in any other scene nothing changes |
| Game.GameManager.StartGameplayDelayed | Assets/Scenes/MiniGameScene/GameManager.cs:164-166 | the coroutine's first part: ready, with one more start pending |
| Game.GameManager.DelayedStartElapsed | Assets/Scenes/MiniGameScene/GameManager.cs:167-168 | after the delay the pending start is consumed; during a transition nothing else changes, otherwise gameplay starts exactly as `StartGameplay` promises, including the score events and the kept high score and passed-wall record |
| Game.GameManager.StartGameplay | Assets/Scenes/MiniGameScene/GameManager.cs:174-213 | refused during a transition, leaving the manager, score and collision handler unchanged; otherwise playing, session clock at now, player active, score, gaps, combo and score clock reset with the high score kept and score-then-combo change events fired, wall hits, gaps and cooldown reset with the passed-wall record kept, and the gameplay panel shown |
| Game.GameManager.PauseGame | Assets/Scenes/MiniGameScene/GameManager.cs:218-232 | only while playing: paused, time frozen, pause panel shown; otherwise nothing changes |
| Game.GameManager.ResumeGame | Assets/Scenes/MiniGameScene/GameManager.cs:237-251 | only while paused: playing, time running, pause panel hidden; otherwise nothing changes |
| Game.GameManager.TogglePause | Assets/Scenes/MiniGameScene/GameManager.cs:256-266 | pauses while playing (time frozen, pause panel shown), resumes while paused (time running, pause panel hidden), and changes nothing in other states |
| Game.GameManager.EndGame | Assets/Scenes/MiniGameScene/GameManager.cs:271-304 | once only: game over, player deactivated, spawning stopped with every other spawner field kept, game-over panel shown and gameplay panel hidden; at game over nothing changes |
| Game.GameManager.RestartGame | Assets/Scenes/MiniGameScene/GameManager.cs:309-314 | refused during a transition, leaving the manager, the spawner and its generator untouched; otherwise the restart coroutine runs: time running, panels hidden, the spawner and its gap generator fully reset (`WallSpawner.ResetAt`), the active scene reloaded when there is a player, and the state unchanged |
| Game.GameManager.RestartGameCoroutine | Assets/Scenes/MiniGameScene/GameManager.cs:316-345 | time running, game-over and pause panels hidden, the spawner and its gap generator fully reset; with a player the active scene is reloaded and the transition flag stays set, without one it is cleared |
| Game.GameManager.LoadCalibrationScene | Assets/Scenes/MiniGameScene/GameManager.cs:350-356 | refused during a transition; otherwise time running and the calibration scene loaded |
| Game.GameManager.LoadGameplayScene | Assets/Scenes/MiniGameScene/GameManager.cs:361-367 | refused during a transition; otherwise time running and the gameplay scene loaded |
| Game.GameManager.OnCalibrationComplete | Assets/Scenes/MiniGameScene/GameManager.cs:426-434 | ready, with a delayed start pending exactly when gameplay starts automatically |
| Game.GameManager.Update | Assets/Scenes/MiniGameScene/GameManager.cs:75-94 | a pause key while playing (pausing allowed) pauses: time frozen and the pause panel shown, nothing else changed; a restart key at game over outside a transition has the whole effect of `RestartGame`; in every other case nothing changes, in the manager, the spawner or its generator |

## Left out

- The sentence ranker `SentenceSimilarity.RankSimilarity` is not part of this model. It is a parameter that returns an index and a score.
- Speech capture and transcription are device I/O and asynchronous. This covers the microphone input, the Whisper calls, the voice calibration stages and the waveform and meter visualisers. The menu line that receives a transcript is the input to `VoiceMenu.ProcessCommand`.
- The NavMesh agent, animator, transforms and rigidbodies are left out. `SetDestination`, `RotateTo`, the animation triggers, `Grab`/`Drop` and `LeverController.MoveLever` are engine calls. They appear only as flags, positions and speeds handed in.
- Floating point rounding is left out. Floats are `real`.
- 32-bit overflow of the integer counters is not modelled: they are `int`.
- Square roots are avoided: distances are compared as squared planar distances, which agree with the program's comparisons for non-negative radii.
- The logarithm of `CalculateRMS` is the parameter `toDb`.
- Rendering and UI are left out. This covers sounds, camera shake, label colours, scene lighting, GUI, `UnityEvent` listeners and debug logging. The events a component fires are recorded in an event log; colours are recorded as values.
- `PlayerPrefs` persistence is left out: the stored high score is a parameter of `Score.ScoreManager.Start`, and saving it is not modelled.
- Scene loading is left out: `SceneManager.LoadScene` is recorded as the scene name appended to `Game.GameManager.sceneLoads`.
- `Time.timeScale` is kept only as a value.
- Random timers and effects are left out: vents, jump scares, light flicker and animation sounds do not reach the core.
- `LightSwitch` is left out: it overrides a parameterless `StartInteraction` that does not exist, so the code does not compile as written.
- `ButtonController.Start` and `LeverController.Start` call `base.Start()`, but `Interactable` declares only `Awake`. Their `Start` bodies are modelled as initialisers that run after registration.
- The two `DoorAnimator` classes are left out, as door animation.
- Unity's `Destroy` is deferred to the end of the frame. The removal in `ConsumeItem` takes effect at the end of the call.
- The singleton `Awake` of `ScoreManager` and `GameManager` is left out: each component is a single object here.
- `GameManager.AutoFindReferences` is left out: the references it finds are constructor arguments, and a missing one is `null`.
- The player, the UI panels and the calibration manager appear in `GameManager` only as flags. `calibrated` combines "a calibration manager was found" with its `IsCalibrated`.
- `GameManager.OnPlayerHitWall` and `GameManager.OnPlayerPassedGap` are left out: they only log.
- `WallObstacle` geometry and animation are left out. `SetupGap` is recorded by its arguments in `Walls.WallRecord`; `OnPlayerPassed` by the wall number in `Collision.CollisionHandler.passedWalls`.
- Coroutine waits are left out. The `WaitForSeconds` of `StartGameplayDelayed` becomes the separate step `Game.GameManager.DelayedStartElapsed`. The calibration coroutine becomes a state machine whose waits are not timed: frames are `SilenceFrame`/`LoudFrame` and the final wait is `CompleteWait`.
- `Enum.TryParse` is modelled as an exact, case-sensitive match of a state name. Its numeric forms, comma lists and surrounding white space are not modelled.
- Strings.ToLower: lowers ASCII letters only, while .NET lowers every Unicode letter ("É" to "é").
- Strings.Trim: treats only the six ASCII white space characters as white space, while .NET trims every Unicode white space character.
- Strings.TrimStart: ASCII white space only, as for `Strings.Trim`.
- Strings.TrimEnd: ASCII white space only, as for `Strings.Trim`.
- TextUtils.StripPunctuation: keeps only ASCII letters, digits, `_` and ASCII white space, while .NET's `\w` and `\s` also match non-ASCII letters, digits and white space, so "café" loses its "é" here.
- TextUtils.StripWhiteSpace: drops ASCII white space only, while .NET's `\s` matches every Unicode white space character.
- Every modelled reference that the program dereferences without a null check is taken to be present: the chair's `sitPoint` (Assets/Scripts/Jammo/PlayerBehavior.cs:341), the player found by `FindObjectOfType` in the chair's `PerformInteraction` (Assets/interactable_chair.cs:23-24), the spawner's `mainCamera` (Assets/Scenes/MiniGameScene/WallSpawner.cs:60) and `PlayerBehavior.Instance` in `Interactable.StartInteraction` and `EndInteraction` (Assets/Interactable.cs:140-144 and 173). A missing one is a `NullReferenceException` that only `Player.PlayerBehavior` and `Inventories.Inventory.AddItem` model.
- Inventories.Inventory.AddItem: states only the inventory and pickup-registry side of the re-parenting. The room side (the object leaving the room hierarchy) is stated by `Rooms.AddItemFromRoom`, because the room module imports the inventory module and not the reverse.
- The word-character class `\w` of `CleanString` is modelled as ASCII letters, digits and `_`.
- `Interactable.GetPossibleActionsForAll` and `Interactable.GetPossibleSentencesForAll` are left out: nothing in the core calls them.
- `Rooms.RoomInteractableManager.IsCurrentRoom` is a predicate that is plain name equality; it needs no contract of its own.
- `GetStats` and `OnGUI` only format text for display, and are left out.
- The one-line getters (`GetScore`, `GetHighScore`, `GetCombo`, `GetGapsPassed`, `GetWallsHit`, `GetSmoothedValue`, `GetState`) are field reads. Those that appear are functions without a contract; the others are the fields themselves.
- `Wires.WireManager.ShuffleWires` makes all its random draws first and then assigns the ends. This is equivalent to the source, because the draws never read the ends.
- Smoothing.AudioSmoother.constructor: requires a buffer size in [2, 20], the inspector range of that setting.
- Calibration.CalibrationManager.constructor: requires a positive silence duration. With none, the silence loop takes no reading and C# computes the mean as 0/0, a floating point NaN that reals cannot express.
- Calibration.CalibrationManager.GetNormalizedVolume: requires a calibrated maximum different from the baseline. Equal values would divide by zero in floating point, giving an infinity or NaN.
- Gaps.GapGenerator.constructor: requires a non-zero `obstaclesUntilMinGap`. Zero would divide by zero in floating point, giving an infinity or NaN, and floating-point special values are not modelled. A negative value is allowed and is covered by `Gaps.NegativeGoalKeepsBaseGap`.
- Score.ScoreManager.AddScore: requires a non-zero `bonusPointsThreshold`. Zero makes C# throw `DivideByZeroException` at the modulo, and that exception is not modelled.
- Walls.WallSpawner.Update: requires a positive `minDistanceBetweenWalls`. Otherwise the spawn loop never ends, and a non-terminating frame is not modelled.
