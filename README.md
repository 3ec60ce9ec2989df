# SCPCBDunGen core, modelled in Dafny

This project models the server-side logic of SCPCBDunGen, a Lethal Company mod that adds an SCP: Containment Breach dungeon. It covers five pieces.

- The SCP-914 refiner (`SCPCB914.cs`). Its input trigger keeps a list of what is inside. It has a five-position dial and a busy guard. It keeps one conversion table per setting. A conversion run destroys each unheld item and spawns one candidate drawn from its table, with a fresh scrap value. It teleports players and applies the setting's effect to them.
- The two hooks on `RoundManager.SpawnScrapInLevel` (`Hooks/RoundManagerPatch.cs`).
  - `SCP914Configuration` turns the loaded recipe records into the refiner's tables.
  - `SetItemSpawnPoints` points the dungeon's scrap spawn slots at the game's own item groups.
- The recipe registry of the plugin's `Awake` (`SCPCBDunGen.cs`). Every record of every recipe file is merged into a collection keyed by item name.
- The two-stop elevator (`SCPCBElevNuclear.cs`). A run closes the doors, moves everything in the departure cabin up or down by 15.36, rings, and opens the other side.
- The powered door (`SCPCBDoor.cs`). It tracks the enemies in its trigger. Each frame it decides whether they open it, quickly or normally. It ignores toggles while busy and frees itself through a two-step coroutine.

## How the model is built

- **Files.** There is one Dafny module per source file: `Scp914`, `RoundManagerPatch`, `Recipes`, `ElevNuclear` and `Door`. `Common` holds the shared pieces.
- **Objects become classes.** The source's stateful objects are classes with those fields: `InputStore`, `Converter`, `ConversionSet`, `Elevator`, `Panel` and `DoorMover`.
- **A coroutine is cut at each wait.** Each piece becomes one method, guarded by a `phase` field. The methods are `Activate`, `Resolve` and `FinishRefining` for the refiner; `Activate`, `StartMoving`, `Teleport` and `Finish` for the elevator; and `ResumeClearWaiting` and `ResumeEnableButtons` for the door.
- **Network effects are logged.** Client RPCs, server-side spawns and destroys are entries appended to a `log`.
- **Loops are proved against functions.** Each loop of the source is a method with invariants. Its `ensures` ties the result to a specification function: `Run`, `ResolveColumn`, `ApplyRecord`, `ApplyAll`, `ReassignAll`, `LoadFiles`, `Moved` or `HighestSpeed`. The properties are lemmas about those functions.
- **Engine lookups are parameters.** `FindObjectOfType`, tags and `StartOfRound.Instance` become environment values passed in. Randomness is the `Random` class over a stream of raw samples (`Common.Draw`). Geometry is reduced to what decides behaviour: the elevator's vertical displacement, and which colliders are in a cabin.

The model follows the code in these points, which a reader might not expect:
- `OnTriggerEnter` keeps duplicates, and a run converts an object once per entry: an object listed twice is destroyed twice and spawns two outputs.
- The trigger list holds objects, not snapshots. The run reads each object's components (`isHeld`, the player's suit and `AllowPlayerDeath`) when the loop reaches it, so an item picked up after it entered is left alone.
- The refiner's dial can be turned while a run is in progress, because `TurnStateServerRpc` has no busy guard. In play this comes only from a turn request already in flight when the run started, or from a modified client: `ActivateClientRpc` makes the knob non-interactable on every client until `RefineFinishClientRpc`. The run uses the setting as it is seven seconds in, when the run resolves.
- A run that ends early leaves `bActive` set for good. It can end by a failed lookup (`yield break`) or by an exception, and after either the refiner never accepts another activation.
- A null `spawnableItems` throws, and then the original spawn is never called.
- Record names are lower-cased for `Contains` only, so names that differ in case make loading stop (see Findings).

## Model

| member | source | states |
|---|---|---|
| Common.RemoveFirst | SCPCBDunGen/SCPCB914.cs:34-39 | `List.Remove`: without the element the list is unchanged, otherwise it is one shorter |
| Common.RemoveFirstRemovesFirst | SCPCBDunGen/SCPCB914.cs:34-39 | what `List.Remove` removes is exactly the first occurrence, and the elements before and after it keep their order |
| Common.Draw | SCPCBDunGen/SCPCB914.cs:236 | `Random.Next(lo, hi)` yields a value in `[lo, hi)`, or `lo` for an empty range, and consumes one sample |
| Scp914.SettingAt | SCPCBDunGen/SCPCB914.cs:60-67 | the cast from `iCurrentState` to a setting is the inverse of the enum's numbering |
| Scp914.NextState | SCPCBDunGen/SCPCB914.cs:122-126 | one turn of the knob advances the dial by one and wraps from VERYFINE to ROUGH |
| Scp914.TurnsAreModular | SCPCBDunGen/SCPCB914.cs:122-130 | `k` turns leave the dial at `(state + k) mod 5` |
| Scp914.FiveTurnsRestore | SCPCBDunGen/SCPCB914.cs:122-130 | five turns bring the dial back to where it was |
| Scp914.ChargesBatteries | SCPCBDunGen/SCPCB914.cs:197 | batteries are charged exactly on 1:1, FINE and VERYFINE |
| Scp914.WithConversion | SCPCBDunGen/SCPCB914.cs:94-103 | `AddConversion` on a table: a known input gets the outputs appended, a new input is inserted, and every other key keeps its list |
| Scp914.ConvertItemStep | SCPCBDunGen/SCPCB914.cs:225-276 | held items are untouched; a mapped item with an empty candidate list throws after `Next(0)` has consumed a sample; otherwise the candidate at the drawn index decides: `null` destroys without spawning, and a scrap candidate with `minValue > maxValue` throws, exactly; an unmapped item is copied, and throws exactly when it is scrap with `minValue > maxValue`; the input is destroyed before anything spawns, and a fault on the output's scrap value leaves exactly that destroy logged; non-scrap outputs get value 0 and scrap a scaled value drawn from `[minValue, maxValue)` |
| Scp914.SuitCandidates | SCPCBDunGen/SCPCB914.cs:364-372 | the suit indices are exactly the unlockables carrying a suit other than the current one, in increasing order |
| Scp914.SkinStep | SCPCBDunGen/SCPCB914.cs:356-381 | at most one suit change, always to a different unlockable that carries a suit; none exactly when `StartOfRound` is missing or there is no candidate |
| Scp914.ConvertPlayerStep | SCPCBDunGen/SCPCB914.cs:467-498 | the player is teleported first; then ROUGH kills, COARSE deals 50, FINE heals 50, 1:1 changes the skin, and VERYFINE kills and spawns a Masked only when death is allowed and the Titan data is found |
| Scp914.RunListsParallel | SCPCBDunGen/SCPCB914.cs:195-217 | the references and scrap values sent to clients stay parallel; references are fresh and consecutive; non-scrap outputs carry 0 |
| Scp914.RunFaultAbsorbs | SCPCBDunGen/SCPCB914.cs:201-215 | once an exception has ended the loop, the remaining objects change nothing |
| Scp914.RunDestroysEachUnheldItemOnce | SCPCBDunGen/SCPCB914.cs:201-215 | a completed run destroys one object per list entry whose item is unheld when the loop reads it, in list order, and nothing else |
| Scp914.DuplicateEntryConvertedTwice | SCPCBDunGen/SCPCB914.cs:201-207 | an unheld, unmapped, non-scrap item listed twice is destroyed twice and copied twice |
| Scp914.InputStore.OnTriggerEnter | SCPCBDunGen/SCPCB914.cs:27-32 | on the server the object's handle is appended, duplicates included; clients change nothing |
| Scp914.InputStore.OnTriggerExit | SCPCBDunGen/SCPCB914.cs:34-39 | on the server the first occurrence of the same object is removed, whatever its components now hold |
| Scp914.Converter.AddConversion | SCPCBDunGen/SCPCB914.cs:94-103 | only the given setting's table changes |
| Scp914.Converter.TurnState | SCPCBDunGen/SCPCB914.cs:122-135 | the dial moves to the next position and clients are told; there is no busy guard |
| Scp914.Converter.Activate | SCPCBDunGen/SCPCB914.cs:138-143 | ignored while a run holds the guard; otherwise takes it, tells clients and starts one run |
| Scp914.Converter.CollectSuitIDs | SCPCBDunGen/SCPCB914.cs:364-372 | the loop computes `SuitCandidates` |
| Scp914.Converter.ConvertItem | SCPCBDunGen/SCPCB914.cs:225-276 | does what `ConvertItemStep` specifies, on the log, the random stream and the two lists |
| Scp914.Converter.ConvertPlayer | SCPCBDunGen/SCPCB914.cs:467-498 | does what `ConvertPlayerStep` specifies for the current dial position |
| Scp914.Converter.ConvertAll | SCPCBDunGen/SCPCB914.cs:201-215 | the loop over the contained objects is `Run` over them, stopping at the first exception |
| Scp914.Converter.Resolve | SCPCBDunGen/SCPCB914.cs:178-218 | a missing round manager or props container ends the run with the guard held; otherwise the loop converts the listed objects with their components as they are at that moment, one batch message carries the run's lists, and the list is cleared only when no exception occurred |
| Scp914.Converter.FinishRefining | SCPCBDunGen/SCPCB914.cs:219-221 | after the second wait the doors reopen and the guard is released |
| RoundManagerPatch.FindItem | SCPCBDunGen/Hooks/RoundManagerPatch.cs:111 | `Find` returns the first item whose lower-cased name matches, and `null` exactly when none does |
| RoundManagerPatch.FindNamed | SCPCBDunGen/Hooks/RoundManagerPatch.cs:26-42 | `Find` by object name returns the first asset with that name, and `null` exactly when there is none |
| RoundManagerPatch.ResolveCandidate | SCPCBDunGen/Hooks/RoundManagerPatch.cs:119-134 | "*" destroys; "@" keeps the input; an empty name throws; a '!' name or an unknown name is skipped; any other name resolves to an item with that lower-cased name |
| RoundManagerPatch.ResolveColumn | SCPCBDunGen/Hooks/RoundManagerPatch.cs:119-135 | a column throws exactly when it holds an empty name, and yields at most one output per name |
| RoundManagerPatch.ResolveColumnSound | SCPCBDunGen/Hooks/RoundManagerPatch.cs:119-135 | every output comes from a candidate of the column |
| RoundManagerPatch.ResolveColumnComplete | SCPCBDunGen/Hooks/RoundManagerPatch.cs:119-135 | every candidate that resolves reaches the output list |
| RoundManagerPatch.ResolveColumnConcat | SCPCBDunGen/Hooks/RoundManagerPatch.cs:119-135 | resolving two columns one after the other is resolving their concatenation |
| RoundManagerPatch.RepeatedNamesRepeatOutputs | SCPCBDunGen/Hooks/RoundManagerPatch.cs:119-136 | a candidate named twice is in the list twice, so it is drawn twice as often |
| RoundManagerPatch.ApplyUpTo | SCPCBDunGen/Hooks/RoundManagerPatch.cs:116-138 | later settings are untouched, and the loop throws exactly when an earlier column holds an empty name |
| RoundManagerPatch.EachSettingUsesItsOwnColumn | SCPCBDunGen/Hooks/RoundManagerPatch.cs:116-138 | each setting's table is changed by its own column alone, and only when that column yields an output |
| RoundManagerPatch.ApplyRecord | SCPCBDunGen/Hooks/RoundManagerPatch.cs:72-140 | a record changes tables only when its input item is found; it throws exactly on an empty name, or on a found item with an empty candidate |
| RoundManagerPatch.MergedRecordConfiguresAsBoth | SCPCBDunGen/Hooks/RoundManagerPatch.cs:116-138 | a record merged at load time configures the refiner as the two records one after the other would |
| RoundManagerPatch.ResolveNames | SCPCBDunGen/Hooks/RoundManagerPatch.cs:119-135 | the candidate loop computes `ResolveColumn` |
| RoundManagerPatch.AddConversions | SCPCBDunGen/Hooks/RoundManagerPatch.cs:72-140 | the converter's tables and the exception are those of `ApplyRecord`; nothing else of the converter changes |
| RoundManagerPatch.AddColumns | SCPCBDunGen/Hooks/RoundManagerPatch.cs:116-138 | the settings loop computes `ApplyUpTo` over all five settings |
| RoundManagerPatch.Scp914Configuration | SCPCBDunGen/Hooks/RoundManagerPatch.cs:142-167 | the original spawn runs first on every path; configuration follows exactly for "SCPFlow" with a converter and a non-empty item list, record by record in collection order, stopping at an exception |
| RoundManagerPatch.AddAllConversions | SCPCBDunGen/Hooks/RoundManagerPatch.cs:163-166 | the loop over the records computes `ApplyAll` |
| RoundManagerPatch.GroupsFor | SCPCBDunGen/Hooks/RoundManagerPatch.cs:26-42 | the general and tabletop groups are BottleBin's first groups of those names, null exactly when it has none; the small group is FancyCup's first "SmallItems" group, null exactly when it has none, or the tabletop group when FancyCup is missing |
| RoundManagerPatch.ReassignIsIdempotent | SCPCBDunGen/Hooks/RoundManagerPatch.cs:44-61 | with all groups found, a second reassignment pass changes nothing |
| RoundManagerPatch.MissingGroupLeavesNull | SCPCBDunGen/Hooks/RoundManagerPatch.cs:44-61 | a slot whose kind has no group found is left null after a pass, so a further pass stops at a null slot before the end |
| RoundManagerPatch.ReachedSlots | SCPCBDunGen/Hooks/RoundManagerPatch.cs:44-61 | the loop gets through every slot up to the first null one |
| RoundManagerPatch.ReassignSlot | SCPCBDunGen/Hooks/RoundManagerPatch.cs:46-60 | one spawn slot is pointed at the found group of its kind, and only that kind's counter grows |
| RoundManagerPatch.SetItemSpawnPoints | SCPCBDunGen/Hooks/RoundManagerPatch.cs:12-68 | outside "SCPFlow", or without BottleBin, nothing changes and the original runs; otherwise each reached slot is pointed at the found group of its kind and counted; the low-count warning is issued exactly when fewer than 10 slots were counted; a null slot throws and the original is not called |
| Recipes.Columns | SCPCBDunGen/SCPCBDunGen.cs:23-32 | a record has one result list per setting |
| Recipes.Extended | SCPCBDunGen/SCPCBDunGen.cs:104-108 | each of the stored record's five lists gets the new record's list appended |
| Recipes.KeyIndex | SCPCBDunGen/SCPCBDunGen.cs:35-38 | the key lookup finds a record with that exact name, and fails exactly when there is none |
| Recipes.MergeAsWritten | SCPCBDunGen/SCPCBDunGen.cs:102-109 | an exception during a merge leaves the collection as it was |
| Recipes.MergeRecordsKeepsKeysDistinct | SCPCBDunGen/SCPCBDunGen.cs:98-110 | merging a file's records keeps the collection's keys distinct |
| Recipes.LoadFilesKeepsKeysDistinct | SCPCBDunGen/SCPCBDunGen.cs:90-116 | loading all files keeps the keys distinct |
| Recipes.LoadFilesConcat | SCPCBDunGen/SCPCBDunGen.cs:90-116 | loading two batches of files is loading the first, then the second from where it left off |
| Recipes.IgnoredFileContributesNothing | SCPCBDunGen/SCPCBDunGen.cs:92-115 | a skipped `default.json` or a file that fails to deserialize contributes nothing, and later files still load |
| Recipes.LowerCaseNameMerges | SCPCBDunGen/SCPCBDunGen.cs:102-109 | for a lower-case name the merge appends to the stored record or adds a new one, and never throws |
| Recipes.LowerCaseRecordsNeverAbort | SCPCBDunGen/SCPCBDunGen.cs:98-110 | a file whose names are all lower case never stops loading |
| Recipes.MixedCaseDuplicateAborts | SCPCBDunGen/SCPCBDunGen.cs:102-109 | two records named "Bottle": the second makes `Add` throw and loading stops |
| Recipes.MixedCaseAfterLowerAborts | SCPCBDunGen/SCPCBDunGen.cs:102-108 | a stored "bottle", then a "Bottle": `Contains` finds it, the exact-name indexer does not, and loading stops |
| Recipes.MergeIgnoringCase | SCPCBDunGen/SCPCBDunGen.cs:100-109 | the merge the comment describes keeps names distinct up to case, and appends or extends |
| Recipes.CorrectedMergeAgreesOnLowerCase | SCPCBDunGen/SCPCBDunGen.cs:100-109 | on lower-case names the corrected merge agrees with the code |
| Recipes.ConversionSet.Contains | SCPCBDunGen/SCPCBDunGen.cs:102 | `Contains(key)` holds exactly when a record has that key |
| Recipes.ConversionSet.AppendTo | SCPCBDunGen/SCPCBDunGen.cs:104-108 | the indexer throws on a missing key; otherwise it extends that record alone |
| Recipes.ConversionSet.Add | SCPCBDunGen/SCPCBDunGen.cs:109 | `Add` throws on a duplicate key and otherwise appends |
| Recipes.MergeOne | SCPCBDunGen/SCPCBDunGen.cs:102-109 | one record is merged as `MergeAsWritten` specifies |
| Recipes.MergeFile | SCPCBDunGen/SCPCBDunGen.cs:98-110 | the loop over one file's records computes `MergeRecords` |
| Recipes.RegisterRecipes | SCPCBDunGen/SCPCBDunGen.cs:90-116 | the registration loops compute `LoadFiles` and keep the collection's keys distinct |
| ElevNuclear.Dispatch | SCPCBDunGen/SCPCBElevNuclear.cs:162-220 | a collider is taken as a grabbable first, then as a player, then as an enemy |
| ElevNuclear.RoundTripCancels | SCPCBDunGen/SCPCBElevNuclear.cs:175 | a run from the top moves things down, and two runs in a row cancel |
| ElevNuclear.Moved | SCPCBDunGen/SCPCBElevNuclear.cs:152-221 | nothing without handling is moved, and nothing is moved twice |
| ElevNuclear.MovedIsWhatTheCabinHolds | SCPCBDunGen/SCPCBElevNuclear.cs:156-221 | a thing is moved exactly when one of the cabin's colliders belongs to it |
| ElevNuclear.TeleportOne | SCPCBDunGen/SCPCBElevNuclear.cs:160-220 | one collider: a thing already teleported is skipped, a new one gets one teleport message and joins its "already teleported" list |
| ElevNuclear.TeleportPass | SCPCBDunGen/SCPCBElevNuclear.cs:147-221 | the collider loop with its three "already teleported" lists emits one teleport per moved thing, in order |
| ElevNuclear.EachThingMovesOnce | SCPCBDunGen/SCPCBElevNuclear.cs:151-221 | each thing in the cabin gets exactly one teleport message and anything else none |
| ElevNuclear.Elevator.Activate | SCPCBDunGen/SCPCBElevNuclear.cs:48-54 | ignored during a run; otherwise takes the guard and closes the doors on the current side |
| ElevNuclear.Elevator.StartMoving | SCPCBDunGen/SCPCBElevNuclear.cs:141-143 | after the first wait, the moving sound plays on the departure side |
| ElevNuclear.Elevator.Teleport | SCPCBDunGen/SCPCBElevNuclear.cs:145-225 | the departure cabin's contents are moved and the bell rings at the arrival side |
| ElevNuclear.Elevator.Finish | SCPCBDunGen/SCPCBElevNuclear.cs:227-232 | the arrival side opens, the stop flips and the guard is released |
| ElevNuclear.Panel.ActivateClient | SCPCBDunGen/SCPCBElevNuclear.cs:85-93 | every button is off and both doors are shut |
| ElevNuclear.Panel.FinishClient | SCPCBDunGen/SCPCBElevNuclear.cs:72-81 | exactly the arrival door opens; both cabin buttons return; only the call button at the other floor returns |
| ElevNuclear.RunOnce | SCPCBDunGen/SCPCBElevNuclear.cs:48-54 | a whole run from idle logs its messages in order and leaves the elevator idle at the other stop |
| Door.HighestSpeed | SCPCBDunGen/SCPCBDoor.cs:60-73 | the running maximum is never negative |
| Door.HighestSpeedIsUpperBound | SCPCBDunGen/SCPCBDoor.cs:60-73 | no live enemy in the trigger is faster than the maximum |
| Door.HighestSpeedIsAttained | SCPCBDunGen/SCPCBDoor.cs:60-73 | the maximum is 0 or the effective speed of some live enemy |
| Door.DecisionMeaning | SCPCBDunGen/SCPCBDoor.cs:60-86 | a fast open exactly when some live enemy is faster than 1.5; a normal open when some live enemy is faster than 0 and none faster than 1.5; otherwise nothing |
| Door.HighestMultiplier | SCPCBDunGen/SCPCBDoor.cs:60-73 | the loop computes `HighestSpeed`, with Masked forced to 1.0 and Crawler to 2.0 |
| Door.DoorMover.OnTriggerEnter | SCPCBDunGen/SCPCBDoor.cs:31-38 | a server with a network manager appends a tagged enemy's detect component; all else is ignored |
| Door.DoorMover.OnTriggerExit | SCPCBDunGen/SCPCBDoor.cs:40-48 | one occurrence is removed, with a warning exactly when the enemy was not listed |
| Door.DoorMover.Update | SCPCBDunGen/SCPCBDoor.cs:50-87 | enemies never close the door; nothing happens unless on the server, closed, not busy and with enemies inside; then the decision of `DecisionMeaning` is carried out |
| Door.DoorMover.OpenDoorFast | SCPCBDunGen/SCPCBDoor.cs:90-97 | with no guard: the door opens, becomes busy and stops blocking navigation |
| Door.DoorMover.ToggleDoor | SCPCBDunGen/SCPCBDoor.cs:121-132 | ignored while busy; otherwise flips the door, becomes busy, and blocks navigation exactly when it closes |
| Door.DoorMover.ResumeClearWaiting | SCPCBDunGen/SCPCBDoor.cs:111-115 | after one second the door takes requests again |
| Door.DoorMover.ResumeEnableButtons | SCPCBDunGen/SCPCBDoor.cs:116-117 | after another second the buttons come back on every client |

## Left out

- Rendering, animation, audio, logging and the button `interactable` state on clients. The exception is the elevator's `Panel`, whose buttons and doors decide what players can do next.
- Positions, navigation-mesh sampling, collider bounds and `OverlapBox`. The refiner's output position, the enemy's nav-mesh snap and `agent.Warp` are not modelled. Which colliders are in a cabin is an input.
- The client handlers of the refiner's RPCs (`SpawnItemsClientRpc`, the player RPCs, `ConvertPlayerMaskedClientRpc` and the `ConvertPlayerMaskedWaitForSpawn` coroutine) are log entries only. They act on client-side engine objects.
- Engine lookups are inputs passed in for each call (`Env`, `flowName`, `allItems`), not cached fields.
- `Scp914.ConvertItemStep`: it takes it that every item's prefab carries a `GrabbableObject`, so the "created object without one" return (SCPCB914.cs:255-258) is not modelled. Network references are a fresh counter.
- `Scp914.ConvertItemStep`: `scrapValueMultiplier` and the float-to-int truncation are modelled as an opaque scaling function `Env.scale`.
- `Common.Draw`: `System.Random`'s generator is not modelled. It is a stream of raw samples, one consumed per call, even when the range is empty.
- `RoundManagerPatch.ApplyRecord`: a record whose name starts with '!' (the enemy branch, RoundManagerPatch.cs:79-109) is modelled as changing nothing and never throwing. The enemy conversion tables are not part of this model, and the branch's own exceptions are not modelled either: an unknown item target dereferences null, and an empty candidate fails on indexing.
- `RoundManagerPatch.ResolveCandidate`: an item-to-enemy candidate ('!') adds nothing to the item tables, as in the code. The enemy list it builds (RoundManagerPatch.cs:127, 137) is not modelled.
- `Common.Lower`: `ToLowerInvariant` is modelled on ASCII letters only.
- `Recipes.Conversion`: every field of a record is taken to be present. A JSON record without `ItemName` leaves it null, and the `ToLowerInvariant()` at SCPCBDunGen.cs:102 throws an uncaught NullReferenceException. A record without a result list makes `AddRange` throw (SCPCBDunGen.cs:104-108). If such a record was added rather than merged, the `foreach` of `AddConversions` throws on it (RoundManagerPatch.cs:119). None of these throws is modelled.
- `Scp914.Converter.Resolve`: the components of each listed object are read from an input map, so an object that was destroyed while still listed (where `GetComponent` would throw) is not modelled.
- JSON parsing, file discovery (`DiscoverConfiguredRecipeFiles`) and a file holding a null list: a file is its name and either its records or a deserialization failure.
- `Awake`'s asset loading and `Hook()`. Hook registration is not part of this model. `Hook()` is called twice (SCPCBDunGen.cs:66 and 118), so each hook is subscribed twice and runs twice for each `SpawnScrapInLevel`. `SCP914Configuration` then appends every candidate list a second time, so each entry is there twice and the draw proportions stay the same. `SetItemSpawnPoints` runs a second pass over slots the first pass reassigned. When all groups are found that pass changes nothing (`ReassignIsIdempotent`). When a group is missing, the first pass leaves a null slot, and the second pass throws on it (`MissingGroupLeavesNull`), so the real spawn never runs.
- `NetcodePatcher`: reflection over the assembly, not part of this model.
- `ElevNuclear.TeleDistance`: the 32-bit float 15.36f is the real number 15.36, so float rounding of positions is not modelled.
- `Door.DecisionMeaning`: door speeds are real numbers, so 32-bit float comparison is not modelled.
- `Door.DoorMover.constructor`: the nav obstacle's initial state comes from the scene and is a constructor parameter.
- Concurrency between coroutines is modelled only as the order of phase methods. Any order the phase preconditions allow is possible, including turning the dial mid-run (in play, only a request in flight at activation or a modified client does that, since the knob is non-interactable during a run).

## Findings

| source | as written | input that shows it | evidently intended | confidence | as-written member | corrected member |
|---|---|---|---|---|---|---|
| SCPCBDunGen/SCPCBDunGen.cs:102-109 | `Contains` is asked with the lower-cased name, but the indexer and `Add` use the raw name, so a record whose name is not all lower case never merges: a second "Bottle" makes `Add` throw an `ArgumentException` that the `JsonException` handler does not catch, and loading stops | two recipe records both named "Bottle" | names compared ignoring case on both sides, so that the second record's results are appended to the first | not executed | Recipes.MixedCaseDuplicateAborts | Recipes.MergeIgnoringCase |
