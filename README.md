# Pickup and inspect interaction, modelled in Dafny

This project models the interaction core of a first-person basketball
simulation built on a game engine. The player character traces a line from
its camera to find a pickup. The action button picks the pickup up, and
pressing it again throws the pickup. Pressing the inspect button while holding
an item detaches the camera so the item can be turned and looked at. The
engine may fire the inspect event more than once while the button stays down,
depending on input settings that are not part of this code. The model
therefore leaves that timing open: a run may contain any number of inspect
events. While holding an item, each event toggles the inspect mode. The
pickup actor switches gravity, physics simulation and collision off while it
is held. When it is released, it throws itself along the camera's forward
direction.

The model has four modules:

- `Engine` (engine.dfy) defines stand-ins for the engine's value types:
  `Option`, rotators, vectors, transforms, and named scene components. The
  model only copies and compares them and never computes with them.
- `PickupActor` (pickup.dfy) holds the pickup's flags and mesh settings as the
  value `Physics`. Its functions `SpawnPhysics` and `Toggled` give the state
  after construction and after `Pickup()`. `LastNamed` searches for the
  holding component. The class `Pickup` has the source's fields and methods,
  each proved against those functions.
- `Interaction` (interaction.dfy) is the character's state machine as values.
  `Controls` holds the holding, inspecting and can-move flags, the two
  rotation modes and the current target. Each input handler and the discrete
  part of the per-frame update is a function on `Controls`. `Run` folds a
  sequence of events over a state. The lemmas relate the transitions. They
  also prove an invariant of every reachable state (`Settled`): movement and
  the camera's pawn-rotation mode are on exactly when the character is not
  both holding and inspecting. It follows that releasing the inspect button
  always returns the character to the gameplay controls.
- `CharacterActor` (character.dfy) holds the class `Character`. Its methods
  are proved against the `Interaction` functions. Everything else a method
  touches is grouped in `View()`: the saved rotation, the controller, the
  pitch limits, the holding pose, and the input handed on. The class
  invariant `Valid()` couples the character to the pickups of the level. A
  pickup is held exactly when it is the character's target and the character
  holds an item. `ToggleItemPickup` keeps this true by flipping the
  character's flag and calling the pickup's `Pickup()` exactly once.

The constructors leave several fields unassigned, and the model makes each of
them a constructor parameter instead of guessing its value:

- the character's holding flag, its saved rotation, and its cached pitch
  limits;
- the yaw mode, which the engine initialises;
- the camera manager's pitch limits;
- the mesh's gravity and collision settings;
- the pickup's holding component, which can be set in the editor.

The holding flag matters most. `Interaction.UninitialisedHoldingLocksOut`
shows that if the flag started out true, the character could never target or
pick up anything. The engine zero-fills objects, so in practice the flag
starts false. `Interaction.EmptyHandedSpawnKeepsTarget` covers that case: the
character then never believes it holds an item without having one.

The engine's string comparison ignores case. The search for the holding
component therefore uses ASCII case folding (`PickupActor.SameName`).

## Model

| member | source | states |
|---|---|---|
| `PickupActor.SpawnPhysics` | Source/XRBasketballSim/Pickup.cpp:13-21 | a new pickup is not held, has gravity on and simulates physics, so gravity equals not-holding from the start; mesh gravity and collision keep the engine defaults |
| `PickupActor.Toggled` | Source/XRBasketballSim/Pickup.cpp:75-86 | `Pickup()` flips holding and gravity together, preserves gravity == not-holding in both directions, and leaves gravity-enabled equal to gravity, simulation on exactly when released, collision NoCollision when held and QueryAndPhysics when released |
| `PickupActor.ToggleTwiceRestores` | Source/XRBasketballSim/Pickup.cpp:78-86 | from a state whose mesh settings match its flags, two toggles give back exactly the original state |
| `PickupActor.ToggleTwiceRestoresFlags` | Source/XRBasketballSim/Pickup.cpp:78-83 | from any balanced state, two toggles restore holding, gravity and the simulation setting |
| `PickupActor.ToggleSettlesAfterOne` | Source/XRBasketballSim/Pickup.cpp:78-86 | whatever the engine defaults were, after the first toggle every two toggles are a round trip |
| `PickupActor.ToLowerAscii` | Source/XRBasketballSim/Pickup.cpp:44 | folds an upper-case ASCII letter to its lower-case letter and leaves every other character alone, so no result is an upper-case letter |
| `PickupActor.SameName` | Source/XRBasketballSim/Pickup.cpp:44 | the name comparison accepts equal strings and only strings of equal length |
| `PickupActor.SameNameIgnoresCase` | Source/XRBasketballSim/Pickup.cpp:44 | the comparison is reflexive, symmetric and transitive, accepts "holdingcomponent" as the holding component's name, and rejects a longer name |
| `PickupActor.LastNamed` | Source/XRBasketballSim/Pickup.cpp:39-49 | the index found is that of the last component whose name matches, ignoring case; none is found exactly when no name matches |
| `PickupActor.Pickup.constructor` | Source/XRBasketballSim/Pickup.cpp:7-22 | the new pickup is balanced and in the spawn physics state, with no throws and no toggles yet |
| `PickupActor.Pickup.BeginPlay` | Source/XRBasketballSim/Pickup.cpp:25-50 | the holding component becomes the last component named "HoldingComponent", and it is left as it was when none is |
| `PickupActor.Pickup.Tick` | Source/XRBasketballSim/Pickup.cpp:53-65 | the pickup snaps to the holding component's transform exactly when it is held and has a holding component, otherwise it does not move |
| `PickupActor.Pickup.RotateActor` | Source/XRBasketballSim/Pickup.cpp:68-72 | the pickup takes the control rotation and keeps its location |
| `PickupActor.Pickup.Pickup` | Source/XRBasketballSim/Pickup.cpp:75-96 | the new state is the toggled one and stays balanced; an impulse along the camera's forward vector is recorded exactly when the toggle ends released, never on pickup |
| `Interaction.Spawned` | Source/XRBasketballSim/XRBasketballSimCharacter.cpp:25-43 | after construction there is no target, movement is enabled, the character is not inspecting and the camera follows the control rotation; the holding flag is whatever the uninitialised field held |
| `Interaction.ToggleMovement` | Source/XRBasketballSim/XRBasketballSimCharacter.cpp:236-242 | flips inspecting and both rotation modes and leaves movement enabled exactly when not inspecting |
| `Interaction.ToggleItemPickup` | Source/XRBasketballSim/XRBasketballSimCharacter.cpp:245-257 | no change without a target; otherwise the holding flag flips and the target is forgotten exactly when the new state is not holding |
| `Interaction.Action` | Source/XRBasketballSim/XRBasketballSimCharacter.cpp:197-203 | the state changes if and only if there is a target and the character is not inspecting; the inspecting, movement and rotation flags never change |
| `Interaction.Inspect` | Source/XRBasketballSim/XRBasketballSimCharacter.cpp:206-217 | while holding it flips inspecting and both rotation modes, with movement equal to not-inspecting; empty-handed it only sets inspecting and leaves movement and the rotation modes alone |
| `Interaction.StopInspecting` | Source/XRBasketballSim/XRBasketballSimCharacter.cpp:220-233 | always ends not inspecting; when inspecting while holding it also re-enables movement and flips both rotation modes back, otherwise nothing else changes |
| `Interaction.Tick` | Source/XRBasketballSim/XRBasketballSimCharacter.cpp:82-105 | empty-handed, a miss clears the target, a pickup hit targets that pickup, any other hit keeps the target; while holding the target never changes; inspecting while holding forces movement off |
| `Interaction.FovTarget` | Source/XRBasketballSim/XRBasketballSimCharacter.cpp:100-125 | the camera eases toward the close inspection view (70 degrees) exactly when inspecting a held item and toward the gameplay view (90) exactly when not inspecting; inspecting empty-handed gives the remaining 45-degree view |
| `Interaction.FovFollowsMode` | Source/XRBasketballSim/XRBasketballSimCharacter.cpp:100-125 | in a reachable state the close inspection view is chosen exactly when movement is locked, and releasing the inspect button always brings back the 90-degree gameplay view |
| `Interaction.Target` | Source/XRBasketballSim/XRBasketballSimCharacter.cpp:84-96 | a pickup hit selects that pickup, a miss clears the target, any other hit keeps it; the result is never a pickup other than the one hit or the one already targeted |
| `Interaction.ToggleMovementTwice` | Source/XRBasketballSim/XRBasketballSimCharacter.cpp:236-242 | toggling twice restores inspecting and both rotation modes, and the whole state when movement equalled not-inspecting |
| `Interaction.InspectTwiceWhileHolding` | Source/XRBasketballSim/XRBasketballSimCharacter.cpp:206-212 | while holding, inspect changes the state and a second inspect undoes it, so it is not idempotent |
| `Interaction.InspectTwiceEmptyHanded` | Source/XRBasketballSim/XRBasketballSimCharacter.cpp:213-216 | empty-handed, inspect is idempotent |
| `Interaction.InspectThenStopRestores` | Source/XRBasketballSim/XRBasketballSimCharacter.cpp:206-242 | holding and not inspecting, inspect followed by stop restores inspecting and both rotation modes with movement enabled, and the whole state when movement was enabled |
| `Interaction.PickUpThenThrow` | Source/XRBasketballSim/XRBasketballSimCharacter.cpp:197-257 | two action presses on a targeted item first hold it, keeping the target, then drop it and forget the target, changing nothing else |
| `Interaction.TickIdempotent` | Source/XRBasketballSim/XRBasketballSimCharacter.cpp:82-105 | a second frame with the same trace changes nothing more |
| `Interaction.SettledStep` | Source/XRBasketballSim/XRBasketballSimCharacter.cpp:82-242 | every input event and frame preserves the reachable-state invariant |
| `Interaction.SettledRun` | Source/XRBasketballSim/XRBasketballSimCharacter.cpp:82-242 | every sequence of events preserves the reachable-state invariant |
| `Interaction.ReachableSettled` | Source/XRBasketballSim/XRBasketballSimCharacter.cpp:40-43 | every state reached from construction satisfies the invariant, whatever the uninitialised holding flag held |
| `Interaction.ReleaseRestoresControls` | Source/XRBasketballSim/XRBasketballSimCharacter.cpp:220-233 | in a reachable state, releasing the inspect button always leaves the character not inspecting, free to move, with the camera on the control rotation and the yaw mode at rest |
| `Interaction.MotionBlockedOnlyByInspecting` | Source/XRBasketballSim/XRBasketballSimCharacter.cpp:173-194 | in a reachable state, with a controller, movement and look input are accepted exactly when not inspecting |
| `Interaction.HandsMatchTargetRun` | Source/XRBasketballSim/XRBasketballSimCharacter.cpp:245-257 | holding implies having a target, and every sequence of events preserves this |
| `Interaction.EmptyHandedSpawnKeepsTarget` | Source/XRBasketballSim/XRBasketballSimCharacter.cpp:40-43 | spawned empty-handed, the character never holds without a target |
| `Interaction.LockedOutRun` | Source/XRBasketballSim/XRBasketballSimCharacter.cpp:82-97 | holding with no target stays so under every sequence of events |
| `Interaction.UninitialisedHoldingLocksOut` | Source/XRBasketballSim/XRBasketballSimCharacter.h:94 | had the never-initialised holding flag started true, the character would stay holding nothing for ever |
| `CharacterActor.Character.constructor` | Source/XRBasketballSim/XRBasketballSimCharacter.cpp:13-44 | no rifle, spawned controls, carry pose, no controller and no input yet; pickups and character are coupled |
| `CharacterActor.Character.ControlRotation` | Source/XRBasketballSim/XRBasketballSimCharacter.cpp:210 | the rotation the pawn reports is the controller's control rotation, or zero when there is no controller |
| `CharacterActor.Character.BeginPlay` | Source/XRBasketballSim/XRBasketballSimCharacter.cpp:63-65 | caches the camera manager's pitch limits and changes nothing else |
| `CharacterActor.Character.Tick` | Source/XRBasketballSim/XRBasketballSimCharacter.cpp:69-132 | controls follow `Interaction.Tick`; the chosen FOV target follows the mode; inspecting while holding raises the item and opens the pitch limits, holding outside inspection returns the item to the carry pose; the coupling with the pickups is kept |
| `CharacterActor.Character.Move` | Source/XRBasketballSim/XRBasketballSimCharacter.cpp:173-182 | forward and right movement input is handed on exactly when a controller exists, movement is enabled and not inspecting; nothing else changes |
| `CharacterActor.Character.Look` | Source/XRBasketballSim/XRBasketballSimCharacter.cpp:185-194 | yaw and pitch input is handed on under the same condition; nothing else changes |
| `CharacterActor.Character.Action` | Source/XRBasketballSim/XRBasketballSimCharacter.cpp:197-203 | controls follow `Interaction.Action`; when there is a target and the character is not inspecting, the target's `Pickup()` runs exactly once, its held flag ends equal to the character's, its physics state is the toggled one, and it is thrown along the camera exactly on release; while inspecting the target is untouched |
| `CharacterActor.Character.Inspect` | Source/XRBasketballSim/XRBasketballSimCharacter.cpp:206-217 | controls follow `Interaction.Inspect`; while holding the control rotation is saved first |
| `CharacterActor.Character.StopInspecting` | Source/XRBasketballSim/XRBasketballSimCharacter.cpp:220-233 | controls follow `Interaction.StopInspecting`; when inspecting while holding, the saved rotation and the cached pitch limits are restored |
| `CharacterActor.Character.ToggleMovement` | Source/XRBasketballSim/XRBasketballSimCharacter.cpp:236-242 | controls follow `Interaction.ToggleMovement`, nothing else changes |
| `CharacterActor.Character.ToggleItemPickup` | Source/XRBasketballSim/XRBasketballSimCharacter.cpp:245-257 | controls follow `Interaction.ToggleItemPickup`; the old target's `Pickup()` runs exactly once, its held flag ends equal to the character's, and it is thrown exactly on release; the coupling with all pickups is kept |
| `CharacterActor.Character.SetHasRifle` | Source/XRBasketballSim/XRBasketballSimCharacter.cpp:259-262 | sets the rifle flag and nothing else |
| `CharacterActor.Character.GetHasRifle` | Source/XRBasketballSim/XRBasketballSimCharacter.cpp:264-267 | returns the rifle flag |

## Left out

- Input binding (`SetupPlayerInputComponent`), jumping, and registering the input mapping contexts in the character's `BeginPlay` are engine wiring with no state of their own.
- Creating and attaching the components, and the capsule and mesh setup in the constructors, are engine wiring.
- The line trace is an input (`Interaction.Trace`). Its start and end points, the 300-unit reach and the debug line are geometry and are not modelled.
- A trace hit whose actor is null is not modelled. The source would dereference it.
- The block that forces the camera's world rotation to the control rotation (XRBasketballSimCharacter.cpp:134-143) is rotator arithmetic and is not modelled.
- Field of view: only the target the camera eases toward is modelled, returned by `CharacterActor.Character.Tick`. The interpolation itself is float arithmetic.
- Holding poses are labels. Their float offsets appear only in comments.
- The magnitude of the throw impulse (force times mass) is not modelled. Only its direction is recorded.
- Gravity, simulation, collision, impulses, actor placement and rotation are recorded as settings or events. Their physical effect belongs to the engine.
- Input handed to the engine's movement and controller is logged in `pendingInput`. The model does not capture how the engine later applies it to the pawn or to the control rotation.
- How often the engine fires input events, and in what order relative to frames, is engine timing. `Interaction.Run` allows any order.
- The pickup's `BeginPlay` also looks up the player character and its camera. Those are engine queries. The camera's forward vector becomes a parameter of `Pickup()`.
- The name comparison folds ASCII case only. Case folding beyond ASCII is not modelled.
- `CharacterActor.Character.PossessedBy` stands for the engine giving the pawn a controller. It is not an operation of the source.
- `CharacterActor.Character.Tick`: assumes that a trace can only hit pickups that belong to the level given at construction. Pickups spawned later are not modelled.
- `CharacterActor.Character.StopInspecting`: requires a controller when inspecting while holding, because the source dereferences it there. The camera manager is assumed to exist, as the source assumes throughout.
