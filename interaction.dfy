/** The first-person character's pickup/inspect state machine, as values: the
    flags its input handlers and its per-frame update read and write, and the
    pickup it currently targets. */
module Interaction {
  import PickupActor

  /** The result of the per-frame line trace from the camera. */
  datatype Trace = Miss | HitPickup(item: PickupActor.Pickup) | HitOther

  datatype Controls = Controls(
    holdingItem: bool,
    inspecting: bool,
    canMove: bool,
    /** the first-person camera follows the control rotation */
    pawnControlRotation: bool,
    /** the pawn turns with the controller's yaw */
    controllerYaw: bool,
    currentItem: PickupActor.Pickup?)

  /** The field-of-view target the camera eases toward each frame. */
  datatype Fov = GameplayFov | InspectHeldFov | InspectEmptyFov {
    function Degrees(): nat {
      match this
      case GameplayFov => 90
      case InspectHeldFov => 70
      case InspectEmptyFov => 45
    }
  }

  /** Holding an item while inspecting it: the one mode with the camera
      detached from the controller. */
  predicate Engaged(c: Controls) {
    c.holdingItem && c.inspecting
  }

  /** The state after construction. The holding flag is never initialised by
      the constructor, and the controller-yaw flag keeps the engine's default,
      so both are parameters. */
  function Spawned(holdingItem: bool, controllerYaw: bool): (c: Controls)
    ensures c.currentItem == null && c.canMove && !c.inspecting && c.pawnControlRotation
    ensures c.holdingItem == holdingItem && c.controllerYaw == controllerYaw
  {
    Controls(holdingItem, false, true, true, controllerYaw, null)
  }

  /** Enters or leaves the engaged mode: movement is enabled exactly when not
      inspecting, and both rotation modes swap. */
  function ToggleMovement(c: Controls): (r: Controls)
    ensures r.inspecting == !c.inspecting && r.canMove == !r.inspecting
    ensures r.pawnControlRotation == !c.pawnControlRotation
    ensures r.controllerYaw == !c.controllerYaw
    ensures r.holdingItem == c.holdingItem && r.currentItem == c.currentItem
  {
    var inspecting := !c.inspecting;
    c.(inspecting := inspecting, canMove := !inspecting,
       pawnControlRotation := !c.pawnControlRotation,
       controllerYaw := !c.controllerYaw)
  }

  /** Picks up or drops the targeted item; without a target nothing happens.
      The pickup itself is toggled by the caller. */
  function ToggleItemPickup(c: Controls): (r: Controls)
    ensures c.currentItem == null ==> r == c
    ensures c.currentItem != null ==> r.holdingItem == !c.holdingItem
    ensures c.currentItem != null ==> (r.currentItem == null <==> !r.holdingItem)
    ensures r.currentItem == null || r.currentItem == c.currentItem
    ensures r.inspecting == c.inspecting && r.canMove == c.canMove
    ensures r.pawnControlRotation == c.pawnControlRotation && r.controllerYaw == c.controllerYaw
  {
    if c.currentItem == null then c
    else
      var holding := !c.holdingItem;
      c.(holdingItem := holding, currentItem := if holding then c.currentItem else null)
  }

  /** The action button: changes the state exactly when an item is targeted
      and the character is not inspecting. */
  function Action(c: Controls): (r: Controls)
    ensures r != c <==> c.currentItem != null && !c.inspecting
    ensures r.inspecting == c.inspecting && r.canMove == c.canMove
    ensures r.pawnControlRotation == c.pawnControlRotation && r.controllerYaw == c.controllerYaw
  {
    if c.currentItem != null && !c.inspecting then ToggleItemPickup(c) else c
  }

  /** The inspect button's triggered event: with an item in hand it toggles
      the engaged mode; empty-handed it only raises the inspecting flag. How
      often the engine fires it while the button stays down depends on input
      settings outside this code, so a run may contain it any number of times. */
  function Inspect(c: Controls): (r: Controls)
    ensures r.holdingItem == c.holdingItem && r.currentItem == c.currentItem
    ensures c.holdingItem ==> r.inspecting == !c.inspecting && r.canMove == !r.inspecting
    ensures c.holdingItem ==> r.pawnControlRotation == !c.pawnControlRotation
    ensures c.holdingItem ==> r.controllerYaw == !c.controllerYaw
    ensures !c.holdingItem ==> r.inspecting && r.canMove == c.canMove
    ensures !c.holdingItem ==> r.pawnControlRotation == c.pawnControlRotation
    ensures !c.holdingItem ==> r.controllerYaw == c.controllerYaw
  {
    if c.holdingItem then ToggleMovement(c) else c.(inspecting := true)
  }

  /** Releasing the inspect button: always ends inspecting; in the engaged mode
      it also toggles movement back on. */
  function StopInspecting(c: Controls): (r: Controls)
    ensures !r.inspecting
    ensures r.holdingItem == c.holdingItem && r.currentItem == c.currentItem
    ensures Engaged(c) ==> r.canMove
    ensures Engaged(c) ==> r.pawnControlRotation == !c.pawnControlRotation
    ensures Engaged(c) ==> r.controllerYaw == !c.controllerYaw
    ensures !Engaged(c) ==> r.canMove == c.canMove
    ensures !Engaged(c) ==> r.pawnControlRotation == c.pawnControlRotation
    ensures !Engaged(c) ==> r.controllerYaw == c.controllerYaw
  {
    if c.inspecting && c.holdingItem then ToggleMovement(c) else c.(inspecting := false)
  }

  /** Movement and look input reach the pawn only through a controller, with
      movement enabled and not inspecting. */
  predicate AcceptsMotion(c: Controls, hasController: bool) {
    hasController && c.canMove && !c.inspecting
  }

  /** The pickup a trace selects while the hands are empty: a pickup hit
      selects that pickup, a miss forgets the target and any other hit keeps
      it, so the result is never a pickup the trace did not name or that was
      not already targeted. */
  function Target(current: PickupActor.Pickup?, trace: Trace): (r: PickupActor.Pickup?)
    ensures trace.HitPickup? ==> r == trace.item
    ensures r != null ==> r == current || trace == HitPickup(r)
    ensures r == null <==> trace.Miss? || (trace.HitOther? && current == null)
  {
    match trace
    case Miss => null
    case HitPickup(p) => p
    case HitOther => current
  }

  /** The discrete part of the per-frame update: retarget while empty-handed,
      and lock movement in the engaged mode. */
  function Tick(c: Controls, trace: Trace): (r: Controls)
    ensures !c.holdingItem && trace.Miss? ==> r.currentItem == null
    ensures !c.holdingItem && trace.HitPickup? ==> r.currentItem == trace.item
    ensures c.holdingItem || trace.HitOther? ==> r.currentItem == c.currentItem
    ensures Engaged(c) ==> !r.canMove
    ensures !Engaged(c) ==> r.canMove == c.canMove
    ensures r.holdingItem == c.holdingItem && r.inspecting == c.inspecting
    ensures r.pawnControlRotation == c.pawnControlRotation && r.controllerYaw == c.controllerYaw
  {
    var targeted := if c.holdingItem then c else c.(currentItem := Target(c.currentItem, trace));
    if c.inspecting && c.holdingItem then targeted.(canMove := false) else targeted
  }

  /** The field-of-view target chosen by the per-frame update: the close
      inspection view exactly in the engaged mode, the gameplay view exactly
      outside inspection. */
  function FovTarget(c: Controls): (r: Fov)
    ensures r == InspectHeldFov <==> Engaged(c)
    ensures r == GameplayFov <==> !c.inspecting
  {
    if c.inspecting then (if c.holdingItem then InspectHeldFov else InspectEmptyFov)
    else GameplayFov
  }

  // ---------------------------------------------------------------------
  // Relations between the transitions

  /** Toggling movement twice restores the inspecting flag and both rotation
      modes, and leaves movement enabled exactly when not inspecting. */
  lemma ToggleMovementTwice(c: Controls)
    ensures ToggleMovement(ToggleMovement(c)).inspecting == c.inspecting
    ensures ToggleMovement(ToggleMovement(c)).pawnControlRotation == c.pawnControlRotation
    ensures ToggleMovement(ToggleMovement(c)).controllerYaw == c.controllerYaw
    ensures ToggleMovement(ToggleMovement(c)).canMove == !c.inspecting
    ensures c.canMove == !c.inspecting ==> ToggleMovement(ToggleMovement(c)) == c
  {
  }

  /** With an item in hand, Inspect is not idempotent: a second call undoes the first. */
  lemma InspectTwiceWhileHolding(c: Controls)
    requires c.holdingItem && c.canMove == !c.inspecting
    ensures Inspect(c) != c
    ensures Inspect(Inspect(c)) == c
  {
  }

  /** Empty-handed, Inspect is idempotent. */
  lemma InspectTwiceEmptyHanded(c: Controls)
    requires !c.holdingItem
    ensures Inspect(Inspect(c)) == Inspect(c)
  {
  }

  /** Pressing and releasing the inspect button while holding restores the
      flags; movement ends enabled. */
  lemma InspectThenStopRestores(c: Controls)
    requires c.holdingItem && !c.inspecting
    ensures !StopInspecting(Inspect(c)).inspecting
    ensures StopInspecting(Inspect(c)).canMove
    ensures StopInspecting(Inspect(c)).pawnControlRotation == c.pawnControlRotation
    ensures StopInspecting(Inspect(c)).controllerYaw == c.controllerYaw
    ensures c.canMove ==> StopInspecting(Inspect(c)) == c
  {
  }

  /** Two action presses on a targeted item pick it up, then throw it and
      forget the target. */
  lemma PickUpThenThrow(c: Controls)
    requires c.currentItem != null && !c.holdingItem && !c.inspecting
    ensures Action(c).holdingItem && Action(c).currentItem == c.currentItem
    ensures Action(Action(c)) == c.(currentItem := null)
  {
  }

  /** The per-frame update reaches its result in one frame. */
  lemma TickIdempotent(c: Controls, trace: Trace)
    ensures Tick(Tick(c, trace), trace) == Tick(c, trace)
  {
  }

  // ---------------------------------------------------------------------
  // Runs of input events and frames

  datatype Event =
    | MoveInput
    | LookInput
    | ActionInput
    | InspectPressed
    | InspectReleased
    | Frame(trace: Trace)

  function Step(c: Controls, e: Event): Controls {
    match e
    case MoveInput => c
    case LookInput => c
    case ActionInput => Action(c)
    case InspectPressed => Inspect(c)
    case InspectReleased => StopInspecting(c)
    case Frame(trace) => Tick(c, trace)
  }

  function Run(c: Controls, events: seq<Event>): Controls
    decreases |events|
  {
    if events == [] then c else Run(Step(c, events[0]), events[1..])
  }

  /** The invariant of every reachable state: movement and the camera's
      pawn-rotation mode are on exactly outside the engaged mode, and the
      controller-yaw mode differs from its value at rest exactly inside it. */
  predicate Settled(c: Controls, restYaw: bool) {
    && c.canMove == !Engaged(c)
    && c.pawnControlRotation == !Engaged(c)
    && c.controllerYaw == (restYaw != Engaged(c))
  }

  lemma SettledStep(c: Controls, e: Event, restYaw: bool)
    requires Settled(c, restYaw)
    ensures Settled(Step(c, e), restYaw)
  {
  }

  lemma {:induction false} SettledRun(c: Controls, events: seq<Event>, restYaw: bool)
    requires Settled(c, restYaw)
    ensures Settled(Run(c, events), restYaw)
    decreases |events|
  {
    if events != [] {
      SettledStep(c, events[0], restYaw);
      SettledRun(Step(c, events[0]), events[1..], restYaw);
    }
  }

  /** Whatever the uninitialised holding flag held, every state reached from
      spawning by input events and frames is settled. */
  lemma ReachableSettled(holdingItem: bool, restYaw: bool, events: seq<Event>)
    ensures Settled(Run(Spawned(holdingItem, restYaw), events), restYaw)
  {
    SettledRun(Spawned(holdingItem, restYaw), events, restYaw);
  }

  /** In a settled state, releasing the inspect button always returns to the
      gameplay controls: not inspecting, free to move, the camera on the
      control rotation and the yaw mode at rest. */
  lemma ReleaseRestoresControls(c: Controls, restYaw: bool)
    requires Settled(c, restYaw)
    ensures !StopInspecting(c).inspecting && StopInspecting(c).canMove
    ensures StopInspecting(c).pawnControlRotation
    ensures StopInspecting(c).controllerYaw == restYaw
  {
  }

  /** In a settled state the close inspection view is chosen exactly when
      movement is locked, and releasing the inspect button always brings
      back the gameplay view. */
  lemma FovFollowsMode(c: Controls, restYaw: bool)
    requires Settled(c, restYaw)
    ensures FovTarget(c) == InspectHeldFov <==> !c.canMove
    ensures FovTarget(StopInspecting(c)) == GameplayFov
    ensures FovTarget(StopInspecting(c)).Degrees() == 90
  {
  }

  /** In a settled state, the movement flag blocks nothing of its own: with a
      controller, motion is accepted exactly when not inspecting. */
  lemma MotionBlockedOnlyByInspecting(c: Controls, restYaw: bool)
    requires Settled(c, restYaw)
    ensures AcceptsMotion(c, true) <==> !c.inspecting
  {
  }

  /** A character holds an item only when it has one targeted. */
  predicate HandsMatchTarget(c: Controls) {
    c.holdingItem ==> c.currentItem != null
  }

  lemma {:induction false} HandsMatchTargetRun(c: Controls, events: seq<Event>)
    requires HandsMatchTarget(c)
    ensures HandsMatchTarget(Run(c, events))
    decreases |events|
  {
    if events != [] {
      HandsMatchTargetRun(Step(c, events[0]), events[1..]);
    }
  }

  /** Spawned with empty hands, the character never believes it holds an item
      without having one. */
  lemma EmptyHandedSpawnKeepsTarget(restYaw: bool, events: seq<Event>)
    ensures HandsMatchTarget(Run(Spawned(false, restYaw), events))
  {
    HandsMatchTargetRun(Spawned(false, restYaw), events);
  }

  lemma {:induction false} LockedOutRun(c: Controls, events: seq<Event>)
    requires c.holdingItem && c.currentItem == null
    ensures Run(c, events).holdingItem && Run(c, events).currentItem == null
    decreases |events|
  {
    if events != [] {
      LockedOutRun(Step(c, events[0]), events[1..]);
    }
  }

  /** Had the uninitialised holding flag come up true, the character could
      never target or pick up anything: the trace is skipped while holding,
      and the action needs a target. */
  lemma UninitialisedHoldingLocksOut(restYaw: bool, events: seq<Event>)
    ensures Run(Spawned(true, restYaw), events).holdingItem
    ensures Run(Spawned(true, restYaw), events).currentItem == null
  {
    LockedOutRun(Spawned(true, restYaw), events);
  }
}
