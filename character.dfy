/** The first-person character: its input handlers and per-frame update act on
    the interaction flags (specified by the Interaction module), on the camera
    and controller settings it touches, and on the pickup it holds. */
module CharacterActor {
  import opened Engine
  import opened PickupActor
  import Interaction

  /** Pitch limits of the player's camera manager. */
  datatype PitchRange = PitchRange(max: real, min: real)

  /** The limits set while inspecting a held item: almost full rotation. */
  const FullPitch := PitchRange(179.9, -179.9)

  /** Relative placement of the holding component: in front of the camera
      (50, 0, 0) or raised beside it for inspection (0, 50, 50). */
  datatype HoldPose = CarryPose | InspectPose

  /** A two-axis input value. */
  datatype Axis2D = Axis2D(x: real, y: real)

  datatype Direction = ActorForward | ActorRight

  /** Input handed to the engine's movement and controller. */
  datatype Command =
    | Movement(direction: Direction, scale: real)
    | YawInput(amount: real)
    | PitchInput(amount: real)

  /** Everything the character touches besides the interaction flags. */
  datatype ViewState = ViewState(
    hasRifle: bool,
    lastRotation: Rotator,
    /** the controller's control rotation, None before possession */
    controller: Option<Rotator>,
    /** the pitch limits cached at begin-play */
    pitchLimits: PitchRange,
    /** the camera manager's current pitch limits */
    viewPitch: PitchRange,
    holdPose: HoldPose,
    /** movement and look input handed on so far, oldest first */
    pendingInput: seq<Command>)

  class Character {
    var hasRifle: bool
    var canMove: bool
    var holdingItem: bool
    var inspecting: bool
    var usePawnControlRotation: bool
    var useControllerRotationYaw: bool
    var currentItem: Pickup?
    var lastRotation: Rotator
    var controller: Option<Rotator>
    var pitchLimits: PitchRange
    var viewPitch: PitchRange
    var holdPose: HoldPose
    var pendingInput: seq<Command>
    /** The pickups of the level. */
    ghost var Items: set<Pickup>

    function Controls(): Interaction.Controls
      reads this
    {
      Interaction.Controls(holdingItem, inspecting, canMove,
        usePawnControlRotation, useControllerRotationYaw, currentItem)
    }

    function View(): ViewState
      reads this
    {
      ViewState(hasRifle, lastRotation, controller, pitchLimits, viewPitch, holdPose, pendingInput)
    }

    /** The character and the pickups agree on what is held: a pickup of the
        level is held exactly when it is the character's target and the
        character holds an item. */
    ghost predicate Valid()
      reads this, Items
    {
      && (currentItem != null ==> currentItem in Items)
      && forall p | p in Items :: p.Valid() && (p.holding <==> holdingItem && p == currentItem)
    }

    /** The rotation the pawn reports: the controller's, or zero without one. */
    function ControlRotation(): (r: Rotator)
      reads this
      ensures controller.None? ==> r == ZeroRotator
      ensures controller.Some? ==> r == controller.value
    {
      match controller
      case None => ZeroRotator
      case Some(r) => r
    }

    /** Spawns the character into a level whose pickups are all resting. The
        holding flag, the saved rotation and the cached pitch limits are never
        initialised by the constructor, and the yaw mode and the camera manager's
        limits are engine defaults, so all of them are parameters. */
    constructor (level: set<Pickup>, holdingItem: bool, lastRotation: Rotator,
                 pitchLimits: PitchRange, controllerYawDefault: bool, viewPitch: PitchRange)
      requires forall p | p in level :: p.Valid() && !p.holding
      ensures Valid() && Items == level
      ensures Controls() == Interaction.Spawned(holdingItem, controllerYawDefault)
      ensures View() == ViewState(false, lastRotation, None, pitchLimits, viewPitch, CarryPose, [])
    {
      hasRifle := false;
      usePawnControlRotation := true;
      holdPose := CarryPose;
      currentItem := null;
      canMove := true;
      inspecting := false;
      this.holdingItem := holdingItem;
      this.lastRotation := lastRotation;
      this.pitchLimits := pitchLimits;
      useControllerRotationYaw := controllerYawDefault;
      this.viewPitch := viewPitch;
      controller := None;
      pendingInput := [];
      Items := level;
    }

    /** Engine step, not part of the character's own code: a player controller
        takes possession of the pawn. */
    method PossessedBy(rotation: Rotator)
      requires Valid()
      modifies this
      ensures Valid() && Items == old(Items)
      ensures Controls() == old(Controls())
      ensures View() == old(View()).(controller := Some(rotation))
    {
      controller := Some(rotation);
    }

    /** Caches the camera manager's pitch limits. */
    method BeginPlay()
      requires Valid()
      modifies this
      ensures Valid() && Items == old(Items)
      ensures Controls() == old(Controls())
      ensures View() == old(View()).(pitchLimits := old(viewPitch))
    {
      pitchLimits := viewPitch;
    }

    /** The per-frame update: targets a pickup with the trace while the hands
        are empty, then sets the camera and holding pose for the mode, and
        returns the field-of-view target the camera eases toward. */
    method Tick(trace: Interaction.Trace) returns (fov: Interaction.Fov)
      requires Valid()
      requires trace.HitPickup? ==> trace.item in Items
      modifies this
      ensures Valid() && Items == old(Items)
      ensures Controls() == Interaction.Tick(old(Controls()), trace)
      ensures fov == Interaction.FovTarget(old(Controls()))
      ensures View() == old(View()).(
                holdPose := if old(holdingItem) && old(inspecting) then InspectPose
                            else if old(holdingItem) then CarryPose
                            else old(holdPose),
                viewPitch := if old(holdingItem) && old(inspecting) then FullPitch
                             else old(viewPitch))
    {
      if !holdingItem {
        match trace {
          case Miss => currentItem := null;
          case HitPickup(p) => currentItem := p;
          case HitOther =>
        }
      }

      if inspecting {
        if holdingItem {
          canMove := false;
          fov := Interaction.InspectHeldFov;
          holdPose := InspectPose;
          viewPitch := FullPitch;
        } else {
          fov := Interaction.InspectEmptyFov;
        }
      } else {
        fov := Interaction.GameplayFov;
        if holdingItem {
          holdPose := CarryPose;
        }
      }
    }

    /** Movement input reaches the pawn only when it is accepted. */
    method Move(value: Axis2D)
      requires Valid()
      modifies this
      ensures Valid() && Items == old(Items)
      ensures Controls() == old(Controls())
      ensures View() == old(View()).(pendingInput := old(pendingInput) +
                if Interaction.AcceptsMotion(old(Controls()), old(controller).Some?)
                then [Movement(ActorForward, value.y), Movement(ActorRight, value.x)]
                else [])
    {
      if controller.Some? && canMove && !inspecting {
        pendingInput := pendingInput + [Movement(ActorForward, value.y)];
        pendingInput := pendingInput + [Movement(ActorRight, value.x)];
      }
    }

    /** Look input reaches the controller only when it is accepted. */
    method Look(value: Axis2D)
      requires Valid()
      modifies this
      ensures Valid() && Items == old(Items)
      ensures Controls() == old(Controls())
      ensures View() == old(View()).(pendingInput := old(pendingInput) +
                if Interaction.AcceptsMotion(old(Controls()), old(controller).Some?)
                then [YawInput(value.x), PitchInput(value.y)]
                else [])
    {
      if controller.Some? && canMove && !inspecting {
        pendingInput := pendingInput + [YawInput(value.x)];
        pendingInput := pendingInput + [PitchInput(value.y)];
      }
    }

    /** The action button: picks up or throws the target, unless inspecting. */
    method Action(cameraForward: Vector)
      requires Valid()
      modifies this, currentItem
      ensures Valid() && Items == old(Items)
      ensures Controls() == Interaction.Action(old(Controls()))
      ensures View() == old(View())
      ensures old(currentItem) != null && !old(inspecting) ==>
                && old(currentItem).Toggles == old(currentItem.Toggles) + 1
                && old(currentItem).holding == holdingItem
                && old(currentItem).State() == Toggled(old(currentItem.State()))
                && old(currentItem).throws == old(currentItem.throws) + (if holdingItem then [] else [cameraForward])
      ensures old(currentItem) != null && old(inspecting) ==> unchanged(old(currentItem))
    {
      if currentItem != null && !inspecting {
        ToggleItemPickup(cameraForward);
      }
    }

    /** The inspect button's triggered event; see Interaction.Inspect on how
        often the engine fires it. */
    method Inspect()
      requires Valid()
      modifies this
      ensures Valid() && Items == old(Items)
      ensures Controls() == Interaction.Inspect(old(Controls()))
      ensures View() == if old(holdingItem) then old(View()).(lastRotation := old(ControlRotation()))
                        else old(View())
    {
      if holdingItem {
        lastRotation := ControlRotation();
        ToggleMovement();
      } else {
        inspecting := true;
      }
    }

    /** Inspect button released: in the engaged mode the saved rotation and
        the cached pitch limits come back. The source dereferences the
        controller in that branch, so it must have one. */
    method StopInspecting()
      requires Valid()
      requires inspecting && holdingItem ==> controller.Some?
      modifies this
      ensures Valid() && Items == old(Items)
      ensures Controls() == Interaction.StopInspecting(old(Controls()))
      ensures View() == if old(inspecting) && old(holdingItem)
                        then old(View()).(controller := Some(old(lastRotation)), viewPitch := old(pitchLimits))
                        else old(View())
    {
      if inspecting && holdingItem {
        controller := Some(lastRotation);
        viewPitch := pitchLimits;
        ToggleMovement();
      } else {
        inspecting := false;
      }
    }

    method ToggleMovement()
      requires Valid()
      modifies this
      ensures Valid() && Items == old(Items)
      ensures Controls() == Interaction.ToggleMovement(old(Controls()))
      ensures View() == old(View())
    {
      inspecting := !inspecting;
      canMove := !inspecting;
      usePawnControlRotation := !usePawnControlRotation;
      useControllerRotationYaw := !useControllerRotationYaw;
    }

    /** Flips the holding flag and the target's own held state together, with
        exactly one call of the pickup's toggle; dropping forgets the target. */
    method ToggleItemPickup(cameraForward: Vector)
      requires Valid()
      modifies this, currentItem
      ensures Valid() && Items == old(Items)
      ensures Controls() == Interaction.ToggleItemPickup(old(Controls()))
      ensures View() == old(View())
      ensures old(currentItem) != null ==>
                && old(currentItem).Toggles == old(currentItem.Toggles) + 1
                && old(currentItem).holding == holdingItem
                && old(currentItem).State() == Toggled(old(currentItem.State()))
                && old(currentItem).throws == old(currentItem.throws) + (if holdingItem then [] else [cameraForward])
    {
      if currentItem != null {
        holdingItem := !holdingItem;
        currentItem.Pickup(cameraForward);

        if !holdingItem {
          currentItem := null;
        }
      }
    }

    method SetHasRifle(newHasRifle: bool)
      requires Valid()
      modifies this
      ensures Valid() && Items == old(Items)
      ensures Controls() == old(Controls())
      ensures View() == old(View()).(hasRifle := newHasRifle)
    {
      hasRifle := newHasRifle;
    }

    method GetHasRifle() returns (r: bool)
      ensures r == hasRifle
    {
      r := hasRifle;
    }
  }
}
