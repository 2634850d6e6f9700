/** The pickup actor: a physics object the player can hold in front of the
    camera and throw by releasing it. */
module PickupActor {
  import opened Engine

  /** The name the player character gives its holding component. */
  const HoldingComponentName := "HoldingComponent"

  datatype Collision = NoCollision | QueryAndPhysics

  /** The pickup's two flags and the mesh settings that Pickup() derives from them. */
  datatype Physics = Physics(
    holding: bool,
    gravity: bool,
    gravityEnabled: bool,
    simulatePhysics: bool,
    collision: Collision)

  function CollisionFor(holding: bool): Collision {
    if holding then NoCollision else QueryAndPhysics
  }

  /** The invariant every pickup keeps: gravity is on exactly when not held,
      and so is the physics simulation. */
  predicate Balanced(s: Physics) {
    s.gravity == !s.holding && s.simulatePhysics == !s.holding
  }

  /** The mesh settings agree with the flags. */
  predicate MeshSynced(s: Physics) {
    && s.gravityEnabled == s.gravity
    && s.simulatePhysics == !s.holding
    && s.collision == CollisionFor(s.holding)
  }

  /** The state after construction. Gravity and collision of the mesh are not
      set by the constructor, so they keep the engine's defaults, given here. */
  function SpawnPhysics(gravityEnabled: bool, collision: Collision): (s: Physics)
    ensures !s.holding && s.gravity && s.simulatePhysics
    ensures Balanced(s)
    ensures s.gravityEnabled == gravityEnabled && s.collision == collision
  {
    Physics(false, true, gravityEnabled, true, collision)
  }

  /** Pickup(): flip both flags, then set gravity, simulation and collision
      from the new flags. */
  function Toggled(s: Physics): (r: Physics)
    ensures r.holding == !s.holding && r.gravity == !s.gravity
    ensures MeshSynced(r)
    ensures Balanced(r) <==> s.gravity == !s.holding
  {
    var holding := !s.holding;
    var gravity := !s.gravity;
    Physics(holding, gravity, gravity, if holding then false else true, CollisionFor(holding))
  }

  /** Picking up and releasing again returns the flags and all mesh settings to
      what they were, provided the settings agreed with the flags. */
  lemma ToggleTwiceRestores(s: Physics)
    requires MeshSynced(s)
    ensures Toggled(Toggled(s)) == s
  {
  }

  /** Whatever the engine defaults were, the settings are in step with the flags
      from the first toggle on, so from there every two toggles are a round trip. */
  lemma ToggleSettlesAfterOne(s: Physics)
    ensures Toggled(Toggled(Toggled(s))) == Toggled(s)
  {
    ToggleTwiceRestores(Toggled(s));
  }

  /** The flags, and with them the simulation setting, round-trip from any
      balanced state, even one whose gravity and collision are engine defaults. */
  lemma ToggleTwiceRestoresFlags(s: Physics)
    requires Balanced(s)
    ensures Toggled(Toggled(s)).holding == s.holding
    ensures Toggled(Toggled(s)).gravity == s.gravity
    ensures Toggled(Toggled(s)).simulatePhysics == s.simulatePhysics
  {
  }

  /** ASCII case folding, as the engine's case-insensitive string comparison does. */
  function ToLowerAscii(c: char): (r: char)
    ensures !('A' <= r <= 'Z')
    ensures 'A' <= c <= 'Z' ==> r as int == c as int + 32
    ensures !('A' <= c <= 'Z') ==> r == c
  {
    if 'A' <= c <= 'Z' then (c as int + 32) as char else c
  }

  /** The engine's string equality, which ignores (ASCII) case. */
  predicate SameName(a: string, b: string): (r: bool)
    ensures a == b ==> r
    ensures r ==> |a| == |b|
  {
    |a| == |b| && forall i | 0 <= i < |a| :: ToLowerAscii(a[i]) == ToLowerAscii(b[i])
  }

  /** The comparison is an equivalence that ignores case: a component named
      in lower case still counts as the holding component. */
  lemma SameNameIgnoresCase(a: string, b: string, c: string)
    ensures SameName(a, a)
    ensures SameName(a, b) ==> SameName(b, a)
    ensures SameName(a, b) && SameName(b, c) ==> SameName(a, c)
    ensures SameName("holdingcomponent", HoldingComponentName)
    ensures !SameName("HoldingComponent2", HoldingComponentName)
  {
  }

  /** The index of the last component whose name matches, if any. */
  function LastNamed(components: seq<SceneComponent>, name: string): (r: Option<nat>)
    ensures r.Some? ==> r.value < |components| && SameName(components[r.value].name, name)
    ensures r.Some? ==> forall j | r.value < j < |components| :: !SameName(components[j].name, name)
    ensures r.None? <==> forall j | 0 <= j < |components| :: !SameName(components[j].name, name)
    decreases |components|
  {
    if components == [] then None
    else if SameName(components[|components| - 1].name, name) then Some(|components| - 1)
    else LastNamed(components[..|components| - 1], name)
  }

  class Pickup {
    var holding: bool
    var gravity: bool
    // settings of the mesh component
    var gravityEnabled: bool
    var simulatePhysics: bool
    var collision: Collision
    /** Camera directions of the impulses applied so far, oldest first. */
    var throws: seq<Vector>
    /** Where the held pickup sits: a component of the player character. */
    var holdingComp: Option<SceneComponent>
    var transform: Transform
    /** How many times Pickup() has run. */
    ghost var Toggles: nat

    function State(): Physics
      reads this
    {
      Physics(holding, gravity, gravityEnabled, simulatePhysics, collision)
    }

    ghost predicate Valid()
      reads this
    {
      Balanced(State())
    }

    /** The mesh's gravity and collision are engine defaults and the holding
        component may be set in the editor, so all three are parameters. */
    constructor (gravityDefault: bool, collisionDefault: Collision,
                 holdingComp: Option<SceneComponent>, spawnAt: Transform)
      ensures Valid()
      ensures State() == SpawnPhysics(gravityDefault, collisionDefault)
      ensures this.holdingComp == holdingComp && transform == spawnAt
      ensures throws == [] && Toggles == 0
    {
      simulatePhysics := true;
      holding := false;
      gravity := true;
      gravityEnabled := gravityDefault;
      collision := collisionDefault;
      this.holdingComp := holdingComp;
      transform := spawnAt;
      throws := [];
      Toggles := 0;
    }

    /** Finds the player's holding component among the player's components:
        the last one whose name matches wins, and nothing is assigned when
        none matches. */
    method BeginPlay(components: seq<SceneComponent>)
      modifies this`holdingComp
      ensures LastNamed(components, HoldingComponentName).None? ==> holdingComp == old(holdingComp)
      ensures LastNamed(components, HoldingComponentName).Some? ==>
                holdingComp == Some(components[LastNamed(components, HoldingComponentName).value])
    {
      if |components| > 0 {
        for i := 0 to |components|
          invariant LastNamed(components[..i], HoldingComponentName).None? ==> holdingComp == old(holdingComp)
          invariant LastNamed(components[..i], HoldingComponentName).Some? ==>
                      holdingComp == Some(components[LastNamed(components[..i], HoldingComponentName).value])
        {
          assert components[..i + 1][..i] == components[..i];
          if SameName(components[i].name, HoldingComponentName) {
            holdingComp := Some(components[i]);
          }
        }
      }
      assert components[..|components|] == components;
    }

    /** Every frame a held pickup snaps to the holding component, when it has
        one; `placement` is where the engine currently has each component. */
    method Tick(placement: SceneComponent -> Transform)
      modifies this`transform
      ensures holding && holdingComp.Some? ==> transform == placement(holdingComp.value)
      ensures !(holding && holdingComp.Some?) ==> transform == old(transform)
    {
      if holding && holdingComp.Some? {
        transform := placement(holdingComp.value);
      }
    }

    /** Turns the pickup to the player's control rotation, keeping its location. */
    method RotateActor(controlRotation: Rotator)
      modifies this`transform
      ensures transform == old(transform).(rotation := controlRotation)
    {
      transform := transform.(rotation := controlRotation);
    }

    /** Toggles between held and released; on release it throws the pickup
        along the camera's forward direction. */
    method Pickup(cameraForward: Vector)
      requires Valid()
      modifies this
      ensures Valid()
      ensures State() == Toggled(old(State()))
      ensures throws == old(throws) + (if holding then [] else [cameraForward])
      ensures Toggles == old(Toggles) + 1
      ensures holdingComp == old(holdingComp) && transform == old(transform)
    {
      holding := !holding;
      gravity := !gravity;

      gravityEnabled := gravity;
      simulatePhysics := if holding then false else true;
      collision := if holding then NoCollision else QueryAndPhysics;

      if !holding {
        throws := throws + [cameraForward];
      }
      Toggles := Toggles + 1;
    }
  }
}
