/** Stand-ins for the engine value types the interaction code passes around.
    The model never computes with their components: a rotation, a vector or a
    transform is only stored, copied and compared. */
module Engine {

  datatype Option<T> = None | Some(value: T)

  /** A rotation (pitch, yaw, roll in degrees). */
  datatype Rotator = Rotator(pitch: real, yaw: real, roll: real)

  /** What a pawn reports as its control rotation when it has no controller. */
  const ZeroRotator := Rotator(0.0, 0.0, 0.0)

  datatype Vector = Vector(x: real, y: real, z: real)

  /** A world location together with a rotation. */
  datatype Transform = Transform(location: Vector, rotation: Rotator)

  /** A scene component of an actor, identified by the engine and named. */
  datatype SceneComponent = SceneComponent(id: nat, name: string)
}
