/** Values the game engine owns and hands to the behaviour scripts. */
module Scene {

  /** A position in world or local space. The model never computes with positions:
      it only stores and copies them. */
  datatype Vec3 = Vec3(x: real, y: real, z: real)

  /** The zero vector, the value an unassigned position field holds. */
  const Origin: Vec3 := Vec3(0.0, 0.0, 0.0)

  /** Identity of a scene object (a GameObject) the script refers to but does not own. */
  type ObjectId = nat

  datatype Option<+T> = None | Some(value: T)
}
