/** Real-valued three-vectors and symbolic rotations standing in for the
    engine's Vector3 and Quaternion. Single-precision rounding is not modelled. */
module Geometry {

  datatype Vec3 = Vec3(x: real, y: real, z: real)

  /** Vector3.zero, the value every unset slot of a Vector3 array holds. */
  const Zero := Vec3(0.0, 0.0, 0.0)
  /** Vector3.forward: the engine's +Z axis. */
  const Forward := Vec3(0.0, 0.0, 1.0)
  /** Vector3.right: the engine's +X axis. */
  const Right := Vec3(1.0, 0.0, 0.0)
  /** Vector3.up: the engine's +Y axis. */
  const Up := Vec3(0.0, 1.0, 0.0)

  function Add(a: Vec3, b: Vec3): Vec3 {
    Vec3(a.x + b.x, a.y + b.y, a.z + b.z)
  }

  function Scale(a: Vec3, k: real): Vec3 {
    Vec3(a.x * k, a.y * k, a.z * k)
  }

  function Negate(a: Vec3): Vec3 {
    Vec3(-a.x, -a.y, -a.z)
  }

  /** An orientation. `Pose` is one the engine supplied and that the model does
      not look inside; `AboutAxis(d, axis, base)` is
      `Quaternion.AngleAxis(d, axis) * base`, a turn of `d` degrees about `axis`
      applied after `base`. */
  datatype Rotation =
    | Pose(tag: nat)
    | AboutAxis(degrees: real, axis: Vec3, base: Rotation)
}
