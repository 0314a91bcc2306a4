/** The `vec3` operations of gl-matrix the engine uses, over exact reals. */
module Vectors {

  datatype Vec3 = Vec3(x: real, y: real, z: real)

  /** `vec3.create()`. */
  const Zero: Vec3 := Vec3(0.0, 0.0, 0.0)

  /** `vec3.add`. */
  function Add(a: Vec3, b: Vec3): Vec3
  {
    Vec3(a.x + b.x, a.y + b.y, a.z + b.z)
  }

  /** `vec3.scale`. */
  function Scale(a: Vec3, k: real): Vec3
  {
    Vec3(a.x * k, a.y * k, a.z * k)
  }

  /** `vec3.negate`. */
  function Negate(a: Vec3): Vec3
  {
    Vec3(-a.x, -a.y, -a.z)
  }
}
