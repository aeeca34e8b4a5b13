/** Three-component vectors over the reals, standing in for glm::vec3.
    Floating-point rounding is not modelled. */
module Vectors {

  datatype Vec3 = Vec3(x: real, y: real, z: real)

  datatype Vec2 = Vec2(x: real, y: real)

  /** glm::vec3(k): every component equal to k. */
  function Splat(k: real): Vec3 {
    Vec3(k, k, k)
  }

  function Zero(): Vec3 {
    Splat(0.0)
  }

  function Add(a: Vec3, b: Vec3): Vec3 {
    Vec3(a.x + b.x, a.y + b.y, a.z + b.z)
  }

  function Sub(a: Vec3, b: Vec3): Vec3 {
    Vec3(a.x - b.x, a.y - b.y, a.z - b.z)
  }

  function Scale(v: Vec3, k: real): Vec3 {
    Vec3(v.x * k, v.y * k, v.z * k)
  }
}
