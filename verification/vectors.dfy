/**
 * The vector types of the engine's transforms (`Vec2`, `Vec3`), with exact
 * real components standing for the engine's `f32` components.
 */
module Vectors {
  datatype Vec2 = Vec2(x: real, y: real)

  datatype Vec3 = Vec3(x: real, y: real, z: real) {
    /** Component-wise sum, the `+=` of a translation. */
    function Plus(d: Vec3): Vec3 {
      Vec3(x + d.x, y + d.y, z + d.z)
    }
  }

  const Zero2: Vec2 := Vec2(0.0, 0.0)
  const Zero3: Vec3 := Vec3(0.0, 0.0, 0.0)
}
