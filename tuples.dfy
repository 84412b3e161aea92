/** The value view of the five tuple types, at scalar `int`. Each C++ class
    keeps its members `m_x`, `m_y`, ... private and exposes them through the
    getters `x()`, `y()`, ...; the datatype fields stand for both. */
module Tuples {

  /** `Vec2<int>`: a 2D vector. */
  datatype Vec2 = Vec2(x: int, y: int)

  /** `Vec3<int>`: a 3D vector (a displacement or a direction). */
  datatype Vec3 = Vec3(x: int, y: int, z: int)

  /** `Vec4<int>`: a homogeneous 4-tuple; `w` is 0 for a direction and 1 for
      a point when the value comes from a conversion. */
  datatype Vec4 = Vec4(x: int, y: int, z: int, w: int)

  /** `Point3<int>`: an affine position. */
  datatype Point3 = Point3(x: int, y: int, z: int)

  /** `Normal3<int>`: a surface normal, a type apart from `Vec3`. */
  datatype Normal3 = Normal3(x: int, y: int, z: int)
}
