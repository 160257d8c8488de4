/** The glm values the cameras build, kept symbolic: a matrix is the term
    that produced it, so two matrices are equal when they were built the same
    way. Nothing here evaluates a product, an inverse or a projection. */
module Matrices {

  /** π as the nearest double, the value `glm.radians` multiplies by. */
  const PI: real := 3.141592653589793

  /** `glm.radians(degrees)`. */
  function Radians(degrees: real): real
  {
    degrees * PI / 180.0
  }

  datatype Vec3 = Vec3(x: real, y: real, z: real)

  datatype Mat =
    | Identity                                    // glm.mat4(1)
    | Ortho(left: real, right: real, bottom: real, top: real, near: real, far: real)
    | Perspective(fovy: real, aspect: real, near: real, far: real)
    | Translate(base: Mat, offset: Vec3)          // glm.translate(base, offset)
    | Rotate(base: Mat, angle: real, axis: Vec3)  // glm.rotate(base, angle, axis)
    | Mul(lhs: Mat, rhs: Mat)                     // lhs * rhs
    | Inverse(inner: Mat)                         // glm.inverse(inner)

  /** `glm.ortho(left, right, bottom, top)` without clip planes: the 2D
      projection, whose depth range is the one `ortho(..., -1, 1)` gives. */
  function Ortho2D(left: real, right: real, bottom: real, top: real): Mat
  {
    Ortho(left, right, bottom, top, -1.0, 1.0)
  }
}
