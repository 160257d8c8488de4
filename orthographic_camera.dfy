/** `OrthographicCamera`: a projection, a view derived from a position and a
    rotation about the z axis, and their cached product. */
module OrthographicCameras {
  import opened Matrices

  /** The view `_recalculate_view_matric` derives: the inverse of the
      camera's transform, a translation to `position` followed by a rotation
      of `rotation` degrees about z. */
  function ViewFor(position: Vec3, rotation: real): Mat
  {
    Inverse(Mul(Translate(Identity, position), Rotate(Identity, Radians(rotation), Vec3(0.0, 0.0, 1.0))))
  }

  class OrthographicCamera {
    var projectionMatrix: Mat
    var viewMatrix: Mat
    var viewProjectionMatrix: Mat
    /** `_position`. The setter stores a copy of the vector it is given,
        but the getter hands out the stored vector itself; here a `Vec3` is
        a value, so changes made through that reference are not modelled. */
    var position: Vec3
    var rotation: real

    /** The cache: the view-projection is the projection times the view. */
    predicate Valid()
      reads this
    {
      viewProjectionMatrix == Mul(projectionMatrix, viewMatrix)
    }

    /** An orthographic projection of the given bounds with depth -1..1, the
        identity view, the camera at the origin and unrotated. */
    constructor (left: real, right: real, bottom: real, top: real)
      ensures Valid()
      ensures projectionMatrix == Ortho(left, right, bottom, top, -1.0, 1.0)
      ensures viewMatrix == Identity
      ensures position == Vec3(0.0, 0.0, 0.0) && rotation == 0.0
    {
      projectionMatrix := Ortho(left, right, bottom, top, -1.0, 1.0);
      viewMatrix := Identity;
      viewProjectionMatrix := Mul(projectionMatrix, viewMatrix);
      position := Vec3(0.0, 0.0, 0.0);
      rotation := 0.0;
    }

    /** The `position` setter: store, then recompute the view. */
    method SetPosition(value: Vec3)
      modifies this
      ensures Valid()
      ensures position == value && rotation == old(rotation)
      ensures projectionMatrix == old(projectionMatrix)
      ensures viewMatrix == ViewFor(value, rotation)
    {
      position := value;
      RecalculateViewMatrix();
    }

    /** The `rotation` setter: store, then recompute the view. */
    method SetRotation(value: real)
      modifies this
      ensures Valid()
      ensures rotation == value && position == old(position)
      ensures projectionMatrix == old(projectionMatrix)
      ensures viewMatrix == ViewFor(position, value)
    {
      rotation := value;
      RecalculateViewMatrix();
    }

    /** `set_projection_matrix`: a new orthographic projection combined with
        the view as it stands; the view is not recomputed. */
    method SetProjectionMatrix(left: real, right: real, bottom: real, top: real)
      modifies this`projectionMatrix, this`viewProjectionMatrix
      ensures Valid()
      ensures projectionMatrix == Ortho(left, right, bottom, top, -1.0, 1.0)
    {
      projectionMatrix := Ortho(left, right, bottom, top, -1.0, 1.0);
      viewProjectionMatrix := Mul(projectionMatrix, viewMatrix);
    }

    /** `_recalculate_view_matric`. */
    method RecalculateViewMatrix()
      modifies this`viewMatrix, this`viewProjectionMatrix
      ensures Valid()
      ensures viewMatrix == ViewFor(position, rotation)
    {
      var transform := Mul(Translate(Identity, position), Rotate(Identity, Radians(rotation), Vec3(0.0, 0.0, 1.0)));
      viewMatrix := Inverse(transform);
      viewProjectionMatrix := Mul(projectionMatrix, viewMatrix);
    }
  }
}
