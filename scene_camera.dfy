/** `SceneCamera`: a projection kept in step with its settings. Every property
    setter and every `set_*` method recomputes the projection from the
    current settings. */
module SceneCameras {
  import opened Wrappers
  import opened Matrices

  /** `ProjectionType`, an `IntEnum` with PERSPECTIVE = 0, ORTHOGRAPHIC = 1. */
  datatype ProjectionType = ProjectionPerspective | ProjectionOrthographic

  /** The orthographic bounds for a size and an aspect ratio. */
  datatype OrthoBounds = OrthoBounds(left: real, right: real, bottom: real, top: real)

  /** `size` is the height of the view and `size * aspect` its width, both
      centred on the origin. */
  function OrthographicBounds(size: real, aspect: real): (b: OrthoBounds)
    ensures b.right - b.left == size * aspect && b.left == -b.right
    ensures b.top - b.bottom == size && b.bottom == -b.top
  {
    OrthoBounds(-size * aspect * 0.5, size * aspect * 0.5, -size * 0.5, size * 0.5)
  }

  /** What `recalculate_projection` builds. The orthographic branch uses the
      four-argument `glm.ortho`, so the orthographic near and far settings
      do not reach the projection. */
  function ProjectionOf(projectionType: ProjectionType, fov: real, aspect: real, near: real, far: real,
                        size: real): Mat
  {
    if projectionType == ProjectionPerspective then Perspective(fov, aspect, near, far)
    else
      var b := OrthographicBounds(size, aspect);
      Ortho2D(b.left, b.right, b.bottom, b.top)
  }

  /** The orthographic projection depends on the size and the aspect only. */
  lemma OrthographicIgnoresClipPlanes(fov: real, aspect: real, near: real, far: real, size: real,
                                      fov': real, near': real, far': real)
    ensures ProjectionOf(ProjectionOrthographic, fov, aspect, near, far, size)
            == ProjectionOf(ProjectionOrthographic, fov', aspect, near', far', size)
    ensures ProjectionOf(ProjectionOrthographic, fov, aspect, near, far, size).near == -1.0
    ensures ProjectionOf(ProjectionOrthographic, fov, aspect, near, far, size).far == 1.0
  {
  }

  class SceneCamera {
    var projection: Mat
    var projectionType: ProjectionType
    var perspectiveVerticalFov: real
    var perspectiveNear: real
    var perspectiveFar: real
    /** `_perspective_fov`: an attribute only `set_perspective` writes and
        nothing reads. */
    var perspectiveFov: Option<real>
    var orthographicSize: real
    var orthographicNear: real
    var orthographicFar: real
    var aspectRatio: real

    /** The projection matches the settings. */
    predicate Valid()
      reads this
    {
      projection == ProjectionOf(projectionType, perspectiveVerticalFov, aspectRatio,
                                 perspectiveNear, perspectiveFar, orthographicSize)
    }

    /** Orthographic, size 10 with clip planes -1..1, no aspect yet, and a
        perspective of 45 degrees over 0.01..1000. */
    constructor ()
      ensures Valid()
      ensures projectionType == ProjectionOrthographic
      ensures perspectiveVerticalFov == Radians(45.0) && perspectiveNear == 0.01 && perspectiveFar == 1000.0
      ensures perspectiveFov == None
      ensures orthographicSize == 10.0 && orthographicNear == -1.0 && orthographicFar == 1.0
      ensures aspectRatio == 0.0
    {
      projection := Identity;
      projectionType := ProjectionOrthographic;
      perspectiveVerticalFov := Radians(45.0);
      perspectiveNear := 0.01;
      perspectiveFar := 1000.0;
      perspectiveFov := None;
      orthographicSize := 10.0;
      orthographicNear := -1.0;
      orthographicFar := 1.0;
      aspectRatio := 0.0;
      new;
      RecalculateProjection();
    }

    /** `recalculate_projection`. */
    method RecalculateProjection()
      modifies this`projection
      ensures Valid()
    {
      if projectionType == ProjectionPerspective {
        projection := Perspective(perspectiveVerticalFov, aspectRatio, perspectiveNear, perspectiveFar);
      } else {
        var left := -orthographicSize * aspectRatio * 0.5;
        var right := orthographicSize * aspectRatio * 0.5;
        var bottom := -orthographicSize * 0.5;
        var top := orthographicSize * 0.5;
        projection := Ortho2D(left, right, bottom, top);
      }
    }

    /** The `projection_type` setter. */
    method SetProjectionType(value: ProjectionType)
      modifies this`projectionType, this`projection
      ensures projectionType == value && Valid()
    {
      projectionType := value;
      RecalculateProjection();
    }

    /** The `perspective_vertical_fov` setter. */
    method SetPerspectiveVerticalFov(value: real)
      modifies this`perspectiveVerticalFov, this`projection
      ensures perspectiveVerticalFov == value && Valid()
    {
      perspectiveVerticalFov := value;
      RecalculateProjection();
    }

    /** The `perspective_near` setter. */
    method SetPerspectiveNear(value: real)
      modifies this`perspectiveNear, this`projection
      ensures perspectiveNear == value && Valid()
    {
      perspectiveNear := value;
      RecalculateProjection();
    }

    /** The `perspective_far` setter. */
    method SetPerspectiveFar(value: real)
      modifies this`perspectiveFar, this`projection
      ensures perspectiveFar == value && Valid()
    {
      perspectiveFar := value;
      RecalculateProjection();
    }

    /** `set_orthographic(size, near, far)`: switch to orthographic with the
        given size and clip planes. */
    method SetOrthographic(size: real, nearClip: real, farClip: real)
      modifies this`projectionType, this`orthographicSize, this`orthographicNear, this`orthographicFar,
               this`projection
      ensures projectionType == ProjectionOrthographic
      ensures orthographicSize == size && orthographicNear == nearClip && orthographicFar == farClip
      ensures Valid()
    {
      projectionType := ProjectionOrthographic;
      orthographicSize := size;
      orthographicNear := nearClip;
      orthographicFar := farClip;
      RecalculateProjection();
    }

    /** `set_perspective(fov, near, far)` as written: it sets the type to
        ORTHOGRAPHIC and stores the angle in `_perspective_fov`, so the
        projection stays orthographic and the vertical field of view is
        unchanged; only the perspective clip planes change. */
    method SetPerspective(verticalFov: real, nearClip: real, farClip: real)
      modifies this`projectionType, this`perspectiveFov, this`perspectiveNear, this`perspectiveFar,
               this`projection
      ensures projectionType == ProjectionOrthographic
      ensures perspectiveFov == Some(verticalFov)
      ensures perspectiveVerticalFov == old(perspectiveVerticalFov)
      ensures perspectiveNear == nearClip && perspectiveFar == farClip
      ensures Valid()
      ensures projection == Ortho2D(OrthographicBounds(orthographicSize, aspectRatio).left,
                                    OrthographicBounds(orthographicSize, aspectRatio).right,
                                    OrthographicBounds(orthographicSize, aspectRatio).bottom,
                                    OrthographicBounds(orthographicSize, aspectRatio).top)
    {
      projectionType := ProjectionOrthographic;
      perspectiveFov := Some(verticalFov);
      perspectiveNear := nearClip;
      perspectiveFar := farClip;
      RecalculateProjection();
    }

    /** `set_perspective` as it is evidently meant: switch to a perspective
        projection with the given field of view and clip planes. */
    method SetPerspectiveCorrected(verticalFov: real, nearClip: real, farClip: real)
      modifies this`projectionType, this`perspectiveVerticalFov, this`perspectiveNear, this`perspectiveFar,
               this`projection
      ensures projectionType == ProjectionPerspective
      ensures perspectiveVerticalFov == verticalFov
      ensures perspectiveNear == nearClip && perspectiveFar == farClip
      ensures Valid()
      ensures projection == Perspective(verticalFov, aspectRatio, nearClip, farClip)
    {
      projectionType := ProjectionPerspective;
      perspectiveVerticalFov := verticalFov;
      perspectiveNear := nearClip;
      perspectiveFar := farClip;
      RecalculateProjection();
    }

    /** `set_orthographic_size`. */
    method SetOrthographicSize(size: real)
      modifies this`orthographicSize, this`projection
      ensures orthographicSize == size && Valid()
    {
      orthographicSize := size;
      RecalculateProjection();
    }

    /** `set_viewport_size(width, height)`: the aspect becomes
        `width / height`; a zero height raises before anything changes. */
    method SetViewportSize(width: int, height: int) returns (r: Outcome)
      modifies this`aspectRatio, this`projection
      ensures height == 0 ==>
                r == Raised(ZeroDivisionError) && aspectRatio == old(aspectRatio) && projection == old(projection)
      ensures height != 0 ==> r == Done && aspectRatio == (width as real) / (height as real) && Valid()
    {
      if height == 0 {
        return Raised(ZeroDivisionError);
      }
      aspectRatio := (width as real) / (height as real);
      RecalculateProjection();
      r := Done;
    }
  }

  /** Asking a new camera for a perspective of 60 degrees leaves it
      orthographic, with its projection unchanged. */
  method PerspectiveRequestStaysOrthographic() returns (kind: ProjectionType, fovKept: bool, sameProjection: bool)
    ensures kind == ProjectionOrthographic && fovKept && sameProjection
  {
    var camera := new SceneCamera();
    var before := camera.projection;
    camera.SetPerspective(Radians(60.0), 0.1, 100.0);
    kind := camera.projectionType;
    fovKept := camera.perspectiveVerticalFov == Radians(45.0);
    sameProjection := camera.projection == before;
  }

  /** With the corrected setter, the same request gives a perspective
      projection of 60 degrees. */
  method PerspectiveRequestCorrected() returns (kind: ProjectionType, projection: Mat)
    ensures kind == ProjectionPerspective
    ensures projection == Perspective(Radians(60.0), 0.0, 0.1, 100.0)
  {
    var camera := new SceneCamera();
    camera.SetPerspectiveCorrected(Radians(60.0), 0.1, 100.0);
    kind := camera.projectionType;
    projection := camera.projection;
  }
}
