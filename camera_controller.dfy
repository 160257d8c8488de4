/** The zoom, aspect and bounds logic of `OrthographicCameraController`.
    The controller keeps bounds of half-width `aspect * zoom` and
    half-height `zoom` around the origin and hands them to its camera as
    the projection. */
module CameraControllers {
  import opened Wrappers
  import opened Matrices
  import opened Events
  import OC = OrthographicCameras

  /** The zoom after a scroll of `yOffset`: a quarter unit per step, never
      below 0.25. */
  function ScrolledZoom(zoom: real, yOffset: real): (z: real)
    ensures z >= 0.25
    ensures z >= zoom - yOffset * 0.25
    ensures z == zoom - yOffset * 0.25 || z == 0.25
  {
    var lowered := zoom - yOffset * 0.25;
    if 0.25 > lowered then 0.25 else lowered
  }

  /** `OrthographicCameraBounds`. */
  class OrthographicCameraBounds {
    var left: real
    var right: real
    var bottom: real
    var top: real

    constructor (left: real, right: real, bottom: real, top: real)
      ensures this.left == left && this.right == right && this.bottom == bottom && this.top == top
    {
      this.left := left;
      this.right := right;
      this.bottom := bottom;
      this.top := top;
    }

    function Width(): real
      reads this
    {
      right - left
    }

    function Height(): real
      reads this
    {
      top - bottom
    }
  }

  class OrthographicCameraController {
    var aspectRatio: real
    var zoomLevel: real
    const bounds: OrthographicCameraBounds
    const camera: OC.OrthographicCamera

    /** The bounds follow the aspect and the zoom, and the camera projects
        exactly those bounds. */
    predicate Synced()
      reads this, bounds, camera
    {
      && bounds.left == -aspectRatio * zoomLevel && bounds.right == aspectRatio * zoomLevel
      && bounds.bottom == -zoomLevel && bounds.top == zoomLevel
      && camera.Valid()
      && camera.projectionMatrix == Ortho(bounds.left, bounds.right, bounds.bottom, bounds.top, -1.0, 1.0)
    }

    /** A zoom of 1 with bounds (-aspect, aspect, -1, 1) and a camera over
        them. */
    constructor (aspectRatio: real)
      ensures this.aspectRatio == aspectRatio && zoomLevel == 1.0
      ensures bounds.left == -aspectRatio && bounds.right == aspectRatio
      ensures bounds.bottom == -1.0 && bounds.top == 1.0
      ensures Synced()
    {
      this.aspectRatio := aspectRatio;
      zoomLevel := 1.0;
      bounds := new OrthographicCameraBounds(-aspectRatio * 1.0, aspectRatio * 1.0, -1.0, 1.0);
      camera := new OC.OrthographicCamera(-aspectRatio * 1.0, aspectRatio * 1.0, -1.0, 1.0);
    }

    /** `set_camera_projection_matrix`: recompute the bounds from the aspect
        and the zoom and project them; the camera's view is kept. */
    method SetCameraProjectionMatrix()
      modifies bounds, camera
      ensures Synced()
      ensures camera.viewMatrix == old(camera.viewMatrix)
      ensures camera.position == old(camera.position) && camera.rotation == old(camera.rotation)
    {
      bounds.left := -aspectRatio * zoomLevel;
      bounds.right := aspectRatio * zoomLevel;
      bounds.bottom := -zoomLevel;
      bounds.top := zoomLevel;
      camera.SetProjectionMatrix(bounds.left, bounds.right, bounds.bottom, bounds.top);
    }

    /** The `zoom_level` setter: store, then recompute the bounds. */
    method SetZoomLevel(value: real)
      modifies this`zoomLevel, bounds, camera
      ensures zoomLevel == value && Synced()
      ensures camera.viewMatrix == old(camera.viewMatrix)
      ensures camera.position == old(camera.position) && camera.rotation == old(camera.rotation)
    {
      zoomLevel := value;
      SetCameraProjectionMatrix();
    }

    /** `on_resize(width, height)`: the aspect becomes `width / height` and
        the bounds follow; a zero height raises before anything changes. */
    method OnResize(width: real, height: real) returns (r: Outcome)
      modifies this`aspectRatio, bounds, camera
      ensures height == 0.0 ==>
                r == Raised(ZeroDivisionError) && aspectRatio == old(aspectRatio)
                && unchanged(bounds) && unchanged(camera)
      ensures height != 0.0 ==> r == Done && aspectRatio == width / height && Synced()
      ensures camera.position == old(camera.position) && camera.rotation == old(camera.rotation)
    {
      if height == 0.0 {
        return Raised(ZeroDivisionError);
      }
      aspectRatio := width / height;
      SetCameraProjectionMatrix();
      r := Done;
    }

    /** `on_mouse_scrolled`: lower the zoom by a quarter per step, clamp it
        at 0.25 (each assignment goes through the setter), recompute; the
        event is left unhandled. */
    method OnMouseScrolled(yOffset: real) returns (handled: bool)
      modifies this`zoomLevel, bounds, camera
      ensures !handled
      ensures zoomLevel == ScrolledZoom(old(zoomLevel), yOffset) && zoomLevel >= 0.25
      ensures Synced()
      ensures camera.position == old(camera.position) && camera.rotation == old(camera.rotation)
    {
      SetZoomLevel(zoomLevel - yOffset * 0.25);
      SetZoomLevel(if 0.25 > zoomLevel then 0.25 else zoomLevel);
      SetCameraProjectionMatrix();
      return false;
    }

    /** `on_window_resized`: a zero height is ignored; otherwise the window
        size is passed on to `on_resize` (so a zero width gives aspect 0).
        The event is left unhandled. */
    method OnWindowResized(width: int, height: int) returns (handled: bool)
      modifies this`aspectRatio, bounds, camera
      ensures !handled
      ensures height == 0 ==> aspectRatio == old(aspectRatio) && unchanged(bounds) && unchanged(camera)
      ensures height != 0 ==> aspectRatio == (width as real) / (height as real) && Synced()
      ensures camera.position == old(camera.position) && camera.rotation == old(camera.rotation)
    {
      if height == 0 {
        return false;
      }
      var _ := OnResize(width as real, height as real);
      return false;
    }

    /** `on_event`: scroll events go to the zoom handler and resize events
        to the resize handler, each storing its answer (false) in
        `handled`; other events are left alone. */
    method OnEvent(event: Event)
      modifies this`zoomLevel, this`aspectRatio, bounds, camera, event`handled
      ensures event.data.MouseScrolledEvent? ==>
                !event.handled && zoomLevel == ScrolledZoom(old(zoomLevel), event.data.yOffset)
                && aspectRatio == old(aspectRatio) && Synced()
      ensures camera.position == old(camera.position) && camera.rotation == old(camera.rotation)
      ensures event.data.WindowResizeEvent? ==> !event.handled && zoomLevel == old(zoomLevel)
      ensures event.data.WindowResizeEvent? && event.data.height == 0 ==>
                aspectRatio == old(aspectRatio) && unchanged(bounds) && unchanged(camera)
      ensures event.data.WindowResizeEvent? && event.data.height != 0 ==>
                aspectRatio == (event.data.width as real) / (event.data.height as real) && Synced()
      ensures !event.data.MouseScrolledEvent? && !event.data.WindowResizeEvent? ==>
                event.handled == old(event.handled) && zoomLevel == old(zoomLevel)
                && aspectRatio == old(aspectRatio) && unchanged(bounds) && unchanged(camera)
    {
      if event.GetEventType() == MouseScrolled {
        event.handled := OnMouseScrolled(event.data.yOffset);
      }
      if event.GetEventType() == WindowResize {
        event.handled := OnWindowResized(event.data.width, event.data.height);
      }
    }
  }

  /** Whenever the controller is in step, its bounds are `2 * aspect * zoom`
      wide and `2 * zoom` high, centred on the origin. */
  lemma SyncedBoundsSize(c: OrthographicCameraController)
    requires c.Synced()
    ensures c.bounds.Width() == 2.0 * c.aspectRatio * c.zoomLevel
    ensures c.bounds.Height() == 2.0 * c.zoomLevel
    ensures c.bounds.left == -c.bounds.right && c.bounds.bottom == -c.bounds.top
  {
  }
}
