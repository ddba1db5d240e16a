/** Interactive orbit camera and the mouse handler that drives it (core/camera.py). */
module Camera {
  import opened Common

  /** Defaults from the configuration: viewing angle, rotation and zoom, and the zoom limits. */
  const DefaultRotX: real := 45.0
  const DefaultRotY: real := 25.0
  const DefaultZoom: real := 3.8
  const DefaultMinZoom: real := 1.5
  const DefaultMaxZoom: real := 6.0

  /** Step of one scroll-wheel notch (the default `amount`). */
  const ScrollStep: real := 0.1
  /** Degrees of rotation per pixel of mouse movement (the default `sensitivity`). */
  const MouseSensitivity: real := 0.3

  /** `max(lo, min(hi, v))`: for `lo <= hi` the nearest point of [lo, hi]; otherwise `lo`. */
  function Clamp(lo: real, hi: real, v: real): (r: real)
    ensures lo <= hi ==> lo <= r <= hi
    ensures lo <= v <= hi ==> r == v
    ensures v <= lo ==> r == lo
    ensures lo <= hi <= v ==> r == hi
    ensures hi < lo ==> r == lo
  {
    MaxReal(lo, MinReal(hi, v))
  }

  /** `zoom_in`: move closer by `amount`, but never below `lo`. */
  function ZoomedIn(zoom: real, lo: real, amount: real): (r: real)
    ensures r >= lo
    ensures amount >= 0.0 && lo <= zoom ==> r <= zoom
    ensures zoom - amount >= lo ==> r == zoom - amount
    ensures zoom - amount < lo ==> r == lo
  {
    MaxReal(lo, zoom - amount)
  }

  /** `zoom_out`: move away by `amount`, but never above `hi`. */
  function ZoomedOut(zoom: real, hi: real, amount: real): (r: real)
    ensures r <= hi
    ensures amount >= 0.0 && zoom <= hi ==> r >= zoom
    ensures zoom + amount <= hi ==> r == zoom + amount
    ensures zoom + amount > hi ==> r == hi
  {
    MinReal(hi, zoom + amount)
  }

  /** The zoom after one scroll event: 4 zooms in, 5 zooms out, anything else leaves it. */
  function ScrollZoom(zoom: real, lo: real, hi: real, direction: int): real
  {
    if direction == 4 then ZoomedIn(zoom, lo, ScrollStep)
    else if direction == 5 then ZoomedOut(zoom, hi, ScrollStep)
    else zoom
  }

  /** The zoom after a sequence of scroll events, first event first. */
  function ScrollAll(zoom: real, lo: real, hi: real, directions: seq<int>): real
    decreases |directions|
  {
    if directions == [] then zoom
    else ScrollAll(ScrollZoom(zoom, lo, hi, directions[0]), lo, hi, directions[1..])
  }

  /** Scrolling can never leave the zoom range [lo, hi] once the zoom is inside it. */
  lemma {:induction false} ScrollsKeepZoomInRange(zoom: real, lo: real, hi: real, directions: seq<int>)
    requires lo <= zoom <= hi
    ensures lo <= ScrollAll(zoom, lo, hi, directions) <= hi
    decreases |directions|
  {
    if directions != [] {
      ScrollsKeepZoomInRange(ScrollZoom(zoom, lo, hi, directions[0]), lo, hi, directions[1..]);
    }
  }

  /** `Camera`: spherical rotation angles and zoom, with fixed limits. */
  class Camera {
    var rotX: real
    var rotY: real
    var zoom: real
    const minZoom: real
    const maxZoom: real
    const minRotX: real
    const maxRotX: real

    /** The dataclass with every field at its default. */
    constructor ()
      ensures rotX == DefaultRotX && rotY == DefaultRotY && zoom == DefaultZoom
      ensures minZoom == DefaultMinZoom && maxZoom == DefaultMaxZoom
      ensures minRotX == 10.0 && maxRotX == 80.0
      ensures ZoomInRange()
    {
      rotX := DefaultRotX;
      rotY := DefaultRotY;
      zoom := DefaultZoom;
      minZoom := DefaultMinZoom;
      maxZoom := DefaultMaxZoom;
      minRotX := 10.0;
      maxRotX := 80.0;
    }

    predicate ZoomInRange()
      reads this
    {
      minZoom <= zoom <= maxZoom
    }

    /** `rotate`: the horizontal angle turns freely; the vertical angle is clamped to [min_rot_x, max_rot_x]. */
    method Rotate(dx: real, dy: real, sensitivity: real)
      modifies this`rotX, this`rotY
      ensures rotY == old(rotY) + dx * sensitivity
      ensures rotX == Clamp(minRotX, maxRotX, old(rotX) + dy * sensitivity)
      ensures minRotX <= maxRotX ==> minRotX <= rotX <= maxRotX
    {
      rotY := rotY + dx * sensitivity;
      rotX := rotX + dy * sensitivity;
      rotX := MaxReal(minRotX, MinReal(maxRotX, rotX));
    }

    /** `zoom_in`. */
    method ZoomIn(amount: real)
      modifies this`zoom
      ensures zoom == ZoomedIn(old(zoom), minZoom, amount)
      ensures amount >= 0.0 && old(ZoomInRange()) ==> ZoomInRange()
    {
      zoom := MaxReal(minZoom, zoom - amount);
    }

    /** `zoom_out`. */
    method ZoomOut(amount: real)
      modifies this`zoom
      ensures zoom == ZoomedOut(old(zoom), maxZoom, amount)
      ensures amount >= 0.0 && old(ZoomInRange()) ==> ZoomInRange()
    {
      zoom := MinReal(maxZoom, zoom + amount);
    }

    /** `reset`: back to the default angles and zoom; the limits stay as they are. */
    method Reset()
      modifies this`rotX, this`rotY, this`zoom
      ensures rotX == DefaultRotX && rotY == DefaultRotY && zoom == DefaultZoom
    {
      rotX := DefaultRotX;
      rotY := DefaultRotY;
      zoom := DefaultZoom;
    }
  }

  /** `MouseHandler`: drag state and the last pointer position, in pixels. */
  class MouseHandler {
    const camera: Camera
    var dragging: bool
    var lastPos: (int, int)

    constructor (camera: Camera)
      ensures this.camera == camera && !dragging && lastPos == (0, 0)
    {
      this.camera := camera;
      dragging := false;
      lastPos := (0, 0);
    }

    method StartDrag(pos: (int, int))
      modifies this`dragging, this`lastPos
      ensures dragging && lastPos == pos
    {
      dragging := true;
      lastPos := pos;
    }

    method StopDrag()
      modifies this`dragging
      ensures !dragging
    {
      dragging := false;
    }

    /**
     * `update`: nothing happens unless a drag is in progress; otherwise the
     * camera rotates by the pointer movement and the new position is kept.
     */
    method Update(pos: (int, int))
      modifies this`lastPos, camera`rotX, camera`rotY
      ensures !old(dragging) ==> lastPos == old(lastPos) && camera.rotX == old(camera.rotX) && camera.rotY == old(camera.rotY)
      ensures old(dragging) ==>
        lastPos == pos &&
        camera.rotY == old(camera.rotY) + (pos.0 - old(lastPos).0) as real * MouseSensitivity &&
        camera.rotX == Clamp(camera.minRotX, camera.maxRotX, old(camera.rotX) + (pos.1 - old(lastPos).1) as real * MouseSensitivity)
    {
      if !dragging {
        return;
      }
      var dx := pos.0 - lastPos.0;
      var dy := pos.1 - lastPos.1;
      camera.Rotate(dx as real, dy as real, MouseSensitivity);
      lastPos := pos;
    }

    /** `scroll`: wheel up (4) zooms in, wheel down (5) zooms out, any other code is ignored. */
    method Scroll(direction: int)
      modifies camera`zoom
      ensures camera.zoom == ScrollZoom(old(camera.zoom), camera.minZoom, camera.maxZoom, direction)
    {
      if direction == 4 {
        camera.ZoomIn(ScrollStep);
      } else if direction == 5 {
        camera.ZoomOut(ScrollStep);
      }
    }
  }
}
