/**
 * The view engine's camera record and its transitions: eased pan towards a target, a clamped
 * wheel zoom, and the world/screen transforms.
 */
module Cameras {
  import opened Common

  datatype CameraState = CameraState(x: real, y: real, targetX: real, targetY: real, userZoomFactor: real)

  const INITIAL_CAMERA: CameraState := CameraState(0.0, 0.0, 0.0, 0.0, 1.0)

  const SMOOTH: real := 8.0
  const BASE_WORLD_SIZE: real := 5000.0
  const MIN_USER_ZOOM: real := 0.5
  const MAX_USER_ZOOM: real := 2.5

  /** Screen pixels per world unit: `levelScale * userZoomFactor * (viewportWidth / 5000)`. */
  function PixelRatio(c: CameraState, levelScale: real, viewportWidth: real): (r: real)
    ensures levelScale > 0.0 && c.userZoomFactor > 0.0 && viewportWidth > 0.0 ==> r > 0.0
  {
    MulPositive(levelScale, c.userZoomFactor, viewportWidth / BASE_WORLD_SIZE);
    levelScale * c.userZoomFactor * (viewportWidth / BASE_WORLD_SIZE)
  }

  lemma MulPositive(a: real, b: real, c: real)
    ensures a > 0.0 && b > 0.0 && c > 0.0 ==> a * b * c > 0.0
  {
    if a > 0.0 && b > 0.0 {
      assert a * b > 0.0;
    }
  }

  /** `step(dt)`: the live position moves a fraction `min(1, dt * 8)` of the way to the target. */
  function Step(c: CameraState, dt: real): (r: CameraState)
    ensures r.targetX == c.targetX && r.targetY == c.targetY && r.userZoomFactor == c.userZoomFactor
    ensures dt * SMOOTH >= 1.0 ==> r.x == c.targetX && r.y == c.targetY
    ensures dt == 0.0 ==> r == c
  {
    var f := Min(1.0, dt * SMOOTH);
    c.(x := c.x + (c.targetX - c.x) * f, y := c.y + (c.targetY - c.y) * f)
  }

  /** With dt >= 0 each coordinate lands between where it was and its target: no overshoot. */
  lemma StepNoOvershoot(c: CameraState, dt: real)
    requires dt >= 0.0
    ensures Min(c.x, c.targetX) <= Step(c, dt).x <= Max(c.x, c.targetX)
    ensures Min(c.y, c.targetY) <= Step(c, dt).y <= Max(c.y, c.targetY)
  {
    var f := Min(1.0, dt * SMOOTH);
    LerpBetween(c.x, c.targetX, f);
    LerpBetween(c.y, c.targetY, f);
    assert Step(c, dt).x == Lerp(c.x, c.targetX, f);
    assert Step(c, dt).y == Lerp(c.y, c.targetY, f);
  }

  /** `center()`: the target returns to the origin; the live position follows by stepping. */
  function Center(c: CameraState): (r: CameraState)
    ensures r.targetX == 0.0 && r.targetY == 0.0
    ensures r.x == c.x && r.y == c.y && r.userZoomFactor == c.userZoomFactor
  {
    c.(targetX := 0.0, targetY := 0.0)
  }

  /** `pan(dx, dy, levelScale, viewportWidth)`: the target moves against the drag, in world units. */
  function Pan(c: CameraState, dx: real, dy: real, levelScale: real, viewportWidth: real): (r: CameraState)
    requires PixelRatio(c, levelScale, viewportWidth) != 0.0
    ensures r.x == c.x && r.y == c.y && r.userZoomFactor == c.userZoomFactor
    ensures (c.targetX - r.targetX) * PixelRatio(c, levelScale, viewportWidth) == dx
    ensures (c.targetY - r.targetY) * PixelRatio(c, levelScale, viewportWidth) == dy
  {
    var ratio := PixelRatio(c, levelScale, viewportWidth);
    c.(targetX := c.targetX - dx / ratio, targetY := c.targetY - dy / ratio)
  }

  /** Dragging by (dx, dy) and then by (-dx, -dy) puts the target back. */
  lemma PanUndone(c: CameraState, dx: real, dy: real, levelScale: real, viewportWidth: real)
    requires PixelRatio(c, levelScale, viewportWidth) != 0.0
    ensures Pan(Pan(c, dx, dy, levelScale, viewportWidth), -dx, -dy, levelScale, viewportWidth) == c
  {
    var c1 := Pan(c, dx, dy, levelScale, viewportWidth);
    assert PixelRatio(c1, levelScale, viewportWidth) == PixelRatio(c, levelScale, viewportWidth);
  }

  /** The zoom multiplier a wheel event applies: out for a positive deltaY, in otherwise. */
  function WheelFactor(deltaY: real): real {
    if deltaY > 0.0 then 0.9 else 1.1
  }

  /** `applyWheel(deltaY)`: the zoom factor scaled and clamped into [0.5, 2.5]. */
  function ApplyWheel(c: CameraState, deltaY: real): (r: CameraState)
    ensures MIN_USER_ZOOM <= r.userZoomFactor <= MAX_USER_ZOOM
    ensures r.(userZoomFactor := c.userZoomFactor) == c
    ensures MIN_USER_ZOOM <= c.userZoomFactor * WheelFactor(deltaY) <= MAX_USER_ZOOM ==>
              r.userZoomFactor == c.userZoomFactor * WheelFactor(deltaY)
  {
    var uz := c.userZoomFactor * WheelFactor(deltaY);
    var uz := if uz < MIN_USER_ZOOM then MIN_USER_ZOOM else uz;
    var uz := if uz > MAX_USER_ZOOM then MAX_USER_ZOOM else uz;
    c.(userZoomFactor := uz)
  }

  /** Scrolling down never zooms in and scrolling up never zooms out, within the band. */
  lemma WheelDirection(c: CameraState, deltaY: real)
    requires MIN_USER_ZOOM <= c.userZoomFactor <= MAX_USER_ZOOM
    ensures deltaY > 0.0 ==> ApplyWheel(c, deltaY).userZoomFactor <= c.userZoomFactor
    ensures deltaY <= 0.0 ==> ApplyWheel(c, deltaY).userZoomFactor >= c.userZoomFactor
  {
  }

  /** `worldToScreen(wx, wy, ...)`. */
  function WorldToScreen(c: CameraState, wx: real, wy: real, levelScale: real,
                         viewportWidth: real, viewportHeight: real): (r: (real, real))
    ensures wx == c.x ==> r.0 == viewportWidth / 2.0
    ensures wy == c.y ==> r.1 == viewportHeight / 2.0
  {
    var ratio := PixelRatio(c, levelScale, viewportWidth);
    ((wx - c.x) * ratio + viewportWidth / 2.0, (wy - c.y) * ratio + viewportHeight / 2.0)
  }

  /** `screenToWorld(sx, sy, ...)`. */
  function ScreenToWorld(c: CameraState, sx: real, sy: real, levelScale: real,
                         viewportWidth: real, viewportHeight: real): (r: (real, real))
    requires PixelRatio(c, levelScale, viewportWidth) != 0.0
    ensures sx == viewportWidth / 2.0 ==> r.0 == c.x
    ensures sy == viewportHeight / 2.0 ==> r.1 == c.y
  {
    var ratio := PixelRatio(c, levelScale, viewportWidth);
    ((sx - viewportWidth / 2.0) / ratio + c.x, (sy - viewportHeight / 2.0) / ratio + c.y)
  }

  /** The camera centre is drawn at the centre of the viewport. */
  lemma CameraAtViewportCentre(c: CameraState, levelScale: real, viewportWidth: real, viewportHeight: real)
    ensures WorldToScreen(c, c.x, c.y, levelScale, viewportWidth, viewportHeight).0 == viewportWidth / 2.0
    ensures WorldToScreen(c, c.x, c.y, levelScale, viewportWidth, viewportHeight).1 == viewportHeight / 2.0
  {
  }

  /** Mapping a world point to the screen and back gives the point again. */
  lemma WorldScreenWorld(c: CameraState, wx: real, wy: real, levelScale: real,
                         viewportWidth: real, viewportHeight: real)
    requires PixelRatio(c, levelScale, viewportWidth) != 0.0
    ensures var s := WorldToScreen(c, wx, wy, levelScale, viewportWidth, viewportHeight);
            ScreenToWorld(c, s.0, s.1, levelScale, viewportWidth, viewportHeight) == (wx, wy)
  {
    var ratio := PixelRatio(c, levelScale, viewportWidth);
    var s := WorldToScreen(c, wx, wy, levelScale, viewportWidth, viewportHeight);
    assert s.0 - viewportWidth / 2.0 == (wx - c.x) * ratio;
    assert s.1 - viewportHeight / 2.0 == (wy - c.y) * ratio;
    assert (wx - c.x) * ratio / ratio == wx - c.x;
    assert (wy - c.y) * ratio / ratio == wy - c.y;
  }

  /** Mapping a screen point to the world and back gives the point again. */
  lemma ScreenWorldScreen(c: CameraState, sx: real, sy: real, levelScale: real,
                          viewportWidth: real, viewportHeight: real)
    requires PixelRatio(c, levelScale, viewportWidth) != 0.0
    ensures var w := ScreenToWorld(c, sx, sy, levelScale, viewportWidth, viewportHeight);
            WorldToScreen(c, w.0, w.1, levelScale, viewportWidth, viewportHeight).0 == sx
    ensures var w := ScreenToWorld(c, sx, sy, levelScale, viewportWidth, viewportHeight);
            WorldToScreen(c, w.0, w.1, levelScale, viewportWidth, viewportHeight).1 == sy
  {
    var ratio := PixelRatio(c, levelScale, viewportWidth);
    var w := ScreenToWorld(c, sx, sy, levelScale, viewportWidth, viewportHeight);
    ToScreen(c, w.0, w.1, levelScale, viewportWidth, viewportHeight);
    assert (w.0 - c.x) * ratio == sx - viewportWidth / 2.0;
    assert (w.1 - c.y) * ratio == sy - viewportHeight / 2.0;
  }

  /** The two coordinates `worldToScreen` computes, one at a time. */
  lemma ToScreen(c: CameraState, wx: real, wy: real, levelScale: real, viewportWidth: real, viewportHeight: real)
    ensures WorldToScreen(c, wx, wy, levelScale, viewportWidth, viewportHeight).0
            == (wx - c.x) * PixelRatio(c, levelScale, viewportWidth) + viewportWidth / 2.0
    ensures WorldToScreen(c, wx, wy, levelScale, viewportWidth, viewportHeight).1
            == (wy - c.y) * PixelRatio(c, levelScale, viewportWidth) + viewportHeight / 2.0
  {
  }
}
