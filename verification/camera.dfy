/**
 * The orbit camera's gesture state machine: touch, mouse and wheel events
 * move target orbit angles and a target distance, clamped to the allowed
 * ranges, and each frame the current values approach the targets by
 * exponential smoothing.
 */
module Camera {
  import opened Numeric
  import opened Geometry

  /** `Math.PI / 3` as the double the browser computes. */
  const PiOver3: real := 1.0471975511965976

  const MinDistance: real := 3.0
  const MaxDistance: real := 20.0
  const InitialDistance: real := 8.0

  /** Radians of orbit per pixel of drag, and distance per pixel of pinch or wheel. */
  const RotateSpeed: real := 0.005
  const PinchSpeed: real := 0.02
  const WheelSpeed: real := 0.01

  /** The hook's options and the platform probe. */
  datatype Config = Config(smoothing: real, enableTouch: bool, enableZoom: bool, isMobile: bool)

  /** The hook's refs. */
  datatype CameraState = CameraState(
    isInteracting: bool,
    lastPointer: Point2,
    theta: real,
    phi: real,
    distance: real,
    targetTheta: real,
    targetPhi: real,
    targetDistance: real,
    lastPinchDistance: real,
    isPinching: bool)

  function Initial(): (s: CameraState)
    ensures Valid(s)
    ensures s.targetPhi == 0.0 && s.targetTheta == 0.0 && s.targetDistance == InitialDistance
    ensures !s.isInteracting && !s.isPinching
  {
    CameraState(false, Point2(0.0, 0.0), 0.0, 0.0, InitialDistance, 0.0, 0.0, InitialDistance, 0.0, false)
  }

  /** Both the target and the current elevation and distance lie in their allowed ranges. */
  predicate Valid(s: CameraState) {
    && -PiOver3 <= s.targetPhi <= PiOver3
    && MinDistance <= s.targetDistance <= MaxDistance
    && -PiOver3 <= s.phi <= PiOver3
    && MinDistance <= s.distance <= MaxDistance
  }

  /** The event that reached a handler: its touch list, or the mouse position. */
  datatype PointerEvent = TouchEvent(touches: seq<Point2>) | MouseEvent(client: Point2)

  /**
   * `getPointerPosition`: the first touch, else the mouse position; a touch
   * event with an empty list has no `clientX` and gives the origin.
   */
  function PointerPosition(e: PointerEvent): (r: Point2)
    ensures e.TouchEvent? && |e.touches| > 0 ==> r == e.touches[0]
    ensures e.MouseEvent? ==> r == e.client
    ensures e.TouchEvent? && |e.touches| == 0 ==> r == Point2(0.0, 0.0)
  {
    match e
    case TouchEvent(touches) => if |touches| > 0 then touches[0] else Point2(0.0, 0.0)
    case MouseEvent(client) => client
  }

  /**
   * `getTouchDistance`: the distance between the first two touches, `0` with
   * fewer than two. `sqrt` stands for `Math.sqrt`; nothing is assumed of it.
   */
  function TouchDistance(touches: seq<Point2>, sqrt: real -> real): (r: real)
    ensures |touches| < 2 ==> r == 0.0
  {
    if |touches| < 2 then 0.0
    else
      var dx := touches[0].x - touches[1].x;
      var dy := touches[0].y - touches[1].y;
      sqrt(dx * dx + dy * dy)
  }

  /** The elevation after a vertical drag of `deltaY` pixels, kept within ±π/3. */
  function DragPhi(phi: real, deltaY: real): (r: real)
    ensures -PiOver3 <= r <= PiOver3
    ensures -PiOver3 <= phi - deltaY * RotateSpeed <= PiOver3 ==> r == phi - deltaY * RotateSpeed
  {
    Clamp(-PiOver3, PiOver3, phi - deltaY * RotateSpeed)
  }

  /** A target distance moved by `change`, kept within [3, 20]. */
  function Zoom(distance: real, change: real): (r: real)
    ensures MinDistance <= r <= MaxDistance
    ensures MinDistance <= distance + change <= MaxDistance ==> r == distance + change
  {
    Clamp(MinDistance, MaxDistance, distance + change)
  }

  /** The shared rotate step of a one-finger drag and a mouse drag. */
  function Rotate(s: CameraState, pointer: Point2): (r: CameraState)
    ensures r.targetTheta == s.targetTheta - (pointer.x - s.lastPointer.x) * RotateSpeed
    ensures r.targetPhi == DragPhi(s.targetPhi, pointer.y - s.lastPointer.y)
    ensures -PiOver3 <= r.targetPhi <= PiOver3
    ensures r.lastPointer == pointer
    ensures r.(targetTheta := s.targetTheta, targetPhi := s.targetPhi, lastPointer := s.lastPointer) == s
  {
    var deltaX := pointer.x - s.lastPointer.x;
    var deltaY := pointer.y - s.lastPointer.y;
    s.(targetTheta := s.targetTheta - deltaX * RotateSpeed,
       targetPhi := DragPhi(s.targetPhi, deltaY),
       lastPointer := pointer)
  }

  /** `handleTouchStart`: one finger starts a rotation, two start a pinch, more are ignored. */
  function TouchStart(cfg: Config, s: CameraState, touches: seq<Point2>, sqrt: real -> real): (r: CameraState)
    ensures !cfg.enableTouch ==> r == s
    ensures cfg.enableTouch && |touches| == 1 ==>
      r == s.(isInteracting := true, lastPointer := touches[0])
    ensures cfg.enableTouch && |touches| == 2 ==>
      r == s.(isPinching := true, lastPinchDistance := TouchDistance(touches, sqrt))
    ensures |touches| != 1 && |touches| != 2 ==> r == s
  {
    if !cfg.enableTouch then s
    else if |touches| == 1 then s.(isInteracting := true, lastPointer := PointerPosition(TouchEvent(touches)))
    else if |touches| == 2 then s.(isPinching := true, lastPinchDistance := TouchDistance(touches, sqrt))
    else s
  }

  /**
   * `handleTouchMove`: one finger rotates while a rotation is under way and
   * no pinch is; two fingers zoom while pinching.
   */
  function TouchMove(cfg: Config, s: CameraState, touches: seq<Point2>, sqrt: real -> real): (r: CameraState)
    ensures !cfg.enableTouch ==> r == s
    ensures cfg.enableTouch && |touches| == 1 && s.isInteracting && !s.isPinching ==>
      r == Rotate(s, touches[0])
    ensures cfg.enableTouch && |touches| == 2 && s.isPinching ==>
      var d := TouchDistance(touches, sqrt);
      r == s.(targetDistance := Zoom(s.targetDistance, -(d - s.lastPinchDistance) * PinchSpeed),
              lastPinchDistance := d)
    ensures !(|touches| == 1 && s.isInteracting && !s.isPinching) && !(|touches| == 2 && s.isPinching) ==> r == s
  {
    if !cfg.enableTouch then s
    else if |touches| == 1 && s.isInteracting && !s.isPinching then
      Rotate(s, PointerPosition(TouchEvent(touches)))
    else if |touches| == 2 && s.isPinching then
      var distance := TouchDistance(touches, sqrt);
      var deltaDistance := distance - s.lastPinchDistance;
      s.(targetDistance := Clamp(MinDistance, MaxDistance, s.targetDistance - deltaDistance * PinchSpeed),
         lastPinchDistance := distance)
    else s
  }

  /**
   * `handleTouchEnd` (not gated by `enableTouch`): lifting the last finger
   * ends both gestures; with one finger left the pinch ends and that finger
   * becomes the new reference point, so no stale delta is applied.
   */
  function TouchEnd(s: CameraState, touches: seq<Point2>): (r: CameraState)
    ensures |touches| == 0 ==> !r.isInteracting && !r.isPinching
    ensures |touches| == 1 ==> !r.isPinching && r.lastPointer == touches[0] && r.isInteracting == s.isInteracting
    ensures |touches| >= 2 ==> r == s
    ensures r.(isInteracting := s.isInteracting, isPinching := s.isPinching, lastPointer := s.lastPointer) == s
  {
    if |touches| == 0 then s.(isInteracting := false, isPinching := false)
    else if |touches| == 1 then s.(isPinching := false, lastPointer := PointerPosition(TouchEvent(touches)))
    else s
  }

  /** The mouse handlers are switched off on mobile devices and when touch input is disabled. */
  predicate MouseEnabled(cfg: Config) {
    !cfg.isMobile && cfg.enableTouch
  }

  function MouseDown(cfg: Config, s: CameraState, client: Point2): (r: CameraState)
    ensures !MouseEnabled(cfg) ==> r == s
    ensures MouseEnabled(cfg) ==> r.isInteracting && r.lastPointer == client
    ensures r.(isInteracting := s.isInteracting, lastPointer := s.lastPointer) == s
  {
    if !MouseEnabled(cfg) then s
    else s.(isInteracting := true, lastPointer := PointerPosition(MouseEvent(client)))
  }

  function MouseMove(cfg: Config, s: CameraState, client: Point2): (r: CameraState)
    ensures !MouseEnabled(cfg) || !s.isInteracting ==> r == s
    ensures MouseEnabled(cfg) && s.isInteracting ==> r == Rotate(s, client)
  {
    if !MouseEnabled(cfg) || !s.isInteracting then s
    else Rotate(s, PointerPosition(MouseEvent(client)))
  }

  function MouseUp(s: CameraState): (r: CameraState)
    ensures !r.isInteracting
    ensures r.(isInteracting := s.isInteracting) == s
  {
    s.(isInteracting := false)
  }

  /** `handleWheel`: scrolling down (positive `deltaY`) moves the camera out. */
  function Wheel(cfg: Config, s: CameraState, deltaY: real): (r: CameraState)
    ensures !cfg.enableZoom ==> r == s
    ensures cfg.enableZoom ==> r == s.(targetDistance := Zoom(s.targetDistance, deltaY * WheelSpeed))
  {
    if !cfg.enableZoom then s
    else s.(targetDistance := Clamp(MinDistance, MaxDistance, s.targetDistance + deltaY * WheelSpeed))
  }

  datatype Event =
    | TouchStartEvent(touches: seq<Point2>)
    | TouchMoveEvent(touches: seq<Point2>)
    | TouchEndEvent(touches: seq<Point2>)
    | MouseDownEvent(client: Point2)
    | MouseMoveEvent(client: Point2)
    | MouseUpEvent
    | WheelEvent(deltaY: real)

  /** Dispatch one event to its handler. */
  function Handle(cfg: Config, s: CameraState, e: Event, sqrt: real -> real): CameraState {
    match e
    case TouchStartEvent(touches) => TouchStart(cfg, s, touches, sqrt)
    case TouchMoveEvent(touches) => TouchMove(cfg, s, touches, sqrt)
    case TouchEndEvent(touches) => TouchEnd(s, touches)
    case MouseDownEvent(client) => MouseDown(cfg, s, client)
    case MouseMoveEvent(client) => MouseMove(cfg, s, client)
    case MouseUpEvent => MouseUp(s)
    case WheelEvent(deltaY) => Wheel(cfg, s, deltaY)
  }

  /** Events only move targets and gesture trackers; the current orbit is left to the frame step. */
  lemma HandleKeepsCurrent(cfg: Config, s: CameraState, e: Event, sqrt: real -> real)
    ensures Handle(cfg, s, e, sqrt).theta == s.theta
    ensures Handle(cfg, s, e, sqrt).phi == s.phi
    ensures Handle(cfg, s, e, sqrt).distance == s.distance
  {
  }

  /** No event can move the target elevation or distance out of range. */
  lemma HandlePreservesValid(cfg: Config, s: CameraState, e: Event, sqrt: real -> real)
    requires Valid(s)
    ensures Valid(Handle(cfg, s, e, sqrt))
  {
  }

  /**
   * The per-frame smoothing step: theta, phi and distance each move
   * `smoothing * delta` of the way to their targets.
   */
  function Frame(s: CameraState, smoothing: real, delta: real): (r: CameraState)
    ensures r.(theta := s.theta, phi := s.phi, distance := s.distance) == s
    ensures 0.0 <= smoothing * delta <= 1.0 ==>
      && Between(s.theta, s.targetTheta, r.theta)
      && Between(s.phi, s.targetPhi, r.phi)
      && Between(s.distance, s.targetDistance, r.distance)
  {
    var rate := smoothing * delta;
    var r := s.(theta := Approach(s.theta, s.targetTheta, rate),
                phi := Approach(s.phi, s.targetPhi, rate),
                distance := Approach(s.distance, s.targetDistance, rate));
    assert 0.0 <= rate <= 1.0 ==>
      Between(s.theta, s.targetTheta, r.theta) && Between(s.phi, s.targetPhi, r.phi)
      && Between(s.distance, s.targetDistance, r.distance) by {
      if 0.0 <= rate <= 1.0 {
        ApproachBetween(s.theta, s.targetTheta, rate);
        ApproachBetween(s.phi, s.targetPhi, rate);
        ApproachBetween(s.distance, s.targetDistance, rate);
      }
    }
    r
  }

  /** A frame with a rate in [0, 1] keeps the current elevation and distance in range. */
  lemma FramePreservesValid(s: CameraState, smoothing: real, delta: real)
    requires Valid(s)
    requires 0.0 <= smoothing * delta <= 1.0
    ensures Valid(Frame(s, smoothing, delta))
  {
    ApproachStaysIn(-PiOver3, PiOver3, s.phi, s.targetPhi, smoothing * delta);
    ApproachStaysIn(MinDistance, MaxDistance, s.distance, s.targetDistance, smoothing * delta);
  }

  /** `resetCamera`: targets back to the start; the current orbit then glides back. */
  function Reset(s: CameraState): (r: CameraState)
    ensures r.targetPhi == 0.0 && r.targetTheta == 0.0 && r.targetDistance == InitialDistance
    ensures r.(targetTheta := s.targetTheta, targetPhi := s.targetPhi, targetDistance := s.targetDistance) == s
    ensures Valid(s) ==> Valid(r)
  {
    s.(targetTheta := 0.0, targetPhi := 0.0, targetDistance := InitialDistance)
  }

  /** What can happen to the camera between renders. */
  datatype Step = Input(e: Event) | Tick(delta: real) | ResetStep

  function Run(cfg: Config, s: CameraState, steps: seq<Step>, sqrt: real -> real): CameraState
    decreases |steps|
  {
    if |steps| == 0 then s
    else
      var s1 :=
        match steps[0]
        case Input(e) => Handle(cfg, s, e, sqrt)
        case Tick(delta) => Frame(s, cfg.smoothing, delta)
        case ResetStep => Reset(s);
      Run(cfg, s1, steps[1..], sqrt)
  }

  /** Every frame advances by a rate in [0, 1]. */
  predicate BoundedRates(cfg: Config, steps: seq<Step>) {
    forall i :: 0 <= i < |steps| && steps[i].Tick? ==> 0.0 <= cfg.smoothing * steps[i].delta <= 1.0
  }

  /**
   * From the initial camera, any sequence of gestures, resets and frames
   * whose rates lie in [0, 1] keeps the target and the current elevation
   * within ±π/3 and the target and current distance within [3, 20].
   */
  lemma {:induction false} RunPreservesValid(cfg: Config, s: CameraState, steps: seq<Step>, sqrt: real -> real)
    requires Valid(s)
    requires BoundedRates(cfg, steps)
    ensures Valid(Run(cfg, s, steps, sqrt))
    decreases |steps|
  {
    if |steps| > 0 {
      var s1 :=
        match steps[0]
        case Input(e) => Handle(cfg, s, e, sqrt)
        case Tick(delta) => Frame(s, cfg.smoothing, delta)
        case ResetStep => Reset(s);
      match steps[0] {
        case Input(e) => HandlePreservesValid(cfg, s, e, sqrt);
        case Tick(delta) => FramePreservesValid(s, cfg.smoothing, delta);
        case ResetStep =>
      }
      assert BoundedRates(cfg, steps[1..]) by {
        forall i | 0 <= i < |steps[1..]| && steps[1..][i].Tick?
          ensures 0.0 <= cfg.smoothing * steps[1..][i].delta <= 1.0
        {
          assert steps[1..][i] == steps[i + 1];
        }
      }
      RunPreservesValid(cfg, s1, steps[1..], sqrt);
    }
  }

  /**
   * The frame step does not bound `delta`: once `smoothing * delta`
   * exceeds 1 the current value passes its target instead of approaching
   * it, on the far side by the excess rate.
   */
  lemma LongFrameOvershoots(s: CameraState, smoothing: real, delta: real)
    requires smoothing * delta > 1.0
    ensures var r := Frame(s, smoothing, delta);
      && (s.phi < s.targetPhi ==> r.phi > s.targetPhi)
      && (s.phi > s.targetPhi ==> r.phi < s.targetPhi)
      && (s.distance < s.targetDistance ==> r.distance > s.targetDistance)
      && (s.distance > s.targetDistance ==> r.distance < s.targetDistance)
  {
    var rate := smoothing * delta;
    PastTarget(s.phi, s.targetPhi, rate);
    PastTarget(s.distance, s.targetDistance, rate);
  }

  /** `Approach` with a rate above 1 lands beyond the target, by `(target - current) * (rate - 1)`. */
  lemma PastTarget(current: real, target: real, rate: real)
    requires rate > 1.0
    ensures Approach(current, target, rate) - target == (target - current) * (rate - 1.0)
    ensures current < target ==> Approach(current, target, rate) > target
    ensures current > target ==> Approach(current, target, rate) < target
  {
    var g := target - current;
    assert Approach(current, target, rate) - target == g * (rate - 1.0);
    if g > 0.0 {
      assert g * (rate - 1.0) > 0.0;
    } else if g < 0.0 {
      assert g * (rate - 1.0) < 0.0;
    }
  }

  /**
   * A concrete long frame: from the initial camera with the elevation target
   * at its top limit π/3, one 0.8 s frame at the scene's smoothing of 2.5
   * (rate 2) takes the current elevation to 2π/3, outside the valid range.
   */
  lemma LongFrameLeavesRange()
    ensures var s := Initial().(targetPhi := PiOver3);
      && Valid(s)
      && Frame(s, 2.5, 0.8).phi == 2.0 * PiOver3
      && !Valid(Frame(s, 2.5, 0.8))
  {
  }

  /**
   * Hand-off from pinch to rotation leaves no residual drag: after lifting
   * to one finger at `p`, a move reported at the same point `p` leaves the
   * orbit targets where they were.
   */
  lemma NoResidualDragAfterPinch(cfg: Config, s: CameraState, p: Point2, sqrt: real -> real)
    requires Valid(s)
    ensures var s1 := TouchEnd(s, [p]);
      var s2 := TouchMove(cfg, s1, [p], sqrt);
      s2.targetTheta == s.targetTheta && s2.targetPhi == s.targetPhi && s2.targetDistance == s.targetDistance
  {
  }
}
