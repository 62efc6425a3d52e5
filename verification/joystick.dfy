/**
 * The on-screen joystick: the pointer offset from the joystick centre is
 * constrained to a 40-pixel circle, shown as the knob position, and turned
 * into a normalised analog input with direction flags past ±0.3.
 */
module Joystick {
  import opened Optional
  import opened Geometry
  import Store

  /** The knob's travel radius in pixels. */
  const MaxDistance: real := 40.0
  /** A normalised axis beyond ±0.3 sets its direction flag. */
  const FlagThreshold: real := 0.3

  /** The component's React state: dragging flag, centre and knob offset. */
  datatype State = State(isDragging: bool, center: Point2, knob: Point2)

  /** A handler's effect: the next state and the input passed to `onMove`, if any. */
  datatype Output = Output(state: State, emitted: Option<Store.MobileInput>)

  function Initial(): (s: State)
    ensures !s.isDragging && s.knob == Point2(0.0, 0.0)
  {
    State(false, Point2(0.0, 0.0), Point2(0.0, 0.0))
  }

  /**
   * The measured distance `Math.sqrt(dx*dx + dy*dy)` is supplied by the
   * caller; this is all that is known of it.
   */
  predicate IsDistance(dx: real, dy: real, dist: real) {
    dist >= 0.0 && dist * dist == dx * dx + dy * dy
  }

  /**
   * The knob offset: the pointer offset itself inside the circle, and the
   * offset scaled back onto the circle outside it.
   */
  function Constrain(dx: real, dy: real, dist: real): (r: Point2)
    requires IsDistance(dx, dy, dist)
    ensures dist <= MaxDistance ==> r == Point2(dx, dy)
    ensures r.x * r.x + r.y * r.y <= MaxDistance * MaxDistance
    ensures dist > MaxDistance ==> r.x * r.x + r.y * r.y == MaxDistance * MaxDistance
  {
    if dist > MaxDistance then
      var r := Point2(dx / dist * MaxDistance, dy / dist * MaxDistance);
      assert r.x * r.x + r.y * r.y == MaxDistance * MaxDistance by {
        OntoCircle(dx, dy, dist);
      }
      r
    else
      assert dx * dx + dy * dy <= MaxDistance * MaxDistance by {
        SquareAtMost(dist, MaxDistance);
      }
      Point2(dx, dy)
  }

  /** The analog input for a knob offset: x to the right, y up (screen y inverted), both divided by 40. */
  function Normalise(knob: Point2): (r: Point2)
    ensures r.x * MaxDistance == knob.x && r.y * MaxDistance == -knob.y
  {
    Point2(knob.x / MaxDistance, -knob.y / MaxDistance)
  }

  /** The object passed to `onMove` while dragging: both axes and four flags, no vertical flags. */
  function InputFor(n: Point2): (m: Store.MobileInput)
    ensures m.x == Some(n.x) && m.y == Some(n.y)
    ensures m.forward == Some(n.y > FlagThreshold) && m.backward == Some(n.y < -FlagThreshold)
    ensures m.left == Some(n.x < -FlagThreshold) && m.right == Some(n.x > FlagThreshold)
    ensures m.up == None && m.down == None
  {
    Store.MobileInput(Some(n.y > FlagThreshold), Some(n.y < -FlagThreshold),
                      Some(n.x < -FlagThreshold), Some(n.x > FlagThreshold),
                      None, None, Some(n.x), Some(n.y))
  }

  /**
   * `handleMove`: ignored unless dragging; otherwise the knob moves to the
   * constrained offset and the normalised input is emitted.
   */
  function HandleMove(s: State, clientX: real, clientY: real, dist: real): (r: Output)
    requires IsDistance(clientX - s.center.x, clientY - s.center.y, dist)
    ensures !s.isDragging ==> r == Output(s, None)
    ensures s.isDragging ==> r.state.(knob := s.knob) == s && r.emitted.Some?
    ensures s.isDragging ==> r.state.knob.x * r.state.knob.x + r.state.knob.y * r.state.knob.y <= MaxDistance * MaxDistance
    ensures s.isDragging && dist <= MaxDistance ==> r.state.knob == Point2(clientX - s.center.x, clientY - s.center.y)
    ensures s.isDragging ==> r.emitted == Some(InputFor(Normalise(r.state.knob)))
  {
    if !s.isDragging then Output(s, None)
    else
      var knob := Constrain(clientX - s.center.x, clientY - s.center.y, dist);
      Output(s.(knob := knob), Some(InputFor(Normalise(knob))))
  }

  /** Every emitted input lies in the unit disc. */
  lemma EmittedInUnitDisc(s: State, clientX: real, clientY: real, dist: real)
    requires IsDistance(clientX - s.center.x, clientY - s.center.y, dist)
    ensures var r := HandleMove(s, clientX, clientY, dist);
      r.emitted.Some? ==> r.emitted.value.x.value * r.emitted.value.x.value + r.emitted.value.y.value * r.emitted.value.y.value <= 1.0
  {
    var r := HandleMove(s, clientX, clientY, dist);
    if r.emitted.Some? {
      NormalisedLength(r.state.knob);
    }
  }

  /**
   * A flag the joystick sets is exactly the one the fish's merge derives
   * from the same axis: the joystick never disagrees with its own analog value.
   */
  lemma FlagsAgreeWithAxes(n: Point2)
    ensures var m := InputFor(n);
      && (Truthy(m.forward) <==> m.y.GetOr(0.0) > FlagThreshold)
      && (Truthy(m.backward) <==> m.y.GetOr(0.0) < -FlagThreshold)
      && (Truthy(m.left) <==> m.x.GetOr(0.0) < -FlagThreshold)
      && (Truthy(m.right) <==> m.x.GetOr(0.0) > FlagThreshold)
  {
  }

  /** Screen y grows downwards, so a pointer above the centre gives a positive (forward) axis. */
  lemma ScreenYInverted(s: State, clientX: real, clientY: real, dist: real)
    requires s.isDragging && IsDistance(clientX - s.center.x, clientY - s.center.y, dist)
    ensures var m := HandleMove(s, clientX, clientY, dist).emitted.value;
      (clientY < s.center.y ==> m.y.value > 0.0) && (clientY > s.center.y ==> m.y.value < 0.0)
  {
    var dx := clientX - s.center.x;
    var dy := clientY - s.center.y;
    if dist > MaxDistance {
      ScaledKeepsSign(dy, dist);
    }
  }

  /** Opposite flags are never set together. */
  lemma OppositeFlagsExclusive(n: Point2)
    ensures !(Truthy(InputFor(n).forward) && Truthy(InputFor(n).backward))
    ensures !(Truthy(InputFor(n).left) && Truthy(InputFor(n).right))
  {
  }

  /** The input emitted on release: both axes 0 and no flags. */
  const ReleaseInput: Store.MobileInput := Store.MobileInput(None, None, None, None, None, None, Some(0.0), Some(0.0))

  /** `handleTouchEnd` / `handleMouseUp`: stop dragging, recentre the knob, emit the zero input. */
  function Release(s: State): (r: Output)
    ensures !r.state.isDragging && r.state.knob == Point2(0.0, 0.0) && r.state.center == s.center
    ensures r.emitted == Some(ReleaseInput)
  {
    Output(State(false, s.center, Point2(0.0, 0.0)), Some(ReleaseInput))
  }

  /** After a release the store holds an input with no flag and zero axes, and a later move is ignored. */
  lemma ReleaseStops(s: State, clientX: real, clientY: real, dist: real)
    requires IsDistance(clientX - Release(s).state.center.x, clientY - Release(s).state.center.y, dist)
    ensures var m := Release(s).emitted.value;
      !Truthy(m.forward) && !Truthy(m.backward) && !Truthy(m.left) && !Truthy(m.right)
      && m.x.GetOr(1.0) == 0.0 && m.y.GetOr(1.0) == 0.0
    ensures HandleMove(Release(s).state, clientX, clientY, dist).emitted == None
  {
  }

  /**
   * `handleTouchStart` / `handleMouseDown` as written: `setIsDragging(true)`
   * and the centre update are scheduled, but `handleMove` is the closure of
   * the current render and still sees the old state.
   */
  function PressAsWritten(s: State, newCenter: Point2, clientX: real, clientY: real, dist: real): (r: Output)
    requires IsDistance(clientX - s.center.x, clientY - s.center.y, dist)
    ensures r.state.isDragging && r.state.center == newCenter
    ensures r.emitted == HandleMove(s, clientX, clientY, dist).emitted
  {
    var moved := HandleMove(s, clientX, clientY, dist);
    Output(moved.state.(isDragging := true, center := newCenter), moved.emitted)
  }

  /** As written, pressing an idle joystick moves no knob and emits nothing. */
  lemma PressAsWrittenEmitsNothing(s: State, newCenter: Point2, clientX: real, clientY: real, dist: real)
    requires !s.isDragging
    requires IsDistance(clientX - s.center.x, clientY - s.center.y, dist)
    ensures PressAsWritten(s, newCenter, clientX, clientY, dist).emitted == None
    ensures PressAsWritten(s, newCenter, clientX, clientY, dist).state.knob == s.knob
  {
  }

  /** A press: start dragging at the new centre and handle the pointer with that state. */
  function Press(s: State, newCenter: Point2, clientX: real, clientY: real, dist: real): (r: Output)
    requires IsDistance(clientX - newCenter.x, clientY - newCenter.y, dist)
    ensures r.state.isDragging && r.state.center == newCenter
    ensures r.emitted.Some?
    ensures r == HandleMove(State(true, newCenter, s.knob), clientX, clientY, dist)
  {
    HandleMove(State(true, newCenter, s.knob), clientX, clientY, dist)
  }

  /**
   * Pressing 40 pixels right of the centre of an idle joystick: the
   * corrected press emits `right`, the press as written emits nothing.
   */
  lemma PressRightOfCentre()
    ensures var s := Initial();
      var c := Point2(100.0, 100.0);
      && PressAsWritten(State(false, c, s.knob), c, 140.0, 100.0, 40.0).emitted == None
      && Press(s, c, 140.0, 100.0, 40.0).emitted.Some?
      && Press(s, c, 140.0, 100.0, 40.0).emitted.value.right == Some(true)
  {
    var s := Initial();
    var c := Point2(100.0, 100.0);
    var r := Press(s, c, 140.0, 100.0, 40.0);
    assert r.state.knob == Point2(40.0, 0.0);
    assert Normalise(r.state.knob) == Point2(1.0, 0.0);
  }

  /** `handleTouchMove` / document `mousemove`: only while dragging. */
  function Move(s: State, clientX: real, clientY: real, dist: real): (r: Output)
    requires IsDistance(clientX - s.center.x, clientY - s.center.y, dist)
    ensures !s.isDragging ==> r.emitted == None && r.state == s
    ensures s.isDragging ==> r == HandleMove(s, clientX, clientY, dist)
  {
    if s.isDragging then HandleMove(s, clientX, clientY, dist) else Output(s, None)
  }

  // Arithmetic facts for the circle constraint, one step per lemma.

  lemma SquareAtMost(d: real, m: real)
    requires 0.0 <= d <= m
    ensures d * d <= m * m
  {
    if d < m {
      SquareMonotone(d, m);
    }
  }

  lemma SquareOfProduct(a: real, k: real)
    ensures (a * k) * (a * k) == (a * a) * (k * k)
  {
  }

  lemma SumOfScaled(p: real, q: real, k: real)
    ensures p * k + q * k == (p + q) * k
  {
  }

  lemma ScaleByRatio(a: real, dist: real)
    requires dist > 0.0
    ensures a / dist * MaxDistance == a * (MaxDistance / dist)
  {
  }

  lemma RatioTimesDistance(dist: real)
    requires dist > 0.0
    ensures dist * (MaxDistance / dist) == MaxDistance
  {
  }

  lemma ScaledKeepsSign(a: real, dist: real)
    requires dist > 0.0
    ensures a < 0.0 ==> a / dist * MaxDistance < 0.0
    ensures a > 0.0 ==> a / dist * MaxDistance > 0.0
  {
    ScaleByRatio(a, dist);
    if a < 0.0 {
      PositiveProduct(-a, MaxDistance / dist);
    } else if a > 0.0 {
      PositiveProduct(a, MaxDistance / dist);
    }
  }

  lemma OntoCircle(dx: real, dy: real, dist: real)
    requires dist > MaxDistance && IsDistance(dx, dy, dist)
    ensures (dx / dist * MaxDistance) * (dx / dist * MaxDistance) + (dy / dist * MaxDistance) * (dy / dist * MaxDistance)
            == MaxDistance * MaxDistance
  {
    var k := MaxDistance / dist;
    ScaleByRatio(dx, dist);
    ScaleByRatio(dy, dist);
    SquareOfProduct(dx, k);
    SquareOfProduct(dy, k);
    SumOfScaled(dx * dx, dy * dy, k * k);
    SquareOfProduct(dist, k);
    RatioTimesDistance(dist);
  }

  lemma NormalisedLength(knob: Point2)
    requires knob.x * knob.x + knob.y * knob.y <= MaxDistance * MaxDistance
    ensures Normalise(knob).x * Normalise(knob).x + Normalise(knob).y * Normalise(knob).y <= 1.0
  {
    var n := Normalise(knob);
    assert n.x == knob.x * (1.0 / MaxDistance);
    assert n.y == -knob.y * (1.0 / MaxDistance);
    SquareOfProduct(knob.x, 1.0 / MaxDistance);
    SquareOfProduct(-knob.y, 1.0 / MaxDistance);
    SumOfScaled(knob.x * knob.x, -knob.y * -knob.y, (1.0 / MaxDistance) * (1.0 / MaxDistance));
  }
}
