/**
 * The fish's per-frame motion step: keyboard, touch-button and analog
 * joystick input merged into direction flags, a raw move vector, velocity
 * damping plus a speed-scaled impulse, a position clamped to the world box,
 * and a rotation blended towards the direction of travel.
 */
module FishMotion {
  import opened Optional
  import opened Numeric
  import opened Geometry
  import Store

  const MoveSpeed: real := 8.0
  const BoostMultiplier: real := 2.0
  const TurnSpeed: real := 3.0
  const Damping: real := 0.85

  /** An analog axis beyond ±0.3 also sets the matching direction flag. */
  const AnalogThreshold: real := 0.3
  /** An analog axis beyond ±0.1 is added to the move vector. */
  const AnalogDeadzone: real := 0.1

  /** The world box the fish is kept in. */
  const MinX: real := -50.0
  const MaxX: real := 50.0
  const MinY: real := -35.0
  const MaxY: real := 20.0
  const MinZ: real := -70.0
  const MaxZ: real := 20.0

  /** The keyboard state for the seven actions. */
  datatype Keys = Keys(forward: bool, backward: bool, left: bool, right: bool, up: bool, down: bool, boost: bool)

  /** No key held. */
  const NoKeys: Keys := Keys(false, false, false, false, false, false, false)

  /** The merged direction flags for one frame. */
  datatype InputFrame = InputFrame(forward: bool, backward: bool, left: bool, right: bool, up: bool, down: bool, boost: bool)

  /**
   * `normalize`, `Math.atan2` and `Math.asin`, supplied by the caller;
   * nothing is assumed about their values.
   */
  datatype MathFns = MathFns(normalize: Vec3 -> Vec3, atan2: (real, real) -> real, asin: real -> real)

  /**
   * Each flag is the OR of its key, the touch button's flag and (for the
   * four planar directions only) the analog axis past ±0.3; a missing axis
   * counts as 0. Boost comes from the key or the store's boost button.
   */
  function MergeInput(keys: Keys, m: Store.MobileInput, isBoosting: bool): (r: InputFrame)
    ensures r.forward <==> keys.forward || Truthy(m.forward) || m.y.GetOr(0.0) > AnalogThreshold
    ensures r.backward <==> keys.backward || Truthy(m.backward) || m.y.GetOr(0.0) < -AnalogThreshold
    ensures r.left <==> keys.left || Truthy(m.left) || m.x.GetOr(0.0) < -AnalogThreshold
    ensures r.right <==> keys.right || Truthy(m.right) || m.x.GetOr(0.0) > AnalogThreshold
    ensures r.up <==> keys.up || Truthy(m.up)
    ensures r.down <==> keys.down || Truthy(m.down)
    ensures r.boost <==> keys.boost || isBoosting
  {
    InputFrame(
      keys.forward || Truthy(m.forward) || m.y.GetOr(0.0) > AnalogThreshold,
      keys.backward || Truthy(m.backward) || m.y.GetOr(0.0) < -AnalogThreshold,
      keys.left || Truthy(m.left) || m.x.GetOr(0.0) < -AnalogThreshold,
      keys.right || Truthy(m.right) || m.x.GetOr(0.0) > AnalogThreshold,
      keys.up || Truthy(m.up),
      keys.down || Truthy(m.down),
      keys.boost || isBoosting)
  }

  /** The vertical flags have no analog path: an analog axis alone never sets `up` or `down`. */
  lemma AnalogNeverVertical(m: Store.MobileInput, isBoosting: bool)
    requires m.up == None && m.down == None
    ensures !MergeInput(NoKeys, m, isBoosting).up
    ensures !MergeInput(NoKeys, m, isBoosting).down
  {
  }

  /** The analog part of one axis: the value when present and beyond the dead zone, else 0. */
  function AnalogPart(axis: Option<real>): (r: real)
    ensures r != 0.0 ==> axis.Some? && r == axis.value
    ensures axis.Some? && (axis.value > AnalogDeadzone || axis.value < -AnalogDeadzone) ==> r == axis.value
    ensures -AnalogDeadzone <= r <= AnalogDeadzone ==> r == 0.0
  {
    if axis.Some? && (axis.value > AnalogDeadzone || axis.value < -AnalogDeadzone) then axis.value else 0.0
  }

  function Unit(flag: bool): real {
    if flag then 1.0 else 0.0
  }

  /**
   * The raw move vector: each active flag contributes one unit on its axis
   * (forward is -z), the analog x is added to x and the analog y is
   * subtracted from z.
   */
  function RawMove(input: InputFrame, m: Store.MobileInput): (r: Vec3)
    ensures r.x == Unit(input.right) - Unit(input.left) + AnalogPart(m.x)
    ensures r.y == Unit(input.up) - Unit(input.down)
    ensures r.z == Unit(input.backward) - Unit(input.forward) - AnalogPart(m.y)
  {
    var x := 0.0 - Unit(input.left) + Unit(input.right);
    var y := 0.0 + Unit(input.up) - Unit(input.down);
    var z := 0.0 - Unit(input.forward) + Unit(input.backward);
    var x' := if m.x.Some? && (m.x.value > AnalogDeadzone || m.x.value < -AnalogDeadzone) then x + m.x.value else x;
    var z' := if m.y.Some? && (m.y.value > AnalogDeadzone || m.y.value < -AnalogDeadzone) then z - m.y.value else z;
    Vec3(x', y, z')
  }

  /** Opposite keys cancel: with no analog input, forward and backward together give no z motion. */
  lemma OppositeFlagsCancel(input: InputFrame, m: Store.MobileInput)
    requires input.forward && input.backward && m.y == None
    ensures RawMove(input, m).z == 0.0
  {
  }

  /** The speed factor: 8, doubled while boosting. */
  function Speed(boost: bool): (r: real)
    ensures r == MoveSpeed * (if boost then BoostMultiplier else 1.0)
    ensures boost ==> r == 16.0
    ensures !boost ==> r == 8.0
  {
    if boost then MoveSpeed * BoostMultiplier else MoveSpeed
  }

  predicate InBounds(p: Vec3) {
    MinX <= p.x <= MaxX && MinY <= p.y <= MaxY && MinZ <= p.z <= MaxZ
  }

  /** The per-axis clamp to the world box. */
  function ClampToBounds(p: Vec3): (r: Vec3)
    ensures InBounds(r)
    ensures InBounds(p) ==> r == p
  {
    Vec3(Clamp(MinX, MaxX, p.x), Clamp(MinY, MaxY, p.y), Clamp(MinZ, MaxZ, p.z))
  }

  /** Clamping a clamped position changes nothing. */
  lemma ClampToBoundsIdempotent(p: Vec3)
    ensures ClampToBounds(ClampToBounds(p)) == ClampToBounds(p)
  {
  }

  /** The orientation the fish turns towards: yaw from x and -z, a third of the pitch from y. */
  function TargetRotation(math: MathFns, direction: Vec3): Vec3 {
    Vec3(math.asin(direction.y) * 0.3, math.atan2(direction.x, -direction.z), 0.0)
  }

  /** The x and y rotation components moved `rate` of the way to the target; z is not touched. */
  function Blend(rotation: Vec3, target: Vec3, rate: real): (r: Vec3)
    ensures r.z == rotation.z
    ensures 0.0 <= rate <= 1.0 ==> Between(rotation.x, target.x, r.x) && Between(rotation.y, target.y, r.y)
  {
    var r := Vec3(Approach(rotation.x, target.x, rate), Approach(rotation.y, target.y, rate), rotation.z);
    assert 0.0 <= rate <= 1.0 ==> Between(rotation.x, target.x, r.x) && Between(rotation.y, target.y, r.y) by {
      if 0.0 <= rate <= 1.0 {
        ApproachBetween(rotation.x, target.x, rate);
        ApproachBetween(rotation.y, target.y, rate);
      }
    }
    r
  }

  /** Everything one frame computes before it is written to the store. */
  datatype Frame = Frame(input: InputFrame, raw: Vec3, impulse: Vec3, velocity: Vec3, position: Vec3)

  /**
   * The movement half of a frame: merged input, raw vector, impulse
   * `normalize(raw) * speed * delta` (the zero vector stays zero),
   * damped velocity plus impulse, clamped new position.
   */
  function Move(s: Store.State, velocity: Vec3, keys: Keys, delta: real, math: MathFns): (f: Frame)
    ensures f.input == MergeInput(keys, s.mobileInput, s.isBoosting)
    ensures f.raw == RawMove(f.input, s.mobileInput)
    ensures f.raw == Zero ==> f.impulse == Zero && f.velocity == Scale(velocity, Damping)
    ensures f.raw != Zero ==> f.impulse == Scale(math.normalize(f.raw), Speed(f.input.boost) * delta)
    ensures delta == 0.0 ==> f.impulse == Zero
    ensures f.velocity == Add(Scale(velocity, Damping), f.impulse)
    ensures InBounds(f.position)
    ensures InBounds(Add(s.fishPosition, f.velocity)) ==> f.position == Add(s.fishPosition, f.velocity)
  {
    var input := MergeInput(keys, s.mobileInput, s.isBoosting);
    var raw := RawMove(input, s.mobileInput);
    var direction := if raw != Zero then math.normalize(raw) else raw;
    var impulse := Scale(direction, Speed(input.boost) * delta);
    var v := Add(Scale(velocity, Damping), impulse);
    Frame(input, raw, impulse, v, ClampToBounds(Add(s.fishPosition, v)))
  }

  /**
   * One frame of `useFrame`: writes `isMoving`, the clamped position and,
   * only when the impulse is non-zero, the blended rotation. Returns the
   * store and the hook's new velocity.
   */
  function Step(s: Store.State, velocity: Vec3, keys: Keys, delta: real, math: MathFns): (r: (Store.State, Vec3))
    ensures var f := Move(s, velocity, keys, delta, math);
      && r.1 == f.velocity
      && (r.0.isMoving <==> f.raw != Zero)
      && r.0.fishPosition == f.position
      && (f.impulse == Zero ==> r.0.fishRotation == s.fishRotation)
      && (f.impulse != Zero ==>
            r.0.fishRotation == Blend(s.fishRotation, TargetRotation(math, math.normalize(f.impulse)), TurnSpeed * delta))
    ensures InBounds(r.0.fishPosition)
    ensures r.0.fishRotation.z == s.fishRotation.z
    ensures r.0.(isMoving := s.isMoving, fishPosition := s.fishPosition, fishRotation := s.fishRotation) == s
  {
    var f := Move(s, velocity, keys, delta, math);
    var s1 := Store.SetFishPosition(Store.SetIsMoving(s, f.raw != Zero), f.position);
    if f.impulse != Zero then
      var target := TargetRotation(math, math.normalize(f.impulse));
      (Store.SetFishRotation(s1, Blend(s.fishRotation, target, TurnSpeed * delta)), f.velocity)
    else
      (s1, f.velocity)
  }

  /** With no input the fish glides: velocity decays by 0.85 and the rotation stays. */
  lemma IdleGlides(s: Store.State, velocity: Vec3, keys: Keys, delta: real, math: MathFns)
    requires RawMove(MergeInput(keys, s.mobileInput, s.isBoosting), s.mobileInput) == Zero
    ensures Step(s, velocity, keys, delta, math).1 == Scale(velocity, Damping)
    ensures !Step(s, velocity, keys, delta, math).0.isMoving
    ensures Step(s, velocity, keys, delta, math).0.fishRotation == s.fishRotation
  {
  }

  /** A frame with `delta = 0` turns nothing, even while input is held. */
  lemma ZeroDeltaKeepsRotation(s: Store.State, velocity: Vec3, keys: Keys, math: MathFns)
    ensures Step(s, velocity, keys, 0.0, math).0.fishRotation == s.fishRotation
  {
  }

  /** With `3 * delta` in [0, 1] each turned component ends between its old value and its target. */
  lemma RotationBetween(s: Store.State, velocity: Vec3, keys: Keys, delta: real, math: MathFns)
    requires 0.0 <= TurnSpeed * delta <= 1.0
    ensures var f := Move(s, velocity, keys, delta, math);
      var rot := Step(s, velocity, keys, delta, math).0.fishRotation;
      var target := TargetRotation(math, math.normalize(f.impulse));
      f.impulse != Zero ==> Between(s.fishRotation.x, target.x, rot.x) && Between(s.fishRotation.y, target.y, rot.y)
  {
  }

  /** No sequence of frames can take the fish out of the world box. */
  lemma {:induction false} StepsStayInBounds(s: Store.State, velocity: Vec3, inputs: seq<Keys>, delta: real, math: MathFns)
    ensures var r := Steps(s, velocity, inputs, delta, math);
      |inputs| > 0 ==> InBounds(r.0.fishPosition)
    ensures InBounds(s.fishPosition) ==> InBounds(Steps(s, velocity, inputs, delta, math).0.fishPosition)
    decreases |inputs|
  {
    if |inputs| > 0 {
      var r := Step(s, velocity, inputs[0], delta, math);
      StepsStayInBounds(r.0, r.1, inputs[1..], delta, math);
    }
  }

  /** Frames run back to back, one keyboard sample each. */
  function Steps(s: Store.State, velocity: Vec3, inputs: seq<Keys>, delta: real, math: MathFns): (Store.State, Vec3)
    decreases |inputs|
  {
    if |inputs| == 0 then (s, velocity)
    else
      var r := Step(s, velocity, inputs[0], delta, math);
      Steps(r.0, r.1, inputs[1..], delta, math)
  }

  /**
   * Holding forward for one 0.1 s frame from rest gives the raw vector
   * (0, 0, -1) and a velocity of (0, 0, -0.8).
   */
  lemma ForwardFromRest(s: Store.State, math: MathFns)
    requires s.mobileInput == Store.NoMobileInput && !s.isBoosting
    requires math.normalize(Vec3(0.0, 0.0, -1.0)) == Vec3(0.0, 0.0, -1.0)
    ensures var keys := Keys(true, false, false, false, false, false, false);
      && Move(s, Zero, keys, 0.1, math).raw == Vec3(0.0, 0.0, -1.0)
      && Step(s, Zero, keys, 0.1, math).1 == Vec3(0.0, 0.0, -0.8)
  {
    var keys := Keys(true, false, false, false, false, false, false);
    var input := MergeInput(keys, s.mobileInput, s.isBoosting);
    assert input == InputFrame(true, false, false, false, false, false, false);
    var f := Move(s, Zero, keys, 0.1, math);
    assert f.raw == Vec3(0.0, 0.0, -1.0);
    assert Speed(input.boost) * 0.1 == 0.8;
    assert f.impulse == Vec3(0.0, 0.0, -0.8);
  }
}
