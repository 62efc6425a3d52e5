/**
 * The two numeric idioms every component of the scene uses: clamping with
 * `Math.max(lo, Math.min(hi, v))` and the per-frame proportional approach
 * `current += (target - current) * rate`.
 */
module Numeric {

  /** `Math.max(lo, Math.min(hi, v))`: the value forced into `[lo, hi]`. */
  function Clamp(lo: real, hi: real, v: real): (r: real)
    requires lo <= hi
    ensures lo <= r <= hi
    ensures lo <= v <= hi ==> r == v
    ensures v < lo ==> r == lo
    ensures hi < v ==> r == hi
  {
    if v < lo then lo else if hi < v then hi else v
  }

  /** Clamping twice is clamping once. */
  lemma ClampIdempotent(lo: real, hi: real, v: real)
    requires lo <= hi
    ensures Clamp(lo, hi, Clamp(lo, hi, v)) == Clamp(lo, hi, v)
  {
  }

  /** Clamping is monotone: it never reverses the order of two inputs. */
  lemma ClampMonotone(lo: real, hi: real, u: real, v: real)
    requires lo <= hi
    requires u <= v
    ensures Clamp(lo, hi, u) <= Clamp(lo, hi, v)
  {
  }

  /** One step of exponential smoothing: `current + (target - current) * rate`. */
  function Approach(current: real, target: real, rate: real): real {
    current + (target - current) * rate
  }

  /** `v` lies on the closed segment between `a` and `b`, whichever is larger. */
  predicate Between(a: real, b: real, v: real) {
    (a <= v <= b) || (b <= v <= a)
  }

  /**
   * With a rate in `[0, 1]` a smoothing step lands between the old value and
   * the target: it never overshoots, and a rate of 1 reaches the target.
   */
  lemma ApproachBetween(current: real, target: real, rate: real)
    requires 0.0 <= rate <= 1.0
    ensures Between(current, target, Approach(current, target, rate))
    ensures rate == 1.0 ==> Approach(current, target, rate) == target
    ensures rate == 0.0 ==> Approach(current, target, rate) == current
  {
    var step := (target - current) * rate;
    assert Approach(current, target, rate) == current + step;
    if current <= target {
      ScaleDown(target - current, rate);
      assert current <= current + step <= target;
    } else {
      ScaleDown(current - target, rate);
      assert step == -((current - target) * rate);
      assert target <= current + step <= current;
    }
  }

  /** Scaling a non-negative amount by a factor in `[0, 1]` keeps it in `[0, amount]`. */
  lemma ScaleDown(amount: real, rate: real)
    requires amount >= 0.0 && 0.0 <= rate <= 1.0
    ensures 0.0 <= amount * rate <= amount
  {
  }

  /** A smoothing step from inside an interval towards a target inside it stays inside. */
  lemma ApproachStaysIn(lo: real, hi: real, current: real, target: real, rate: real)
    requires 0.0 <= rate <= 1.0
    requires lo <= current <= hi && lo <= target <= hi
    ensures lo <= Approach(current, target, rate) <= hi
  {
    ApproachBetween(current, target, rate);
  }

  /** A step never moves away from the target: the remaining gap shrinks by the factor `1 - rate`. */
  lemma ApproachGap(current: real, target: real, rate: real)
    ensures target - Approach(current, target, rate) == (target - current) * (1.0 - rate)
  {
  }
}
