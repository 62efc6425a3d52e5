/** Three.js vectors and Euler angles as immutable records over `real`. */
module Geometry {

  /** `THREE.Vector3`; also used for `THREE.Euler` rotations (x, y, z in radians). */
  datatype Vec3 = Vec3(x: real, y: real, z: real)

  /** A 2D screen point (`clientX`, `clientY`). */
  datatype Point2 = Point2(x: real, y: real)

  const Zero: Vec3 := Vec3(0.0, 0.0, 0.0)

  function Add(a: Vec3, b: Vec3): Vec3 {
    Vec3(a.x + b.x, a.y + b.y, a.z + b.z)
  }

  function Scale(a: Vec3, k: real): Vec3 {
    Vec3(a.x * k, a.y * k, a.z * k)
  }

  /** Squared Euclidean distance, the square of `a.distanceTo(b)`. */
  function DistSq(a: Vec3, b: Vec3): (r: real)
    ensures r >= 0.0
  {
    (a.x - b.x) * (a.x - b.x) + (a.y - b.y) * (a.y - b.y) + (a.z - b.z) * (a.z - b.z)
  }

  /**
   * For non-negative distances `d < r` exactly when `d*d < r*r`, so every
   * radius test on `distanceTo` can be made on squared distances.
   */
  lemma SquareMonotone(d: real, r: real)
    requires d >= 0.0 && r >= 0.0
    ensures d < r <==> d * d < r * r
  {
    if d < r {
      PositiveProduct(r - d, r + d);
      DifferenceOfSquares(d, r);
    } else {
      NonNegativeProduct(d - r, d + r);
      DifferenceOfSquares(r, d);
    }
  }

  // Small arithmetic facts, kept in separate lemmas: the solver proves each
  // alone but not always when they are combined in one obligation.

  lemma PositiveProduct(a: real, b: real)
    requires a > 0.0 && b > 0.0
    ensures a * b > 0.0
  {
  }

  lemma NonNegativeProduct(a: real, b: real)
    requires a >= 0.0 && b >= 0.0
    ensures a * b >= 0.0
  {
  }

  lemma DifferenceOfSquares(d: real, r: real)
    ensures (r - d) * (r + d) == r * r - d * d
  {
  }
}
