/**
 The engine's vector values, over the reals. Only what the ball controller
 uses is here: differences of touch positions, offsets of positions, scaling
 by a tunable coefficient, and squared magnitudes, which let every
 `magnitude > limit` test of the controller be decided without a square root.
 */
module Vectors {

  /** A screen-space position or displacement (the engine's Vector2). */
  datatype Vec2 = Vec2(x: real, y: real)

  /** A world-space position, velocity or force (the engine's Vector3). */
  datatype Vec3 = Vec3(x: real, y: real, z: real)

  const Zero3: Vec3 := Vec3(0.0, 0.0, 0.0)

  function Minus2(a: Vec2, b: Vec2): Vec2
  {
    Vec2(a.x - b.x, a.y - b.y)
  }

  function Plus3(a: Vec3, b: Vec3): Vec3
  {
    Vec3(a.x + b.x, a.y + b.y, a.z + b.z)
  }

  function Scale3(v: Vec3, k: real): Vec3
  {
    Vec3(v.x * k, v.y * k, v.z * k)
  }

  function SqMagnitude2(v: Vec2): (r: real)
    ensures r >= 0.0
  {
    v.x * v.x + v.y * v.y
  }

  function SqMagnitude3(v: Vec3): (r: real)
    ensures r >= 0.0
  {
    v.x * v.x + v.y * v.y + v.z * v.z
  }

  /** `m` is the engine's `magnitude` of `v`: the non-negative square root of its squared magnitude. */
  predicate IsMagnitude2(v: Vec2, m: real)
  {
    m >= 0.0 && m * m == SqMagnitude2(v)
  }

  predicate IsMagnitude3(v: Vec3, m: real)
  {
    m >= 0.0 && m * m == SqMagnitude3(v)
  }

  lemma PositiveProduct(x: real, y: real)
    requires x > 0.0 && y > 0.0
    ensures x * y > 0.0
  {
  }

  /** On non-negative reals, squaring preserves and reflects the strict order. */
  lemma SquareOrder(a: real, b: real)
    requires a >= 0.0 && b >= 0.0
    ensures a > b <==> a * a > b * b
  {
    if a > b {
      PositiveProduct(a - b, a + b);
      assert a * a - b * b == (a - b) * (a + b);
    } else {
      assert a * a <= a * b <= b * b;
    }
  }
}
