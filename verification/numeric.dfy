/**
 * Numeric vocabulary shared by the landing and radar models.
 *
 * Floating point is modelled by exact reals. The sentinels that the C# code
 * takes from `double` and `float` are kept as real constants so that the
 * branches comparing against them can be stated exactly.
 */
module Numeric {

  /** double.MaxValue: "no value" sentinel of the bisection and of a reset scanner. */
  const MaxDouble: real := 1.7976931348623157e308
  /** double.MinValue: altitude of an invalid terrain point. */
  const MinDouble: real := -MaxDouble
  /** float.MaxValue: altitude and distance of a ray that did not hit. */
  const MaxFloat: real := 3.4028234663852886e38
  /** float.MinValue: altitude of a reset sweep. */
  const MinFloat: real := -MaxFloat

  /** Utils.ClampL: the value, raised to `low` when below it. */
  function ClampL(x: real, low: real): (r: real)
    ensures r >= low && r >= x
    ensures r == x || r == low
  {
    if x < low then low else x
  }

  /** Utils.ClampH: the value, lowered to `high` when above it. */
  function ClampH(x: real, high: real): (r: real)
    ensures r <= high && r <= x
    ensures r == x || r == high
  {
    if x > high then high else x
  }

  function Max(a: real, b: real): (r: real)
    ensures r >= a && r >= b
    ensures r == a || r == b
  {
    if a >= b then a else b
  }

  function Min(a: real, b: real): (r: real)
    ensures r <= a && r <= b
    ensures r == a || r == b
  {
    if a <= b then a else b
  }

  function Abs(x: real): real
  {
    if x < 0.0 then -x else x
  }

  /** A 3-D vector; only the operations the decision logic needs are defined. */
  datatype Vec3 = Vec3(x: real, y: real, z: real)

  const Zero: Vec3 := Vec3(0.0, 0.0, 0.0)

  function Dot(a: Vec3, b: Vec3): real
  {
    a.x * b.x + a.y * b.y + a.z * b.z
  }

  function SqrMagnitude(a: Vec3): real
  {
    Dot(a, a)
  }
}
