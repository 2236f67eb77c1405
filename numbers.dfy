/** Scalar and vector arithmetic shared by the model: C-style truncation of a
    floating value to an integer, and the small 3- and 4-component vectors of the
    rendering library, with real components standing for floats. */
module Numbers {

  /** The value of M_PI / R3_PI, as a real. */
  const Pi: real := 3.141592653589793

  /** C's conversion of a floating value to `int`: rounds toward zero. */
  function Trunc(x: real): (n: int)
    ensures x >= 0.0 ==> n as real <= x < n as real + 1.0
    ensures x < 0.0 ==> n as real - 1.0 < x <= n as real
  {
    if x >= 0.0 then x.Floor else -((-x).Floor)
  }

  /** Truncation is odd: -x truncates to minus what x truncates to. */
  lemma TruncOdd(x: real)
    ensures Trunc(-x) == -Trunc(x)
  {
    if x > 0.0 {
      assert -x < 0.0;
    } else if x < 0.0 {
      assert -x > 0.0;
    }
  }

  /** Truncation is monotone. */
  lemma TruncMonotone(x: real, y: real)
    requires x <= y
    ensures Trunc(x) <= Trunc(y)
  {
  }

  /** On a whole number, truncation is exact. */
  lemma TruncOfInt(n: int)
    ensures Trunc(n as real) == n
  {
  }

  /** `std::max(lo, std::min(hi, x))`, the clamp star3map.cpp writes out inline
      (std::min(a, b) is `b < a ? b : a`, std::max(a, b) is `a < b ? b : a`). */
  function ClampReal(lo: real, hi: real, x: real): (r: real)
    requires lo <= hi
    ensures lo <= r <= hi
    ensures lo <= x <= hi ==> r == x
    ensures x < lo ==> r == lo
    ensures x > hi ==> r == hi
  {
    var m := if x < hi then x else hi;
    if lo < m then m else lo
  }

  /** The same clamp on integers, as the magnitude index uses it. Every
      value involved is a whole number, so `.Floor` returns the clamped
      integer itself; the ensures below state this. */
  function ClampInt(lo: int, hi: int, x: int): (r: int)
    requires lo <= hi
    ensures lo <= r <= hi
    ensures lo <= x <= hi ==> r == x
    ensures x < lo ==> r == lo
    ensures x > hi ==> r == hi
  {
    ClampReal(lo as real, hi as real, x as real).Floor
  }

  /** Clamping is monotone in its argument. */
  lemma ClampRealMonotone(lo: real, hi: real, x: real, y: real)
    requires lo <= hi && x <= y
    ensures ClampReal(lo, hi, x) <= ClampReal(lo, hi, y)
  {
  }

  datatype Vec3 = Vec3(x: real, y: real, z: real)
  datatype Vec4 = Vec4(x: real, y: real, z: real, w: real)

  const Zero: Vec3 := Vec3(0.0, 0.0, 0.0)

  function Dot(a: Vec3, b: Vec3): real
  {
    a.x * b.x + a.y * b.y + a.z * b.z
  }

  function Add(a: Vec3, b: Vec3): Vec3
  {
    Vec3(a.x + b.x, a.y + b.y, a.z + b.z)
  }

  function Sub(a: Vec3, b: Vec3): Vec3
  {
    Vec3(a.x - b.x, a.y - b.y, a.z - b.z)
  }

  function Scale(a: Vec3, k: real): Vec3
  {
    Vec3(a.x * k, a.y * k, a.z * k)
  }
}
