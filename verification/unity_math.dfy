/** The few engine helpers the game code leans on, with Unity's own semantics:
    `Mathf.Clamp` tests the lower bound first, `Mathf.Lerp` clamps its
    parameter to [0, 1], and C# floats are modelled as `real`. */
module UnityMath {

  datatype Option<+T> = None | Some(value: T)

  datatype Vector3 = Vector3(x: real, y: real, z: real)
  {
    function Plus(v: Vector3): Vector3 {
      Vector3(x + v.x, y + v.y, z + v.z)
    }

    /** The vector from `v` to this one. */
    function Minus(v: Vector3): Vector3 {
      Vector3(x - v.x, y - v.y, z - v.z)
    }

    function Scaled(k: real): Vector3 {
      Vector3(x * k, y * k, z * k)
    }
  }

  const Zero3 := Vector3(0.0, 0.0, 0.0)

  /** `Mathf.Clamp(value, min, max)`: below `min` gives `min`, otherwise above
      `max` gives `max`, otherwise the value itself. */
  function Clamp(value: real, min: real, max: real): (r: real)
    ensures min <= max ==> min <= r <= max
    ensures min <= value <= max ==> r == value
    ensures value < min ==> r == min
  {
    if value < min then min else if value > max then max else value
  }

  /** `Mathf.Clamp01`. */
  function Clamp01(value: real): (r: real)
    ensures 0.0 <= r <= 1.0
    ensures 0.0 <= value <= 1.0 ==> r == value
  {
    Clamp(value, 0.0, 1.0)
  }

  /** `Mathf.Lerp(a, b, t)`: linear interpolation with `t` clamped to [0, 1]. */
  function Lerp(a: real, b: real, t: real): (r: real)
    ensures t <= 0.0 ==> r == a
    ensures 1.0 <= t ==> r == b
    ensures a == b ==> r == a
  {
    a + (b - a) * Clamp01(t)
  }

  /** Whatever its parameter, `Lerp` lands between its two ends. */
  lemma LerpBetween(a: real, b: real, t: real)
    ensures a <= b ==> a <= Lerp(a, b, t) <= b
    ensures b <= a ==> b <= Lerp(a, b, t) <= a
  {
    var c := Clamp01(t);
    var d := b - a;
    ScaledPart(d, c);
    assert Lerp(a, b, t) == a + d * c;
    if a <= b {
      assert 0.0 <= d * c <= d;
    } else {
      assert d <= d * c <= 0.0;
    }
  }

  /** For `c` in [0, 1], `d * c` lies between 0 and `d`. */
  lemma ScaledPart(d: real, c: real)
    requires 0.0 <= c <= 1.0
    ensures 0.0 <= d ==> 0.0 <= d * c <= d
    ensures d <= 0.0 ==> d <= d * c <= 0.0
  {
    assert d * (1.0 - c) == d - d * c;
    if 0.0 <= d {
      MulNonneg(d, c);
      MulNonneg(d, 1.0 - c);
    } else {
      MulNonneg(-d, c);
      MulNonneg(-d, 1.0 - c);
    }
  }

  /** The product of two non-negative reals is non-negative. */
  lemma MulNonneg(x: real, y: real)
    requires 0.0 <= x && 0.0 <= y
    ensures 0.0 <= x * y
  {
  }

  /** For a parameter in [0, 1], what `Lerp` leaves of the distance to `b`
      is the old distance scaled by `1 - t`. */
  lemma LerpGap(a: real, b: real, t: real)
    requires 0.0 <= t <= 1.0
    ensures b - Lerp(a, b, t) == (b - a) * (1.0 - t)
  {
    assert Lerp(a, b, t) == a + (b - a) * t;
    assert (b - a) * (1.0 - t) == (b - a) - (b - a) * t;
  }

  /** `Vector3.Lerp`: component-wise `Lerp` with the same parameter. */
  function Lerp3(a: Vector3, b: Vector3, t: real): (r: Vector3)
    ensures t <= 0.0 ==> r == a
    ensures 1.0 <= t ==> r == b
  {
    Vector3(Lerp(a.x, b.x, t), Lerp(a.y, b.y, t), Lerp(a.z, b.z, t))
  }

  /** Component-wise, a `Vector3.Lerp` with a parameter in [0, 1] leaves
      `1 - t` of the way still to go. */
  lemma Lerp3Gap(a: Vector3, b: Vector3, t: real)
    requires 0.0 <= t <= 1.0
    ensures b.Minus(Lerp3(a, b, t)) == b.Minus(a).Scaled(1.0 - t)
  {
    LerpGap(a.x, b.x, t);
    LerpGap(a.y, b.y, t);
    LerpGap(a.z, b.z, t);
  }
}
