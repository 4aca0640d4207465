/** The pieces of Unity's math library that the personality pipeline relies on,
    over `real`, with the engine's exact branch order. */
module UnityMath {

  /** A value that may be missing: a Unity reference that may be null. */
  datatype Option<T> = None | Some(value: T)

  /** Mathf.PI, as the single-precision literal Unity stores. */
  const Pi: real := 3.14159274

  /** Mathf.Clamp: the value is compared with `min` first, then with `max`. */
  function Clamp(value: real, min: real, max: real): (r: real)
    ensures min <= max ==> min <= r <= max
    ensures min <= value <= max ==> r == value
    ensures value < min ==> r == min
    ensures min <= value && max < value ==> r == max
  {
    if value < min then min else if value > max then max else value
  }

  /** Clamping with a well-formed range never reverses the order of two values. */
  lemma ClampMonotone(a: real, b: real, min: real, max: real)
    requires a <= b && min <= max
    ensures Clamp(a, min, max) <= Clamp(b, min, max)
  {
  }

  /** Mathf.Clamp01. */
  function Clamp01(value: real): (r: real)
    ensures 0.0 <= r <= 1.0
    ensures 0.0 <= value <= 1.0 ==> r == value
    ensures value < 0.0 ==> r == 0.0
    ensures 1.0 < value ==> r == 1.0
  {
    if value < 0.0 then 0.0 else if value > 1.0 then 1.0 else value
  }

  /** Mathf.Lerp: the interpolation parameter is clamped to [0,1] first.
      Its bounds are stated by the lemmas below. */
  function Lerp(a: real, b: real, t: real): real
  {
    a + (b - a) * Clamp01(t)
  }

  /** Lerp returns its first end point for `t <= 0` and its second for `t >= 1`. */
  lemma LerpEnds(a: real, b: real, t: real)
    ensures t <= 0.0 ==> Lerp(a, b, t) == a
    ensures 1.0 <= t ==> Lerp(a, b, t) == b
  {
  }

  /** With `a <= b`, Lerp lands in [a, b] whatever `t` is. */
  lemma LerpBounds(a: real, b: real, t: real)
    requires a <= b
    ensures a <= Lerp(a, b, t)
    ensures Lerp(a, b, t) <= b
  {
    var s := Clamp01(t);
    LerpUp(a, b, s);
    assert Lerp(a, b, t) == a + (b - a) * s;
  }

  /** With `b <= a`, Lerp lands in [b, a] whatever `t` is. */
  lemma LerpBoundsReversed(a: real, b: real, t: real)
    requires b <= a
    ensures b <= Lerp(a, b, t)
    ensures Lerp(a, b, t) <= a
  {
    var s := Clamp01(t);
    var p := (b - a) * s;
    LerpDown(a, b, s);
    assert Lerp(a, b, t) == a + p;
    assert b - a <= p <= 0.0;
  }

  /** Interpolating upward with a factor in [0,1] stays between the end points. */
  lemma LerpUp(a: real, b: real, s: real)
    requires 0.0 <= s <= 1.0 && a <= b
    ensures a <= a + (b - a) * s
    ensures a + (b - a) * s <= b
  {
    var d := b - a;
    var p := d * s;
    MulAtMostOne(d, s);
    assert 0.0 <= p <= d;
    assert a + p <= b;
  }

  /** Interpolating downward with a factor in [0,1] stays between the end points. */
  lemma LerpDown(a: real, b: real, s: real)
    requires 0.0 <= s <= 1.0 && b <= a
    ensures b <= a + (b - a) * s
    ensures a + (b - a) * s <= a
  {
    var d := b - a;
    var p := d * s;
    assert (-d) * s == -p;
    MulAtMostOne(-d, s);
    assert d <= p <= 0.0;
    assert b <= a + p <= a;
  }

  /** A non-negative amount scaled by a factor in [0,1] stays between 0 and itself. */
  lemma MulAtMostOne(d: real, s: real)
    requires 0.0 <= d && 0.0 <= s <= 1.0
    ensures 0.0 <= d * s
    ensures d * s <= d
  {
    assert d * s <= d * 1.0;
  }

  /** With a well-ordered pair of end points, Lerp never decreases as `t` grows. */
  lemma LerpMonotone(a: real, b: real, t1: real, t2: real)
    requires a <= b && t1 <= t2
    ensures Lerp(a, b, t1) <= Lerp(a, b, t2)
  {
    var s1, s2 := Clamp01(t1), Clamp01(t2);
    assert s1 <= s2;
    var d := b - a;
    MulMonotone(d, s1, s2);
    var p1, p2 := d * s1, d * s2;
    assert p1 <= p2;
    assert Lerp(a, b, t1) == a + p1;
    assert Lerp(a, b, t2) == a + p2;
  }

  /** With reversed end points (`b <= a`), Lerp never increases as `t` grows. */
  lemma LerpAntitone(a: real, b: real, t1: real, t2: real)
    requires b <= a && t1 <= t2
    ensures Lerp(a, b, t2) <= Lerp(a, b, t1)
  {
    var s1, s2 := Clamp01(t1), Clamp01(t2);
    assert s1 <= s2;
    var d := a - b;
    MulMonotone(d, s1, s2);
    var p1, p2 := d * s1, d * s2;
    assert p1 <= p2;
    assert Lerp(a, b, t1) == a - p1;
    assert Lerp(a, b, t2) == a - p2;
  }

  /** Scaling by a non-negative factor keeps the order. */
  lemma MulMonotone(k: real, u: real, v: real)
    requires 0.0 <= k && u <= v
    ensures k * u <= k * v
  {
    assert k * v - k * u == k * (v - u);
  }

  /** The product of two non-negative numbers is non-negative. */
  lemma NonNegativeProduct(x: real, y: real)
    requires 0.0 <= x && 0.0 <= y
    ensures 0.0 <= x * y
  {
  }

  /** A value of [-1,1] scaled by `c` stays within `|c|` of zero. */
  lemma ScaledBound(c: real, x: real)
    requires -1.0 <= x <= 1.0
    ensures -Abs(c) <= c * x
    ensures c * x <= Abs(c)
  {
    if 0.0 <= c {
      NonNegativeScaledBound(c, x);
    } else {
      NegativeScaledBound(c, x);
    }
  }

  /** The case of a negative factor. */
  lemma NegativeScaledBound(c: real, x: real)
    requires c < 0.0 && -1.0 <= x <= 1.0
    ensures -Abs(c) <= c * x
    ensures c * x <= Abs(c)
  {
    NonNegativeScaledBound(-c, -x);
    NegateBoth(c, x);
  }

  lemma NonNegativeScaledBound(c: real, x: real)
    requires 0.0 <= c && -1.0 <= x <= 1.0
    ensures -c <= c * x
    ensures c * x <= c
  {
    var p := c * x;
    NonNegativeProduct(c, 1.0 - x);
    NonNegativeProduct(c, x + 1.0);
    assert c * (1.0 - x) == c - p;
    assert c * (x + 1.0) == p + c;
  }

  lemma NegateBoth(c: real, x: real)
    ensures (-c) * (-x) == c * x
  {
  }

  lemma NegateFactor(c: real, x: real)
    ensures (-c) * x == -(c * x)
  {
  }

  /** A square of a value in [-1,1] lies in [0,1]. */
  lemma SquareInUnitRange(u: real)
    requires -1.0 <= u <= 1.0
    ensures 0.0 <= u * u <= 1.0
  {
    ScaledBound(u, u);
    if u < 0.0 {
      NegateBoth(u, u);
      NonNegativeProduct(-u, -u);
    } else {
      NonNegativeProduct(u, u);
    }
  }

  /** A quotient of 0 < n < d lies strictly inside (0,1). */
  lemma DivInUnitRange(n: real, d: real)
    requires 0.0 < n < d
    ensures 0.0 < n / d
    ensures n / d < 1.0
  {
    var q := n / d;
    assert q * d == n;
    if 1.0 <= q {
      MulMonotone(d, 1.0, q);
    }
  }

  /** Mathf.Max: `a` when it is strictly larger, otherwise `b`. */
  function Max(a: real, b: real): (r: real)
    ensures a <= r && b <= r
    ensures r == a || r == b
  {
    if a > b then a else b
  }

  /** Mathf.Min: `a` when it is strictly smaller, otherwise `b`. */
  function Min(a: real, b: real): (r: real)
    ensures r <= a && r <= b
    ensures r == a || r == b
  {
    if a < b then a else b
  }

  /** Mathf.Abs. */
  function Abs(a: real): (r: real)
    ensures 0.0 <= r
    ensures r == a || r == -a
  {
    if a < 0.0 then -a else a
  }

  /** Truncation toward zero, the rounding C# uses for the floating-point remainder. */
  function Truncate(x: real): (n: int)
    ensures 0.0 <= x ==> 0 <= n && n as real <= x < n as real + 1.0
    ensures x < 0.0 ==> n <= 0 && n as real - 1.0 < x <= n as real
  {
    if 0.0 <= x then x.Floor else -((-x).Floor)
  }

  /** The C# expression `x % 2f`: `x - 2 * trunc(x / 2)`, so the result takes the
      sign of the dividend `x` (Dafny's own `%` is Euclidean and never negative). */
  function RemainderByTwo(x: real): (r: real)
    ensures 0.0 <= x ==> 0.0 <= r < 2.0
    ensures x < 0.0 ==> -2.0 < r <= 0.0
    ensures -2.0 < x < 2.0 ==> r == x
  {
    x - 2.0 * Truncate(x / 2.0) as real
  }

  /** Unity's Vector3, componentwise over `real`. */
  datatype Vector3 = Vector3(x: real, y: real, z: real)
  {
    function Plus(other: Vector3): Vector3 {
      Vector3(x + other.x, y + other.y, z + other.z)
    }

    function Minus(other: Vector3): Vector3 {
      Vector3(x - other.x, y - other.y, z - other.z)
    }

    function Times(k: real): Vector3 {
      Vector3(x * k, y * k, z * k)
    }
  }

  const Zero3: Vector3 := Vector3(0.0, 0.0, 0.0)

  /** Vector3.Lerp: like Mathf.Lerp, the parameter is clamped to [0,1]. */
  function Vector3Lerp(a: Vector3, b: Vector3, t: real): Vector3
  {
    Vector3(Lerp(a.x, b.x, t), Lerp(a.y, b.y, t), Lerp(a.z, b.z, t))
  }
}
