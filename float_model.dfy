/** Single-precision values as far as the NaN/Infinity guards are concerned:
    a finite value (kept exact, as a `real`), NaN, or a signed infinity.
    Rounding and overflow of finite values are not modelled. */
module FloatModel {
  import opened UnityMath

  datatype Float = Finite(value: real) | NaN | Infinity(negative: bool)

  /** IEEE multiplication: NaN absorbs, zero times infinity is NaN. */
  function Mul(a: Float, b: Float): (r: Float)
    ensures a.Finite? && b.Finite? ==> r == Finite(a.value * b.value)
    ensures a.NaN? || b.NaN? ==> r.NaN?
  {
    if a.NaN? || b.NaN? then NaN
    else if a.Finite? && b.Finite? then Finite(a.value * b.value)
    else if a.Infinity? && b.Infinity? then Infinity(a.negative != b.negative)
    else if a.Infinity? then (if b.value == 0.0 then NaN else Infinity(a.negative != (b.value < 0.0)))
    else if a.value == 0.0 then NaN else Infinity(b.negative != (a.value < 0.0))
  }

  /** IEEE division: a non-zero value over zero is an infinity, zero over zero is
      NaN, a finite value over an infinity is zero. The sign of a zero divisor is
      not modelled; it only decides the sign of the infinity. */
  function Div(a: Float, b: Float): (r: Float)
    ensures a.Finite? && b.Finite? && b.value != 0.0 ==> r == Finite(a.value / b.value)
    ensures b == Finite(0.0) ==> !r.Finite?
    ensures a.NaN? || b.NaN? ==> r.NaN?
  {
    if a.NaN? || b.NaN? then NaN
    else if a.Finite? && b.Finite? then
      (if b.value != 0.0 then Finite(a.value / b.value)
       else if a.value == 0.0 then NaN
       else Infinity(a.value < 0.0))
    else if a.Finite? then Finite(0.0)
    else if b.Finite? then Infinity(a.negative != (b.value < 0.0))
    else NaN
  }

  /** IEEE addition: infinities of opposite signs give NaN. */
  function Add(a: Float, b: Float): (r: Float)
    ensures a.Finite? && b.Finite? ==> r == Finite(a.value + b.value)
    ensures a.NaN? || b.NaN? ==> r.NaN?
  {
    match (a, b)
    case (NaN, _) => NaN
    case (_, NaN) => NaN
    case (Finite(x), Finite(y)) => Finite(x + y)
    case (Infinity(m), Finite(_)) => Infinity(m)
    case (Finite(_), Infinity(n)) => Infinity(n)
    case (Infinity(m), Infinity(n)) => if m == n then Infinity(m) else NaN
  }

  function Neg(a: Float): Float {
    match a
    case Finite(x) => Finite(-x)
    case NaN => NaN
    case Infinity(m) => Infinity(!m)
  }

  /** Mathf.Sin. The sine of a finite angle comes from outside the model as
      `sample`; the sine of NaN or of an infinity is NaN. */
  function Sin(angle: Float, sample: real): (r: Float)
    ensures angle.Finite? <==> r.Finite?
    ensures !angle.Finite? ==> r == NaN
  {
    if angle.Finite? then Finite(sample) else NaN
  }

  /** Mathf.Pow. The power itself comes from outside the model as `sample`;
      what is modelled is when it is not a number: a negative base with a
      non-integer exponent gives NaN, zero to a negative power +Infinity. */
  function Pow(base: Float, exponent: Float, sample: real): (r: Float)
    ensures base.Finite? && base.value < 0.0 && exponent.Finite? && exponent.value.Floor as real != exponent.value
            ==> r == NaN
    ensures base.Finite? && 0.0 < base.value && exponent.Finite? ==> r == Finite(sample)
  {
    if base.NaN? || exponent.NaN? then NaN
    else if base.Finite? && exponent.Finite? then
      (if base.value < 0.0 && exponent.value.Floor as real != exponent.value then NaN
       else if base.value == 0.0 && exponent.value < 0.0 then Infinity(false)
       else Finite(sample))
    else Finite(sample)
  }

  /** A Vector3 whose components may be non-finite. */
  datatype FloatVector3 = FloatVector3(x: Float, y: Float, z: Float)
  {
    predicate IsFinite() {
      x.Finite? && y.Finite? && z.Finite?
    }

    function Plus(other: FloatVector3): FloatVector3 {
      FloatVector3(Add(x, other.x), Add(y, other.y), Add(z, other.z))
    }

    function Times(k: Float): FloatVector3 {
      FloatVector3(Mul(x, k), Mul(y, k), Mul(z, k))
    }
  }

  /** A finite Vector3 as a FloatVector3. */
  function Finite3(v: Vector3): (r: FloatVector3)
    ensures r.IsFinite()
  {
    FloatVector3(Finite(v.x), Finite(v.y), Finite(v.z))
  }

  /** On finite vectors, the float sum is the real sum. */
  lemma FinitePlus(u: Vector3, v: Vector3)
    ensures Finite3(u).Plus(Finite3(v)) == Finite3(u.Plus(v))
  {
  }

  /** On finite values, the float scaling is the real scaling. */
  lemma FiniteTimes(v: Vector3, k: real)
    ensures Finite3(v).Times(Finite(k)) == Finite3(v.Times(k))
  {
  }

  /** Mathf.Lerp on possibly non-finite values: `a + (b - a) * clamp01(t)`. */
  function FloatLerp(a: Float, b: Float, t: real): (r: Float)
    ensures a.Finite? && b.Finite? ==> r == Finite(Lerp(a.value, b.value, t))
    ensures b.NaN? ==> r.NaN?
  {
    Add(a, Mul(Add(b, Neg(a)), Finite(Clamp01(t))))
  }

  /** Vector3.Lerp on possibly non-finite components. */
  function FloatVector3Lerp(a: FloatVector3, b: FloatVector3, t: real): FloatVector3 {
    FloatVector3(FloatLerp(a.x, b.x, t), FloatLerp(a.y, b.y, t), FloatLerp(a.z, b.z, t))
  }
}
