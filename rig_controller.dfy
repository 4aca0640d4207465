/** RigController.cs: the older rig-based controller. The six rig weights
    are clamped products of a personality factor and two effort-driven
    factors; the leg, torso and head targets oscillate around their rest
    positions; the divisions by the anticipation and overshoot times are
    guarded against results that are not finite.

    The sines, cosines and powers of one frame come in as a FrameSamples
    value; the arm rigs are not part of this model. */
module RigController {
  import opened UnityMath
  import opened FloatModel
  import opened PersonalityToEffort
  import opened MotionParameter

  /** Vector3.forward and Vector3.back. */
  const Forward: Vector3 := Vector3(0.0, 0.0, 1.0)
  const Back: Vector3 := Vector3(0.0, 0.0, -1.0)

  // ---------------------------------------------------------------------
  // Guards against values that are not finite

  /** SafeFloat: NaN and both infinities become the fallback, a finite value
      is kept, so the result is always finite. */
  function SafeFloat(value: Float, defaultValue: real): (r: Float)
    ensures r.Finite?
    ensures value.Finite? ==> r == value
    ensures !value.Finite? ==> r == Finite(defaultValue)
  {
    if value.NaN? || value.Infinity? then Finite(defaultValue) else value
  }

  /** Guarding an already guarded value changes nothing, whatever the second
      fallback. */
  lemma SafeFloatIdempotent(value: Float, defaultValue: real, otherDefault: real)
    ensures SafeFloat(SafeFloat(value, defaultValue), otherDefault) == SafeFloat(value, defaultValue)
  {
  }

  /** SafeVector3: SafeFloat on each component with fallback 0. */
  function SafeVector3(v: FloatVector3): (r: Vector3)
    ensures Finite(r.x) == SafeFloat(v.x, 0.0)
    ensures Finite(r.y) == SafeFloat(v.y, 0.0)
    ensures Finite(r.z) == SafeFloat(v.z, 0.0)
  {
    Vector3(SafeFloat(v.x, 0.0).value, SafeFloat(v.y, 0.0).value, SafeFloat(v.z, 0.0).value)
  }

  /** A finite vector passes SafeVector3 unchanged; any component that is not
      finite comes out as 0. */
  lemma SafeVector3KeepsFinite(v: FloatVector3)
    ensures v.IsFinite() ==> Finite3(SafeVector3(v)) == v
    ensures !v.x.Finite? ==> SafeVector3(v).x == 0.0
    ensures !v.y.Finite? ==> SafeVector3(v).y == 0.0
    ensures !v.z.Finite? ==> SafeVector3(v).z == 0.0
  {
  }

  // ---------------------------------------------------------------------
  // Settings

  datatype GeneralSettings = GeneralSettings(speedMultiplier: real, movementIntensity: real)

  datatype ArmSettings = ArmSettings(
    armSwingAmount: real, armSwingFrequency: real, minArmSpread: real, maxArmSpread: real,
    wristBendInfluence: real, wristTwistInfluence: real, elbowTwistInfluence: real,
    elbowDisplacementInfluence: real)
  {
    /** The inspector sliders of the spread limits. */
    predicate SpreadInInspectorRange() {
      0.1 <= minArmSpread <= 0.5 && 0.5 <= maxArmSpread <= 1.0
    }
  }

  datatype TorsoSettings = TorsoSettings(
    torsoRotationInfluence: real, enclosingSpreadingInfluence: real,
    retreatingAdvancingInfluence: real, anticipationOvershootInfluence: real)

  /** The lower and upper end of each effort's multiplier. */
  datatype EffortInfluence = EffortInfluence(
    flowMin: real, flowMax: real, spaceMin: real, spaceMax: real,
    weightMin: real, weightMax: real, timeMin: real, timeMax: real)
  {
    /** Every end lies on its inspector slider, [0.8, 1.2]. */
    predicate InInspectorRange() {
      && 0.8 <= flowMin <= 1.2 && 0.8 <= flowMax <= 1.2
      && 0.8 <= spaceMin <= 1.2 && 0.8 <= spaceMax <= 1.2
      && 0.8 <= weightMin <= 1.2 && 0.8 <= weightMax <= 1.2
      && 0.8 <= timeMin <= 1.2 && 0.8 <= timeMax <= 1.2
    }
  }

  // The field initialisers of the settings.
  const DefaultGeneralSettings: GeneralSettings := GeneralSettings(1.0, 0.1)
  const DefaultArmSettings: ArmSettings := ArmSettings(0.2, 1.0, 0.3, 0.7, 0.02, 0.02, 0.02, 0.02)
  const DefaultTorsoSettings: TorsoSettings := TorsoSettings(0.1, 0.1, 0.1, 0.05)
  const DefaultEffortInfluence: EffortInfluence := EffortInfluence(0.9, 1.1, 0.95, 1.05, 0.9, 1.1, 0.9, 1.1)

  // ---------------------------------------------------------------------
  // Rig weights

  /** ClampArmSpread: the spread clamped to the arm settings' limits. */
  function ClampArmSpread(spread: real, arm: ArmSettings): (r: real)
    ensures arm.minArmSpread <= arm.maxArmSpread ==> arm.minArmSpread <= r <= arm.maxArmSpread
    ensures arm.minArmSpread <= spread <= arm.maxArmSpread ==> r == spread
  {
    Clamp(spread, arm.minArmSpread, arm.maxArmSpread)
  }

  /** A trait in [-1,1] mapped to [0,1]. */
  function Normalized(x: real): real {
    (x + 1.0) / 2.0
  }

  /** The common shape of the four weights: a base factor times two
      multipliers, clamped to [0,1]. */
  function ClampedProduct(base: real, first: real, second: real): (r: real)
    ensures 0.0 <= r <= 1.0
  {
    Clamp01(base * first * second)
  }

  /** CalculateArmWeight: the clamped spread of the normalised extraversion,
      scaled by the flow and space multipliers. */
  function ArmWeight(personality: PersonalityTraits, efforts: EffortComponents,
                     arm: ArmSettings, influence: EffortInfluence): real
  {
    ClampedProduct(ClampArmSpread(Normalized(personality.extraversion), arm),
                   Lerp(influence.flowMin, influence.flowMax, Normalized(efforts.flow)),
                   Lerp(influence.spaceMin, influence.spaceMax, Normalized(efforts.space)))
  }

  /** CalculateLegWeight: the normalised conscientiousness scaled by the
      weight multiplier and by the time multiplier, whose ends are swapped
      so that a higher time effort lowers the weight. */
  function LegWeight(personality: PersonalityTraits, efforts: EffortComponents,
                     influence: EffortInfluence): real
  {
    ClampedProduct(Normalized(personality.conscientiousness),
                   Lerp(influence.weightMin, influence.weightMax, Normalized(efforts.weight)),
                   Lerp(influence.timeMax, influence.timeMin, Normalized(efforts.time)))
  }

  /** CalculateTorsoWeight: the normalised openness scaled by the space
      multiplier and by the flow multiplier with its ends swapped. */
  function TorsoWeight(personality: PersonalityTraits, efforts: EffortComponents,
                       influence: EffortInfluence): real
  {
    ClampedProduct(Normalized(personality.openness),
                   Lerp(influence.spaceMin, influence.spaceMax, Normalized(efforts.space)),
                   Lerp(influence.flowMax, influence.flowMin, Normalized(efforts.flow)))
  }

  /** CalculateHeadWeight: the normalised extraversion scaled by a fixed
      neuroticism multiplier in [0.9, 1.1] and by the time multiplier with
      its ends swapped. */
  function HeadWeight(personality: PersonalityTraits, efforts: EffortComponents,
                      influence: EffortInfluence): real
  {
    ClampedProduct(Normalized(personality.extraversion),
                   Lerp(0.9, 1.1, Normalized(personality.neuroticism)),
                   Lerp(influence.timeMax, influence.timeMin, Normalized(efforts.time)))
  }

  /** Each effort multiplier lies on the inspector slider whichever way its
      ends are ordered. */
  lemma MultiplierInRange(lo: real, hi: real, t: real)
    requires 0.8 <= lo <= 1.2 && 0.8 <= hi <= 1.2
    ensures 0.8 <= Lerp(lo, hi, t) <= 1.2
  {
    if lo <= hi {
      LerpBounds(lo, hi, t);
    } else {
      LerpBoundsReversed(lo, hi, t);
    }
  }

  /** A clamped product of three non-negative factors never decreases when
      any factor grows. */
  lemma ClampedProductMonotone(b1: real, b2: real, f1: real, f2: real, g1: real, g2: real)
    requires 0.0 <= b1 <= b2 && 0.0 <= f1 <= f2 && 0.0 <= g1 <= g2
    ensures ClampedProduct(b1, f1, g1) <= ClampedProduct(b2, f2, g2)
  {
    ProductMonotone(b1, b2, f1, f2);
    NonNegativeProduct(b1, f1);
    ProductMonotone(b1 * f1, b2 * f2, g1, g2);
    ClampMonotone(b1 * f1 * g1, b2 * f2 * g2, 0.0, 1.0);
  }

  /** A product of two non-negative factors never decreases when either grows. */
  lemma ProductMonotone(x1: real, x2: real, y1: real, y2: real)
    requires 0.0 <= x1 <= x2 && 0.0 <= y1 <= y2
    ensures x1 * y1 <= x2 * y2
  {
    MulMonotone(x1, y1, y2);
    MulMonotone(y2, x1, x2);
  }

  /** With the spread limits and the multipliers on their inspector sliders
      the arm rig is never switched off: its weight is at least
      0.1 * 0.8 * 0.8. */
  lemma ArmWeightFloor(personality: PersonalityTraits, efforts: EffortComponents,
                       arm: ArmSettings, influence: EffortInfluence)
    requires arm.SpreadInInspectorRange() && influence.InInspectorRange()
    ensures 0.064 <= ArmWeight(personality, efforts, arm, influence)
  {
    var spread := ClampArmSpread(Normalized(personality.extraversion), arm);
    var flow := Lerp(influence.flowMin, influence.flowMax, Normalized(efforts.flow));
    var space := Lerp(influence.spaceMin, influence.spaceMax, Normalized(efforts.space));
    MultiplierInRange(influence.flowMin, influence.flowMax, Normalized(efforts.flow));
    MultiplierInRange(influence.spaceMin, influence.spaceMax, Normalized(efforts.space));
    ClampedProductMonotone(0.1, spread, 0.8, flow, 0.8, space);
  }

  /** A more extraverted personality never gets a lower arm weight. */
  lemma ArmWeightRisesWithExtraversion(p1: PersonalityTraits, p2: PersonalityTraits,
                                       efforts: EffortComponents, arm: ArmSettings,
                                       influence: EffortInfluence)
    requires p1.extraversion <= p2.extraversion
    requires arm.SpreadInInspectorRange() && influence.InInspectorRange()
    ensures ArmWeight(p1, efforts, arm, influence) <= ArmWeight(p2, efforts, arm, influence)
  {
    var flow := Lerp(influence.flowMin, influence.flowMax, Normalized(efforts.flow));
    var space := Lerp(influence.spaceMin, influence.spaceMax, Normalized(efforts.space));
    MultiplierInRange(influence.flowMin, influence.flowMax, Normalized(efforts.flow));
    MultiplierInRange(influence.spaceMin, influence.spaceMax, Normalized(efforts.space));
    ClampMonotone(Normalized(p1.extraversion), Normalized(p2.extraversion), arm.minArmSpread, arm.maxArmSpread);
    ClampedProductMonotone(ClampArmSpread(Normalized(p1.extraversion), arm),
                           ClampArmSpread(Normalized(p2.extraversion), arm), flow, flow, space, space);
  }

  /** The swapped time ends of the leg weight: when the time multiplier's
      lower end is not above its upper end, a higher time effort never
      raises the leg weight, and a more conscientious personality never
      lowers it. */
  lemma LegWeightFallsAsTimeRises(p1: PersonalityTraits, p2: PersonalityTraits,
                                  e1: EffortComponents, e2: EffortComponents,
                                  influence: EffortInfluence)
    requires p1.InUnitRange() && p1.conscientiousness <= p2.conscientiousness
    requires e1.weight == e2.weight && e1.time <= e2.time
    requires influence.InInspectorRange() && influence.timeMin <= influence.timeMax
    ensures LegWeight(p1, e2, influence) <= LegWeight(p2, e1, influence)
  {
    var weight := Lerp(influence.weightMin, influence.weightMax, Normalized(e1.weight));
    var time1 := Lerp(influence.timeMax, influence.timeMin, Normalized(e1.time));
    var time2 := Lerp(influence.timeMax, influence.timeMin, Normalized(e2.time));
    MultiplierInRange(influence.weightMin, influence.weightMax, Normalized(e1.weight));
    MultiplierInRange(influence.timeMax, influence.timeMin, Normalized(e2.time));
    LerpAntitone(influence.timeMax, influence.timeMin, Normalized(e1.time), Normalized(e2.time));
    ClampedProductMonotone(Normalized(p1.conscientiousness), Normalized(p2.conscientiousness),
                           weight, weight, time2, time1);
  }

  /** Likewise the torso weight: more flow never raises it when the flow
      multiplier's lower end is not above its upper end. */
  lemma TorsoWeightFallsAsFlowRises(personality: PersonalityTraits, e1: EffortComponents, e2: EffortComponents,
                                    influence: EffortInfluence)
    requires personality.InUnitRange()
    requires e1.space == e2.space && e1.flow <= e2.flow
    requires influence.InInspectorRange() && influence.flowMin <= influence.flowMax
    ensures TorsoWeight(personality, e2, influence) <= TorsoWeight(personality, e1, influence)
  {
    var space := Lerp(influence.spaceMin, influence.spaceMax, Normalized(e1.space));
    var flow1 := Lerp(influence.flowMax, influence.flowMin, Normalized(e1.flow));
    var flow2 := Lerp(influence.flowMax, influence.flowMin, Normalized(e2.flow));
    MultiplierInRange(influence.spaceMin, influence.spaceMax, Normalized(e1.space));
    MultiplierInRange(influence.flowMax, influence.flowMin, Normalized(e2.flow));
    LerpAntitone(influence.flowMax, influence.flowMin, Normalized(e1.flow), Normalized(e2.flow));
    var b := Normalized(personality.openness);
    ClampedProductMonotone(b, b, space, space, flow2, flow1);
  }

  /** The weights of the six rigs. */
  datatype RigWeights = RigWeights(
    leftArm: real, rightArm: real, leftLeg: real, rightLeg: real, torso: real, head: real)
  {
    predicate InUnitRange() {
      && 0.0 <= leftArm <= 1.0 && 0.0 <= rightArm <= 1.0
      && 0.0 <= leftLeg <= 1.0 && 0.0 <= rightLeg <= 1.0
      && 0.0 <= torso <= 1.0 && 0.0 <= head <= 1.0
    }
  }

  /** The weights UpdateRigWeights assigns: both arms share one weight,
      both legs share one weight, and every weight lies in [0,1]. */
  function WeightsOf(personality: PersonalityTraits, efforts: EffortComponents,
                     arm: ArmSettings, influence: EffortInfluence): (w: RigWeights)
    ensures w.InUnitRange()
    ensures w.leftArm == w.rightArm == ArmWeight(personality, efforts, arm, influence)
    ensures w.leftLeg == w.rightLeg == LegWeight(personality, efforts, influence)
  {
    var armWeight := ArmWeight(personality, efforts, arm, influence);
    var legWeight := LegWeight(personality, efforts, influence);
    RigWeights(armWeight, armWeight, legWeight, legWeight,
               TorsoWeight(personality, efforts, influence), HeadWeight(personality, efforts, influence))
  }

  /** The animator speed UpdateRigs sets: one fifth of the way from 1 to the
      animation speed, times the speed multiplier. */
  function RigAnimatorSpeed(animationSpeed: real, speedMultiplier: real): real {
    Lerp(1.0, animationSpeed, 0.2) * speedMultiplier
  }

  /** An animation speed between `low` and `high` and a non-negative
      multiplier keep the animator speed between the multiplier scaled by one
      fifth of the way from 1 to `low` and by one fifth of the way to `high`. */
  lemma RigAnimatorSpeedBounds(animationSpeed: real, low: real, high: real, speedMultiplier: real)
    requires low <= animationSpeed <= high && 0.0 <= speedMultiplier
    ensures (0.8 + 0.2 * low) * speedMultiplier <= RigAnimatorSpeed(animationSpeed, speedMultiplier)
    ensures RigAnimatorSpeed(animationSpeed, speedMultiplier) <= (0.8 + 0.2 * high) * speedMultiplier
  {
    var l := Lerp(1.0, animationSpeed, 0.2);
    assert l == 0.8 + 0.2 * animationSpeed;
    MulMonotone(speedMultiplier, 0.8 + 0.2 * low, l);
    MulMonotone(speedMultiplier, l, 0.8 + 0.2 * high);
  }

  /** For efforts in [-1,1] the animation speed lies in [0.086, 1.03], so the
      animator speed lies between 81.72% and 100.6% of a non-negative
      multiplier. */
  lemma RigAnimatorSpeedForEfforts(e: EffortComponents, speedMultiplier: real)
    requires e.InUnitRange() && 0.0 <= speedMultiplier
    ensures 0.8172 * speedMultiplier <= RigAnimatorSpeed(MotionParametersOf(e).animationSpeed, speedMultiplier)
    ensures RigAnimatorSpeed(MotionParametersOf(e).animationSpeed, speedMultiplier) <= 1.006 * speedMultiplier
  {
    TimingParameterRanges(e);
    RigAnimatorSpeedBounds(MotionParametersOf(e).animationSpeed, 0.086, 1.03, speedMultiplier);
  }

  /** The upper bound is reached: heavy, sudden, free efforts give the
      animation speed 1.03, and the animator then runs faster than the
      multiplier. */
  lemma RigAnimatorSpeedCanExceedMultiplier()
    ensures MotionParametersOf(EffortComponents(0.0, 1.0, 1.0, 1.0)).animationSpeed == 1.03
    ensures RigAnimatorSpeed(MotionParametersOf(EffortComponents(0.0, 1.0, 1.0, 1.0)).animationSpeed, 1.0) == 1.006
  {
    var e := EffortComponents(0.0, 1.0, 1.0, 1.0);
    assert CalculateParameter(0, e) == 1.03;
  }

  // ---------------------------------------------------------------------
  // Per-frame targets

  /** The sines and the power one frame reads. The legs, the torso and the
      head compute the same anticipation and overshoot angles, so they share
      one sample of each; a sample is only used when its angle is finite.
      - anticipationSin, overshootSin: sin(t * 2 * PI / period);
      - stepSin, stepPow: sin(t * PI) and its power by the time exponent;
      - torsoSin: sin(t * torsoRotationFrequency);
      - headSin, headCos: sin(t * headRotationFrequency) and
        cos(t * headRotationFrequency * 0.7). */
  datatype FrameSamples = FrameSamples(
    anticipationSin: real, overshootSin: real, stepSin: real, stepPow: real,
    torsoSin: real, headSin: real, headCos: real)

  /** The anticipation or overshoot factor of the legs and the head as
      the source computes it, on values that may not be finite:
      SafeFloat(sin(t * 2 * PI / SafeFloat(period, 0.01)) * velocity * scale * intensity).
      A zero period divides by zero, the sine of the result is NaN and the
      guard returns 0; any other period gives the plain product, which is
      GuardedOscillation. */
  function OscillationFactor(time: real, period: real, sinSample: real, velocity: real,
                             scale: real, intensity: real): (r: real)
    ensures period == 0.0 ==> r == 0.0
    ensures period != 0.0 ==> r == sinSample * velocity * scale * intensity
    ensures r == GuardedOscillation(period, sinSample, velocity, scale, intensity)
  {
    var angle := Div(Finite(time * 2.0 * Pi), SafeFloat(Finite(period), 0.01));
    SafeFloat(Mul(Mul(Mul(Sin(angle, sinSample), Finite(velocity)), Finite(scale)), Finite(intensity)), 0.0).value
  }

  /** OscillationFactor in closed form, the form the targets below use. */
  function GuardedOscillation(period: real, sinSample: real, velocity: real, scale: real, intensity: real): real {
    if period == 0.0 then 0.0 else sinSample * velocity * scale * intensity
  }

  /** The forward push of an anticipation factor and the backward pull of
      an overshoot factor, scaled: a move along the forward axis only. */
  function Sway(anticipationFactor: real, overshootFactor: real, scale: real): Vector3 {
    Vector3(0.0, 0.0, (anticipationFactor - overshootFactor) * scale)
  }

  /** Sway is the source's (forward * anticipation + back * overshoot) * scale. */
  lemma SwayIsForwardPlusBack(anticipationFactor: real, overshootFactor: real, scale: real)
    ensures Sway(anticipationFactor, overshootFactor, scale)
         == Forward.Times(anticipationFactor).Plus(Back.Times(overshootFactor)).Times(scale)
  {
    var v := Forward.Times(anticipationFactor).Plus(Back.Times(overshootFactor));
    assert v == Vector3(0.0, 0.0, anticipationFactor - overshootFactor);
  }

  /** The leg's time effect as the source computes it:
      SafeFloat(Pow(sin(t * PI), SafeFloat(timeExponent, 1))). A negative
      sine with an exponent that is not a whole number has no real power
      (NaN), zero to a negative power is infinite; both fall back to 0,
      which is StepEffect. */
  function TimeEffect(time: real, timeExponent: real, s: FrameSamples): (r: real)
    ensures s.stepSin < 0.0 && timeExponent.Floor as real != timeExponent ==> r == 0.0
    ensures 0.0 < s.stepSin ==> r == s.stepPow
    ensures r == StepEffect(timeExponent, s)
  {
    SafeFloat(Pow(Sin(Finite(time * Pi), s.stepSin), SafeFloat(Finite(timeExponent), 1.0), s.stepPow), 0.0).value
  }

  /** TimeEffect in closed form, the form the leg target uses. */
  function StepEffect(timeExponent: real, s: FrameSamples): real {
    if s.stepSin < 0.0 && timeExponent.Floor as real != timeExponent then 0.0
    else if s.stepSin == 0.0 && timeExponent < 0.0 then 0.0
    else s.stepPow
  }

  /** UpdateLegRig's new target: the rest position raised by the
      sinking/rising factor, swayed by the guarded anticipation and
      overshoot factors and stepped forward or back by `side`. (The source
      also passes the rise, the sway and the step through SafeFloat and
      SafeVector3; each is a product of finite values, which the guards
      keep.) */
  function LegTarget(initialTargetPos: Vector3, mp: MotionParameters, sq: ShapeQualities,
                     movementIntensity: real, time: real, side: real, s: FrameSamples): Vector3
  {
    var rise := sq.sinkingRisingFactor * 0.05 * movementIntensity;
    var anticipationFactor := GuardedOscillation(mp.anticipationTime, s.anticipationSin,
                                                 mp.anticipationVelocity, 0.25, movementIntensity);
    var overshootFactor := GuardedOscillation(mp.overshootTime, s.overshootSin,
                                              mp.overshootVelocity, 0.25, movementIntensity);
    var step := StepEffect(mp.timeExponent, s) * 0.05 * side * movementIntensity;
    initialTargetPos.Plus(Vector3(0.0, rise, 0.0))
                    .Plus(Sway(anticipationFactor, overshootFactor, 0.025))
                    .Plus(Vector3(0.0, 0.0, step))
  }

  /** The legs never move sideways; they rise by the sinking/rising factor;
      forward they move by the sway, which is 0 for a zero period, plus the
      step, taken in opposite directions by the two sides. */
  lemma LegTargetOffsets(initialTargetPos: Vector3, mp: MotionParameters, sq: ShapeQualities,
                         movementIntensity: real, time: real, side: real, s: FrameSamples)
    ensures var p := LegTarget(initialTargetPos, mp, sq, movementIntensity, time, side, s);
      var a := if mp.anticipationTime == 0.0 then 0.0
               else s.anticipationSin * mp.anticipationVelocity * 0.25 * movementIntensity;
      var o := if mp.overshootTime == 0.0 then 0.0
               else s.overshootSin * mp.overshootVelocity * 0.25 * movementIntensity;
      && p.x == initialTargetPos.x
      && p.y == initialTargetPos.y + sq.sinkingRisingFactor * 0.05 * movementIntensity
      && p.z == initialTargetPos.z + (a - o) * 0.025
                + StepEffect(mp.timeExponent, s) * 0.05 * side * movementIntensity
  {
  }

  /** While sin(t * PI) is negative and the time exponent is not a whole
      number the power is NaN, the step falls back to 0, and both legs sit
      at the same forward offset from their rest positions. */
  lemma LegsPauseOnNegativeStepSine(leftRest: Vector3, rightRest: Vector3, mp: MotionParameters,
                                    sq: ShapeQualities, movementIntensity: real, time: real, s: FrameSamples)
    requires s.stepSin < 0.0 && mp.timeExponent.Floor as real != mp.timeExponent
    ensures LegTarget(leftRest, mp, sq, movementIntensity, time, 1.0, s).z - leftRest.z
         == LegTarget(rightRest, mp, sq, movementIntensity, time, -1.0, s).z - rightRest.z
  {
    assert StepEffect(mp.timeExponent, s) == 0.0;
    LegTargetOffsets(leftRest, mp, sq, movementIntensity, time, 1.0, s);
    LegTargetOffsets(rightRest, mp, sq, movementIntensity, time, -1.0, s);
  }

  /** UpdateHeadRig's new target before smoothing: the rest position nodded
      by the head rotation samples and swayed by the guarded anticipation
      and overshoot factors. (The source also passes the nod through
      SafeFloat; the nod is a product of finite values, which SafeFloat
      keeps.) */
  function HeadTarget(initialTargetPos: Vector3, mp: MotionParameters, movementIntensity: real,
                      time: real, s: FrameSamples): Vector3
  {
    var headRotationX := s.headSin * mp.headRotationMagnitude * movementIntensity * 2.0;
    var headRotationY := s.headCos * mp.headRotationMagnitude * 1.4 * movementIntensity;
    var anticipationFactor := GuardedOscillation(mp.anticipationTime, s.anticipationSin,
                                                 mp.anticipationVelocity, 0.3, movementIntensity);
    var overshootFactor := GuardedOscillation(mp.overshootTime, s.overshootSin,
                                              mp.overshootVelocity, 0.3, movementIntensity);
    initialTargetPos.Plus(Vector3(headRotationX * 0.1, headRotationY * 0.1, 0.0))
                    .Plus(Sway(anticipationFactor, overshootFactor, 0.05))
  }

  /** A zero anticipation and overshoot time leave the head only nodding:
      its forward offset from rest is 0. */
  lemma HeadIgnoresZeroPeriods(initialTargetPos: Vector3, mp: MotionParameters, movementIntensity: real,
                               time: real, s: FrameSamples)
    requires mp.anticipationTime == 0.0 && mp.overshootTime == 0.0
    ensures HeadTarget(initialTargetPos, mp, movementIntensity, time, s).z == initialTargetPos.z
  {
  }

  /** The torso's anticipation or overshoot factor as UpdateTorsoRig
      computes it: sin(t * 2 * PI / period) * velocity, with no guard, so a
      zero period makes it NaN. */
  function TorsoOscillationAsWritten(time: real, period: real, sinSample: real, velocity: real): (r: Float)
    ensures period == 0.0 ==> r == NaN
    ensures period != 0.0 ==> r == Finite(sinSample * velocity)
  {
    Mul(Sin(Div(Finite(time * 2.0 * Pi), Finite(period)), sinSample), Finite(velocity))
  }

  /** The torso's rest position moved sideways by the torso rotation and
      the enclosing/spreading factor and forward by the
      retreating/advancing factor. */
  function TorsoShifted(initialTargetPos: Vector3, mp: MotionParameters, sq: ShapeQualities,
                        torso: TorsoSettings, movementIntensity: real, s: FrameSamples): Vector3
  {
    var torsoRotation := s.torsoSin * mp.torsoRotationMagnitude * torso.torsoRotationInfluence;
    Vector3(initialTargetPos.x + torsoRotation * movementIntensity
              + sq.enclosingSpreadingFactor * torso.enclosingSpreadingInfluence * movementIntensity,
            initialTargetPos.y,
            initialTargetPos.z + sq.retreatingAdvancingFactor * torso.retreatingAdvancingInfluence * movementIntensity)
  }

  /** UpdateTorsoRig's new target as written: the shifted position plus the
      unguarded sway. */
  function TorsoTargetAsWritten(initialTargetPos: Vector3, mp: MotionParameters, sq: ShapeQualities,
                                torso: TorsoSettings, movementIntensity: real, time: real,
                                s: FrameSamples): FloatVector3
  {
    var a := TorsoOscillationAsWritten(time, mp.anticipationTime, s.anticipationSin, mp.anticipationVelocity);
    var o := TorsoOscillationAsWritten(time, mp.overshootTime, s.overshootSin, mp.overshootVelocity);
    var sway := Finite3(Forward).Times(a).Plus(Finite3(Back).Times(o))
                  .Times(Finite(torso.anticipationOvershootInfluence)).Times(Finite(movementIntensity));
    Finite3(TorsoShifted(initialTargetPos, mp, sq, torso, movementIntensity, s)).Plus(sway)
  }

  /** As written, a zero anticipation time makes every component of the
      torso target NaN (0 * NaN is NaN, so even the sideways and vertical
      components are lost), and the smoothed position written to the torso
      target is NaN as well, wherever it was before. */
  lemma TorsoTargetNaNWhenAnticipationTimeZero(current: Vector3, initialTargetPos: Vector3,
                                               mp: MotionParameters, sq: ShapeQualities, torso: TorsoSettings,
                                               movementIntensity: real, time: real, s: FrameSamples,
                                               deltaTime: real)
    requires mp.anticipationTime == 0.0
    ensures var p := TorsoTargetAsWritten(initialTargetPos, mp, sq, torso, movementIntensity, time, s);
      p.x.NaN? && p.y.NaN? && p.z.NaN?
    ensures var q := FloatVector3Lerp(Finite3(current),
                                      TorsoTargetAsWritten(initialTargetPos, mp, sq, torso, movementIntensity, time, s),
                                      deltaTime * 5.0);
      q.x.NaN? && q.y.NaN? && q.z.NaN?
  {
    var a := TorsoOscillationAsWritten(time, mp.anticipationTime, s.anticipationSin, mp.anticipationVelocity);
    assert a == NaN;
    var pushed := Finite3(Forward).Times(a);
    assert pushed.x.NaN? && pushed.y.NaN? && pushed.z.NaN?;
  }

  /** The anticipation time reaches 0 for a personality inside the unit
      range: agreeableness 31/49 with every other trait 0 gives weight and
      time efforts of -31/49, and 0.031 - 0.049 * 31/49 == 0. */
  lemma AnticipationTimeReachesZero()
    ensures var t := PersonalityTraits(0.0, 0.0, 0.0, 31.0 / 49.0, 0.0);
      && t.InUnitRange()
      && MotionParametersOf(EffortsOf(ClampTraits(t))).anticipationTime == 0.0
  {
    var a := 31.0 / 49.0;
    var t := PersonalityTraits(0.0, 0.0, 0.0, a, 0.0);
    assert ClampTraits(t) == t;
    AgreeablenessOnlyEfforts(a);
    AnticipationTimeOfAgreeableness();
  }

  /** Traits whose only non-zero entry is agreeableness give weight and time
      efforts of minus the agreeableness and no space or flow. */
  lemma AgreeablenessOnlyEfforts(a: real)
    ensures EffortsOf(PersonalityTraits(0.0, 0.0, 0.0, a, 0.0)) == EffortComponents(0.0, -a, -a, 0.0)
  {
    assert PersonalityTraits(0.0, 0.0, 0.0, a, 0.0).Values() == [0.0, 0.0, 0.0, a, 0.0];
    AgreeablenessOnlyRow(EffortMatrix[0], a);
    AgreeablenessOnlyRow(EffortMatrix[1], a);
    AgreeablenessOnlyRow(EffortMatrix[2], a);
    AgreeablenessOnlyRow(EffortMatrix[3], a);
  }

  /** Row 3 of the regression table at those efforts: 0.031 - 0.049 * 31/49 == 0. */
  lemma AnticipationTimeOfAgreeableness()
    ensures var a := 31.0 / 49.0;
      MotionParametersOf(EffortComponents(0.0, -a, -a, 0.0)).anticipationTime == 0.0
  {
    var a := 31.0 / 49.0;
    var e := EffortComponents(0.0, -a, -a, 0.0);
    assert MotionCoefficients[3] == [0.031, -0.002, 0.041, 0.008, -0.002];
    assert Affine(MotionCoefficients[3], e) == 0.031 - 0.049 * a;
  }

  /** A row reduced against traits whose only non-zero entry is
      agreeableness gives the agreeableness product. */
  lemma AgreeablenessOnlyRow(row: seq<real>, a: real)
    requires |row| == 5
    ensures EffortComponent(row, [0.0, 0.0, 0.0, a, 0.0]) == row[3] * a
  {
    var p := Products(row, [0.0, 0.0, 0.0, a, 0.0]);
    assert p[0] == 0.0 && p[1] == 0.0 && p[2] == 0.0 && p[3] == row[3] * a && p[4] == 0.0;
    assert p == [0.0, 0.0, 0.0, row[3] * a, 0.0];
    ReductionOfFourth(row[3] * a);
  }

  /** The torso's factor guarded as the legs' and the head's are: 0 for a
      zero period, the product otherwise. */
  function TorsoOscillation(period: real, sinSample: real, velocity: real): real {
    if period == 0.0 then 0.0 else sinSample * velocity
  }

  /** TorsoOscillation is the as-written factor passed through SafeFloat
      with fallback 0. */
  lemma TorsoOscillationIsGuarded(time: real, period: real, sinSample: real, velocity: real)
    ensures TorsoOscillation(period, sinSample, velocity)
         == SafeFloat(TorsoOscillationAsWritten(time, period, sinSample, velocity), 0.0).value
  {
  }

  /** UpdateTorsoRig's new target with the guard: always finite (it is a
      Vector3 of reals). */
  function TorsoTarget(initialTargetPos: Vector3, mp: MotionParameters, sq: ShapeQualities,
                       torso: TorsoSettings, movementIntensity: real, time: real, s: FrameSamples): Vector3
  {
    var a := TorsoOscillation(mp.anticipationTime, s.anticipationSin, mp.anticipationVelocity);
    var o := TorsoOscillation(mp.overshootTime, s.overshootSin, mp.overshootVelocity);
    var sway := Sway(a, o, torso.anticipationOvershootInfluence).Times(movementIntensity);
    TorsoShifted(initialTargetPos, mp, sq, torso, movementIntensity, s).Plus(sway)
  }

  /** The guard changes nothing while both periods are non-zero: there the
      guarded target is exactly the target as written. */
  lemma TorsoTargetAgreesAwayFromZeroPeriods(initialTargetPos: Vector3, mp: MotionParameters,
                                             sq: ShapeQualities, torso: TorsoSettings,
                                             movementIntensity: real, time: real, s: FrameSamples)
    requires mp.anticipationTime != 0.0 && mp.overshootTime != 0.0
    ensures TorsoTargetAsWritten(initialTargetPos, mp, sq, torso, movementIntensity, time, s)
         == Finite3(TorsoTarget(initialTargetPos, mp, sq, torso, movementIntensity, time, s))
  {
    var a := s.anticipationSin * mp.anticipationVelocity;
    var o := s.overshootSin * mp.overshootVelocity;
    assert TorsoOscillationAsWritten(time, mp.anticipationTime, s.anticipationSin, mp.anticipationVelocity) == Finite(a);
    assert TorsoOscillationAsWritten(time, mp.overshootTime, s.overshootSin, mp.overshootVelocity) == Finite(o);
    assert TorsoOscillation(mp.anticipationTime, s.anticipationSin, mp.anticipationVelocity) == a;
    assert TorsoOscillation(mp.overshootTime, s.overshootSin, mp.overshootVelocity) == o;
    var influence := torso.anticipationOvershootInfluence;
    var pushPull := Forward.Times(a).Plus(Back.Times(o));
    FiniteTimes(Forward, a);
    FiniteTimes(Back, o);
    FinitePlus(Forward.Times(a), Back.Times(o));
    FiniteTimes(pushPull, influence);
    FiniteTimes(pushPull.Times(influence), movementIntensity);
    SwayIsForwardPlusBack(a, o, influence);
    var shifted := TorsoShifted(initialTargetPos, mp, sq, torso, movementIntensity, s);
    FinitePlus(shifted, Sway(a, o, influence).Times(movementIntensity));
  }

  /** With a zero anticipation time the guarded torso target keeps the
      sideways and vertical position and only the overshoot sways it. */
  lemma TorsoTargetIgnoresZeroAnticipationTime(initialTargetPos: Vector3, mp: MotionParameters,
                                               sq: ShapeQualities, torso: TorsoSettings,
                                               movementIntensity: real, time: real, s: FrameSamples)
    requires mp.anticipationTime == 0.0
    ensures var p := TorsoTarget(initialTargetPos, mp, sq, torso, movementIntensity, time, s);
      var shifted := TorsoShifted(initialTargetPos, mp, sq, torso, movementIntensity, s);
      var o := if mp.overshootTime == 0.0 then 0.0 else s.overshootSin * mp.overshootVelocity;
      && p.x == shifted.x && p.y == shifted.y
      && p.z == shifted.z - o * torso.anticipationOvershootInfluence * movementIntensity
  {
  }

  // ---------------------------------------------------------------------
  // The rigs and the controller

  /** A leg rig: its target and hint, and their rest positions. */
  class LegRig {
    var initialTargetPos: Vector3
    var initialHintPos: Vector3
    var targetLocalPosition: Vector3
    var hintLocalPosition: Vector3

    constructor (target: Vector3, hint: Vector3)
      ensures targetLocalPosition == target && hintLocalPosition == hint
      ensures initialTargetPos == target && initialHintPos == hint
    {
      targetLocalPosition, hintLocalPosition := target, hint;
      initialTargetPos, initialHintPos := target, hint;
    }
  }

  /** The torso rig: its aim target and the target's rest position. */
  class TorsoRig {
    var initialTargetPos: Vector3
    var targetLocalPosition: Vector3

    constructor (target: Vector3)
      ensures targetLocalPosition == target && initialTargetPos == target
    {
      targetLocalPosition, initialTargetPos := target, target;
    }
  }

  /** The head rig: its aim target, the target's rest position and the
      neutral position in front of the character. */
  class HeadRig {
    var initialTargetPos: Vector3
    var neutralTargetPos: Vector3
    var targetLocalPosition: Vector3

    constructor (target: Vector3)
      ensures targetLocalPosition == target && initialTargetPos == target
      ensures neutralTargetPos == Zero3
    {
      targetLocalPosition, initialTargetPos := target, target;
      neutralTargetPos := Zero3;
    }
  }

  class RigController {
    var motionCalculator: MotionParameter
    var leftLeg: LegRig
    var rightLeg: LegRig
    var torso: TorsoRig
    var head: HeadRig

    var generalSettings: GeneralSettings
    var armSettings: ArmSettings
    var torsoSettings: TorsoSettings
    var effortInfluence: EffortInfluence
    /** The private intensity the legs and the head use (the torso uses
        generalSettings.movementIntensity). */
    var movementIntensity: real

    var timeSinceStart: real
    /** animator.speed */
    var animatorSpeed: real
    /** The rig.weight of each rig. */
    var weights: RigWeights

    constructor (calculator: MotionParameter, left: LegRig, right: LegRig, torsoRig: TorsoRig, headRig: HeadRig)
      ensures motionCalculator == calculator && leftLeg == left && rightLeg == right
      ensures torso == torsoRig && head == headRig
      ensures generalSettings == DefaultGeneralSettings && armSettings == DefaultArmSettings
      ensures torsoSettings == DefaultTorsoSettings && effortInfluence == DefaultEffortInfluence
      ensures movementIntensity == 0.1 && timeSinceStart == 0.0
      ensures animatorSpeed == 1.0 && weights == RigWeights(1.0, 1.0, 1.0, 1.0, 1.0, 1.0)
    {
      motionCalculator := calculator;
      leftLeg, rightLeg, torso, head := left, right, torsoRig, headRig;
      generalSettings := DefaultGeneralSettings;
      armSettings := DefaultArmSettings;
      torsoSettings := DefaultTorsoSettings;
      effortInfluence := DefaultEffortInfluence;
      movementIntensity := 0.1;
      timeSinceStart := 0.0;
      animatorSpeed := 1.0;
      weights := RigWeights(1.0, 1.0, 1.0, 1.0, 1.0, 1.0);
    }

    /** InitializeRigs: every target's current position becomes its rest
        position; the head's neutral position is two units ahead and 1.7
        up along the character's own axes. */
    method InitializeRigs(characterForward: Vector3, characterUp: Vector3)
      requires leftLeg != rightLeg
      modifies leftLeg`initialTargetPos, leftLeg`initialHintPos
      modifies rightLeg`initialTargetPos, rightLeg`initialHintPos
      modifies torso`initialTargetPos, head`initialTargetPos, head`neutralTargetPos
      ensures leftLeg.initialTargetPos == leftLeg.targetLocalPosition
      ensures leftLeg.initialHintPos == leftLeg.hintLocalPosition
      ensures rightLeg.initialTargetPos == rightLeg.targetLocalPosition
      ensures rightLeg.initialHintPos == rightLeg.hintLocalPosition
      ensures torso.initialTargetPos == torso.targetLocalPosition
      ensures head.initialTargetPos == head.targetLocalPosition
      ensures head.neutralTargetPos == characterForward.Times(2.0).Plus(characterUp.Times(1.7))
    {
      head.initialTargetPos := head.targetLocalPosition;
      head.neutralTargetPos := characterForward.Times(2.0).Plus(characterUp.Times(1.7));
      leftLeg.initialTargetPos := leftLeg.targetLocalPosition;
      leftLeg.initialHintPos := leftLeg.hintLocalPosition;
      rightLeg.initialTargetPos := rightLeg.targetLocalPosition;
      rightLeg.initialHintPos := rightLeg.hintLocalPosition;
      torso.initialTargetPos := torso.targetLocalPosition;
    }

    /** Update: the clock advances by exactly the frame time, then the rigs
        are updated at the new time. */
    method Update(deltaTime: real, s: FrameSamples)
      requires leftLeg != rightLeg
      modifies this`timeSinceStart, this`animatorSpeed, this`weights
      modifies leftLeg`targetLocalPosition, leftLeg`hintLocalPosition
      modifies rightLeg`targetLocalPosition, rightLeg`hintLocalPosition
      modifies torso`targetLocalPosition, head`targetLocalPosition
      ensures timeSinceStart == old(timeSinceStart) + deltaTime
      ensures animatorSpeed == RigAnimatorSpeed(motionCalculator.motionParameters.animationSpeed,
                                                generalSettings.speedMultiplier)
      ensures motionCalculator.shapeQualities.None? ==>
        && unchanged(this`weights, torso`targetLocalPosition, head`targetLocalPosition)
        && unchanged(leftLeg`targetLocalPosition, leftLeg`hintLocalPosition)
        && unchanged(rightLeg`targetLocalPosition, rightLeg`hintLocalPosition)
      ensures motionCalculator.shapeQualities.Some? ==>
        && leftLeg.targetLocalPosition
           == LegTarget(leftLeg.initialTargetPos, motionCalculator.motionParameters,
                        motionCalculator.shapeQualities.value, movementIntensity, timeSinceStart, 1.0, s)
        && rightLeg.targetLocalPosition
           == LegTarget(rightLeg.initialTargetPos, motionCalculator.motionParameters,
                        motionCalculator.shapeQualities.value, movementIntensity, timeSinceStart, -1.0, s)
        && leftLeg.hintLocalPosition == leftLeg.initialHintPos
        && rightLeg.hintLocalPosition == rightLeg.initialHintPos
        && torso.targetLocalPosition
           == Vector3Lerp(old(torso.targetLocalPosition),
                          TorsoTarget(torso.initialTargetPos, motionCalculator.motionParameters,
                                      motionCalculator.shapeQualities.value, torsoSettings,
                                      generalSettings.movementIntensity, timeSinceStart, s),
                          deltaTime * 5.0)
        && head.targetLocalPosition
           == Vector3Lerp(old(head.targetLocalPosition),
                          HeadTarget(head.initialTargetPos, motionCalculator.motionParameters,
                                     movementIntensity, timeSinceStart, s),
                          deltaTime * 5.0)
        && weights == WeightsOf(motionCalculator.effortConverter.personalityTraits,
                                motionCalculator.effortConverter.effortComponents, armSettings, effortInfluence)
    {
      timeSinceStart := timeSinceStart + deltaTime;
      UpdateRigs(deltaTime, s);
    }

    /** UpdateRigs: the animator speed, then (when the shape qualities
        exist) both legs, the torso, the head and the weights. Without shape
        qualities UpdateLegRig dereferences a missing object and the frame's
        update stops after the animator speed. */
    method UpdateRigs(deltaTime: real, s: FrameSamples)
      requires leftLeg != rightLeg
      modifies this`animatorSpeed, this`weights
      modifies leftLeg`targetLocalPosition, leftLeg`hintLocalPosition
      modifies rightLeg`targetLocalPosition, rightLeg`hintLocalPosition
      modifies torso`targetLocalPosition, head`targetLocalPosition
      ensures animatorSpeed == RigAnimatorSpeed(motionCalculator.motionParameters.animationSpeed,
                                                generalSettings.speedMultiplier)
      ensures motionCalculator.shapeQualities.None? ==>
        && unchanged(this`weights, torso`targetLocalPosition, head`targetLocalPosition)
        && unchanged(leftLeg`targetLocalPosition, leftLeg`hintLocalPosition)
        && unchanged(rightLeg`targetLocalPosition, rightLeg`hintLocalPosition)
      ensures motionCalculator.shapeQualities.Some? ==>
        && leftLeg.targetLocalPosition
           == LegTarget(leftLeg.initialTargetPos, motionCalculator.motionParameters,
                        motionCalculator.shapeQualities.value, movementIntensity, timeSinceStart, 1.0, s)
        && rightLeg.targetLocalPosition
           == LegTarget(rightLeg.initialTargetPos, motionCalculator.motionParameters,
                        motionCalculator.shapeQualities.value, movementIntensity, timeSinceStart, -1.0, s)
        && leftLeg.hintLocalPosition == leftLeg.initialHintPos
        && rightLeg.hintLocalPosition == rightLeg.initialHintPos
        && torso.targetLocalPosition
           == Vector3Lerp(old(torso.targetLocalPosition),
                          TorsoTarget(torso.initialTargetPos, motionCalculator.motionParameters,
                                      motionCalculator.shapeQualities.value, torsoSettings,
                                      generalSettings.movementIntensity, timeSinceStart, s),
                          deltaTime * 5.0)
        && head.targetLocalPosition
           == Vector3Lerp(old(head.targetLocalPosition),
                          HeadTarget(head.initialTargetPos, motionCalculator.motionParameters,
                                     movementIntensity, timeSinceStart, s),
                          deltaTime * 5.0)
        && weights == WeightsOf(motionCalculator.effortConverter.personalityTraits,
                                motionCalculator.effortConverter.effortComponents, armSettings, effortInfluence)
    {
      var mp := motionCalculator.motionParameters;
      var sq := motionCalculator.shapeQualities;
      animatorSpeed := RigAnimatorSpeed(mp.animationSpeed, generalSettings.speedMultiplier);
      if sq.None? {
        return;
      }
      UpdateLegRig(leftLeg, mp, sq.value, 1.0, s);
      UpdateLegRig(rightLeg, mp, sq.value, -1.0, s);
      UpdateTorsoRig(mp, sq.value, deltaTime, s);
      UpdateHeadRig(mp, deltaTime, s);
      UpdateRigWeights();
    }

    /** UpdateLegRig: the target moves to LegTarget, the hint back to its
        rest position. */
    method UpdateLegRig(leg: LegRig, mp: MotionParameters, sq: ShapeQualities, side: real, s: FrameSamples)
      modifies leg`targetLocalPosition, leg`hintLocalPosition
      ensures leg.targetLocalPosition
              == LegTarget(leg.initialTargetPos, mp, sq, movementIntensity, timeSinceStart, side, s)
      ensures leg.hintLocalPosition == leg.initialHintPos
    {
      leg.targetLocalPosition := LegTarget(leg.initialTargetPos, mp, sq, movementIntensity, timeSinceStart, side, s);
      leg.hintLocalPosition := leg.initialHintPos;
    }

    /** UpdateTorsoRig: the torso target moves a fraction 5 * deltaTime of
        the way to the guarded TorsoTarget. */
    method UpdateTorsoRig(mp: MotionParameters, sq: ShapeQualities, deltaTime: real, s: FrameSamples)
      modifies torso`targetLocalPosition
      ensures torso.targetLocalPosition
              == Vector3Lerp(old(torso.targetLocalPosition),
                             TorsoTarget(torso.initialTargetPos, mp, sq, torsoSettings,
                                         generalSettings.movementIntensity, timeSinceStart, s),
                             deltaTime * 5.0)
    {
      var newPos := TorsoTarget(torso.initialTargetPos, mp, sq, torsoSettings,
                                generalSettings.movementIntensity, timeSinceStart, s);
      torso.targetLocalPosition := Vector3Lerp(torso.targetLocalPosition, newPos, deltaTime * 5.0);
    }

    /** UpdateHeadRig: the head target moves a fraction 5 * deltaTime of the
        way to HeadTarget. */
    method UpdateHeadRig(mp: MotionParameters, deltaTime: real, s: FrameSamples)
      modifies head`targetLocalPosition
      ensures head.targetLocalPosition
              == Vector3Lerp(old(head.targetLocalPosition),
                             HeadTarget(head.initialTargetPos, mp, movementIntensity, timeSinceStart, s),
                             deltaTime * 5.0)
    {
      var newPos := HeadTarget(head.initialTargetPos, mp, movementIntensity, timeSinceStart, s);
      head.targetLocalPosition := Vector3Lerp(head.targetLocalPosition, newPos, deltaTime * 5.0);
    }

    /** UpdateRigWeights: the weights of the stored personality and
        efforts (GetEffortComponents returns the stored efforts). */
    method UpdateRigWeights()
      modifies this`weights
      ensures weights == WeightsOf(motionCalculator.effortConverter.personalityTraits,
                                   motionCalculator.effortConverter.effortComponents, armSettings, effortInfluence)
      ensures weights.InUnitRange()
      ensures weights.leftArm == weights.rightArm && weights.leftLeg == weights.rightLeg
    {
      var personalityConverter := motionCalculator.effortConverter;
      var personality := personalityConverter.personalityTraits;
      var efforts := personalityConverter.effortComponents;
      weights := WeightsOf(personality, efforts, armSettings, effortInfluence);
    }
  }
}
