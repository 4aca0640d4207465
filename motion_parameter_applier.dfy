/** MotionParameterApplier.cs: the motion parameters tune a gait generator.
    Ten clamped tuning values and a speed factor are derived from the
    parameters; each frame the arm and leg targets swing asymmetrically, the
    legs lift on a windowed parabola and drop to the floor during their back
    swing (a two-flag state machine with a hysteresis band on the phase
    derivative), and the head wanders by clamped noise.

    The sine and cosine of the gait clock, the Perlin noise samples, the
    random seed of the noise and the frame time enter as parameters. */
module MotionParameterApplier {
  import opened UnityMath
  import opened PersonalityToEffort
  import opened MotionParameter

  // ---------------------------------------------------------------------
  // Tuning values: "base + sensitivity * parameter", clamped.

  function CalculateArmSwingModifier(mp: MotionParameters): (r: real)
    ensures 0.4 <= r <= 0.9
  {
    Clamp(0.65 + mp.elbowFrequency * 0.2, 0.4, 0.9)
  }

  function CalculateMaxBackSwing(mp: MotionParameters): (r: real)
    ensures 0.2 <= r <= 0.8
  {
    Clamp(0.3 + mp.elbowDisplacement * 0.5, 0.2, 0.8)
  }

  function CalculateMaxForwardSwing(mp: MotionParameters): (r: real)
    ensures 0.5 <= r <= 1.3
  {
    Clamp(0.2 + mp.animationSpeed * 0.5, 0.5, 1.3)
  }

  function CalculateVerticalSwingModifier(mp: MotionParameters): (r: real)
    ensures 0.3 <= r <= 0.7
  {
    Clamp(0.5 + mp.wristBend * 0.3, 0.3, 0.7)
  }

  function CalculateVerticalSmoothness(mp: MotionParameters): (r: real)
    ensures 0.0 <= r <= 1.0
  {
    Clamp(0.5 + -mp.wristFrequency * 0.3, 0.0, 1.0)
  }

  function CalculateLegSwingModifier(mp: MotionParameters): (r: real)
    ensures 0.3 <= r <= 0.7
  {
    Clamp(0.5 + mp.animationSpeed * 0.3, 0.3, 0.7)
  }

  function CalculateLegLiftModifier(mp: MotionParameters): (r: real)
    ensures 0.3 <= r <= 1.0
  {
    Clamp(0.5 + mp.wristBend * 0.4, 0.3, 1.0)
  }

  function CalculateMaxLegForwardSwing(mp: MotionParameters): (r: real)
    ensures 0.4 <= r <= 1.0
  {
    Clamp(0.3 + mp.torsoRotationMagnitude * 0.4, 0.4, 1.0)
  }

  function CalculateMaxLegBackSwing(mp: MotionParameters): (r: real)
    ensures 0.3 <= r <= 0.9
  {
    Clamp(0.2 + mp.elbowTwist * 0.4, 0.3, 0.9)
  }

  function CalculateLegSmoothness(mp: MotionParameters): (r: real)
    ensures 0.0 <= r <= 1.0
  {
    Clamp(0.5 + -mp.elbowFrequency * 0.3, 0.0, 1.0)
  }

  /** The head wanders further for a larger head rotation magnitude,
      between 1 and 30 units. */
  function HeadMovementAmount(mp: MotionParameters): (r: real)
    ensures 1.0 <= r <= 30.0
  {
    Clamp(mp.headRotationMagnitude * 100.0, 1.0, 30.0)
  }

  function HeadMovementSpeed(mp: MotionParameters): (r: real)
    ensures 0.2 <= r <= 1.0
  {
    Clamp(mp.headRotationFrequency, 0.2, 1.0)
  }

  /** Direct or indirect space and sudden time both make the head noisier;
      sustained time does not reduce it. */
  function HeadNoiseIntensity(e: EffortComponents): (r: real)
    ensures 0.0 <= r <= 1.0
  {
    Clamp01((Abs(e.space) + Max(0.0, e.time)) / 2.0)
  }

  /** The noise intensity never decreases as space moves away from 0 or as
      time grows. */
  lemma HeadNoiseIntensityMonotone(e: EffortComponents, e': EffortComponents)
    requires Abs(e.space) <= Abs(e'.space) && e.time <= e'.time
    ensures HeadNoiseIntensity(e) <= HeadNoiseIntensity(e')
  {
    ClampMonotone((Abs(e.space) + Max(0.0, e.time)) / 2.0,
                  (Abs(e'.space) + Max(0.0, e'.time)) / 2.0, 0.0, 1.0);
  }

  /** The animation speed factor: the clamped animation speed mapped onto
      [minAnimationSpeed, maxAnimationSpeed]. */
  function SpeedFactor(animationSpeed: real, minAnimationSpeed: real, maxAnimationSpeed: real): real {
    Lerp(minAnimationSpeed, maxAnimationSpeed, Clamp01(animationSpeed))
  }

  /** The speed factor lies between the two bounds, is the lower bound for a
      non-positive speed and the upper bound from speed 1 on, and grows with
      the speed. */
  lemma SpeedFactorBetweenBounds(speed: real, speed': real, minSpeed: real, maxSpeed: real)
    requires minSpeed <= maxSpeed
    ensures minSpeed <= SpeedFactor(speed, minSpeed, maxSpeed) <= maxSpeed
    ensures speed <= 0.0 ==> SpeedFactor(speed, minSpeed, maxSpeed) == minSpeed
    ensures 1.0 <= speed ==> SpeedFactor(speed, minSpeed, maxSpeed) == maxSpeed
    ensures speed <= speed' ==> SpeedFactor(speed, minSpeed, maxSpeed) <= SpeedFactor(speed', minSpeed, maxSpeed)
  {
    LerpBounds(minSpeed, maxSpeed, Clamp01(speed));
    LerpEnds(minSpeed, maxSpeed, Clamp01(speed));
    if speed <= speed' {
      ClampMonotone(speed, speed', 0.0, 1.0);
      LerpMonotone(minSpeed, maxSpeed, Clamp01(speed), Clamp01(speed'));
    }
  }

  /** Neutral efforts give these tuning values: the forward swing and the head
      movement amount and speed sit at a clamp bound, the rest inside. */
  lemma NeutralTuning()
    ensures var mp := MotionParametersOf(ZeroEfforts);
      && CalculateArmSwingModifier(mp) == 0.797
      && CalculateMaxBackSwing(mp) == 0.382
      && CalculateMaxForwardSwing(mp) == 0.5
      && CalculateVerticalSwingModifier(mp) == 0.5573
      && CalculateVerticalSmoothness(mp) == 0.2456
      && CalculateLegSwingModifier(mp) == 0.6674
      && CalculateLegLiftModifier(mp) == 0.5764
      && CalculateMaxLegForwardSwing(mp) == 0.416
      && CalculateMaxLegBackSwing(mp) == 0.3124
      && CalculateLegSmoothness(mp) == 0.2795
      && HeadMovementAmount(mp) == 30.0
      && HeadMovementSpeed(mp) == 1.0
      && HeadNoiseIntensity(ZeroEfforts) == 0.0
      && SpeedFactor(mp.animationSpeed, 0.5, 1.5) == 1.058
  {
    NeutralEffortsGiveIntercepts();
  }

  // ---------------------------------------------------------------------
  // Gait shaping.

  /** The cubic smoothstep 3t^2 - 2t^3. */
  function SmoothStep(t: real): real {
    t * t * (3.0 - 2.0 * t)
  }

  lemma SmoothStepInUnitRange(t: real)
    requires 0.0 <= t <= 1.0
    ensures 0.0 <= SmoothStep(t) <= 1.0
  {
    var q := t * t;
    NonNegativeProduct(t, t);
    NonNegativeProduct(q, 3.0 - 2.0 * t);
    var r := (1.0 - t) * (1.0 - t);
    NonNegativeProduct(1.0 - t, 1.0 - t);
    NonNegativeProduct(r, 1.0 + 2.0 * t);
    assert 1.0 - SmoothStep(t) == r * (1.0 + 2.0 * t);
  }

  /** CustomEase: a blend of the identity and the smoothstep, weighted by the
      larger of the two smoothness settings. */
  function CustomEase(t: real, verticalSmoothness: real, legSmoothness: real): real {
    Lerp(t, SmoothStep(t), Max(verticalSmoothness, legSmoothness))
  }

  /** The ease fixes both ends of [0,1] and maps [0,1] into itself. */
  lemma CustomEaseInUnitRange(t: real, verticalSmoothness: real, legSmoothness: real)
    ensures CustomEase(0.0, verticalSmoothness, legSmoothness) == 0.0
    ensures CustomEase(1.0, verticalSmoothness, legSmoothness) == 1.0
    ensures 0.0 <= t <= 1.0 ==> 0.0 <= CustomEase(t, verticalSmoothness, legSmoothness) <= 1.0
  {
    if 0.0 <= t <= 1.0 {
      SmoothStepInUnitRange(t);
      var k := Max(verticalSmoothness, legSmoothness);
      if t <= SmoothStep(t) {
        LerpBounds(t, SmoothStep(t), k);
      } else {
        LerpBoundsReversed(t, SmoothStep(t), k);
      }
    }
  }

  /** Only the larger smoothness counts: from 1 on the ease is the pure
      smoothstep, at 0 or below it is the identity, and the two settings may
      be exchanged. */
  lemma CustomEaseBlend(t: real, verticalSmoothness: real, legSmoothness: real)
    ensures CustomEase(t, verticalSmoothness, legSmoothness) == CustomEase(t, legSmoothness, verticalSmoothness)
    ensures 1.0 <= Max(verticalSmoothness, legSmoothness) ==> CustomEase(t, verticalSmoothness, legSmoothness) == SmoothStep(t)
    ensures Max(verticalSmoothness, legSmoothness) <= 0.0 ==> CustomEase(t, verticalSmoothness, legSmoothness) == t
  {
    LerpEnds(t, SmoothStep(t), Max(verticalSmoothness, legSmoothness));
  }

  /** CalculateAsymmetricSwing: forward up to `maxForward` for a non-negative
      phase, back down to `-maxBack` for a negative one. */
  function CalculateAsymmetricSwing(phase: real, maxBack: real, maxForward: real): real {
    if phase >= 0.0 then Lerp(0.0, maxForward, phase) else Lerp(0.0, -maxBack, -phase)
  }

  /** The swing is 0 at phase 0, lies in [0, maxForward] for a non-negative
      phase and in [-maxBack, 0] for a negative one, and reaches the limits at
      phase 1 and -1. */
  lemma AsymmetricSwingRange(phase: real, maxBack: real, maxForward: real)
    requires 0.0 <= maxBack && 0.0 <= maxForward
    ensures CalculateAsymmetricSwing(0.0, maxBack, maxForward) == 0.0
    ensures 0.0 <= phase ==> 0.0 <= CalculateAsymmetricSwing(phase, maxBack, maxForward) <= maxForward
    ensures phase < 0.0 ==> -maxBack <= CalculateAsymmetricSwing(phase, maxBack, maxForward) <= 0.0
    ensures 1.0 <= phase ==> CalculateAsymmetricSwing(phase, maxBack, maxForward) == maxForward
    ensures phase <= -1.0 ==> CalculateAsymmetricSwing(phase, maxBack, maxForward) == -maxBack
  {
    LerpEnds(0.0, maxForward, 0.0);
    if 0.0 <= phase {
      LerpBounds(0.0, maxForward, phase);
      LerpEnds(0.0, maxForward, phase);
    } else {
      LerpBoundsReversed(0.0, -maxBack, -phase);
      LerpEnds(0.0, -maxBack, -phase);
    }
  }

  /** The right limb is driven by the negated phase. Its swing is the left
      limb's swing with the back and forward limits exchanged and the sign
      flipped, so the two are mirror images only when the limits agree. */
  lemma NegatedPhaseSwapsLimits(phase: real, maxBack: real, maxForward: real)
    ensures CalculateAsymmetricSwing(-phase, maxBack, maxForward)
            == -CalculateAsymmetricSwing(phase, maxForward, maxBack)
  {
    if phase > 0.0 {
      NegateFactor(maxBack, Clamp01(phase));
    } else if phase < 0.0 {
      NegateFactor(maxForward, Clamp01(-phase));
    }
  }

  /** At the peak of the left limb's forward swing the right limb is at
      `-maxBack`, not at `-maxForward`. */
  lemma PeakSwingsDifferWhenLimitsDiffer(maxBack: real, maxForward: real)
    requires 0.0 <= maxBack && 0.0 <= maxForward
    ensures CalculateAsymmetricSwing(1.0, maxBack, maxForward) == maxForward
    ensures CalculateAsymmetricSwing(-1.0, maxBack, maxForward) == -maxBack
  {
    AsymmetricSwingRange(1.0, maxBack, maxForward);
    AsymmetricSwingRange(-1.0, maxBack, maxForward);
  }

  /** CalculateVerticalSwing: an eased lift during the forward half only. */
  function CalculateVerticalSwing(phase: real, verticalSwingAmplitude: real, verticalSwingModifier: real,
                                  verticalSmoothness: real, legSmoothness: real): real
  {
    if phase >= 0.0 then
      CustomEase(phase, verticalSmoothness, legSmoothness) * verticalSwingAmplitude * verticalSwingModifier
    else 0.0
  }

  /** No vertical swing while swinging back; during the forward half (phase
      in [0,1]) it lies between 0 and amplitude * modifier. */
  lemma VerticalSwingRange(phase: real, amplitude: real, modifier: real,
                           verticalSmoothness: real, legSmoothness: real)
    requires 0.0 <= amplitude && 0.0 <= modifier
    ensures phase < 0.0 ==> CalculateVerticalSwing(phase, amplitude, modifier, verticalSmoothness, legSmoothness) == 0.0
    ensures 0.0 <= phase <= 1.0 ==>
      0.0 <= CalculateVerticalSwing(phase, amplitude, modifier, verticalSmoothness, legSmoothness)
        <= amplitude * modifier
  {
    if 0.0 <= phase <= 1.0 {
      var e := CustomEase(phase, verticalSmoothness, legSmoothness);
      assert 0.0 <= e <= 1.0 by {
        CustomEaseInUnitRange(phase, verticalSmoothness, legSmoothness);
      }
      assert CalculateVerticalSwing(phase, amplitude, modifier, verticalSmoothness, legSmoothness)
             == e * amplitude * modifier;
      ScaledTwice(e, amplitude, modifier);
    }
  }

  /** A factor in [0,1] times two non-negative factors stays below their product. */
  lemma ScaledTwice(e: real, a: real, m: real)
    requires 0.0 <= e <= 1.0 && 0.0 <= a && 0.0 <= m
    ensures 0.0 <= e * a * m
    ensures e * a * m <= a * m
  {
    var p := e * a;
    MulAtMostOne(a, e);
    assert 0.0 <= p <= a;
    NonNegativeProduct(p, m);
    MulMonotone(m, p, a);
    assert p * m <= a * m;
  }

  /** CalculateAsymmetricLegSwing: like the arm swing, with the phase eased. */
  function CalculateAsymmetricLegSwing(phase: real, maxBack: real, maxForward: real,
                                       verticalSmoothness: real, legSmoothness: real): real
  {
    if phase >= 0.0 then Lerp(0.0, maxForward, CustomEase(phase, verticalSmoothness, legSmoothness))
    else Lerp(0.0, -maxBack, CustomEase(-phase, verticalSmoothness, legSmoothness))
  }

  /** The leg swing is forward, up to `maxForward`, for a non-negative phase
      and back, down to `-maxBack`, for a negative one, whatever the ease. */
  lemma AsymmetricLegSwingRange(phase: real, maxBack: real, maxForward: real,
                                verticalSmoothness: real, legSmoothness: real)
    requires 0.0 <= maxBack && 0.0 <= maxForward
    ensures 0.0 <= phase ==>
      0.0 <= CalculateAsymmetricLegSwing(phase, maxBack, maxForward, verticalSmoothness, legSmoothness) <= maxForward
    ensures phase < 0.0 ==>
      -maxBack <= CalculateAsymmetricLegSwing(phase, maxBack, maxForward, verticalSmoothness, legSmoothness) <= 0.0
  {
    if 0.0 <= phase {
      LerpBounds(0.0, maxForward, CustomEase(phase, verticalSmoothness, legSmoothness));
    } else {
      LerpBoundsReversed(0.0, -maxBack, CustomEase(-phase, verticalSmoothness, legSmoothness));
    }
  }

  /** `(phase + 1) % 2 - 1` with the C# remainder. */
  function AdjustedPhase(phase: real): real {
    RemainderByTwo(phase + 1.0) - 1.0
  }

  /** The forward displacement of an arm target: the swing scaled by the
      arm swing modifier. */
  function ArmHorizontalSwing(phase: real, maxBack: real, maxForward: real, armSwingModifier: real): real {
    CalculateAsymmetricSwing(phase, maxBack, maxForward) * armSwingModifier
  }

  /** The forward displacement of a leg target: the leg swing scaled by the
      leg swing modifier. */
  function LegHorizontalSwing(phase: real, maxBack: real, maxForward: real,
                              verticalSmoothness: real, legSmoothness: real, legSwingModifier: real): real
  {
    CalculateAsymmetricLegSwing(phase, maxBack, maxForward, verticalSmoothness, legSmoothness) * legSwingModifier
  }

  /** The adjusted phase is the phase itself on [-1,1) and wraps 1 to -1. */
  lemma AdjustedPhaseOnSineRange(phase: real)
    ensures -1.0 <= phase < 1.0 ==> AdjustedPhase(phase) == phase
    ensures AdjustedPhase(1.0) == -1.0
  {
    assert Truncate(2.0 / 2.0) == 1;
  }

  /** Where in the lift window the adjusted phase is: 0 at the window's
      start, 1 at its end. */
  function LiftPhase(adjustedPhase: real, liftStartPoint: real): real
    requires liftStartPoint != 2.0
  {
    (adjustedPhase + 1.0 - liftStartPoint) / (2.0 - liftStartPoint)
  }

  /** The parabola 1 - (2x - 1)^2: 0 at both ends of [0,1], 1 in the middle. */
  function LiftCurve(liftPhase: real): real {
    1.0 - (2.0 * liftPhase - 1.0) * (2.0 * liftPhase - 1.0)
  }

  /** CalculateLegLift: an eased parabola while the adjusted phase is inside
      the window (-1 + liftStartPoint, 1), no lift outside it. */
  function CalculateLegLift(phase: real, liftStartPoint: real, legLiftAmplitude: real, legLiftModifier: real,
                            verticalSmoothness: real, legSmoothness: real): real
  {
    var adjustedPhase := AdjustedPhase(phase);
    if adjustedPhase > -1.0 + liftStartPoint && adjustedPhase < 1.0 then
      var liftCurve := LiftCurve(LiftPhase(adjustedPhase, liftStartPoint));
      CustomEase(liftCurve, verticalSmoothness, legSmoothness) * legLiftAmplitude * legLiftModifier
    else
      0.0
  }

  /** Inside the window the lift phase lies strictly inside (0,1) and the
      curve in [0,1]. */
  lemma LiftCurveInWindow(adjustedPhase: real, liftStartPoint: real)
    requires -1.0 + liftStartPoint < adjustedPhase < 1.0
    ensures 0.0 < LiftPhase(adjustedPhase, liftStartPoint) < 1.0
    ensures 0.0 <= LiftCurve(LiftPhase(adjustedPhase, liftStartPoint)) <= 1.0
  {
    DivInUnitRange(adjustedPhase + 1.0 - liftStartPoint, 2.0 - liftStartPoint);
    var u := 2.0 * LiftPhase(adjustedPhase, liftStartPoint) - 1.0;
    SquareInUnitRange(u);
  }

  /** The leg is never lifted at phase 1 (which wraps to -1) nor for a phase
      in [-1, -1 + liftStartPoint]. */
  lemma NoLiftOutsideWindow(phase: real, liftStartPoint: real, amplitude: real, modifier: real,
                            verticalSmoothness: real, legSmoothness: real)
    ensures 0.0 <= liftStartPoint ==>
      CalculateLegLift(1.0, liftStartPoint, amplitude, modifier, verticalSmoothness, legSmoothness) == 0.0
    ensures -1.0 <= phase <= -1.0 + liftStartPoint ==>
      CalculateLegLift(phase, liftStartPoint, amplitude, modifier, verticalSmoothness, legSmoothness) == 0.0
  {
    AdjustedPhaseOnSineRange(phase);
  }

  /** The lift lies between 0 and amplitude * modifier. */
  lemma LegLiftRange(phase: real, liftStartPoint: real, amplitude: real, modifier: real,
                     verticalSmoothness: real, legSmoothness: real)
    requires 0.0 <= amplitude && 0.0 <= modifier
    ensures 0.0 <= CalculateLegLift(phase, liftStartPoint, amplitude, modifier, verticalSmoothness, legSmoothness)
    ensures CalculateLegLift(phase, liftStartPoint, amplitude, modifier, verticalSmoothness, legSmoothness)
            <= amplitude * modifier
  {
    var a := AdjustedPhase(phase);
    if -1.0 + liftStartPoint < a < 1.0 {
      LegLiftInWindow(phase, liftStartPoint, amplitude, modifier, verticalSmoothness, legSmoothness);
    } else {
      NonNegativeProduct(amplitude, modifier);
    }
  }

  /** Inside the window the lift is the eased curve scaled twice, so it stays
      within [0, amplitude * modifier]. */
  lemma LegLiftInWindow(phase: real, liftStartPoint: real, amplitude: real, modifier: real,
                        verticalSmoothness: real, legSmoothness: real)
    requires 0.0 <= amplitude && 0.0 <= modifier
    requires -1.0 + liftStartPoint < AdjustedPhase(phase) < 1.0
    ensures 0.0 <= CalculateLegLift(phase, liftStartPoint, amplitude, modifier, verticalSmoothness, legSmoothness)
    ensures CalculateLegLift(phase, liftStartPoint, amplitude, modifier, verticalSmoothness, legSmoothness)
            <= amplitude * modifier
  {
    var a := AdjustedPhase(phase);
    var c := LiftCurve(LiftPhase(a, liftStartPoint));
    var e := CustomEase(c, verticalSmoothness, legSmoothness);
    assert 0.0 <= e <= 1.0 by {
      LiftCurveInWindow(a, liftStartPoint);
      CustomEaseInUnitRange(c, verticalSmoothness, legSmoothness);
    }
    assert CalculateLegLift(phase, liftStartPoint, amplitude, modifier, verticalSmoothness, legSmoothness)
           == e * amplitude * modifier;
    ScaledTwice(e, amplitude, modifier);
  }

  // ---------------------------------------------------------------------
  // The back-swing state machine and the floor clamps.

  /** The half-width of the dead band on the phase derivative. */
  const PeakThreshold: real := 0.1

  /** The left leg leaves its back swing once the derivative reaches the
      threshold and enters it once the derivative falls to minus the
      threshold. */
  function NextLeftFlag(leftLegInBackSwing: bool, swingDerivative: real): bool {
    if swingDerivative >= PeakThreshold && leftLegInBackSwing then false
    else if swingDerivative <= -PeakThreshold && !leftLegInBackSwing then true
    else leftLegInBackSwing
  }

  /** The right leg follows the opposite polarity. */
  function NextRightFlag(rightLegInBackSwing: bool, swingDerivative: real): bool {
    if swingDerivative <= -PeakThreshold && rightLegInBackSwing then false
    else if swingDerivative >= PeakThreshold && !rightLegInBackSwing then true
    else rightLegInBackSwing
  }

  /** Because the band is not empty, the new flag depends only on which side
      of the band the derivative lies: false at or above it, true at or below
      it, unchanged strictly inside. The right leg is the left leg with the
      derivative negated. */
  lemma FlagTransitions(flag: bool, d: real)
    ensures d >= PeakThreshold ==> !NextLeftFlag(flag, d) && NextRightFlag(flag, d)
    ensures d <= -PeakThreshold ==> NextLeftFlag(flag, d) && !NextRightFlag(flag, d)
    ensures -PeakThreshold < d < PeakThreshold ==> NextLeftFlag(flag, d) == flag && NextRightFlag(flag, d) == flag
    ensures NextRightFlag(flag, d) == NextLeftFlag(flag, -d)
  {
  }

  /** The flag after a run of frames with the given derivatives. */
  function LeftFlagAfter(flag: bool, derivatives: seq<real>): bool {
    if |derivatives| == 0 then flag
    else NextLeftFlag(LeftFlagAfter(flag, derivatives[..|derivatives| - 1]), derivatives[|derivatives| - 1])
  }

  function RightFlagAfter(flag: bool, derivatives: seq<real>): bool {
    if |derivatives| == 0 then flag
    else NextRightFlag(RightFlagAfter(flag, derivatives[..|derivatives| - 1]), derivatives[|derivatives| - 1])
  }

  /** The last derivative outside the dead band, if any. */
  function LastPeak(derivatives: seq<real>): Option<real> {
    if |derivatives| == 0 then None
    else if Abs(derivatives[|derivatives| - 1]) >= PeakThreshold then Some(derivatives[|derivatives| - 1])
    else LastPeak(derivatives[..|derivatives| - 1])
  }

  /** Over any run of frames each flag remembers only the last derivative
      outside the band (or keeps its start value when there was none): the
      left leg is in its back swing iff that derivative was negative, the
      right leg iff it was positive. */
  lemma {:induction false} FlagsTrackLastPeak(left: bool, right: bool, derivatives: seq<real>)
    ensures LeftFlagAfter(left, derivatives)
            == (if LastPeak(derivatives).Some? then LastPeak(derivatives).value < 0.0 else left)
    ensures RightFlagAfter(right, derivatives)
            == (if LastPeak(derivatives).Some? then LastPeak(derivatives).value > 0.0 else right)
  {
    if |derivatives| > 0 {
      var prefix := derivatives[..|derivatives| - 1];
      var d := derivatives[|derivatives| - 1];
      FlagsTrackLastPeak(left, right, prefix);
      FlagTransitions(LeftFlagAfter(left, prefix), d);
      FlagTransitions(RightFlagAfter(right, prefix), d);
    }
  }

  /** Once the derivative has left the band at least once, exactly one leg is
      in its back swing, whatever the flags started as. */
  lemma LegsAlternateAfterAPeak(left: bool, right: bool, derivatives: seq<real>)
    requires LastPeak(derivatives).Some?
    ensures LeftFlagAfter(left, derivatives) != RightFlagAfter(right, derivatives)
  {
    FlagsTrackLastPeak(left, right, derivatives);
    LastPeakIsOutsideBand(derivatives);
  }

  lemma {:induction false} LastPeakIsOutsideBand(derivatives: seq<real>)
    ensures LastPeak(derivatives).Some? ==> Abs(LastPeak(derivatives).value) >= PeakThreshold
  {
    if |derivatives| > 0 {
      LastPeakIsOutsideBand(derivatives[..|derivatives| - 1]);
    }
  }

  /** A leg target: sideways position kept, forward position swung from the
      rest position, height pinned to the floor during the back swing and
      otherwise the lifted rest height, floored. */
  function LegTarget(current: Vector3, initial: Vector3, horizontalSwing: real, lift: real,
                     inBackSwing: bool, legFloorHeight: real): (r: Vector3)
    ensures inBackSwing ==> r.y == legFloorHeight
    ensures !inBackSwing ==> r.y >= legFloorHeight && r.y >= initial.y + lift
    ensures r.x == current.x && r.z == initial.z + horizontalSwing
  {
    Vector3(current.x,
            if inBackSwing then legFloorHeight else Max(initial.y + lift, legFloorHeight),
            initial.z + horizontalSwing)
  }

  /** An arm target: forward position swung from the rest position, height
      raised by the vertical swing and floored. */
  function ArmTarget(current: Vector3, initial: Vector3, horizontalSwing: real, verticalSwing: real,
                     armFloorHeight: real): (r: Vector3)
    ensures r.y >= armFloorHeight && r.y >= initial.y - verticalSwing
    ensures r.x == current.x && r.z == initial.z + horizontalSwing
  {
    Vector3(current.x, Max(initial.y - verticalSwing, armFloorHeight), initial.z + horizontalSwing)
  }

  /** Mathf.Sin(t * PI) * 0.5 + 0.5 mapped onto the wrist's z-rotation range:
      `maxZ` when the sine is -1, `minZ` when it is 1. */
  function WristZRotation(swingPhase: real, minZ: real, maxZ: real): real {
    maxZ - (swingPhase * 0.5 + 0.5) * (maxZ - minZ)
  }

  lemma WristZRotationRange(swingPhase: real, minZ: real, maxZ: real)
    requires -1.0 <= swingPhase <= 1.0 && minZ <= maxZ
    ensures minZ <= WristZRotation(swingPhase, minZ, maxZ) <= maxZ
  {
    var s := swingPhase * 0.5 + 0.5;
    MulAtMostOne(maxZ - minZ, s);
    assert (maxZ - minZ) * s == s * (maxZ - minZ);
  }

  /** One component of the head's noise offset: a noise sample in [0,1]
      recentred to [-1,1] and scaled by the movement amount. */
  function HeadNoiseOffset(noise: real, headMovementAmount: real): real {
    (noise - 0.5) * 2.0 * headMovementAmount
  }

  /** A noise sample in [0,1] keeps the offset within the movement amount. */
  lemma HeadNoiseOffsetRange(noise: real, headMovementAmount: real)
    requires 0.0 <= noise <= 1.0 && 0.0 <= headMovementAmount
    ensures -headMovementAmount <= HeadNoiseOffset(noise, headMovementAmount) <= headMovementAmount
  {
    var x := (noise - 0.5) * 2.0;
    ScaledBound(headMovementAmount, x);
    assert HeadNoiseOffset(noise, headMovementAmount) == headMovementAmount * x;
  }

  /** Perlin noise may stray slightly outside [0,1]: a sample within `slack`
      of [0,1] keeps the offset within (1 + 2 * slack) times the amount. */
  lemma HeadNoiseOffsetWithSlack(noise: real, headMovementAmount: real, slack: real)
    requires 0.0 <= slack && -slack <= noise <= 1.0 + slack && 0.0 <= headMovementAmount
    ensures -(1.0 + 2.0 * slack) * headMovementAmount <= HeadNoiseOffset(noise, headMovementAmount)
    ensures HeadNoiseOffset(noise, headMovementAmount) <= (1.0 + 2.0 * slack) * headMovementAmount
  {
    var x := (noise - 0.5) * 2.0;
    var bound := 1.0 + 2.0 * slack;
    assert -bound <= x <= bound;
    MulMonotone(headMovementAmount, -bound, x);
    MulMonotone(headMovementAmount, x, bound);
    assert HeadNoiseOffset(noise, headMovementAmount) == headMovementAmount * x;
  }

  // ---------------------------------------------------------------------
  // The component.

  class MotionParameterApplier {
    var motionParameter: MotionParameter
    var personalityToEffort: PersonalityToEffort

    // Targets (None: not assigned in the scene).
    var leftArmTarget: Option<Vector3>
    var rightArmTarget: Option<Vector3>
    var leftLegTarget: Option<Vector3>
    var rightLegTarget: Option<Vector3>
    var headTarget: Option<Vector3>

    var leftArmInitialPosition: Vector3
    var rightArmInitialPosition: Vector3
    var leftLegInitialPosition: Vector3
    var rightLegInitialPosition: Vector3

    // General settings.
    var minAnimationSpeed: real
    var maxAnimationSpeed: real
    var animatorSpeed: real

    // Head movement.
    var headNoiseIntensity: real
    var headMovementAmount: real
    var headMovementSpeed: real
    var initialHeadPosition: Vector3
    var targetHeadPosition: Vector3
    var headNoiseOffset: real

    // Arm swing.
    var armSwingModifier: real
    var armSwingFrequency: real
    var verticalSwingModifier: real
    var verticalSwingAmplitude: real
    var verticalSmoothness: real
    var maxBackSwing: real
    var maxForwardSwing: real
    var armFloorHeight: real

    // Wrist rotation (only the z angles; the quaternions are not modelled).
    var minWristZRotation: real
    var maxWristZRotation: real
    var leftWristZRotation: real
    var rightWristZRotation: real

    // Leg swing.
    var legSwingModifier: real
    var legLiftModifier: real
    var legLiftAmplitude: real
    var maxLegForwardSwing: real
    var maxLegBackSwing: real
    var legFloorHeight: real
    var legSmoothness: real
    var liftStartPoint: real

    var time: real
    var leftLegInBackSwing: bool
    var rightLegInBackSwing: bool
    var currentSpeedFactor: real

    /** The field initialisers of the C# class. */
    constructor (mp: MotionParameter, pte: PersonalityToEffort)
      ensures motionParameter == mp && personalityToEffort == pte
      ensures minAnimationSpeed == 0.5 && maxAnimationSpeed == 1.5
      ensures headNoiseIntensity == 0.5 && headMovementAmount == 50.0 && headMovementSpeed == 1.0
      ensures armSwingModifier == 0.65 && armSwingFrequency == 1.0
      ensures verticalSwingModifier == 0.5 && verticalSwingAmplitude == 0.1 && verticalSmoothness == 0.5
      ensures maxBackSwing == 0.3 && maxForwardSwing == 0.2 && armFloorHeight == 0.1
      ensures minWristZRotation == -30.0 && maxWristZRotation == 30.0
      ensures legSwingModifier == 0.5 && legLiftModifier == 0.5 && legLiftAmplitude == 0.1
      ensures maxLegForwardSwing == 0.3 && maxLegBackSwing == 0.2
      ensures legFloorHeight == 0.0 && legSmoothness == 0.5 && liftStartPoint == 0.1
      ensures time == 0.0 && !leftLegInBackSwing && !rightLegInBackSwing && currentSpeedFactor == 1.0
      ensures leftArmTarget == None && rightArmTarget == None
      ensures leftLegTarget == None && rightLegTarget == None && headTarget == None
    {
      motionParameter := mp;
      personalityToEffort := pte;
      leftArmTarget, rightArmTarget, leftLegTarget, rightLegTarget, headTarget := None, None, None, None, None;
      leftArmInitialPosition, rightArmInitialPosition := Zero3, Zero3;
      leftLegInitialPosition, rightLegInitialPosition := Zero3, Zero3;
      minAnimationSpeed, maxAnimationSpeed, animatorSpeed := 0.5, 1.5, 1.0;
      headNoiseIntensity, headMovementAmount, headMovementSpeed := 0.5, 50.0, 1.0;
      initialHeadPosition, targetHeadPosition, headNoiseOffset := Zero3, Zero3, 0.0;
      armSwingModifier, armSwingFrequency := 0.65, 1.0;
      verticalSwingModifier, verticalSwingAmplitude, verticalSmoothness := 0.5, 0.1, 0.5;
      maxBackSwing, maxForwardSwing, armFloorHeight := 0.3, 0.2, 0.1;
      minWristZRotation, maxWristZRotation := -30.0, 30.0;
      leftWristZRotation, rightWristZRotation := 0.0, 0.0;
      legSwingModifier, legLiftModifier, legLiftAmplitude := 0.5, 0.5, 0.1;
      maxLegForwardSwing, maxLegBackSwing := 0.3, 0.2;
      legFloorHeight, legSmoothness, liftStartPoint := 0.0, 0.5, 0.1;
      time, leftLegInBackSwing, rightLegInBackSwing, currentSpeedFactor := 0.0, false, false, 1.0;
    }

    /** InitializeRigs2: records the rest positions of the four limb targets
        and initialises the head. */
    method InitializeRigs2(leftArmInit: Vector3, rightArmInit: Vector3, leftFootInit: Vector3,
                           rightFootInit: Vector3, randomValue: real)
      modifies this`leftArmInitialPosition, this`rightArmInitialPosition
      modifies this`leftLegInitialPosition, this`rightLegInitialPosition
      modifies this`initialHeadPosition, this`targetHeadPosition, this`headNoiseOffset
      ensures leftArmInitialPosition == leftArmInit && rightArmInitialPosition == rightArmInit
      ensures leftLegInitialPosition == leftFootInit && rightLegInitialPosition == rightFootInit
      ensures headTarget.Some? ==> initialHeadPosition == headTarget.value
                                   && targetHeadPosition == headTarget.value
                                   && headNoiseOffset == randomValue * 1000.0
      ensures headTarget.None? ==> unchanged(this`initialHeadPosition, this`targetHeadPosition, this`headNoiseOffset)
    {
      leftArmInitialPosition := leftArmInit;
      rightArmInitialPosition := rightArmInit;
      leftLegInitialPosition := leftFootInit;
      rightLegInitialPosition := rightFootInit;
      InitializeHeadMovement(randomValue);
    }

    /** InitializeHeadMovement: the head's rest position and its noise seed
        (`randomValue` stands for Random.value). */
    method InitializeHeadMovement(randomValue: real)
      modifies this`initialHeadPosition, this`targetHeadPosition, this`headNoiseOffset
      ensures headTarget.Some? ==> initialHeadPosition == headTarget.value
                                   && targetHeadPosition == headTarget.value
                                   && headNoiseOffset == randomValue * 1000.0
      ensures headTarget.None? ==> unchanged(this`initialHeadPosition, this`targetHeadPosition, this`headNoiseOffset)
    {
      if headTarget.Some? {
        initialHeadPosition := headTarget.value;
        targetHeadPosition := initialHeadPosition;
        headNoiseOffset := randomValue * 1000.0;
      }
    }

    /** Every tuning value and the speed factor are those of the motion
        parameters `mp` and the efforts `e`. */
    predicate TunedFor(mp: MotionParameters, e: EffortComponents)
      reads this
    {
      && armSwingModifier == CalculateArmSwingModifier(mp)
      && maxBackSwing == CalculateMaxBackSwing(mp)
      && maxForwardSwing == CalculateMaxForwardSwing(mp)
      && verticalSwingModifier == CalculateVerticalSwingModifier(mp)
      && verticalSmoothness == CalculateVerticalSmoothness(mp)
      && legSwingModifier == CalculateLegSwingModifier(mp)
      && legLiftModifier == CalculateLegLiftModifier(mp)
      && maxLegForwardSwing == CalculateMaxLegForwardSwing(mp)
      && maxLegBackSwing == CalculateMaxLegBackSwing(mp)
      && legSmoothness == CalculateLegSmoothness(mp)
      && headMovementAmount == HeadMovementAmount(mp)
      && headMovementSpeed == HeadMovementSpeed(mp)
      && headNoiseIntensity == HeadNoiseIntensity(e)
      && currentSpeedFactor == SpeedFactor(mp.animationSpeed, minAnimationSpeed, maxAnimationSpeed)
    }

    /** UpdateMovementParameters: every tuning value from the current motion
        parameters, the head values from those and the efforts, then the
        speed factor, which also drives the animator. */
    method UpdateMovementParameters()
      modifies this`armSwingModifier, this`maxBackSwing, this`maxForwardSwing
      modifies this`verticalSwingModifier, this`verticalSmoothness
      modifies this`legSwingModifier, this`legLiftModifier, this`maxLegForwardSwing
      modifies this`maxLegBackSwing, this`legSmoothness
      modifies this`headMovementAmount, this`headMovementSpeed, this`headNoiseIntensity
      modifies this`currentSpeedFactor, this`animatorSpeed
      ensures armSwingModifier == CalculateArmSwingModifier(old(motionParameter.motionParameters))
      ensures maxBackSwing == CalculateMaxBackSwing(old(motionParameter.motionParameters))
      ensures maxForwardSwing == CalculateMaxForwardSwing(old(motionParameter.motionParameters))
      ensures verticalSwingModifier == CalculateVerticalSwingModifier(old(motionParameter.motionParameters))
      ensures verticalSmoothness == CalculateVerticalSmoothness(old(motionParameter.motionParameters))
      ensures legSwingModifier == CalculateLegSwingModifier(old(motionParameter.motionParameters))
      ensures legLiftModifier == CalculateLegLiftModifier(old(motionParameter.motionParameters))
      ensures maxLegForwardSwing == CalculateMaxLegForwardSwing(old(motionParameter.motionParameters))
      ensures maxLegBackSwing == CalculateMaxLegBackSwing(old(motionParameter.motionParameters))
      ensures legSmoothness == CalculateLegSmoothness(old(motionParameter.motionParameters))
      ensures headMovementAmount == HeadMovementAmount(old(motionParameter.motionParameters))
      ensures headMovementSpeed == HeadMovementSpeed(old(motionParameter.motionParameters))
      ensures headNoiseIntensity == HeadNoiseIntensity(old(personalityToEffort.effortComponents))
      ensures currentSpeedFactor == SpeedFactor(old(motionParameter.motionParameters.animationSpeed), minAnimationSpeed, maxAnimationSpeed)
      ensures animatorSpeed == currentSpeedFactor
      ensures minAnimationSpeed <= maxAnimationSpeed ==> minAnimationSpeed <= currentSpeedFactor <= maxAnimationSpeed
    {
      var efforts := personalityToEffort.effortComponents;
      var motionParams := motionParameter.motionParameters;

      UpdateArmParameters(motionParams);
      UpdateLegParameters(motionParams);
      UpdateHeadMovementParameters(motionParams, efforts);
      UpdateSpeedFactor(motionParameter.motionParameters.animationSpeed);
    }

    /** The closing block of UpdateMovementParameters: the clamped animation
        speed mapped onto [minAnimationSpeed, maxAnimationSpeed] drives the
        animator. */
    method UpdateSpeedFactor(motionParamSpeed: real)
      modifies this`currentSpeedFactor, this`animatorSpeed
      ensures currentSpeedFactor == SpeedFactor(motionParamSpeed, minAnimationSpeed, maxAnimationSpeed)
      ensures animatorSpeed == currentSpeedFactor
      ensures minAnimationSpeed <= maxAnimationSpeed ==> minAnimationSpeed <= currentSpeedFactor <= maxAnimationSpeed
    {
      var normalizedSpeed := Clamp01(motionParamSpeed);
      var mappedSpeed := Lerp(minAnimationSpeed, maxAnimationSpeed, normalizedSpeed);
      if minAnimationSpeed <= maxAnimationSpeed {
        SpeedFactorBetweenBounds(motionParamSpeed, motionParamSpeed, minAnimationSpeed, maxAnimationSpeed);
      }
      currentSpeedFactor := mappedSpeed;
      animatorSpeed := currentSpeedFactor;
    }

    /** The "arm parameters" block of UpdateMovementParameters. */
    method UpdateArmParameters(motionParams: MotionParameters)
      modifies this`armSwingModifier, this`maxBackSwing, this`maxForwardSwing
      modifies this`verticalSwingModifier, this`verticalSmoothness
      ensures armSwingModifier == CalculateArmSwingModifier(motionParams)
      ensures maxBackSwing == CalculateMaxBackSwing(motionParams)
      ensures maxForwardSwing == CalculateMaxForwardSwing(motionParams)
      ensures verticalSwingModifier == CalculateVerticalSwingModifier(motionParams)
      ensures verticalSmoothness == CalculateVerticalSmoothness(motionParams)
    {
      armSwingModifier := CalculateArmSwingModifier(motionParams);
      maxBackSwing := CalculateMaxBackSwing(motionParams);
      maxForwardSwing := CalculateMaxForwardSwing(motionParams);
      verticalSwingModifier := CalculateVerticalSwingModifier(motionParams);
      verticalSmoothness := CalculateVerticalSmoothness(motionParams);
    }

    /** The "leg parameters" block of UpdateMovementParameters. */
    method UpdateLegParameters(motionParams: MotionParameters)
      modifies this`legSwingModifier, this`legLiftModifier, this`maxLegForwardSwing
      modifies this`maxLegBackSwing, this`legSmoothness
      ensures legSwingModifier == CalculateLegSwingModifier(motionParams)
      ensures legLiftModifier == CalculateLegLiftModifier(motionParams)
      ensures maxLegForwardSwing == CalculateMaxLegForwardSwing(motionParams)
      ensures maxLegBackSwing == CalculateMaxLegBackSwing(motionParams)
      ensures legSmoothness == CalculateLegSmoothness(motionParams)
    {
      legSwingModifier := CalculateLegSwingModifier(motionParams);
      legLiftModifier := CalculateLegLiftModifier(motionParams);
      maxLegForwardSwing := CalculateMaxLegForwardSwing(motionParams);
      maxLegBackSwing := CalculateMaxLegBackSwing(motionParams);
      legSmoothness := CalculateLegSmoothness(motionParams);
    }

    /** UpdateHeadMovementParameters: amount, speed and noise intensity. */
    method UpdateHeadMovementParameters(motionParams: MotionParameters, efforts: EffortComponents)
      modifies this`headMovementAmount, this`headMovementSpeed, this`headNoiseIntensity
      ensures headMovementAmount == HeadMovementAmount(motionParams)
      ensures headMovementSpeed == HeadMovementSpeed(motionParams)
      ensures headNoiseIntensity == HeadNoiseIntensity(efforts)
      ensures 1.0 <= headMovementAmount <= 30.0 && 0.0 <= headNoiseIntensity <= 1.0
    {
      headMovementAmount := Clamp(motionParams.headRotationMagnitude * 100.0, 1.0, 30.0);
      headMovementSpeed := Clamp(motionParams.headRotationFrequency, 0.2, 1.0);
      var spaceInfluence := Abs(efforts.space);
      var timeInfluence := Max(0.0, efforts.time);
      headNoiseIntensity := Clamp01((spaceInfluence + timeInfluence) / 2.0);
    }

    /** ApplyMotionParams: one frame. `deltaTime` is the frame time,
        `swingPhase` and `swingDerivative` the sine and cosine of the gait
        clock, `wristPhase` the sine of the accumulated time, the noise
        samples Perlin noise in [0,1]. */
    method ApplyMotionParams(deltaTime: real, swingPhase: real, swingDerivative: real, wristPhase: real,
                             noiseX: real, noiseY: real, noiseZ: real)
      modifies this`time, this`leftArmTarget, this`rightArmTarget, this`leftLegTarget, this`rightLegTarget
      modifies this`leftLegInBackSwing, this`rightLegInBackSwing, this`headTarget, this`targetHeadPosition
      modifies this`leftWristZRotation, this`rightWristZRotation
      ensures time == old(time) + deltaTime
      ensures old(leftLegTarget).Some? && old(rightLegTarget).Some? ==>
        leftLegInBackSwing == NextLeftFlag(old(leftLegInBackSwing), swingDerivative)
        && rightLegInBackSwing == NextRightFlag(old(rightLegInBackSwing), swingDerivative)
    {
      time := time + deltaTime;
      ApplyArmSwing(swingPhase);
      ApplyLegSwing(swingPhase, swingDerivative);
      ApplyHeadMovement(noiseX, noiseY, noiseZ, deltaTime);
      ApplyWristRotations(wristPhase);
    }

    /** ApplyWristRotations: the z angle of both wrists from the sine of the
        accumulated time; left and right receive the same angle. */
    method ApplyWristRotations(wristPhase: real)
      modifies this`leftWristZRotation, this`rightWristZRotation
      ensures leftArmTarget.None? || rightArmTarget.None? ==>
        unchanged(this`leftWristZRotation, this`rightWristZRotation)
      ensures leftArmTarget.Some? && rightArmTarget.Some? ==>
        leftWristZRotation == rightWristZRotation == WristZRotation(wristPhase, minWristZRotation, maxWristZRotation)
    {
      if leftArmTarget.None? || rightArmTarget.None? {
        return;
      }
      leftWristZRotation := WristZRotation(wristPhase, minWristZRotation, maxWristZRotation);
      rightWristZRotation := WristZRotation(wristPhase, minWristZRotation, maxWristZRotation);
    }

    /** ApplyArmSwing: the left arm follows the phase, the right arm the
        negated phase; both are floored at armFloorHeight. */
    method ApplyArmSwing(swingPhase: real)
      modifies this`leftArmTarget, this`rightArmTarget
      ensures old(leftArmTarget).None? || old(rightArmTarget).None? ==>
        unchanged(this`leftArmTarget, this`rightArmTarget)
      ensures old(leftArmTarget).Some? && old(rightArmTarget).Some? ==>
        && leftArmTarget == Some(ArmTarget(old(leftArmTarget).value, leftArmInitialPosition,
             ArmHorizontalSwing(swingPhase, maxBackSwing, maxForwardSwing, armSwingModifier),
             -CalculateVerticalSwing(swingPhase, verticalSwingAmplitude, verticalSwingModifier,
                                     verticalSmoothness, legSmoothness),
             armFloorHeight))
        && rightArmTarget == Some(ArmTarget(old(rightArmTarget).value, rightArmInitialPosition,
             ArmHorizontalSwing(-swingPhase, maxBackSwing, maxForwardSwing, armSwingModifier),
             -CalculateVerticalSwing(-swingPhase, verticalSwingAmplitude, verticalSwingModifier,
                                     verticalSmoothness, legSmoothness),
             armFloorHeight))
      ensures old(leftArmTarget).Some? && old(rightArmTarget).Some? ==>
        && leftArmTarget.Some? && rightArmTarget.Some?
        && leftArmTarget.value.y >= armFloorHeight && rightArmTarget.value.y >= armFloorHeight
    {
      if leftArmTarget.None? || rightArmTarget.None? {
        return;
      }
      var leftHorizontalSwing := ArmHorizontalSwing(swingPhase, maxBackSwing, maxForwardSwing, armSwingModifier);
      var leftVerticalSwing := -CalculateVerticalSwing(swingPhase, verticalSwingAmplitude, verticalSwingModifier,
                                                       verticalSmoothness, legSmoothness);
      var rightHorizontalSwing := ArmHorizontalSwing(-swingPhase, maxBackSwing, maxForwardSwing, armSwingModifier);
      var rightVerticalSwing := -CalculateVerticalSwing(-swingPhase, verticalSwingAmplitude, verticalSwingModifier,
                                                        verticalSmoothness, legSmoothness);

      leftArmTarget := Some(ArmTarget(leftArmTarget.value, leftArmInitialPosition,
                                      leftHorizontalSwing, leftVerticalSwing, armFloorHeight));
      rightArmTarget := Some(ArmTarget(rightArmTarget.value, rightArmInitialPosition,
                                       rightHorizontalSwing, rightVerticalSwing, armFloorHeight));
    }

    /** ApplyLegSwing: the back-swing flags advance with the derivative, then
        each leg swings, lifts, and is pinned to the floor while its flag is
        set. */
    method ApplyLegSwing(swingPhase: real, swingDerivative: real)
      modifies this`leftLegTarget, this`rightLegTarget, this`leftLegInBackSwing, this`rightLegInBackSwing
      ensures old(leftLegTarget).None? || old(rightLegTarget).None? ==>
        unchanged(this`leftLegTarget, this`rightLegTarget, this`leftLegInBackSwing, this`rightLegInBackSwing)
      ensures old(leftLegTarget).Some? && old(rightLegTarget).Some? ==>
        && leftLegInBackSwing == NextLeftFlag(old(leftLegInBackSwing), swingDerivative)
        && rightLegInBackSwing == NextRightFlag(old(rightLegInBackSwing), swingDerivative)
        && leftLegTarget == Some(LegTarget(old(leftLegTarget).value, leftLegInitialPosition,
             LegHorizontalSwing(swingPhase, maxLegBackSwing, maxLegForwardSwing,
                                verticalSmoothness, legSmoothness, legSwingModifier),
             CalculateLegLift(swingPhase, liftStartPoint, legLiftAmplitude, legLiftModifier,
                              verticalSmoothness, legSmoothness),
             leftLegInBackSwing, legFloorHeight))
        && rightLegTarget == Some(LegTarget(old(rightLegTarget).value, rightLegInitialPosition,
             LegHorizontalSwing(-swingPhase, maxLegBackSwing, maxLegForwardSwing,
                                verticalSmoothness, legSmoothness, legSwingModifier),
             CalculateLegLift(-swingPhase, liftStartPoint, legLiftAmplitude, legLiftModifier,
                              verticalSmoothness, legSmoothness),
             rightLegInBackSwing, legFloorHeight))
      ensures old(leftLegTarget).Some? && old(rightLegTarget).Some? ==>
        && leftLegTarget.Some? && rightLegTarget.Some?
        && (leftLegInBackSwing ==> leftLegTarget.value.y == legFloorHeight)
        && (rightLegInBackSwing ==> rightLegTarget.value.y == legFloorHeight)
    {
      if leftLegTarget.None? || rightLegTarget.None? {
        return;
      }
      var leftLegHorizontalSwing := LegHorizontalSwing(swingPhase, maxLegBackSwing, maxLegForwardSwing,
                                                       verticalSmoothness, legSmoothness, legSwingModifier);
      var leftLegLift := CalculateLegLift(swingPhase, liftStartPoint, legLiftAmplitude, legLiftModifier,
                                          verticalSmoothness, legSmoothness);
      var rightLegHorizontalSwing := LegHorizontalSwing(-swingPhase, maxLegBackSwing, maxLegForwardSwing,
                                                        verticalSmoothness, legSmoothness, legSwingModifier);
      var rightLegLift := CalculateLegLift(-swingPhase, liftStartPoint, legLiftAmplitude, legLiftModifier,
                                           verticalSmoothness, legSmoothness);

      if swingDerivative >= PeakThreshold && leftLegInBackSwing {
        leftLegInBackSwing := false;
      } else if swingDerivative <= -PeakThreshold && !leftLegInBackSwing {
        leftLegInBackSwing := true;
      }

      if swingDerivative <= -PeakThreshold && rightLegInBackSwing {
        rightLegInBackSwing := false;
      } else if swingDerivative >= PeakThreshold && !rightLegInBackSwing {
        rightLegInBackSwing := true;
      }

      var leftLegPosition := leftLegTarget.value;
      leftLegPosition := leftLegPosition.(z := leftLegInitialPosition.z + leftLegHorizontalSwing);
      leftLegPosition := leftLegPosition.(y := if leftLegInBackSwing then legFloorHeight
                                              else Max(leftLegInitialPosition.y + leftLegLift, legFloorHeight));
      leftLegTarget := Some(leftLegPosition);

      var rightLegPosition := rightLegTarget.value;
      rightLegPosition := rightLegPosition.(z := rightLegInitialPosition.z + rightLegHorizontalSwing);
      rightLegPosition := rightLegPosition.(y := if rightLegInBackSwing then legFloorHeight
                                                else Max(rightLegInitialPosition.y + rightLegLift, legFloorHeight));
      rightLegTarget := Some(rightLegPosition);
    }

    /** ApplyHeadMovement: the head target is the rest position plus the
        scaled noise offset, and the head moves a fraction `deltaTime * 5`
        (clamped to [0,1]) of the way towards it. */
    method ApplyHeadMovement(noiseX: real, noiseY: real, noiseZ: real, deltaTime: real)
      modifies this`targetHeadPosition, this`headTarget
      ensures old(headTarget).None? ==> unchanged(this`targetHeadPosition, this`headTarget)
      ensures old(headTarget).Some? ==>
        && targetHeadPosition == initialHeadPosition.Plus(
             Vector3(HeadNoiseOffset(noiseX, headMovementAmount),
                     HeadNoiseOffset(noiseY, headMovementAmount),
                     HeadNoiseOffset(noiseZ, headMovementAmount)).Times(headNoiseIntensity))
        && headTarget == Some(Vector3Lerp(old(headTarget).value, targetHeadPosition, deltaTime * 5.0))
    {
      if headTarget.None? {
        return;
      }
      var offsetX := HeadNoiseOffset(noiseX, headMovementAmount);
      var offsetY := HeadNoiseOffset(noiseY, headMovementAmount);
      var offsetZ := HeadNoiseOffset(noiseZ, headMovementAmount);
      var noiseOffset := Vector3(offsetX, offsetY, offsetZ).Times(headNoiseIntensity);
      targetHeadPosition := initialHeadPosition.Plus(noiseOffset);
      headTarget := Some(Vector3Lerp(headTarget.value, targetHeadPosition, deltaTime * 5.0));
    }
  }
}
