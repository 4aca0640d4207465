# Personality-driven gait: a Dafny model

This project models the core of a Unity walking-character controller. The controller turns a
personality into motion.

- **PersonalityToEffort.** Five OCEAN traits (openness, conscientiousness, extraversion,
  agreeableness, neuroticism) are clamped to [-1,1]. They become four Laban effort components
  (space, weight, time, flow) through a fixed 4x5 matrix. Each component is a "dominant term"
  reduction: the largest positive product plus the most negative product, not a dot product.
- **MotionParameter.** The efforts feed a 16-row affine regression (intercept plus one slope per
  effort). It yields sixteen motion parameters and three clamped shape qualities
  (enclosing/spreading, sinking/rising, retreating/advancing).
- **MotionParameterApplier.** The motion parameters tune a procedural gait generator: clamped
  swing limits, smoothness, leg lift, head noise and an animator speed factor. Each frame, the
  generator moves the arm, leg and head targets from the sine of a gait clock. Hysteresis flags
  pin a leg to the floor during its back swing.
- **ShapeQuality.** The shape qualities displace nine body targets from their rest positions by
  clamped amounts.
- **RigController.** The older rig-based controller. Leg, torso and head targets sway with the
  anticipation and overshoot periods, guarded against NaN and infinity. The rig weights come from
  the traits and efforts.
- **PersonalityControllerTest.** The driver. It applies a personality and recomputes the chain:
  traits, efforts, motion parameters, shape qualities, gait tuning.

Each C# file is one Dafny module of the same name. Each C# component whose fields change in place
is a Dafny `class` with those fields. Its methods carry `modifies` clauses and state the new state
exactly. The pure computations are functions. The lemmas beside them prove what the code promises:
ranges, neutral values, monotonicity, mirror relations, hysteresis behaviour and the effect of the
NaN guards.

Float arithmetic is modelled over `real`. Only the places where NaN and infinity matter (the guards
in RigController) use `FloatModel.Float`, which has finite, NaN and signed-infinity values. Sines,
cosines, powers, Perlin noise, `Random.value` and `Time.deltaTime` come in as parameters.

Where the code and its design notes disagree, the model follows the code:

- The right limbs are driven by the negated phase. That makes the left and right arm swings
  mirror images only when `maxBackSwing == maxForwardSwing`.
  `MotionParameterApplier.NegatedPhaseSwapsLimits` states the real relation: negating the phase
  swaps the two limits.
- A zero anticipation or overshoot time in the legs and the head is not replaced by a default
  before the division. The inner `SafeFloat(x, 0.01f)` only replaces non-finite periods, so `0`
  passes through and the division yields NaN or infinity. It is the outer `SafeFloat` that turns
  the resulting NaN into 0. The torso has no guard at all (see Findings).

## Model

| member | source | states |
|---|---|---|
| UnityMath.Clamp | Assets/Assets/Scripts/PersonalityToEffort.cs:45-49 | Mathf.Clamp as used for the traits: inside [min,max] for a well-formed range; the value itself when inside; min below; max above |
| UnityMath.Clamp01 | Assets/Assets/Scripts/RigController.cs:363 | Mathf.Clamp01: always in [0,1]; identity on [0,1]; 0 below and 1 above |
| UnityMath.LerpBounds | Assets/Assets/Scripts/MotionParameterApplier.cs:229-231 | Mathf.Lerp with a clamped parameter lands between its end points whatever the parameter |
| UnityMath.LerpMonotone | Assets/Assets/Scripts/MotionParameterApplier.cs:229-231 | with ordered end points Lerp never decreases as the parameter grows |
| UnityMath.RemainderByTwo | Assets/Assets/Scripts/MotionParameterApplier.cs:356 | the C# `% 2f`: result takes the sign of the dividend, lies strictly within 2 of zero, and is the identity on (-2,2) |
| FloatModel.Mul | Assets/Assets/Scripts/RigController.cs:269-271 | float product: exact on finite values, NaN whenever an operand is NaN |
| FloatModel.Div | Assets/Assets/Scripts/RigController.cs:269-270 | float quotient: exact for a non-zero finite divisor, never finite for a zero divisor, NaN for a NaN operand |
| FloatModel.Add | Assets/Assets/Scripts/RigController.cs:271 | float sum: exact on finite values, NaN for a NaN operand |
| FloatModel.Sin | Assets/Assets/Scripts/RigController.cs:269-270 | Mathf.Sin is finite exactly when its argument is, and NaN otherwise |
| FloatModel.Pow | Assets/Assets/Scripts/RigController.cs:273 | Mathf.Pow of a negative base with a non-integer exponent is NaN; a positive base gives the sampled power |
| FloatModel.FloatLerp | Assets/Assets/Scripts/RigController.cs:295 | Mathf.Lerp on floats: the real Lerp on finite ends, NaN whenever the target is NaN |
| PersonalityToEffort.EffortMatrixInUnitRange | Assets/Assets/Scripts/PersonalityToEffort.cs:34-40 | the matrix is 4x5 and every coefficient lies in [-1,1] |
| PersonalityToEffort.ClampTraits | Assets/Assets/Scripts/PersonalityToEffort.cs:43-50 | clamped traits are always in [-1,1] and traits already in range are unchanged |
| PersonalityToEffort.MaxPositiveIsLargest | Assets/Assets/Scripts/PersonalityToEffort.cs:75-85 | the running maximum bounds every product from above, is 0 or one of the products, and is 0 when no product is positive |
| PersonalityToEffort.MinNegativeIsSmallest | Assets/Assets/Scripts/PersonalityToEffort.cs:75-85 | the running minimum bounds every product from below, is 0 or one of the products, and is 0 when no product is negative |
| PersonalityToEffort.CalculateEffortComponent | Assets/Assets/Scripts/PersonalityToEffort.cs:73-88 | the loop returns the largest positive product plus the most negative product of the five |
| PersonalityToEffort.ReductionStep | Assets/Assets/Scripts/PersonalityToEffort.cs:80-84 | one loop step: a positive product can only raise the maximum, any other product can only lower the minimum |
| PersonalityToEffort.DominantTermInUnitRange | Assets/Assets/Scripts/PersonalityToEffort.cs:87 | when every product is in [-1,1], so is the dominant-term sum |
| PersonalityToEffort.EffortComponentInUnitRange | Assets/Assets/Scripts/PersonalityToEffort.cs:73-88 | each matrix row reduced against traits in [-1,1] gives a value in [-1,1] |
| PersonalityToEffort.EffortsInUnitRange | Assets/Assets/Scripts/PersonalityToEffort.cs:55-70 | traits in [-1,1] give all four efforts in [-1,1] |
| PersonalityToEffort.WeightRowProducts | Assets/Assets/Scripts/PersonalityToEffort.cs:37 | the weight row's products are zero except the negated agreeableness |
| PersonalityToEffort.ReductionOfFourth | Assets/Assets/Scripts/PersonalityToEffort.cs:75-87 | a product list whose only non-zero entry is x reduces to x, whatever its sign |
| PersonalityToEffort.WeightIsNegatedAgreeableness | Assets/Assets/Scripts/PersonalityToEffort.cs:37 | the weight effort is exactly the negated agreeableness |
| PersonalityToEffort.AllOnesSpaceIsDominantPair | Assets/Assets/Scripts/PersonalityToEffort.cs:36 | all traits at 1 give a space effort of 0.928 - 1.0, which differs from the dot product |
| PersonalityToEffort.SpaceRowProductsOfOnes | Assets/Assets/Scripts/PersonalityToEffort.cs:36 | all traits at 1 give the space row's own coefficients as products |
| PersonalityToEffort.ZeroTraitsGiveZeroEfforts | Assets/Assets/Scripts/PersonalityToEffort.cs:55-70 | neutral traits give all four efforts 0 |
| PersonalityToEffort.ZeroRowGivesZero | Assets/Assets/Scripts/PersonalityToEffort.cs:73-88 | any row reduced against neutral traits gives 0 |
| PersonalityToEffort.OutOfRangeInputsActAsClamped | Assets/Assets/Scripts/PersonalityToEffort.cs:42-50 | clamping is idempotent, so out-of-range inputs (5,5,5,5,5) act as their clamped values (1,1,1,1,1) |
| PersonalityToEffort.PersonalityToEffort.constructor | Assets/Assets/Scripts/PersonalityToEffort.cs:30-31 | both structs start zeroed |
| PersonalityToEffort.PersonalityToEffort.UpdatePersonality | Assets/Assets/Scripts/PersonalityToEffort.cs:43-52 | stores the clamped traits and the efforts of those traits; both lie in [-1,1] |
| PersonalityToEffort.PersonalityToEffort.ConvertPersonalityToEffort | Assets/Assets/Scripts/PersonalityToEffort.cs:55-70 | the stored efforts become the four reductions of the stored traits |
| PersonalityToEffort.PersonalityToEffort.GetEffortComponents | Assets/Assets/Scripts/PersonalityToEffort.cs:90-93 | returns the stored efforts and changes nothing |
| MotionParameter.Spread | Assets/Assets/Scripts/MotionParameter.cs:89-96 | the reach of a row away from its intercept is never negative |
| MotionParameter.AffineWithinSpread | Assets/Assets/Scripts/MotionParameter.cs:89-96 | with efforts in [-1,1] a row's value lies within its spread of its intercept |
| MotionParameter.SlopeTerm | Assets/Assets/Scripts/MotionParameter.cs:92-95 | one slope times one effort in [-1,1] stays within the slope's magnitude |
| MotionParameter.ParameterWithinSpread | Assets/Assets/Scripts/MotionParameter.cs:89-96 | each of the sixteen parameters lies within its row's spread of its intercept |
| MotionParameter.NeutralEffortsGiveIntercept | Assets/Assets/Scripts/MotionParameter.cs:89-96 | zero efforts give a row's intercept |
| MotionParameter.EachFieldUsesItsOwnRow | Assets/Assets/Scripts/MotionParameter.cs:69-84 | field i of the parameters is row i's regression and lies within that row's range |
| MotionParameter.NeutralEffortsGiveIntercepts | Assets/Assets/Scripts/MotionParameter.cs:43-84 | zero efforts give exactly the sixteen intercepts of the table |
| MotionParameter.TimingParameterRanges | Assets/Assets/Scripts/MotionParameter.cs:46-49 | animation speed stays in [0.086, 1.03] while the anticipation time ranges over [-0.022, 0.084], so it can be zero |
| MotionParameter.ShapeQualitiesOf | Assets/Assets/Scripts/MotionParameter.cs:99-135 | the three shape qualities always lie in [-1,1] |
| MotionParameter.NeutralEffortsGiveNeutralShape | Assets/Assets/Scripts/MotionParameter.cs:99-135 | zero efforts give neutral shape qualities |
| MotionParameter.ShapeFollowsEffortsInversely | Assets/Assets/Scripts/MotionParameter.cs:104-110 | raising space, weight or time never raises its own shape quality |
| MotionParameter.MotionParameter.constructor | Assets/Assets/Scripts/MotionParameter.cs:8-40 | zeroed parameters and no shape qualities yet |
| MotionParameter.MotionParameter.CalculateMotionParameters | Assets/Assets/Scripts/MotionParameter.cs:65-87 | all sixteen parameters and the shape qualities become those of the converter's current efforts |
| MotionParameter.MotionParameter.CalculateShapeQualities | Assets/Assets/Scripts/MotionParameter.cs:99-113 | a fresh shape-quality object of the given efforts replaces the old one |
| MotionParameter.MotionParameter.ApplyAdditionalInfluences | Assets/Assets/Scripts/MotionParameter.cs:115-135 | the cross-terms are added to the current factors, then each is clamped into [-1,1] |
| MotionParameterApplier.CalculateArmSwingModifier | Assets/Assets/Scripts/MotionParameterApplier.cs:138-143 | always in [0.4, 0.9] |
| MotionParameterApplier.CalculateMaxBackSwing | Assets/Assets/Scripts/MotionParameterApplier.cs:145-150 | always in [0.2, 0.8] |
| MotionParameterApplier.CalculateMaxForwardSwing | Assets/Assets/Scripts/MotionParameterApplier.cs:152-157 | always in [0.5, 1.3] |
| MotionParameterApplier.CalculateVerticalSwingModifier | Assets/Assets/Scripts/MotionParameterApplier.cs:159-164 | always in [0.3, 0.7] |
| MotionParameterApplier.CalculateVerticalSmoothness | Assets/Assets/Scripts/MotionParameterApplier.cs:166-171 | always in [0, 1] |
| MotionParameterApplier.CalculateLegSwingModifier | Assets/Assets/Scripts/MotionParameterApplier.cs:173-178 | always in [0.3, 0.7] |
| MotionParameterApplier.CalculateLegLiftModifier | Assets/Assets/Scripts/MotionParameterApplier.cs:180-185 | always in [0.3, 1.0] |
| MotionParameterApplier.CalculateMaxLegForwardSwing | Assets/Assets/Scripts/MotionParameterApplier.cs:187-192 | always in [0.4, 1.0] |
| MotionParameterApplier.CalculateMaxLegBackSwing | Assets/Assets/Scripts/MotionParameterApplier.cs:194-199 | always in [0.3, 0.9] |
| MotionParameterApplier.CalculateLegSmoothness | Assets/Assets/Scripts/MotionParameterApplier.cs:201-206 | always in [0, 1] |
| MotionParameterApplier.HeadMovementAmount | Assets/Assets/Scripts/MotionParameterApplier.cs:391 | always in [1, 30] |
| MotionParameterApplier.HeadMovementSpeed | Assets/Assets/Scripts/MotionParameterApplier.cs:392 | always in [0.2, 1] |
| MotionParameterApplier.HeadNoiseIntensity | Assets/Assets/Scripts/MotionParameterApplier.cs:394-397 | always in [0, 1] |
| MotionParameterApplier.HeadNoiseIntensityMonotone | Assets/Assets/Scripts/MotionParameterApplier.cs:394-397 | the head noise never decreases as space moves away from 0 or as time grows |
| MotionParameterApplier.SpeedFactorBetweenBounds | Assets/Assets/Scripts/MotionParameterApplier.cs:227-233 | the speed factor lies between the two speeds; it is the minimum for a speed at or below 0, the maximum at or above 1, and monotone in between |
| MotionParameterApplier.NeutralTuning | Assets/Assets/Scripts/MotionParameterApplier.cs:138-233 | neutral efforts give the listed tuning values, for example an arm swing modifier of 0.797, no head noise and a speed factor of 1.058 |
| MotionParameterApplier.SmoothStepInUnitRange | Assets/Assets/Scripts/MotionParameterApplier.cs:375 | the smoothstep maps [0,1] into [0,1] |
| MotionParameterApplier.CustomEaseInUnitRange | Assets/Assets/Scripts/MotionParameterApplier.cs:372-376 | the ease fixes 0 and 1 and maps [0,1] into itself |
| MotionParameterApplier.CustomEaseBlend | Assets/Assets/Scripts/MotionParameterApplier.cs:372-376 | only the larger smoothness counts: 1 or more gives the pure smoothstep, 0 or less the identity |
| MotionParameterApplier.AsymmetricSwingRange | Assets/Assets/Scripts/MotionParameterApplier.cs:266-278 | 0 at phase 0; forward up to maxForward for a non-negative phase and back down to -maxBack for a negative one; the limits are reached at phase 1 and -1 |
| MotionParameterApplier.NegatedPhaseSwapsLimits | Assets/Assets/Scripts/MotionParameterApplier.cs:246-250 | the right arm's swing, driven by the negated phase, is the left arm's swing with the two limits swapped and negated |
| MotionParameterApplier.PeakSwingsDifferWhenLimitsDiffer | Assets/Assets/Scripts/MotionParameterApplier.cs:246-250 | at the peak the two arms sit at maxForward and -maxBack, which are mirror images only for equal limits |
| MotionParameterApplier.VerticalSwingRange | Assets/Assets/Scripts/MotionParameterApplier.cs:280-292 | no vertical swing while swinging back; an eased lift between 0 and amplitude times modifier while swinging forward |
| MotionParameterApplier.ScaledTwice | Assets/Assets/Scripts/MotionParameterApplier.cs:284-285 | an eased factor in [0,1] times amplitude and modifier stays between 0 and their product |
| MotionParameterApplier.AsymmetricLegSwingRange | Assets/Assets/Scripts/MotionParameterApplier.cs:340-352 | the eased leg swing goes forward up to maxForward for a non-negative phase and back down to -maxBack for a negative one |
| MotionParameterApplier.AdjustedPhaseOnSineRange | Assets/Assets/Scripts/MotionParameterApplier.cs:356 | the adjusted phase is the phase itself on [-1,1) and wraps 1 to -1 |
| MotionParameterApplier.LiftCurveInWindow | Assets/Assets/Scripts/MotionParameterApplier.cs:358-364 | inside the lift window the lift phase lies in (0,1) and the parabola in [0,1] |
| MotionParameterApplier.NoLiftOutsideWindow | Assets/Assets/Scripts/MotionParameterApplier.cs:358-369 | no lift at phase 1, which wraps to -1, and none before the lift start point |
| MotionParameterApplier.LegLiftRange | Assets/Assets/Scripts/MotionParameterApplier.cs:354-370 | the lift lies between 0 and amplitude times modifier |
| MotionParameterApplier.LegLiftInWindow | Assets/Assets/Scripts/MotionParameterApplier.cs:358-364 | inside the lift window the eased parabola scaled by amplitude and modifier lies between 0 and their product |
| MotionParameterApplier.FlagTransitions | Assets/Assets/Scripts/MotionParameterApplier.cs:309-325 | past +0.1 the left leg leaves and the right leg enters its back swing; past -0.1 the reverse; inside the band both flags stay; the right flag is the left flag of the negated derivative |
| MotionParameterApplier.FlagsTrackLastPeak | Assets/Assets/Scripts/MotionParameterApplier.cs:309-325 | over any run of frames each flag depends only on the last derivative outside the band, or keeps its start value when there is none |
| MotionParameterApplier.LegsAlternateAfterAPeak | Assets/Assets/Scripts/MotionParameterApplier.cs:309-325 | once the derivative has left the band, exactly one leg is in its back swing |
| MotionParameterApplier.LastPeakIsOutsideBand | Assets/Assets/Scripts/MotionParameterApplier.cs:309-325 | the remembered peak always lies at least 0.1 from zero |
| MotionParameterApplier.LegTarget | Assets/Assets/Scripts/MotionParameterApplier.cs:327-337 | a leg in its back swing sits on the floor, otherwise it is at least at the floor and at its lifted rest height; sideways position kept, forward position is rest plus swing |
| MotionParameterApplier.ArmTarget | Assets/Assets/Scripts/MotionParameterApplier.cs:254-263 | an arm is never below the arm floor height nor below its rest height minus the vertical swing; sideways kept, forward is rest plus swing |
| MotionParameterApplier.WristZRotationRange | Assets/Assets/Scripts/MotionParameterApplier.cs:126-128 | for a sine in [-1,1] the wrist angle lies between the minimum and the maximum rotation |
| MotionParameterApplier.HeadNoiseOffsetRange | Assets/Assets/Scripts/MotionParameterApplier.cs:407-409 | a noise sample in [0,1] gives an offset within the head movement amount of zero |
| MotionParameterApplier.HeadNoiseOffsetWithSlack | Assets/Assets/Scripts/MotionParameterApplier.cs:407-409 | a noise sample within a slack of [0,1] gives an offset within (1 + 2 slack) times the head movement amount of zero |
| MotionParameterApplier.MotionParameterApplier.constructor | Assets/Assets/Scripts/MotionParameterApplier.cs:44-97 | every tuning field starts at its inspector default; no target is assigned yet |
| MotionParameterApplier.MotionParameterApplier.InitializeRigs2 | Assets/Assets/Scripts/MotionParameterApplier.cs:98-107 | records the four limb rest positions and initialises the head |
| MotionParameterApplier.MotionParameterApplier.InitializeHeadMovement | Assets/Assets/Scripts/MotionParameterApplier.cs:378-386 | with a head target: rest and target position are its position and the noise seed is the random value times 1000; without one nothing changes |
| MotionParameterApplier.MotionParameterApplier.UpdateMovementParameters | Assets/Assets/Scripts/MotionParameterApplier.cs:207-237 | every tuning value becomes that of the current motion parameters and efforts; the speed factor drives the animator and lies in the speed range |
| MotionParameterApplier.MotionParameterApplier.UpdateSpeedFactor | Assets/Assets/Scripts/MotionParameterApplier.cs:227-235 | the speed factor is the clamped speed mapped onto the speed range and drives the animator |
| MotionParameterApplier.MotionParameterApplier.UpdateArmParameters | Assets/Assets/Scripts/MotionParameterApplier.cs:212-217 | the five arm tuning values of the motion parameters |
| MotionParameterApplier.MotionParameterApplier.UpdateLegParameters | Assets/Assets/Scripts/MotionParameterApplier.cs:219-224 | the five leg tuning values of the motion parameters |
| MotionParameterApplier.MotionParameterApplier.UpdateHeadMovementParameters | Assets/Assets/Scripts/MotionParameterApplier.cs:388-398 | head amount, speed and noise intensity of the parameters and efforts; amount in [1,30], intensity in [0,1] |
| MotionParameterApplier.MotionParameterApplier.ApplyMotionParams | Assets/Assets/Scripts/MotionParameterApplier.cs:109-116 | the clock advances by the frame time and the back-swing flags advance with the derivative |
| MotionParameterApplier.MotionParameterApplier.ApplyWristRotations | Assets/Assets/Scripts/MotionParameterApplier.cs:118-136 | both wrists receive the same angle from the sine of the clock; nothing changes without both arm targets |
| MotionParameterApplier.MotionParameterApplier.ApplyArmSwing | Assets/Assets/Scripts/MotionParameterApplier.cs:239-264 | left arm from the phase, right arm from the negated phase, both above the arm floor; nothing changes without both targets |
| MotionParameterApplier.MotionParameterApplier.ApplyLegSwing | Assets/Assets/Scripts/MotionParameterApplier.cs:294-338 | the flags advance with the derivative, each leg swings and lifts and is on the floor while its flag is set; nothing changes without both targets |
| MotionParameterApplier.MotionParameterApplier.ApplyHeadMovement | Assets/Assets/Scripts/MotionParameterApplier.cs:400-418 | the head target is the rest position plus the scaled noise offset, and the head moves a clamped fraction deltaTime*5 toward it |
| ShapeQuality.ClampedMovement | Assets/Assets/Scripts/ShapeQuality.cs:179-183 | the scaled amount clamped to the range: inside the range for a well-formed range, the amount itself when inside, the minimum below, the maximum above |
| ShapeQuality.DefaultRangesBounds | Assets/Assets/Scripts/ShapeQuality.cs:48-55 | with the default ranges each amount lies in its range, and a zero factor gives each range's minimum |
| ShapeQuality.TargetOffsets | Assets/Assets/Scripts/ShapeQuality.cs:127-164 | each hand, foot and raised target is its rest position plus a fixed offset vector |
| ShapeQuality.HandsAndFeetMirror | Assets/Assets/Scripts/ShapeQuality.cs:127-146 | enclosing/spreading mirrors hands, feet and shoulders sideways; rising and advancing move both hands alike |
| ShapeQuality.OnlyLeftFootRetreats | Assets/Assets/Scripts/ShapeQuality.cs:164 | only the left foot moves forward or back, and neither foot rises |
| ShapeQuality.ToePitchOnlyWhenRising | Assets/Assets/Scripts/ShapeQuality.cs:131-155 | the toe pitch is applied exactly when sinking/rising is positive; the yaw always is |
| ShapeQuality.DefaultRangesAlwaysSpread | Assets/Assets/Scripts/ShapeQuality.cs:49-50 | with the default ranges the hands and feet spread outward whatever the factor, even an enclosing one |
| ShapeQuality.TorsoOnlyRises | Assets/Assets/Scripts/ShapeQuality.cs:147-149 | hips, head and chest move only vertically, each by its own amount |
| ShapeQuality.ShapeQuality.constructor | Assets/Assets/Scripts/ShapeQuality.cs:47-55 | the default ranges and foot rotation range |
| ShapeQuality.ShapeQuality.InitializePositionsAndRotations | Assets/Assets/Scripts/ShapeQuality.cs:75-90 | records every rest position and passes the limb rest positions to the gait generator; with a head target, the gait generator's head rest and target positions become the head's position and its noise offset the random sample times 1000, and without one they stay as they were |
| ShapeQuality.ShapeQuality.ApplyShapeQualities | Assets/Assets/Scripts/ShapeQuality.cs:100-178 | every target is rebuilt from its rest position with the current shape qualities; nothing changes without them |
| RigController.SafeFloat | Assets/Assets/Scripts/RigController.cs:317-322 | always finite; finite values pass unchanged; NaN and infinities become the fallback |
| RigController.SafeFloatIdempotent | Assets/Assets/Scripts/RigController.cs:269 | guarding an already guarded value changes nothing, whatever the second fallback |
| RigController.SafeVector3 | Assets/Assets/Scripts/RigController.cs:324-331 | each component is guarded with fallback 0 |
| RigController.SafeVector3KeepsFinite | Assets/Assets/Scripts/RigController.cs:324-331 | a finite vector passes unchanged; each non-finite component becomes 0 |
| RigController.ClampArmSpread | Assets/Assets/Scripts/RigController.cs:256-259 | the spread lies between the arm limits and is unchanged inside them |
| RigController.ClampedProduct | Assets/Assets/Scripts/RigController.cs:351-384 | every weight lies in [0,1] |
| RigController.MultiplierInRange | Assets/Assets/Scripts/RigController.cs:127-145 | an effort multiplier stays on the inspector slider [0.8,1.2] whichever way its ends are ordered |
| RigController.ClampedProductMonotone | Assets/Assets/Scripts/RigController.cs:351-384 | a clamped product of non-negative factors never decreases when the factors grow |
| RigController.ProductMonotone | Assets/Assets/Scripts/RigController.cs:359-360 | a product of two non-negative factors never decreases when either grows |
| RigController.ArmWeightFloor | Assets/Assets/Scripts/RigController.cs:351-363 | with settings on their sliders the arm weight is at least 0.064 |
| RigController.ArmWeightRisesWithExtraversion | Assets/Assets/Scripts/RigController.cs:351-363 | a more extraverted personality never gets a lower arm weight |
| RigController.LegWeightFallsAsTimeRises | Assets/Assets/Scripts/RigController.cs:364-370 | with the time ends swapped, a more sudden time never raises the leg weight |
| RigController.TorsoWeightFallsAsFlowRises | Assets/Assets/Scripts/RigController.cs:371-377 | with the flow ends swapped, more flow never raises the torso weight |
| RigController.WeightsOf | Assets/Assets/Scripts/RigController.cs:333-348 | all six weights in [0,1]; both arms share one weight and both legs another |
| RigController.RigAnimatorSpeedBounds | Assets/Assets/Scripts/RigController.cs:196 | for an animation speed between two bounds and a non-negative multiplier, the animator speed lies between the multiplier times one fifth of the way from 1 to each bound |
| RigController.RigAnimatorSpeedForEfforts | Assets/Assets/Scripts/RigController.cs:196 | for efforts in [-1,1] the animator speed lies between 0.8172 and 1.006 times a non-negative multiplier |
| RigController.RigAnimatorSpeedCanExceedMultiplier | Assets/Assets/Scripts/RigController.cs:196 | the efforts (0,1,1,1) give an animation speed of 1.03 and an animator speed of 1.006 times the multiplier, above the multiplier |
| RigController.OscillationFactor | Assets/Assets/Scripts/RigController.cs:269-270 | the guarded factor is 0 for a zero period and the sampled sine times velocity, scale and intensity otherwise |
| RigController.SwayIsForwardPlusBack | Assets/Assets/Scripts/RigController.cs:271 | the sway is forward times anticipation plus back times overshoot, scaled |
| RigController.TimeEffect | Assets/Assets/Scripts/RigController.cs:273 | the step effect is 0 when the sine is negative and the exponent not whole, and the sampled power when the sine is positive |
| RigController.LegTargetOffsets | Assets/Assets/Scripts/RigController.cs:261-278 | the legs never move sideways, rise with sinking/rising, and move forward by the guarded sway plus a step taken in opposite directions by the two sides |
| RigController.LegsPauseOnNegativeStepSine | Assets/Assets/Scripts/RigController.cs:273-274 | while the step sine is negative and the exponent not whole, both legs sit at the same forward offset |
| RigController.HeadIgnoresZeroPeriods | Assets/Assets/Scripts/RigController.cs:310-312 | zero anticipation and overshoot times leave the head only nodding, with no forward sway |
| RigController.TorsoOscillationAsWritten | Assets/Assets/Scripts/RigController.cs:290-291 | the unguarded torso factor is NaN for a zero period and the sampled sine times velocity otherwise |
| RigController.TorsoTargetNaNWhenAnticipationTimeZero | Assets/Assets/Scripts/RigController.cs:290-295 | as written, a zero anticipation time makes every component of the torso target NaN, and the smoothed target as well |
| RigController.AnticipationTimeReachesZero | Assets/Assets/Scripts/MotionParameter.cs:49 | the traits (0,0,0,31/49,0), which lie inside [-1,1], give an anticipation time of exactly 0 |
| RigController.AgreeablenessOnlyEfforts | Assets/Assets/Scripts/PersonalityToEffort.cs:36-39 | traits with only agreeableness a give efforts (0, -a, -a, 0) |
| RigController.AnticipationTimeOfAgreeableness | Assets/Assets/Scripts/MotionParameter.cs:49 | weight and time efforts of -31/49 give an anticipation time of 0 |
| RigController.AgreeablenessOnlyRow | Assets/Assets/Scripts/PersonalityToEffort.cs:73-88 | a row against traits with only agreeableness a reduces to its fourth coefficient times a |
| RigController.TorsoOscillationIsGuarded | Assets/Assets/Scripts/RigController.cs:269-270 | the corrected torso factor is the as-written factor passed through SafeFloat with fallback 0 |
| RigController.TorsoTargetAgreesAwayFromZeroPeriods | Assets/Assets/Scripts/RigController.cs:280-295 | with both periods non-zero the corrected torso target equals the as-written one |
| RigController.TorsoTargetIgnoresZeroAnticipationTime | Assets/Assets/Scripts/RigController.cs:280-295 | with the guard, a zero anticipation time keeps the sideways and vertical position and only the overshoot sways the torso |
| RigController.LegRig.constructor | Assets/Assets/Scripts/RigController.cs:26-36 | target and hint start at their rest positions |
| RigController.TorsoRig.constructor | Assets/Assets/Scripts/RigController.cs:37-46 | the target starts at its rest position |
| RigController.HeadRig.constructor | Assets/Assets/Scripts/RigController.cs:47-56 | the target starts at its rest position, and the neutral position is zero |
| RigController.RigController.constructor | Assets/Assets/Scripts/RigController.cs:61-156 | default settings, movement intensity 0.1, a zero clock and full weights |
| RigController.RigController.InitializeRigs | Assets/Assets/Scripts/RigController.cs:162-182 | every rig records its current position as rest; the head's neutral position is 2 forward plus 1.7 up |
| RigController.RigController.Update | Assets/Assets/Scripts/RigController.cs:184-188 | the clock advances by the frame time; the animator speed is set; without shape qualities nothing else changes; with them, at the new time, the legs reach LegTarget with their hints at rest, the torso and head move a clamped fraction deltaTime*5 toward their targets, and the weights are recomputed |
| RigController.RigController.UpdateRigs | Assets/Assets/Scripts/RigController.cs:191-208 | the animator speed, then, with shape qualities, legs, torso and head move toward their targets and the weights are recomputed |
| RigController.RigController.UpdateLegRig | Assets/Assets/Scripts/RigController.cs:261-278 | the leg target becomes LegTarget and the hint returns to its rest position |
| RigController.RigController.UpdateTorsoRig | Assets/Assets/Scripts/RigController.cs:280-299 | the torso target moves a clamped fraction deltaTime*5 toward the guarded torso target |
| RigController.RigController.UpdateHeadRig | Assets/Assets/Scripts/RigController.cs:301-315 | the head target moves a clamped fraction deltaTime*5 toward HeadTarget |
| RigController.RigController.UpdateRigWeights | Assets/Assets/Scripts/RigController.cs:333-348 | the weights of the stored traits and efforts, all in [0,1], arms and legs paired |
| PersonalityControllerTest.ChosenTraits | Assets/Assets/Scripts/PersonalityControllerTest.cs:35-42 | the sliders when the custom flag is set, the asset's traits otherwise |
| PersonalityControllerTest.PersonalityControllerTest.constructor | Assets/Assets/Scripts/PersonalityControllerTest.cs:5-22 | the three components, the custom flag, the sliders and the asset |
| PersonalityControllerTest.PersonalityControllerTest.TestPersonality | Assets/Assets/Scripts/PersonalityControllerTest.cs:33-46 | with the components wired as in the scene, traits, efforts, motion parameters, shape qualities and all tuning values are those of the clamped chosen traits; of the gait generator only the tuning values and speeds change |
| PersonalityControllerTest.NeutralPersonalityTuning | Assets/Assets/Scripts/PersonalityControllerTest.cs:33-46 | a neutral personality gives zero efforts, a neutral shape, an arm swing modifier of 0.797, no head noise and a speed factor of 1.058 |
| PersonalityControllerTest.ChainSeesOnlyClampedTraits | Assets/Assets/Scripts/PersonalityControllerTest.cs:33-46 | the chain depends on the chosen traits only through their clamped values |

## Left out

- Arm rigs of RigController (`UpdateArmRig`, `CalculateArmPosition`, `ArmRig`): the arm targets and hints are not modelled. They are quaternion and walk-cycle code whose only guarded values feed the arm transforms. `ClampArmSpread` and the arm weight are modelled.
- `SmoothPosition` and `ApplyPersonalityInfluence` of RigController: nothing in the modelled code calls them.
- Rotations: quaternions, `Quaternion.Euler` composition, the torso's `Quaternion.Slerp` and the wrist rotation offsets are not modelled. The foot turns are kept as a sequence of Euler triples, and the wrists as their z angle only.
- IEEE single precision: every float is an exact `real`. Rounding and overflow are not modelled, so a value that is exactly 0 over the reals may round to a tiny non-zero float.
- `Mathf.Sin`, `Mathf.Cos`, `Mathf.Pow`, `Mathf.PerlinNoise`, `Random.value`, `Time.time` and `Time.deltaTime` are parameters or samples (`FrameSamples`, the phase arguments). Their ranges are stated where a lemma needs them. Unity's Perlin noise may return values slightly outside [0,1]; `HeadNoiseOffsetRange` assumes [0,1], and `HeadNoiseOffsetWithSlack` bounds the offset for samples that stray by a given slack.
- The unused `LegSettings` and `HeadSettings` of RigController: their fields are never read by the modelled code.
- `RigController.LegTarget`, `RigController.HeadTarget`, `RigController.TorsoTarget`: these omit the `SafeFloat`/`SafeVector3` wrappers on values that are finite. That is exact, since `SafeFloatIdempotent` and `SafeVector3KeepsFinite` show those wrappers are identities on finite values. The guards that matter are modelled in `OscillationFactor`, `TimeEffect` and `TorsoOscillationAsWritten`.
- `RecordAnim`, `RecordMetrics`, `IKController`, `AnimControlTest`, `OnGUI`, `Debug.Log` and the `Print...` methods: recording, GUI and logging code, outside the core.
- ShapeQuality's nine `Transform` targets are grouped into one `Pose` value, and RigController's rig weights into one `RigWeights` record field.
- `RigController.RigController.UpdateRigs`: a missing shape-quality object stops the update after the animator speed. The C# code would throw a null-reference exception there; exceptions are not modelled.
- `PersonalityControllerTest.PersonalityControllerTest.TestPersonality`: the `OCEAN_SO` asset is modelled as a traits value, so a missing asset is not modelled. Its post-state is stated for the wiring of the scene (the three components referring to one another); for other wirings only the personality component's new state is stated.
- `RigController.RigController.UpdateTorsoRig`, and through it `UpdateRigs` and `Update`, model the corrected, guarded torso target. As written, the source writes NaN into the torso's position when a period is 0 (see Findings); that behaviour is stated by `TorsoTargetNaNWhenAnticipationTimeZero`, not by the class.
- `MotionParameterApplier.MotionParameterApplier.UpdateMovementParameters` is split into `UpdateArmParameters`, `UpdateLegParameters`, `UpdateHeadMovementParameters` and `UpdateSpeedFactor`, one per block of the C# method.
- The order of Unity's `Update` and `LateUpdate` across components, and the `Start` calls, are not modelled. Each method is modelled as one call.
- `MotionParameterApplier.MotionParameterApplier.ApplyMotionParams` states the clock and the back-swing flags; the targets are stated by `ApplyArmSwing`, `ApplyLegSwing`, `ApplyHeadMovement` and `ApplyWristRotations`.

## Findings

| source | as written | input that shows it | evidently intended | confidence | as-written member | corrected member |
|---|---|---|---|---|---|---|
| Assets/Assets/Scripts/RigController.cs:290-293 | The torso divides by `mp.anticipationTime` and `mp.overshootTime` with no guard, unlike the legs (lines 269-270) and the head (lines 310-311). A zero period makes the sine argument infinite, the sine NaN, and every component of the torso target NaN, which is then written into the torso's position. | Traits (0, 0, 0, 31/49, 0) are inside [-1,1]. They give weight and time efforts of -31/49, hence an anticipation time of 0.031 - 0.049 * 31/49 = 0. | The same guard as the legs and the head: the NaN factor becomes 0, so only the overshoot sways the torso. | not executed; over the reals the period is exactly 0, and in single precision only inputs that round the period to exactly 0 trigger it | RigController.TorsoTargetNaNWhenAnticipationTimeZero | RigController.TorsoTargetAgreesAwayFromZeroPeriods |
