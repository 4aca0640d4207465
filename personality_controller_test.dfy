/** PersonalityControllerTest.cs: the driver that recomputes the whole
    chain when a personality is applied. The traits come either from the
    five inspector sliders or from a personality asset; they are stored and
    turned into efforts, the efforts into motion parameters and shape
    qualities, and those into the gait generator's tuning values, in that
    order and as one step. */
module PersonalityControllerTest {
  import opened UnityMath
  import opened PersonalityToEffort
  import opened MotionParameter
  import opened MotionParameterApplier

  /** The traits TestPersonality passes on: the sliders when `useCustom` is
      set, the asset's traits otherwise. */
  function ChosenTraits(useCustom: bool, sliders: PersonalityTraits, asset: PersonalityTraits): (t: PersonalityTraits)
    ensures useCustom ==> t == sliders
    ensures !useCustom ==> t == asset
  {
    if useCustom then sliders else asset
  }

  class PersonalityControllerTest {
    var motionParameter: MotionParameter
    var personalityToEffort: PersonalityToEffort
    var motionParameterApplier: MotionParameterApplier
    var useCustom: bool
    /** The five inspector sliders. */
    var sliders: PersonalityTraits
    /** The traits of the personality asset (OCEAN_SO). */
    var personality: PersonalityTraits

    constructor (mp: MotionParameter, pte: PersonalityToEffort, applier: MotionParameterApplier,
                 custom: bool, sliderTraits: PersonalityTraits, asset: PersonalityTraits)
      ensures motionParameter == mp && personalityToEffort == pte && motionParameterApplier == applier
      ensures useCustom == custom && sliders == sliderTraits && personality == asset
    {
      motionParameter, personalityToEffort, motionParameterApplier := mp, pte, applier;
      useCustom, sliders, personality := custom, sliderTraits, asset;
    }

    /** The components reference one another as in the scene. */
    predicate Wired()
      reads this, motionParameter, motionParameterApplier
    {
      && motionParameter.effortConverter == personalityToEffort
      && motionParameterApplier.motionParameter == motionParameter
      && motionParameterApplier.personalityToEffort == personalityToEffort
    }

    /** TestPersonality: UpdatePersonality, then CalculateMotionParameters,
        then UpdateMovementParameters. When the components are wired to one
        another as in the scene, every stage ends up computed from the
        clamped chosen traits, whatever the stages held before; of the gait
        generator only the tuning values and the speeds change. */
    method TestPersonality()
      modifies personalityToEffort
      modifies motionParameter`motionParameters, motionParameter`shapeQualities
      modifies motionParameterApplier`armSwingModifier, motionParameterApplier`maxBackSwing
      modifies motionParameterApplier`maxForwardSwing, motionParameterApplier`verticalSwingModifier
      modifies motionParameterApplier`verticalSmoothness, motionParameterApplier`legSwingModifier
      modifies motionParameterApplier`legLiftModifier, motionParameterApplier`maxLegForwardSwing
      modifies motionParameterApplier`maxLegBackSwing, motionParameterApplier`legSmoothness
      modifies motionParameterApplier`headMovementAmount, motionParameterApplier`headMovementSpeed
      modifies motionParameterApplier`headNoiseIntensity, motionParameterApplier`currentSpeedFactor
      modifies motionParameterApplier`animatorSpeed
      ensures var t := ClampTraits(ChosenTraits(useCustom, sliders, personality));
        && personalityToEffort.personalityTraits == t
        && personalityToEffort.effortComponents == EffortsOf(t)
      ensures old(motionParameter.effortConverter) == personalityToEffort ==>
        var e := EffortsOf(ClampTraits(ChosenTraits(useCustom, sliders, personality)));
        && motionParameter.motionParameters == MotionParametersOf(e)
        && motionParameter.shapeQualities == Some(ShapeQualitiesOf(e))
      ensures old(Wired()) ==>
        var e := EffortsOf(ClampTraits(ChosenTraits(useCustom, sliders, personality)));
        motionParameterApplier.TunedFor(MotionParametersOf(e), e)
    {
      ghost var wired := Wired();
      var t := ChosenTraits(useCustom, sliders, personality);
      personalityToEffort.UpdatePersonality(t.openness, t.conscientiousness, t.extraversion,
                                            t.agreeableness, t.neuroticism);
      motionParameter.CalculateMotionParameters();
      ghost var parameters, efforts := motionParameter.motionParameters, personalityToEffort.effortComponents;
      motionParameterApplier.UpdateMovementParameters();
      if wired {
        assert motionParameterApplier.TunedFor(parameters, efforts);
      }
    }
  }

  /** A neutral personality, from the sliders or from the asset, tunes the
      gait generator with the intercepts of every tuning value: no head
      noise and an animator running at 1.058 with the default speed range. */
  lemma NeutralPersonalityTuning(useCustom: bool, sliders: PersonalityTraits, asset: PersonalityTraits)
    requires ChosenTraits(useCustom, sliders, asset) == ZeroTraits
    ensures var e := EffortsOf(ClampTraits(ChosenTraits(useCustom, sliders, asset)));
      var mp := MotionParametersOf(e);
      && e == ZeroEfforts
      && ShapeQualitiesOf(e) == ShapeQualities(0.0, 0.0, 0.0)
      && CalculateArmSwingModifier(mp) == 0.797
      && HeadNoiseIntensity(e) == 0.0
      && SpeedFactor(mp.animationSpeed, 0.5, 1.5) == 1.058
  {
    assert ClampTraits(ZeroTraits) == ZeroTraits;
    ZeroTraitsGiveZeroEfforts();
    NeutralEffortsGiveNeutralShape();
    NeutralTuning();
  }

  /** Applying a personality whose sliders lie outside [-1,1] leaves every
      stage exactly where applying the clamped sliders would: the chain
      depends on the chosen traits only through their clamped values. */
  lemma ChainSeesOnlyClampedTraits(t: PersonalityTraits)
    ensures var e := EffortsOf(ClampTraits(ClampTraits(t)));
      && e == EffortsOf(ClampTraits(t))
      && MotionParametersOf(e) == MotionParametersOf(EffortsOf(ClampTraits(t)))
      && ShapeQualitiesOf(e).InUnitRange()
  {
    OutOfRangeInputsActAsClamped(t);
  }
}
