/** MotionParameter.cs: the four effort components become sixteen motion
    parameters through affine regressions (a fixed 16x5 table) and three
    shape-quality factors clamped to [-1,1]. */
module MotionParameter {
  import opened UnityMath
  import opened PersonalityToEffort

  datatype MotionParameters = MotionParameters(
    animationSpeed: real,
    anticipationVelocity: real,
    overshootVelocity: real,
    anticipationTime: real,
    overshootTime: real,
    timeExponent: real,
    wristBend: real,
    wristTwist: real,
    wristFrequency: real,
    elbowTwist: real,
    elbowDisplacement: real,
    elbowFrequency: real,
    torsoRotationMagnitude: real,
    torsoRotationFrequency: real,
    headRotationMagnitude: real,
    headRotationFrequency: real)

  /** The C# struct before its first computation: every field 0. */
  const ZeroParameters: MotionParameters :=
    MotionParameters(0.0, 0.0, 0.0, 0.0, 0.0, 0.0, 0.0, 0.0, 0.0, 0.0, 0.0, 0.0, 0.0, 0.0, 0.0, 0.0)

  /** The three Laban shape qualities. */
  datatype ShapeQualities = ShapeQualities(
    enclosingSpreadingFactor: real,
    sinkingRisingFactor: real,
    retreatingAdvancingFactor: real)
  {
    predicate InUnitRange() {
      && -1.0 <= enclosingSpreadingFactor <= 1.0
      && -1.0 <= sinkingRisingFactor <= 1.0
      && -1.0 <= retreatingAdvancingFactor <= 1.0
    }
  }

  /** One row per parameter, in field order; columns: intercept, space,
      weight, time, flow. */
  const MotionCoefficients: seq<seq<real>> := [
    [0.558, -0.000,  0.001,  0.470,  0.001], // animation speed
    [0.223, -0.011,  0.297,  0.000, -0.029], // anticipation velocity
    [0.344, -0.042, -0.042,  0.000, -0.458], // overshoot velocity
    [0.031, -0.002,  0.041,  0.008, -0.002], // anticipation time
    [0.930,  0.015,  0.018, -0.015,  0.092], // overshoot time
    [1.043,  0.015,  0.008,  0.072,  0.060], // time exponent
    [0.191, -0.008, -0.238,  0.000, -0.025], // wrist bend
    [0.160, -0.010, -0.053,  0.010, -0.196], // wrist twist
    [0.848, -0.040, -0.760, -0.150, -0.381], // wrist frequency
    [0.281, -0.009,  0.039, -0.005, -0.313], // elbow twist
    [0.164, -0.016, -0.017,  0.035, -0.161], // elbow displacement
    [0.735,  0.015,  0.041,  0.020, -0.809], // elbow frequency
    [0.290, -0.043,  0.040,  0.010, -0.331], // torso rotation magnitude
    [1.283, -0.179,  0.223,  0.067, -1.410], // torso rotation frequency
    [1.210, -0.804,  0.008,  0.004, -0.178], // head rotation magnitude
    [1.078, -1.225,  0.104, -0.017,  0.184]  // head rotation frequency
  ]

  /** CalculateParameter: the affine regression of row `index`. */
  function CalculateParameter(index: nat, efforts: EffortComponents): real
    requires index < 16
  {
    Affine(MotionCoefficients[index], efforts)
  }

  /** Intercept plus one slope per effort. */
  function Affine(row: seq<real>, efforts: EffortComponents): real
    requires |row| == 5
  {
    row[0] + row[1] * efforts.space + row[2] * efforts.weight
      + row[3] * efforts.time + row[4] * efforts.flow
  }

  /** How far a row can move its parameter away from the intercept when every
      effort lies in [-1,1]: the sum of the absolute slopes. */
  function Spread(row: seq<real>): (s: real)
    requires |row| == 5
    ensures 0.0 <= s
  {
    Abs(row[1]) + Abs(row[2]) + Abs(row[3]) + Abs(row[4])
  }

  /** With efforts in [-1,1] an affine row lies within its spread of the
      intercept. */
  lemma AffineWithinSpread(row: seq<real>, efforts: EffortComponents)
    requires |row| == 5 && efforts.InUnitRange()
    ensures row[0] - Spread(row) <= Affine(row, efforts)
    ensures Affine(row, efforts) <= row[0] + Spread(row)
  {
    var s := SlopeTerm(row[1], efforts.space);
    var w := SlopeTerm(row[2], efforts.weight);
    var t := SlopeTerm(row[3], efforts.time);
    var f := SlopeTerm(row[4], efforts.flow);
    assert Affine(row, efforts) == row[0] + s + w + t + f;
  }

  /** One slope times one effort, bounded by the slope's magnitude. */
  lemma SlopeTerm(c: real, x: real) returns (p: real)
    requires -1.0 <= x <= 1.0
    ensures p == c * x
    ensures -Abs(c) <= p <= Abs(c)
  {
    p := c * x;
    ScaledBound(c, x);
  }

  /** With efforts in [-1,1] each parameter lies within its row's spread of
      the intercept. */
  lemma ParameterWithinSpread(index: nat, efforts: EffortComponents)
    requires index < 16 && efforts.InUnitRange()
    ensures MotionCoefficients[index][0] - Spread(MotionCoefficients[index])
            <= CalculateParameter(index, efforts)
    ensures CalculateParameter(index, efforts)
            <= MotionCoefficients[index][0] + Spread(MotionCoefficients[index])
  {
    AffineWithinSpread(MotionCoefficients[index], efforts);
  }

  /** With all efforts 0 a parameter is its row's intercept. */
  lemma NeutralEffortsGiveIntercept(index: nat)
    requires index < 16
    ensures CalculateParameter(index, ZeroEfforts) == MotionCoefficients[index][0]
  {
  }

  /** The parameters of a set of efforts, field by field from rows 0 to 15. */
  function MotionParametersOf(e: EffortComponents): MotionParameters {
    MotionParameters(
      CalculateParameter(0, e), CalculateParameter(1, e), CalculateParameter(2, e),
      CalculateParameter(3, e), CalculateParameter(4, e), CalculateParameter(5, e),
      CalculateParameter(6, e), CalculateParameter(7, e), CalculateParameter(8, e),
      CalculateParameter(9, e), CalculateParameter(10, e), CalculateParameter(11, e),
      CalculateParameter(12, e), CalculateParameter(13, e), CalculateParameter(14, e),
      CalculateParameter(15, e))
  }

  /** The field of `mp` that row `index` of the table feeds. */
  function ParameterAt(mp: MotionParameters, index: nat): real
    requires index < 16
  {
    match index
    case 0 => mp.animationSpeed
    case 1 => mp.anticipationVelocity
    case 2 => mp.overshootVelocity
    case 3 => mp.anticipationTime
    case 4 => mp.overshootTime
    case 5 => mp.timeExponent
    case 6 => mp.wristBend
    case 7 => mp.wristTwist
    case 8 => mp.wristFrequency
    case 9 => mp.elbowTwist
    case 10 => mp.elbowDisplacement
    case 11 => mp.elbowFrequency
    case 12 => mp.torsoRotationMagnitude
    case 13 => mp.torsoRotationFrequency
    case 14 => mp.headRotationMagnitude
    case _ => mp.headRotationFrequency
  }

  /** Every field is the regression of its own row, and every field is in the
      range its row allows for efforts in [-1,1]. */
  lemma EachFieldUsesItsOwnRow(e: EffortComponents, index: nat)
    requires index < 16
    ensures ParameterAt(MotionParametersOf(e), index) == CalculateParameter(index, e)
    ensures e.InUnitRange() ==>
      MotionCoefficients[index][0] - Spread(MotionCoefficients[index])
        <= ParameterAt(MotionParametersOf(e), index)
        <= MotionCoefficients[index][0] + Spread(MotionCoefficients[index])
  {
    if e.InUnitRange() {
      ParameterWithinSpread(index, e);
    }
  }

  /** Neutral efforts give every parameter its intercept, for instance an
      animation speed of 0.558 and a time exponent of 1.043. */
  lemma NeutralEffortsGiveIntercepts()
    ensures MotionParametersOf(ZeroEfforts) == MotionParameters(
      0.558, 0.223, 0.344, 0.031, 0.930, 1.043, 0.191, 0.160,
      0.848, 0.281, 0.164, 0.735, 0.290, 1.283, 1.210, 1.078)
  {
    forall index | 0 <= index < 16
      ensures CalculateParameter(index, ZeroEfforts) == MotionCoefficients[index][0]
    {
      NeutralEffortsGiveIntercept(index);
    }
  }

  /** For efforts in [-1,1] the animation speed stays within 0.558 +- 0.472,
      so it is always positive, while the anticipation time ranges over
      0.031 +- 0.053 and so can be 0 or negative. */
  lemma TimingParameterRanges(e: EffortComponents)
    requires e.InUnitRange()
    ensures 0.086 <= MotionParametersOf(e).animationSpeed <= 1.03
    ensures -0.022 <= MotionParametersOf(e).anticipationTime <= 0.084
  {
    ParameterWithinSpread(0, e);
    ParameterWithinSpread(3, e);
  }

  /** The shape qualities of a set of efforts: each is its direct term plus the
      cross-terms, clamped to [-1,1]. */
  function ShapeQualitiesOf(e: EffortComponents): (sq: ShapeQualities)
    ensures sq.InUnitRange()
  {
    ShapeQualities(
      Clamp(-e.space + 0.2 * e.flow - 0.1 * e.time + 0.15 * e.flow, -1.0, 1.0),
      Clamp(-e.weight - 0.2 * e.flow + 0.15 * e.flow, -1.0, 1.0),
      Clamp(-e.time + 0.1 * e.weight - 0.15 * e.flow, -1.0, 1.0))
  }

  /** Neutral efforts give neutral shape qualities. */
  lemma NeutralEffortsGiveNeutralShape()
    ensures ShapeQualitiesOf(ZeroEfforts) == ShapeQualities(0.0, 0.0, 0.0)
  {
  }

  /** Each shape quality moves against its own effort: a more direct space
      encloses less, a stronger weight sinks less, a more sudden time retreats
      less, all else being equal. */
  lemma ShapeFollowsEffortsInversely(e: EffortComponents, d: real)
    requires 0.0 <= d
    ensures ShapeQualitiesOf(e.(space := e.space + d)).enclosingSpreadingFactor
            <= ShapeQualitiesOf(e).enclosingSpreadingFactor
    ensures ShapeQualitiesOf(e.(weight := e.weight + d)).sinkingRisingFactor
            <= ShapeQualitiesOf(e).sinkingRisingFactor
    ensures ShapeQualitiesOf(e.(time := e.time + d)).retreatingAdvancingFactor
            <= ShapeQualitiesOf(e).retreatingAdvancingFactor
  {
    var f := e.flow;
    ClampMonotone(-(e.space + d) + 0.2 * f - 0.1 * e.time + 0.15 * f,
                  -e.space + 0.2 * f - 0.1 * e.time + 0.15 * f, -1.0, 1.0);
    ClampMonotone(-(e.weight + d) - 0.2 * f + 0.15 * f, -e.weight - 0.2 * f + 0.15 * f, -1.0, 1.0);
    ClampMonotone(-(e.time + d) + 0.1 * e.weight - 0.15 * f,
                  -e.time + 0.1 * e.weight - 0.15 * f, -1.0, 1.0);
  }

  /** The motion-parameter component. `effortConverter` is the component it
      reads its efforts from; `shapeQualities` is None until the first
      computation builds it. */
  class MotionParameter {
    var effortConverter: PersonalityToEffort
    var motionParameters: MotionParameters
    var shapeQualities: Option<ShapeQualities>

    constructor (converter: PersonalityToEffort)
      ensures effortConverter == converter
      ensures motionParameters == ZeroParameters && shapeQualities == None
    {
      effortConverter := converter;
      motionParameters := ZeroParameters;
      shapeQualities := None;
    }

    /** CalculateMotionParameters: all sixteen fields from their rows, then the
        shape qualities from the same efforts. */
    method CalculateMotionParameters()
      modifies this`motionParameters, this`shapeQualities
      ensures motionParameters == MotionParametersOf(effortConverter.effortComponents)
      ensures shapeQualities == Some(ShapeQualitiesOf(effortConverter.effortComponents))
    {
      var efforts := effortConverter.GetEffortComponents();
      motionParameters := motionParameters.(animationSpeed := CalculateParameter(0, efforts));
      motionParameters := motionParameters.(anticipationVelocity := CalculateParameter(1, efforts));
      motionParameters := motionParameters.(overshootVelocity := CalculateParameter(2, efforts));
      motionParameters := motionParameters.(anticipationTime := CalculateParameter(3, efforts));
      motionParameters := motionParameters.(overshootTime := CalculateParameter(4, efforts));
      motionParameters := motionParameters.(timeExponent := CalculateParameter(5, efforts));
      motionParameters := motionParameters.(wristBend := CalculateParameter(6, efforts));
      motionParameters := motionParameters.(wristTwist := CalculateParameter(7, efforts));
      motionParameters := motionParameters.(wristFrequency := CalculateParameter(8, efforts));
      motionParameters := motionParameters.(elbowTwist := CalculateParameter(9, efforts));
      motionParameters := motionParameters.(elbowDisplacement := CalculateParameter(10, efforts));
      motionParameters := motionParameters.(elbowFrequency := CalculateParameter(11, efforts));
      motionParameters := motionParameters.(torsoRotationMagnitude := CalculateParameter(12, efforts));
      motionParameters := motionParameters.(torsoRotationFrequency := CalculateParameter(13, efforts));
      motionParameters := motionParameters.(headRotationMagnitude := CalculateParameter(14, efforts));
      motionParameters := motionParameters.(headRotationFrequency := CalculateParameter(15, efforts));
      CalculateShapeQualities(efforts);
    }

    /** CalculateShapeQualities: a fresh object holding the three direct terms,
        then the cross-terms and the clamp. Nothing of the previous shape
        qualities survives. */
    method CalculateShapeQualities(effortComponents: EffortComponents)
      modifies this`shapeQualities
      ensures shapeQualities == Some(ShapeQualitiesOf(effortComponents))
    {
      shapeQualities := Some(ShapeQualities(
        -effortComponents.space, -effortComponents.weight, -effortComponents.time));
      ApplyAdditionalInfluences(effortComponents);
    }

    /** ApplyAdditionalInfluences: flow, time and weight cross-terms added step
        by step, then each factor clamped to [-1,1]. */
    method ApplyAdditionalInfluences(effortComponents: EffortComponents)
      requires shapeQualities.Some?
      modifies this`shapeQualities
      ensures shapeQualities.Some? && shapeQualities.value.InUnitRange()
      ensures var sq, e := old(shapeQualities.value), effortComponents;
        shapeQualities == Some(ShapeQualities(
          Clamp(sq.enclosingSpreadingFactor + 0.2 * e.flow - 0.1 * e.time + 0.15 * e.flow, -1.0, 1.0),
          Clamp(sq.sinkingRisingFactor - 0.2 * e.flow + 0.15 * e.flow, -1.0, 1.0),
          Clamp(sq.retreatingAdvancingFactor + 0.1 * e.weight - 0.15 * e.flow, -1.0, 1.0)))
    {
      var influenceStrength := 0.2;
      var sq := shapeQualities.value;
      assert effortComponents.flow * influenceStrength == effortComponents.flow * 0.2;

      sq := sq.(enclosingSpreadingFactor := sq.enclosingSpreadingFactor + effortComponents.flow * influenceStrength);
      sq := sq.(sinkingRisingFactor := sq.sinkingRisingFactor - effortComponents.flow * influenceStrength);

      sq := sq.(retreatingAdvancingFactor := sq.retreatingAdvancingFactor + effortComponents.weight * 0.1);
      sq := sq.(enclosingSpreadingFactor := sq.enclosingSpreadingFactor - effortComponents.time * 0.1);

      var neuroticismInfluence := effortComponents.flow * 0.15;
      sq := sq.(enclosingSpreadingFactor := sq.enclosingSpreadingFactor + neuroticismInfluence);
      sq := sq.(sinkingRisingFactor := sq.sinkingRisingFactor + neuroticismInfluence);
      sq := sq.(retreatingAdvancingFactor := sq.retreatingAdvancingFactor - neuroticismInfluence);

      ghost var e, before := effortComponents, old(shapeQualities.value);
      assert sq.enclosingSpreadingFactor
             == before.enclosingSpreadingFactor + 0.2 * e.flow - 0.1 * e.time + 0.15 * e.flow;
      assert sq.sinkingRisingFactor == before.sinkingRisingFactor - 0.2 * e.flow + 0.15 * e.flow;
      assert sq.retreatingAdvancingFactor
             == before.retreatingAdvancingFactor + 0.1 * e.weight - 0.15 * e.flow;

      sq := sq.(enclosingSpreadingFactor := Clamp(sq.enclosingSpreadingFactor, -1.0, 1.0));
      sq := sq.(sinkingRisingFactor := Clamp(sq.sinkingRisingFactor, -1.0, 1.0));
      sq := sq.(retreatingAdvancingFactor := Clamp(sq.retreatingAdvancingFactor, -1.0, 1.0));
      shapeQualities := Some(sq);
    }
  }
}
