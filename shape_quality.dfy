/** ShapeQuality.cs: the three shape factors (enclosing/spreading,
    sinking/rising, retreating/advancing) become clamped per-limb offsets,
    added to the rest positions recorded at start-up, with the left side
    mirroring the right.

    Foot rotations are kept as the list of Euler turns composed, in order,
    onto the rest rotation; the quaternion product itself is not modelled.
    `rightAxis` stands for the component's own `transform.right`. */
module ShapeQuality {
  import opened UnityMath
  import opened MotionParameter
  import opened MotionParameterApplier

  /** Vector3.right, Vector3.up and Vector3.forward. */
  const Right: Vector3 := Vector3(1.0, 0.0, 0.0)
  const Up: Vector3 := Vector3(0.0, 1.0, 0.0)
  const Forward: Vector3 := Vector3(0.0, 0.0, 1.0)

  /** A base amount scaled by a factor, and the range it is clamped to. */
  datatype MovementRange = MovementRange(baseValue: real, minValue: real, maxValue: real)

  /** ClampedMovement: the base amount scaled by the factor, clamped to the
      range; the result is the scaled amount itself when that is in range,
      the lower bound below it and the upper bound above it. */
  function ClampedMovement(range: MovementRange, factor: real): (r: real)
    ensures range.minValue <= range.maxValue ==> range.minValue <= r <= range.maxValue
    ensures range.minValue <= range.baseValue * factor <= range.maxValue ==> r == range.baseValue * factor
    ensures range.baseValue * factor < range.minValue ==> r == range.minValue
    ensures range.minValue <= range.maxValue < range.baseValue * factor ==> r == range.maxValue
  {
    Clamp(range.baseValue * factor, range.minValue, range.maxValue)
  }

  // The field initialisers of the component.
  const DefaultFootRotationRange: real := 20.0
  const DefaultHandRange: MovementRange := MovementRange(0.25, 0.1, 0.5)
  const DefaultFootRange: MovementRange := MovementRange(0.1, 0.05, 0.25)
  const DefaultHipRange: MovementRange := MovementRange(0.2, 0.1, 0.3)
  const DefaultToeRange: MovementRange := MovementRange(30.0, 15.0, 45.0)
  const DefaultShoulderRange: MovementRange := MovementRange(0.5, 1.0, 3.0)
  const DefaultChestRange: MovementRange := MovementRange(10.0, 2.0, 8.0)
  const DefaultHeadRange: MovementRange := MovementRange(2.5, 0.05, 0.15)

  /** The range of the foot yaw, built on the fly from footRotationRange. */
  function FootRotationMovementRange(footRotationRange: real): MovementRange {
    MovementRange(footRotationRange, 10.0, 30.0)
  }

  /** With the default ranges every offset stays inside its range for any
      factor, and a neutral factor gives each range's minimum rather than 0:
      the minimum of every default range is positive (the shoulder and chest
      bases even lie outside their ranges). */
  lemma DefaultRangesBounds(factor: real)
    ensures 0.1 <= ClampedMovement(DefaultHandRange, factor) <= 0.5
    ensures 0.05 <= ClampedMovement(DefaultFootRange, factor) <= 0.25
    ensures 0.1 <= ClampedMovement(DefaultHipRange, factor) <= 0.3
    ensures 15.0 <= ClampedMovement(DefaultToeRange, factor) <= 45.0
    ensures 1.0 <= ClampedMovement(DefaultShoulderRange, factor) <= 3.0
    ensures 2.0 <= ClampedMovement(DefaultChestRange, factor) <= 8.0
    ensures 0.05 <= ClampedMovement(DefaultHeadRange, factor) <= 0.15
    ensures 10.0 <= ClampedMovement(FootRotationMovementRange(DefaultFootRotationRange), factor) <= 30.0
    ensures factor == 0.0 ==>
      && ClampedMovement(DefaultHandRange, factor) == 0.1
      && ClampedMovement(DefaultFootRange, factor) == 0.05
      && ClampedMovement(DefaultHipRange, factor) == 0.1
      && ClampedMovement(DefaultToeRange, factor) == 15.0
      && ClampedMovement(DefaultShoulderRange, factor) == 1.0
      && ClampedMovement(DefaultChestRange, factor) == 2.0
      && ClampedMovement(DefaultHeadRange, factor) == 0.05
      && ClampedMovement(FootRotationMovementRange(DefaultFootRotationRange), factor) == 10.0
  {
  }

  /** The eleven clamped amounts ApplyShapeQualities derives from the three
      factors, and whether the toe pitch is applied. */
  datatype ShapeOffsets = ShapeOffsets(
    handES: real, footES: real, footRotES: real, shoulderRotES: real,
    handSR: real, hipSR: real, headSR: real, chestSR: real, toeSR: real, rising: bool,
    handRA: real, footRA: real)

  function OffsetsOf(sq: ShapeQualities, hand: MovementRange, foot: MovementRange, hip: MovementRange,
                     toe: MovementRange, shoulder: MovementRange, chest: MovementRange, head: MovementRange,
                     footRotationRange: real): ShapeOffsets
  {
    var es := sq.enclosingSpreadingFactor;
    var sr := sq.sinkingRisingFactor;
    var ra := sq.retreatingAdvancingFactor;
    ShapeOffsets(
      ClampedMovement(hand, es), ClampedMovement(foot, es),
      ClampedMovement(FootRotationMovementRange(footRotationRange), es), ClampedMovement(shoulder, es),
      ClampedMovement(hand, sr), ClampedMovement(hip, sr), ClampedMovement(head, sr),
      ClampedMovement(chest, sr), ClampedMovement(toe, sr), sr > 0.0,
      ClampedMovement(hand, ra), ClampedMovement(foot, ra))
  }

  // Each target as ApplyShapeQualities builds it: the rest position plus,
  // in order, the enclosing/spreading, sinking/rising and
  // retreating/advancing moves that concern it.

  function LeftHandTarget(rest: Vector3, o: ShapeOffsets): Vector3 {
    rest.Plus(Right.Times(-o.handES)).Plus(Up.Times(o.handSR)).Plus(Forward.Times(o.handRA))
  }

  function RightHandTarget(rest: Vector3, o: ShapeOffsets): Vector3 {
    rest.Plus(Right.Times(o.handES)).Plus(Up.Times(o.handSR)).Plus(Forward.Times(o.handRA))
  }

  function LeftFootTarget(rest: Vector3, o: ShapeOffsets): Vector3 {
    rest.Plus(Right.Times(-o.footES)).Plus(Forward.Times(-o.footRA))
  }

  function RightFootTarget(rest: Vector3, o: ShapeOffsets): Vector3 {
    rest.Plus(Right.Times(o.footES))
  }

  /** Hips, head and chest: raised by their own amount. */
  function RaisedTarget(rest: Vector3, amount: real): Vector3 {
    rest.Plus(Up.Times(amount))
  }

  /** Shoulders: moved along the component's right axis. */
  function ShoulderTarget(rest: Vector3, rightAxis: Vector3, amount: real): Vector3 {
    rest.Plus(rightAxis.Times(amount))
  }

  /** Each target lies at its rest position displaced by a fixed offset:
      the hands by (-/+handES, handSR, handRA), the left foot by
      (-footES, 0, -footRA), the right foot by (footES, 0, 0), the raised
      targets straight up. */
  lemma TargetOffsets(rest: Vector3, o: ShapeOffsets, amount: real)
    ensures LeftHandTarget(rest, o) == rest.Plus(Vector3(-o.handES, o.handSR, o.handRA))
    ensures RightHandTarget(rest, o) == rest.Plus(Vector3(o.handES, o.handSR, o.handRA))
    ensures LeftFootTarget(rest, o) == rest.Plus(Vector3(-o.footES, 0.0, -o.footRA))
    ensures RightFootTarget(rest, o) == rest.Plus(Vector3(o.footES, 0.0, 0.0))
    ensures RaisedTarget(rest, amount) == rest.Plus(Vector3(0.0, amount, 0.0))
  {
  }

  /** Enclosing/spreading mirrors the hands, the feet and the shoulders
      sideways about their rest positions; both hands share the same rise
      and the same advance. */
  lemma HandsAndFeetMirror(leftRest: Vector3, rightRest: Vector3, rightAxis: Vector3, o: ShapeOffsets)
    ensures LeftHandTarget(leftRest, o).x - leftRest.x == -(RightHandTarget(rightRest, o).x - rightRest.x)
    ensures LeftHandTarget(leftRest, o).y - leftRest.y == RightHandTarget(rightRest, o).y - rightRest.y == o.handSR
    ensures LeftHandTarget(leftRest, o).z - leftRest.z == RightHandTarget(rightRest, o).z - rightRest.z == o.handRA
    ensures LeftFootTarget(leftRest, o).x - leftRest.x == -(RightFootTarget(rightRest, o).x - rightRest.x)
    ensures ShoulderTarget(leftRest, rightAxis, o.shoulderRotES).Minus(leftRest)
         == ShoulderTarget(rightRest, rightAxis, -o.shoulderRotES).Minus(rightRest).Times(-1.0)
  {
    TargetOffsets(leftRest, o, 0.0);
    TargetOffsets(rightRest, o, 0.0);
  }

  /** Retreating/advancing moves only the left foot, backwards by footRA;
      the right foot's z and both feet's y stay at rest. */
  lemma OnlyLeftFootRetreats(leftRest: Vector3, rightRest: Vector3, o: ShapeOffsets)
    ensures LeftFootTarget(leftRest, o).z == leftRest.z - o.footRA
    ensures RightFootTarget(rightRest, o).z == rightRest.z
    ensures LeftFootTarget(leftRest, o).y == leftRest.y && RightFootTarget(rightRest, o).y == rightRest.y
  {
    TargetOffsets(leftRest, o, 0.0);
    TargetOffsets(rightRest, o, 0.0);
  }

  /** The Euler turns composed onto a foot's rest rotation: the yaw, then the
      toe pitch while rising. Both feet receive the same turns. */
  function FootTurns(o: ShapeOffsets): seq<Vector3> {
    [Vector3(0.0, o.footRotES, 0.0)] + (if o.rising then [Vector3(-o.toeSR, 0.0, 0.0)] else [])
  }

  /** The toe pitch is present exactly when the sinking/rising factor is
      positive, and is minus the toe amount. */
  lemma ToePitchOnlyWhenRising(sq: ShapeQualities, hand: MovementRange, foot: MovementRange, hip: MovementRange,
                               toe: MovementRange, shoulder: MovementRange, chest: MovementRange,
                               head: MovementRange, footRotationRange: real)
    ensures var o := OffsetsOf(sq, hand, foot, hip, toe, shoulder, chest, head, footRotationRange);
      && (|FootTurns(o)| == 2 <==> sq.sinkingRisingFactor > 0.0)
      && FootTurns(o)[0] == Vector3(0.0, ClampedMovement(FootRotationMovementRange(footRotationRange),
                                                         sq.enclosingSpreadingFactor), 0.0)
      && (sq.sinkingRisingFactor > 0.0 ==> FootTurns(o)[1] == Vector3(-ClampedMovement(toe, sq.sinkingRisingFactor), 0.0, 0.0))
  {
  }

  /** With the default ranges the hands and feet always spread: whatever
      the enclosing/spreading factor, even a negative (enclosing) one, the
      left hand moves left by at least 0.1 and the right hand right by at
      least 0.1, and likewise the feet by at least 0.05. */
  lemma DefaultRangesAlwaysSpread(sq: ShapeQualities, leftRest: Vector3, rightRest: Vector3)
    ensures var o := OffsetsOf(sq, DefaultHandRange, DefaultFootRange, DefaultHipRange, DefaultToeRange,
                               DefaultShoulderRange, DefaultChestRange, DefaultHeadRange,
                               DefaultFootRotationRange);
      && LeftHandTarget(leftRest, o).x <= leftRest.x - 0.1 && rightRest.x + 0.1 <= RightHandTarget(rightRest, o).x
      && LeftFootTarget(leftRest, o).x <= leftRest.x - 0.05 && rightRest.x + 0.05 <= RightFootTarget(rightRest, o).x
  {
    var es := sq.enclosingSpreadingFactor;
    var o := OffsetsOf(sq, DefaultHandRange, DefaultFootRange, DefaultHipRange, DefaultToeRange,
                       DefaultShoulderRange, DefaultChestRange, DefaultHeadRange, DefaultFootRotationRange);
    DefaultRangesBounds(es);
    assert o.handES == ClampedMovement(DefaultHandRange, es);
    assert o.footES == ClampedMovement(DefaultFootRange, es);
    TargetOffsets(leftRest, o, 0.0);
    TargetOffsets(rightRest, o, 0.0);
  }

  /** The positions of the nine targets the component moves. */
  datatype Pose = Pose(
    leftHand: Vector3, rightHand: Vector3, leftFoot: Vector3, rightFoot: Vector3,
    hips: Vector3, head: Vector3, chest: Vector3, leftShoulder: Vector3, rightShoulder: Vector3)

  /** The targets ApplyShapeQualities produces from the rest pose. */
  function ShapedPose(rest: Pose, o: ShapeOffsets, rightAxis: Vector3): Pose {
    Pose(LeftHandTarget(rest.leftHand, o), RightHandTarget(rest.rightHand, o),
         LeftFootTarget(rest.leftFoot, o), RightFootTarget(rest.rightFoot, o),
         RaisedTarget(rest.hips, o.hipSR), RaisedTarget(rest.head, o.headSR), RaisedTarget(rest.chest, o.chestSR),
         ShoulderTarget(rest.leftShoulder, rightAxis, o.shoulderRotES),
         ShoulderTarget(rest.rightShoulder, rightAxis, -o.shoulderRotES))
  }

  /** In the shaped pose the hips, head and chest move only vertically,
      each by its own sinking/rising amount. */
  lemma TorsoOnlyRises(rest: Pose, o: ShapeOffsets, rightAxis: Vector3)
    ensures var p := ShapedPose(rest, o, rightAxis);
      && p.hips.x == rest.hips.x && p.hips.z == rest.hips.z
      && p.head.x == rest.head.x && p.head.z == rest.head.z
      && p.chest.x == rest.chest.x && p.chest.z == rest.chest.z
      && p.hips.y == rest.hips.y + o.hipSR && p.head.y == rest.head.y + o.headSR
      && p.chest.y == rest.chest.y + o.chestSR
  {
    TargetOffsets(rest.hips, o, o.hipSR);
    TargetOffsets(rest.head, o, o.headSR);
    TargetOffsets(rest.chest, o, o.chestSR);
  }

  class ShapeQuality {
    var motionParameter: MotionParameter?
    var motionParameterApplier: MotionParameterApplier

    var footRotationRange: real
    var handMovementRange: MovementRange
    var footMovementRange: MovementRange
    var hipMovementRange: MovementRange
    var toeRotationRange: MovementRange
    var shoulderRotationRange: MovementRange
    var chestMovementRange: MovementRange
    var headMovementRange: MovementRange

    /** The component's own right axis (transform.right). */
    var rightAxis: Vector3

    /** The positions of the nine targets. */
    var targets: Pose
    /** The Euler turns composed onto each foot's rest rotation. */
    var leftFootTurns: seq<Vector3>
    var rightFootTurns: seq<Vector3>

    /** The rest positions recorded at start-up. */
    var initialPositions: Pose

    /** The field initialisers of the component; the targets start at the
        given scene positions with their rest rotations. */
    constructor (mp: MotionParameter?, applier: MotionParameterApplier, right: Vector3, scene: Pose)
      ensures motionParameter == mp && motionParameterApplier == applier && rightAxis == right
      ensures footRotationRange == DefaultFootRotationRange
      ensures handMovementRange == DefaultHandRange && footMovementRange == DefaultFootRange
      ensures hipMovementRange == DefaultHipRange && toeRotationRange == DefaultToeRange
      ensures shoulderRotationRange == DefaultShoulderRange && chestMovementRange == DefaultChestRange
      ensures headMovementRange == DefaultHeadRange
      ensures targets == scene && leftFootTurns == [] && rightFootTurns == []
    {
      motionParameter := mp;
      motionParameterApplier := applier;
      rightAxis := right;
      footRotationRange := DefaultFootRotationRange;
      handMovementRange := DefaultHandRange;
      footMovementRange := DefaultFootRange;
      hipMovementRange := DefaultHipRange;
      toeRotationRange := DefaultToeRange;
      shoulderRotationRange := DefaultShoulderRange;
      chestMovementRange := DefaultChestRange;
      headMovementRange := DefaultHeadRange;
      targets := scene;
      leftFootTurns, rightFootTurns := [], [];
    }

    /** InitializePositionsAndRotations: records every target's current
        position as its rest position (the rest rotations are the feet's
        current rotations) and hands the hand and foot rest positions to the
        gait generator as its arm and leg rest positions; the gait generator
        also records its head target's position and sets its noise offset from the random sample. */
    method InitializePositionsAndRotations(randomValue: real)
      modifies this`initialPositions, this`leftFootTurns, this`rightFootTurns
      modifies motionParameterApplier`leftArmInitialPosition, motionParameterApplier`rightArmInitialPosition
      modifies motionParameterApplier`leftLegInitialPosition, motionParameterApplier`rightLegInitialPosition
      modifies motionParameterApplier`initialHeadPosition, motionParameterApplier`targetHeadPosition
      modifies motionParameterApplier`headNoiseOffset
      ensures initialPositions == targets
      ensures leftFootTurns == [] && rightFootTurns == []
      ensures motionParameterApplier.leftArmInitialPosition == targets.leftHand
      ensures motionParameterApplier.rightArmInitialPosition == targets.rightHand
      ensures motionParameterApplier.leftLegInitialPosition == targets.leftFoot
      ensures motionParameterApplier.rightLegInitialPosition == targets.rightFoot
      ensures motionParameterApplier.headTarget.Some? ==>
        motionParameterApplier.initialHeadPosition == motionParameterApplier.headTarget.value
        && motionParameterApplier.targetHeadPosition == motionParameterApplier.headTarget.value
        && motionParameterApplier.headNoiseOffset == randomValue * 1000.0
      ensures motionParameterApplier.headTarget.None? ==>
        unchanged(motionParameterApplier`initialHeadPosition, motionParameterApplier`targetHeadPosition,
                  motionParameterApplier`headNoiseOffset)
    {
      initialPositions := targets;
      leftFootTurns, rightFootTurns := [], [];
      motionParameterApplier.InitializeRigs2(initialPositions.leftHand, initialPositions.rightHand,
                                             initialPositions.leftFoot, initialPositions.rightFoot, randomValue);
    }

    /** ApplyShapeQualities: every target is recomputed from its rest
        position, so the result depends only on the rest positions, the
        ranges and the current shape factors (applying twice gives the same
        targets). Without a MotionParameter or without shape qualities
        nothing changes. */
    method ApplyShapeQualities()
      modifies this`targets, this`leftFootTurns, this`rightFootTurns
      ensures motionParameter == null || motionParameter.shapeQualities.None? ==>
        unchanged(this`targets, this`leftFootTurns, this`rightFootTurns)
      ensures motionParameter != null && motionParameter.shapeQualities.Some? ==>
        var o := OffsetsOf(motionParameter.shapeQualities.value, handMovementRange, footMovementRange,
                           hipMovementRange, toeRotationRange, shoulderRotationRange, chestMovementRange,
                           headMovementRange, footRotationRange);
        && targets == ShapedPose(initialPositions, o, rightAxis)
        && leftFootTurns == FootTurns(o) && rightFootTurns == FootTurns(o)
    {
      if motionParameter == null || motionParameter.shapeQualities.None? {
        return;
      }
      var sq := motionParameter.shapeQualities.value;
      // The clamped amounts of enclosing/spreading, sinking/rising and
      // retreating/advancing, then every target rebuilt from its rest position.
      var o := OffsetsOf(sq, handMovementRange, footMovementRange, hipMovementRange, toeRotationRange,
                         shoulderRotationRange, chestMovementRange, headMovementRange, footRotationRange);
      targets := ShapedPose(initialPositions, o, rightAxis);
      leftFootTurns := FootTurns(o);
      rightFootTurns := FootTurns(o);
    }
  }
}
