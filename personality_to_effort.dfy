/** PersonalityToEffort.cs: five personality traits, clamped to [-1,1], become
    four Laban effort components through a fixed 4x5 matrix and a
    "dominant term" reduction (strongest positive product plus strongest
    negative product, not a dot product). */
module PersonalityToEffort {
  import opened UnityMath

  /** Openness, conscientiousness, extraversion, agreeableness, neuroticism. */
  datatype PersonalityTraits = PersonalityTraits(
    openness: real,
    conscientiousness: real,
    extraversion: real,
    agreeableness: real,
    neuroticism: real)
  {
    /** The traits in the column order of the effort matrix. */
    function Values(): (v: seq<real>)
      ensures |v| == 5
    {
      [openness, conscientiousness, extraversion, agreeableness, neuroticism]
    }

    predicate InUnitRange() {
      && -1.0 <= openness <= 1.0
      && -1.0 <= conscientiousness <= 1.0
      && -1.0 <= extraversion <= 1.0
      && -1.0 <= agreeableness <= 1.0
      && -1.0 <= neuroticism <= 1.0
    }
  }

  datatype EffortComponents = EffortComponents(space: real, weight: real, time: real, flow: real)
  {
    predicate InUnitRange() {
      && -1.0 <= space <= 1.0
      && -1.0 <= weight <= 1.0
      && -1.0 <= time <= 1.0
      && -1.0 <= flow <= 1.0
    }
  }

  const ZeroTraits: PersonalityTraits := PersonalityTraits(0.0, 0.0, 0.0, 0.0, 0.0)
  const ZeroEfforts: EffortComponents := EffortComponents(0.0, 0.0, 0.0, 0.0)

  /** Rows: space, weight, time, flow. Columns: the five traits. */
  const EffortMatrix: seq<seq<real>> := [
    [-0.921,  0.928, -0.894,  0.000, -1.000],
    [ 0.000,  0.000,  0.000, -1.000,  0.000],
    [ 0.000, -0.857,  0.990, -1.000,  0.970],
    [-0.931,  0.938, -1.000,  0.000, -0.762]
  ]

  /** Every coefficient of the effort matrix lies in [-1,1]. */
  lemma EffortMatrixInUnitRange()
    ensures |EffortMatrix| == 4
    ensures forall r :: 0 <= r < 4 ==> |EffortMatrix[r]| == 5
    ensures forall r, i :: 0 <= r < 4 && 0 <= i < 5 ==> -1.0 <= EffortMatrix[r][i] <= 1.0
  {
  }

  /** The update clamps each trait to [-1,1] with Mathf.Clamp. */
  function ClampTraits(t: PersonalityTraits): (r: PersonalityTraits)
    ensures r.InUnitRange()
    ensures t.InUnitRange() ==> r == t
  {
    PersonalityTraits(
      Clamp(t.openness, -1.0, 1.0),
      Clamp(t.conscientiousness, -1.0, 1.0),
      Clamp(t.extraversion, -1.0, 1.0),
      Clamp(t.agreeableness, -1.0, 1.0),
      Clamp(t.neuroticism, -1.0, 1.0))
  }

  /** The five products `coefficient[i] * trait[i]` the reduction looks at. */
  function Products(coefficients: seq<real>, values: seq<real>): (p: seq<real>)
    requires |coefficients| >= 5 && |values| >= 5
    ensures |p| == 5
  {
    seq(5, i requires 0 <= i < 5 => coefficients[i] * values[i])
  }

  /** The value of `maxPositive` after the loop has seen `p`: the largest
      positive entry, or 0 when there is none (see MaxPositiveIsLargest). */
  function MaxPositive(p: seq<real>): (m: real)
    ensures 0.0 <= m
  {
    if |p| == 0 then 0.0
    else
      var m := MaxPositive(p[..|p| - 1]);
      var value := p[|p| - 1];
      if value > 0.0 then Max(m, value) else m
  }

  /** The value of `minNegative` after the loop has seen `p`: the most negative
      entry, or 0 when there is none (see MinNegativeIsSmallest). */
  function MinNegative(p: seq<real>): (m: real)
    ensures m <= 0.0
  {
    if |p| == 0 then 0.0
    else
      var m := MinNegative(p[..|p| - 1]);
      var value := p[|p| - 1];
      if value > 0.0 then m else Min(m, value)
  }

  /** MaxPositive bounds every entry from above and is either 0 or one of the
      entries, so it is the largest positive entry; with no positive entry it is 0. */
  lemma {:induction false} MaxPositiveIsLargest(p: seq<real>)
    ensures forall i :: 0 <= i < |p| ==> p[i] <= MaxPositive(p)
    ensures MaxPositive(p) == 0.0 || MaxPositive(p) in p
    ensures (forall i :: 0 <= i < |p| ==> p[i] <= 0.0) ==> MaxPositive(p) == 0.0
  {
    if |p| > 0 {
      var q := p[..|p| - 1];
      MaxPositiveIsLargest(q);
      assert p == q + [p[|p| - 1]];
    }
  }

  /** MinNegative bounds every entry from below and is either 0 or one of the
      entries, so it is the most negative entry; with no negative entry it is 0. */
  lemma {:induction false} MinNegativeIsSmallest(p: seq<real>)
    ensures forall i :: 0 <= i < |p| ==> MinNegative(p) <= p[i]
    ensures MinNegative(p) == 0.0 || MinNegative(p) in p
    ensures (forall i :: 0 <= i < |p| ==> 0.0 <= p[i]) ==> MinNegative(p) == 0.0
  {
    if |p| > 0 {
      var q := p[..|p| - 1];
      MinNegativeIsSmallest(q);
      assert p == q + [p[|p| - 1]];
    }
  }

  /** The dominant-term reduction of one row against the traits. */
  function EffortComponent(coefficients: seq<real>, values: seq<real>): real
    requires |coefficients| >= 5 && |values| >= 5
  {
    var p := Products(coefficients, values);
    MaxPositive(p) + MinNegative(p)
  }

  /** The four effort components of a set of traits. */
  function EffortsOf(t: PersonalityTraits): EffortComponents {
    var v := t.Values();
    EffortComponents(
      EffortComponent(EffortMatrix[0], v),
      EffortComponent(EffortMatrix[1], v),
      EffortComponent(EffortMatrix[2], v),
      EffortComponent(EffortMatrix[3], v))
  }

  /** CalculateEffortComponent: one pass over the five products keeping the
      largest positive and the most negative one, then their sum. */
  method CalculateEffortComponent(coefficients: seq<real>, personalityValues: seq<real>) returns (r: real)
    requires |coefficients| >= 5 && |personalityValues| >= 5
    ensures r == MaxPositive(Products(coefficients, personalityValues))
                 + MinNegative(Products(coefficients, personalityValues))
  {
    ghost var p := Products(coefficients, personalityValues);
    var maxPositive := 0.0;
    var minNegative := 0.0;
    for i := 0 to 5
      invariant maxPositive == MaxPositive(p[..i])
      invariant minNegative == MinNegative(p[..i])
    {
      var value := coefficients[i] * personalityValues[i];
      assert value == p[i];
      ReductionStep(p, i);
      if value > 0.0 {
        maxPositive := Max(maxPositive, value);
      } else {
        minNegative := Min(minNegative, value);
      }
    }
    assert p[..5] == p;
    r := maxPositive + minNegative;
  }

  /** One more step of the reduction: the running maximum and minimum after
      `k + 1` products, from those after `k`. */
  lemma ReductionStep(p: seq<real>, k: nat)
    requires k < |p|
    ensures MaxPositive(p[..k + 1])
            == (if p[k] > 0.0 then Max(MaxPositive(p[..k]), p[k]) else MaxPositive(p[..k]))
    ensures MinNegative(p[..k + 1])
            == (if p[k] > 0.0 then MinNegative(p[..k]) else Min(MinNegative(p[..k]), p[k]))
  {
    assert p[..k + 1][..k] == p[..k];
  }

  /** When every product lies in [-1,1], so does the dominant-term reduction. */
  lemma DominantTermInUnitRange(p: seq<real>)
    requires forall i :: 0 <= i < |p| ==> -1.0 <= p[i] <= 1.0
    ensures -1.0 <= MaxPositive(p) + MinNegative(p) <= 1.0
  {
    MaxPositiveIsLargest(p);
    MinNegativeIsSmallest(p);
    var hi, lo := MaxPositive(p), MinNegative(p);
    if hi != 0.0 {
      var k :| 0 <= k < |p| && p[k] == hi;
    }
    if lo != 0.0 {
      var k :| 0 <= k < |p| && p[k] == lo;
    }
    assert 0.0 <= hi <= 1.0 && -1.0 <= lo <= 0.0;
  }

  lemma EffortComponentInUnitRange(row: nat, values: seq<real>)
    requires row < 4 && |values| == 5
    requires forall i :: 0 <= i < 5 ==> -1.0 <= values[i] <= 1.0
    ensures -1.0 <= EffortComponent(EffortMatrix[row], values) <= 1.0
  {
    EffortMatrixInUnitRange();
    var p := Products(EffortMatrix[row], values);
    forall i | 0 <= i < 5
      ensures -1.0 <= p[i] <= 1.0
    {
      ScaledBound(EffortMatrix[row][i], values[i]);
    }
    DominantTermInUnitRange(p);
  }

  /** For traits in [-1,1] (which the update guarantees) every effort
      component lies in [-1,1]. */
  lemma EffortsInUnitRange(t: PersonalityTraits)
    requires t.InUnitRange()
    ensures EffortsOf(t).InUnitRange()
  {
    var v := t.Values();
    EffortComponentInUnitRange(0, v);
    EffortComponentInUnitRange(1, v);
    EffortComponentInUnitRange(2, v);
    EffortComponentInUnitRange(3, v);
  }

  /** The products of the weight row: only agreeableness contributes. */
  lemma WeightRowProducts(v: seq<real>)
    requires |v| == 5
    ensures Products(EffortMatrix[1], v) == [0.0, 0.0, 0.0, -v[3], 0.0]
  {
  }

  /** Reduction of five values whose only non-zero entry is the fourth. */
  lemma ReductionOfFourth(x: real)
    ensures MaxPositive([0.0, 0.0, 0.0, x, 0.0]) + MinNegative([0.0, 0.0, 0.0, x, 0.0]) == x
  {
    var p := [0.0, 0.0, 0.0, x, 0.0];
    MaxPositiveIsLargest(p);
    MinNegativeIsSmallest(p);
    assert p[3] == x;
  }

  /** The weight row holds only the agreeableness coefficient -1, so weight is
      the negated agreeableness for any traits, clamped or not. */
  lemma WeightIsNegatedAgreeableness(t: PersonalityTraits)
    ensures EffortsOf(t).weight == -t.agreeableness
  {
    WeightRowProducts(t.Values());
    ReductionOfFourth(-t.agreeableness);
  }

  /** All traits at 1: space is 0.928 (the largest positive product) plus -1.0
      (the most negative one), not the sum of all five products. */
  lemma AllOnesSpaceIsDominantPair()
    ensures EffortComponent(EffortMatrix[0], [1.0, 1.0, 1.0, 1.0, 1.0]) == 0.928 + (-1.0)
    ensures EffortComponent(EffortMatrix[0], [1.0, 1.0, 1.0, 1.0, 1.0])
            != -0.921 + 0.928 + (-0.894) + 0.000 + (-1.000)
  {
    SpaceRowProductsOfOnes();
    var p := [-0.921, 0.928, -0.894, 0.0, -1.0];
    MaxPositiveIsLargest(p);
    MinNegativeIsSmallest(p);
    assert MaxPositive(p) == 0.928 by {
      assert p[1] == 0.928;
    }
    assert MinNegative(p) == -1.0 by {
      assert p[4] == -1.0;
    }
  }

  lemma SpaceRowProductsOfOnes()
    ensures Products(EffortMatrix[0], [1.0, 1.0, 1.0, 1.0, 1.0]) == [-0.921, 0.928, -0.894, 0.0, -1.0]
  {
  }

  /** Neutral traits give neutral efforts. */
  lemma ZeroTraitsGiveZeroEfforts()
    ensures EffortsOf(ZeroTraits) == ZeroEfforts
  {
    ZeroRowGivesZero(EffortMatrix[0]);
    ZeroRowGivesZero(EffortMatrix[1]);
    ZeroRowGivesZero(EffortMatrix[2]);
    ZeroRowGivesZero(EffortMatrix[3]);
  }

  /** Any row against neutral traits gives 0. */
  lemma ZeroRowGivesZero(coefficients: seq<real>)
    requires |coefficients| == 5
    ensures EffortComponent(coefficients, ZeroTraits.Values()) == 0.0
  {
    var p := Products(coefficients, ZeroTraits.Values());
    forall i | 0 <= i < 5
      ensures p[i] == 0.0
    {
      assert ZeroTraits.Values()[i] == 0.0;
    }
    MaxPositiveIsLargest(p);
    MinNegativeIsSmallest(p);
  }

  /** The personality component: stored traits and the efforts derived from them. */
  class PersonalityToEffort {
    var personalityTraits: PersonalityTraits
    var effortComponents: EffortComponents

    /** C# zero-initialises both structs. */
    constructor ()
      ensures personalityTraits == ZeroTraits && effortComponents == ZeroEfforts
    {
      personalityTraits := ZeroTraits;
      effortComponents := ZeroEfforts;
    }

    /** UpdatePersonality: clamps each trait to [-1,1], stores the traits, then
        recomputes all four efforts from the stored traits. */
    method UpdatePersonality(o: real, c: real, e: real, a: real, n: real)
      modifies this
      ensures personalityTraits == ClampTraits(PersonalityTraits(o, c, e, a, n))
      ensures personalityTraits.InUnitRange()
      ensures effortComponents == EffortsOf(personalityTraits)
      ensures effortComponents.InUnitRange()
    {
      personalityTraits := personalityTraits.(openness := Clamp(o, -1.0, 1.0));
      personalityTraits := personalityTraits.(conscientiousness := Clamp(c, -1.0, 1.0));
      personalityTraits := personalityTraits.(extraversion := Clamp(e, -1.0, 1.0));
      personalityTraits := personalityTraits.(agreeableness := Clamp(a, -1.0, 1.0));
      personalityTraits := personalityTraits.(neuroticism := Clamp(n, -1.0, 1.0));
      ConvertPersonalityToEffort();
      EffortsInUnitRange(personalityTraits);
    }

    /** ConvertPersonalityToEffort: one dominant-term reduction per matrix row. */
    method ConvertPersonalityToEffort()
      modifies this`effortComponents
      ensures effortComponents == EffortsOf(personalityTraits)
    {
      var personalityValues := personalityTraits.Values();
      var space := CalculateEffortComponent(EffortMatrix[0], personalityValues);
      effortComponents := effortComponents.(space := space);
      var weight := CalculateEffortComponent(EffortMatrix[1], personalityValues);
      effortComponents := effortComponents.(weight := weight);
      var time := CalculateEffortComponent(EffortMatrix[2], personalityValues);
      effortComponents := effortComponents.(time := time);
      var flow := CalculateEffortComponent(EffortMatrix[3], personalityValues);
      effortComponents := effortComponents.(flow := flow);
    }

    /** GetEffortComponents: the stored efforts; nothing changes. */
    method GetEffortComponents() returns (efforts: EffortComponents)
      ensures efforts == effortComponents
    {
      efforts := effortComponents;
    }
  }

  /** Out-of-range inputs are never an error: they give exactly the traits and
      efforts of their clamped values (for instance 5,5,5,5,5 and 1,1,1,1,1). */
  lemma OutOfRangeInputsActAsClamped(t: PersonalityTraits)
    ensures ClampTraits(ClampTraits(t)) == ClampTraits(t)
    ensures EffortsOf(ClampTraits(ClampTraits(t))) == EffortsOf(ClampTraits(t))
    ensures ClampTraits(PersonalityTraits(5.0, 5.0, 5.0, 5.0, 5.0))
            == ClampTraits(PersonalityTraits(1.0, 1.0, 1.0, 1.0, 1.0))
  {
  }
}
