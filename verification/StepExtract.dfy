/** Steps of a segment, by ceilings of the distance left. */
module StepExtract {
  import opened PlanTypes
  import opened Kinematics

  /** REQ_MM_INCREMENT_SCALAR */
  const REQ_MM_INCREMENT_SCALAR := 1.25

  /** The distance left, in steps. */
  function StepDistance(stepPerMm: real, mm: real): real {
    stepPerMm * mm
  }

  lemma CeilBounds(x: real)
    ensures x <= Ceil(x) as real < x + 1.0
  {
  }

  lemma CeilOfInt(n: int)
    ensures Ceil(n as real) == n
  {
    CeilBounds(n as real);
  }

  lemma CeilOrder(x: real, y: real)
    ensures x <= y ==> Ceil(x) <= Ceil(y)
    ensures x + 1.0 <= y ==> Ceil(x) + 1 <= Ceil(y)
    ensures x > 0.0 ==> Ceil(x) >= 1
  {
    CeilBounds(x);
    CeilBounds(y);
  }

  /** The stepping data of a block that has `mm` left. */
  ghost predicate StepsMatch(stepsRemaining: real, stepPerMm: real, reqMm: real, mm: real) {
    && stepPerMm > 0.0 && reqMm > 0.0 && StepDistance(stepPerMm, reqMm) == REQ_MM_INCREMENT_SCALAR
    && Ceil(stepsRemaining) == Ceil(StepDistance(stepPerMm, mm))
  }

  /** The distance a segment has to reach: enough for at least one step. */
  function MinimumMm(mm: real, reqMm: real): real {
    if mm - reqMm < 0.0 then 0.0 else mm - reqMm
  }

  /** A block that has just been loaded. */
  lemma LoadedMatches(count: nat, mm: real)
    requires count > 0 && mm > 0.0
    ensures var spm := count as real / mm;
      spm > 0.0 && StepsMatch(count as real, spm, REQ_MM_INCREMENT_SCALAR / spm, mm)
  {
    var spm := count as real / mm;
    assert spm * mm == count as real;
    if spm <= 0.0 {
      NoGain(-spm, mm);
    }
    var req := REQ_MM_INCREMENT_SCALAR / spm;
    assert spm * req == REQ_MM_INCREMENT_SCALAR;
    if req <= 0.0 {
      NoGain(-req, spm);
    }
  }

  lemma NoGain(x: real, y: real)
    requires x >= 0.0 && y >= 0.0
    ensures -x * y <= 0.0
  {
  }

  /** A segment that ends at `left` has no negative number of steps; it has at least one when it
      gets to its least distance; and the stepping data stays in step with the distance. */
  lemma SegmentSteps(stepsRemaining: real, stepPerMm: real, reqMm: real, mm: real, left: real, n: int)
    requires StepsMatch(stepsRemaining, stepPerMm, reqMm, mm) && 0.0 <= left <= mm && mm > 0.0
    requires n == Ceil(stepsRemaining) - Ceil(StepDistance(stepPerMm, left))
    ensures n >= 0 && (left <= MinimumMm(mm, reqMm) ==> n >= 1)
    ensures var rest := Ceil(StepDistance(stepPerMm, left));
      StepsMatch(rest as real, stepPerMm, reqMm, left) && rest >= 0 && (left == 0.0 ==> rest == 0)
  {
    var x, y := StepDistance(stepPerMm, left), StepDistance(stepPerMm, mm);
    TimesPositive(stepPerMm, mm);
    if left < mm {
      TimesPositive(stepPerMm, mm - left);
      assert Times(stepPerMm, mm - left) == y - x;
    }
    if left > 0.0 {
      TimesPositive(stepPerMm, left);
    }
    assert Times(stepPerMm, mm) == y && Times(stepPerMm, left) == x;
    if 0.0 < left <= mm - reqMm {
      FarEnough(stepPerMm, reqMm, mm, left);
    }
    CeilOrder(x, y);
    CeilOrder(y, y);
    CeilBounds(x);
    CeilOfInt(Ceil(x));
    CeilOfInt(0);
  }

  lemma FarEnough(stepPerMm: real, reqMm: real, mm: real, left: real)
    requires stepPerMm > 0.0 && StepDistance(stepPerMm, reqMm) == REQ_MM_INCREMENT_SCALAR && left <= mm - reqMm
    ensures StepDistance(stepPerMm, left) + 1.0 <= StepDistance(stepPerMm, mm)
  {
    var gap := mm - reqMm - left;
    if gap > 0.0 {
      TimesPositive(stepPerMm, gap);
    }
    assert Times(stepPerMm, gap)
      == StepDistance(stepPerMm, mm) - StepDistance(stepPerMm, reqMm) - StepDistance(stepPerMm, left);
  }
}
