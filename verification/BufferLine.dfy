/** plan_buffer_line: from a target position to a queued, planned block. */
module BufferLine {
  import opened PlanTypes
  import opened Limits
  import opened Corner

  const MINIMUM_FEED_RATE := 1.0
  const MINIMUM_JUNCTION_SPEED := 0.0

  /** Per-axis settings, and the junction deviation. */
  datatype Settings = Settings(stepsPerMm: seq<real>, maxRate: seq<real>, acceleration: seq<real>,
                               junctionDeviation: real)

  /** plan_line_data_t, without the spindle speed. */
  datatype LineData = LineData(feedRate: real, rapid: bool, noFeedOverride: bool, inverseTime: bool)

  datatype Overrides = Overrides(rapid: nat, feed: nat)   // r_override and f_override, in percent

  ghost predicate Usable(t: Settings) {
    && |t.maxRate| == |t.acceleration| == |t.stepsPerMm|
    && (forall i :: 0 <= i < |t.stepsPerMm| ==> t.stepsPerMm[i] > 0.0)
    && (forall i :: 0 <= i < |t.stepsPerMm| ==> t.acceleration[i] != 0.0)
    && t.junctionDeviation >= 0.0
  }

  // ---------------------------------------------------------------- speeds

  /** plan_compute_profile_nominal_speed */
  function NominalSpeed(m: Move, o: Overrides): (speed: real)
    ensures speed >= MINIMUM_FEED_RATE
  {
    var asked :=
      if m.rapid then m.programmedRate * (0.01 * o.rapid as real)
      else
        var fed := if m.noFeedOverride then m.programmedRate else m.programmedRate * (0.01 * o.feed as real);
        if fed > m.rapidRate then m.rapidRate else fed;
    if asked > MINIMUM_FEED_RATE then asked else MINIMUM_FEED_RATE
  }

  /** The nominal speed is the largest that is at most the minimum feed rate, or at most the share of
      the programmed rate the override leaves and, but for a rapid, the rapid rate. */
  lemma NominalIsLargest(m: Move, o: Overrides, x: real)
    ensures var percent := if m.rapid then o.rapid else if m.noFeedOverride then 100 else o.feed;
      x <= NominalSpeed(m, o) <==>
        x <= 1.0 || (100.0 * x <= m.programmedRate * percent as real && (!m.rapid ==> x <= m.rapidRate))
  {
    var r := m.programmedRate;
    assert 100.0 * (r * (0.01 * o.rapid as real)) == r * o.rapid as real;
    assert 100.0 * (r * (0.01 * o.feed as real)) == r * o.feed as real;
  }

  /** The nominal speed stays below the axis-limited rapid rate exactly when that rate reaches the
      minimum feed rate and, for a rapid, its override does not exceed 100 percent. */
  lemma NominalWithinRapidRate(m: Move, o: Overrides)
    requires m.rapid ==> m.programmedRate == m.rapidRate
    ensures NominalSpeed(m, o) <= m.rapidRate <==> m.rapidRate >= MINIMUM_FEED_RATE && (m.rapid ==> o.rapid <= 100)
  {
    if m.rapid && m.rapidRate > 0.0 {
      ShareAtMost(m.rapidRate, o.rapid);
    }
  }

  lemma ShareAtMost(r: real, percent: nat)
    requires r > 0.0
    ensures r * (0.01 * percent as real) <= r <==> percent <= 100
  {
    var k := 0.01 * percent as real;
    assert r * k == r + Times(r, k - 1.0) == r - Times(r, 1.0 - k);
    if percent > 100 {
      TimesPositive(r, k - 1.0);
    } else if percent < 100 {
      TimesPositive(r, 1.0 - k);
    }
  }

  /** plan_compute_profile_parameters */
  function MaxEntry(nominal: real, previousNominal: real, maxJunction: real): real
  {
    var neighbours := if nominal > previousNominal then previousNominal * previousNominal else nominal * nominal;
    if neighbours > maxJunction then maxJunction else neighbours
  }

  lemma MaxEntryIsLeast(nominal: real, previousNominal: real, maxJunction: real, v: real)
    requires nominal >= 0.0 && previousNominal >= 0.0 && v >= 0.0
    ensures v * v <= MaxEntry(nominal, previousNominal, maxJunction)
      <==> v <= nominal && v <= previousNominal && v * v <= maxJunction
  {
    SqOrder(v, nominal);
    SqOrder(v, previousNominal);
  }

  // ---------------------------------------------------------------- geometry

  /** lround: to the nearest integer, halves away from zero. */
  function Round(x: real): int {
    if x >= 0.0 then (x + 0.5).Floor else -((0.5 - x).Floor)
  }

  /** `n` is nearest to `x`; of two nearest integers it is the one further from zero. */
  predicate IsNearest(n: int, x: real) {
    Abs(n as real - x) <= 0.5 && (Abs(n as real - x) == 0.5 ==> Abs(n as real) > Abs(x))
  }

  /** Rounding yields it, and there is only one. */
  lemma RoundIsNearest(x: real, n: int)
    ensures IsNearest(n, x) <==> n == Round(x)
  {
    RoundsToNearest(x);
    OneNearest(n, Round(x), x);
  }

  lemma OneNearest(n: int, m: int, x: real)
    requires IsNearest(m, x)
    ensures IsNearest(n, x) ==> n == m
  {
  }

  lemma RoundsToNearest(x: real)
    ensures IsNearest(Round(x), x)
  {
    var up := (x + 0.5).Floor as real;
    var down := (0.5 - x).Floor as real;
    assert up <= x + 0.5 < up + 1.0 && down <= 0.5 - x < down + 1.0;
  }

  /** The positions, in steps, nearest to the target. */
  ghost predicate NearestSteps(steps: seq<int>, target: seq<real>, t: Settings)
    requires |target| == |t.stepsPerMm|
  {
    |steps| == |target| && forall i :: 0 <= i < |target| ==> IsNearest(steps[i], target[i] * t.stepsPerMm[i])
  }

  function AxisSteps(mm: real, stepsPerMm: real): int {
    Round(mm * stepsPerMm)
  }

  function TargetSteps(target: seq<real>, t: Settings): (s: seq<int>)
    requires |target| == |t.stepsPerMm|
    ensures |s| == |target| && forall i :: 0 <= i < |s| ==> s[i] == AxisSteps(target[i], t.stepsPerMm[i])
  {
    seq(|target|, i requires 0 <= i < |target| => AxisSteps(target[i], t.stepsPerMm[i]))
  }

  lemma TargetStepsAreNearest(steps: seq<int>, target: seq<real>, t: Settings)
    requires |target| == |t.stepsPerMm|
    ensures NearestSteps(steps, target, t) <==> steps == TargetSteps(target, t)
  {
    forall i | 0 <= i < |target| && i < |steps|
      ensures IsNearest(steps[i], target[i] * t.stepsPerMm[i]) <==> steps[i] == TargetSteps(target, t)[i]
    {
      RoundIsNearest(target[i] * t.stepsPerMm[i], steps[i]);
    }
    hide IsNearest, Round;
  }

  function AbsInt(x: int): nat {
    if x < 0 then -x else x
  }

  /** The distance from one position to another along each axis, in mm. */
  function Delta(here: seq<int>, there: seq<int>, t: Settings): (d: seq<real>)
    requires |here| == |there| == |t.stepsPerMm| && Usable(t)
    ensures |d| == |here|
  {
    seq(|here|, i requires 0 <= i < |here| => (there[i] - here[i]) as real / t.stepsPerMm[i])
  }

  /** The signed step count of axis `i`. */
  function SignedSteps(m: Move, i: nat): int
    requires i < |m.steps| && i < |m.negative|
  {
    var k: int := m.steps[i];
    if m.negative[i] then -k else k
  }

  /** The move carries the tool from `here` to `there`, and its count is its longest axis. */
  ghost predicate Carries(m: Move, here: seq<int>, there: seq<int>) {
    && |m.steps| == |m.negative| == |here| == |there|
    && (forall i :: 0 <= i < |here| ==> SignedSteps(m, i) == there[i] - here[i])
    && (forall i :: 0 <= i < |here| ==> m.steps[i] <= m.count)
    && m.count > 0
  }

  /** The squared speed at which a circle that rounds the corner takes the given acceleration. */
  ghost predicate IsCornerSpeed(v2: real, acceleration: real, deviation: real,
                                previous: seq<real>, unit: seq<real>, bisector: seq<real>)
    requires |previous| == |unit| == |bisector|
  {
    exists r, h :: Rounds(previous, unit, bisector, deviation, r, h) && v2 == acceleration * r
  }

  /** The junction limit: no limit on a straight line, rest at a full reversal, and otherwise the
      speed whose centripetal acceleration, on the circle that touches both lines and misses the
      corner by the junction deviation, is what the axes allow. */
  ghost predicate IsJunctionLimit(v2: real, previous: seq<real>, unit: seq<real>, t: Settings, sqrt: real -> real)
    requires |previous| == |unit| == |t.acceleration|
  {
    var cosTheta := CosTheta(previous, unit);
    var bisector := Direction(Difference(unit, previous), sqrt);
    var acceleration := AxisCap(t.acceleration, bisector, |unit|);
    if cosTheta > 0.999999 then v2 == MINIMUM_JUNCTION_SPEED * MINIMUM_JUNCTION_SPEED
    else if cosTheta < -0.999999 then v2 == SOME_LARGE_VALUE
    else IsCornerSpeed(v2, acceleration, t.junctionDeviation, previous, unit, bisector)
  }

  /** A line that goes on straight has no junction limit, and one that turns back starts from rest. */
  lemma JunctionEnds(v2: real, previous: seq<real>, unit: seq<real>, t: Settings, sqrt: real -> real)
    requires |previous| == |unit| == |t.acceleration| && IsUnit(unit)
    requires IsJunctionLimit(v2, previous, unit, t, sqrt)
    ensures unit == previous ==> v2 == 100000000000000000000000000000000000000.0
    ensures unit == Scaled(previous, -1.0) ==> v2 == 0.0
  {
    hide IsCornerSpeed, Difference, Direction, AxisCap, Dot, Scaled;
    if unit == Scaled(previous, -1.0) {
      var n := |unit|;
      DotScaledLeft(previous, -1.0, unit, n);
    }
  }

  lemma BendIsNotZero(previous: seq<real>, unit: seq<real>, d: seq<real>, n: nat)
    requires |previous| == |unit| == n && d == Difference(unit, previous)
    requires IsUnit(previous) && IsUnit(unit) && CosTheta(previous, unit) >= -0.999999
    ensures exists i :: 0 <= i < n && d[i] != 0.0
  {
    DotOfDifference(unit, previous, d, n);
    DotCommutes(unit, previous, n);
    DotOfZero(d, n);
  }

  lemma HalfAngle(cosTheta: real, sinHalf: real, sqrt: real -> real)
    requires -0.999999 <= cosTheta <= 0.999999 && IsSqrt(sqrt) && sinHalf == sqrt(0.5 * (1.0 - cosTheta))
    ensures 0.0 <= sinHalf < 1.0 && Sq(sinHalf) == 0.5 * (1.0 - cosTheta)
  {
    var half := 0.5 * (1.0 - cosTheta);
    assert sinHalf * sinHalf == half < 1.0;
    if sinHalf >= 1.0 {
      SqOrder(1.0, sinHalf);
    }
  }

  /** The cosine of the junction angle, and the vector along which the speed turns. */
  method JunctionVector(previous: seq<real>, unit: seq<real>) returns (cosTheta: real, junction: array<real>)
    requires |previous| == |unit|
    ensures cosTheta == CosTheta(previous, unit)
    ensures fresh(junction) && junction[..] == Difference(unit, previous)
  {
    cosTheta := 0.0;
    junction := new real[|unit|];
    var i := 0;
    while i < |unit|
      invariant 0 <= i <= |unit| && cosTheta == -Dot(previous, unit, i)
      invariant forall k :: 0 <= k < i ==> junction[k] == unit[k] - previous[k]
    {
      assert Dot(previous, unit, i + 1) == Dot(previous, unit, i) + Times(previous[i], unit[i]);
      cosTheta := cosTheta - previous[i] * unit[i];
      junction[i] := unit[i] - previous[i];
      i := i + 1;
    }
    assert junction[..] == Difference(unit, previous);
  }

  /** The junction limit of the code: the branch of plan_buffer_line for a queue that is not empty. */
  method JunctionSpeedSqr(previous: seq<real>, unit: seq<real>, t: Settings, sqrt: real -> real) returns (v2: real)
    requires Usable(t) && IsSqrt(sqrt) && |previous| == |unit| == |t.acceleration|
    requires IsUnit(previous) && IsUnit(unit)
    ensures IsJunctionLimit(v2, previous, unit, t, sqrt) && v2 >= 0.0
  {
    hide IsCornerSpeed, IsUnit, CosTheta, Difference, Scaled, Direction, AxisCap, LargestWithin;
    var cosTheta, junction := JunctionVector(previous, unit);
    if cosTheta > 0.999999 {
      v2 := MINIMUM_JUNCTION_SPEED * MINIMUM_JUNCTION_SPEED;
    } else if cosTheta < -0.999999 {
      v2 := SOME_LARGE_VALUE;
    } else {
      BendIsNotZero(previous, unit, junction[..], |unit|);
      var magnitude := ToUnitVector(junction, sqrt);
      var acceleration := LimitByAxisMaximum(t.acceleration, junction[..]);
      AxisCapPositive(t.acceleration, junction[..], |unit|);
      var sinHalf := sqrt(0.5 * (1.0 - cosTheta));
      HalfAngle(cosTheta, sinHalf, sqrt);
      v2 := CornerSpeedSqr(acceleration, t.junctionDeviation, sinHalf);
      FormulaIsCorner(previous, unit, junction[..], magnitude, acceleration, t.junctionDeviation, sinHalf, v2);
    }
  }

  lemma FormulaIsCorner(previous: seq<real>, unit: seq<real>, bisector: seq<real>, m: real,
                        acceleration: real, deviation: real, s: real, v2: real)
    requires |previous| == |unit| == |bisector| && IsUnit(previous) && IsUnit(unit) && IsUnit(bisector)
    requires m > 0.0 && Scaled(bisector, m) == Difference(unit, previous) && deviation >= 0.0
    requires 0.0 <= s < 1.0 && Sq(s) == 0.5 * (1.0 - CosTheta(previous, unit))
    requires v2 * (1.0 - s) == acceleration * deviation * s
    ensures IsCornerSpeed(v2, acceleration, deviation, previous, unit, bisector)
  {
    hide IsUnit, Scaled, CosTheta, Rounds;
    var h := deviation / (1.0 - s);
    CornerFormula(acceleration, deviation, s, v2, h);
    FormulaRounds(previous, unit, bisector, m, deviation, s, h);
    assert Rounds(previous, unit, bisector, deviation, h * s, h);
  }

  lemma CornerFormula(acceleration: real, deviation: real, s: real, v2: real, h: real)
    requires 0.0 <= s < 1.0 && h == deviation / (1.0 - s) && deviation >= 0.0
    requires v2 * (1.0 - s) == acceleration * deviation * s
    ensures h >= 0.0 && h - h * s == deviation && v2 == acceleration * (h * s)
  {
    var k := 1.0 - s;
    assert h * k == deviation;
    assert acceleration * deviation * s == acceleration * (h * s) * k;
    SameFactor(v2, acceleration * (h * s), k);
  }

  /** The centripetal acceleration formula. */
  method CornerSpeedSqr(acceleration: real, deviation: real, sinHalf: real) returns (v2: real)
    requires acceleration > 0.0 && deviation >= 0.0 && 0.0 <= sinHalf < 1.0
    ensures v2 * (1.0 - sinHalf) == acceleration * deviation * sinHalf && v2 >= 0.0
  {
    var formula := acceleration * deviation * sinHalf / (1.0 - sinHalf);
    if formula < 0.0 {
      TimesPositive(-formula, 1.0 - sinHalf);
      assert Times(-formula, 1.0 - sinHalf) == -(acceleration * deviation * sinHalf);
    }
    v2 := if MINIMUM_JUNCTION_SPEED * MINIMUM_JUNCTION_SPEED > formula
      then MINIMUM_JUNCTION_SPEED * MINIMUM_JUNCTION_SPEED else formula;
  }
}
