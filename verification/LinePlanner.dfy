/** The planner with its position: plan_buffer_line on the ring of blocks. */
module LinePlanner {
  import opened PlanTypes
  import opened PlanSpec
  import opened PlanRun
  import opened Planner
  import opened Limits
  import opened BufferLine

  lemma DeltaSign(here: int, there: int, scale: real)
    requires scale > 0.0
    ensures (there - here) as real / scale < 0.0 <==> there < here
    ensures (there - here) as real / scale == 0.0 <==> there == here
  {
    var d := (there - here) as real / scale;
    assert d * scale == (there - here) as real;
    if d < 0.0 {
      TimesPositive(-d, scale);
      assert Times(-d, scale) == -(d * scale);
    } else if d > 0.0 {
      TimesPositive(d, scale);
      assert Times(d, scale) == d * scale;
    }
  }

  /** What the axis loop has gathered after `n` axes. */
  ghost predicate Measured(here: seq<int>, there: seq<int>, steps: seq<nat>, negative: seq<bool>, count: nat, n: nat) {
    && |steps| == |negative| == n <= |here| == |there|
    && (forall i :: 0 <= i < n ==> steps[i] == AbsInt(there[i] - here[i]) <= count)
    && (forall i :: 0 <= i < n ==> (negative[i] <==> there[i] < here[i]))
    && (count == 0 || exists i :: 0 <= i < n && steps[i] == count)
  }

  lemma MeasuredNext(here: seq<int>, there: seq<int>, steps: seq<nat>, negative: seq<bool>, count: nat, n: nat, k: nat,
                     down: bool)
    requires Measured(here, there, steps, negative, count, n) && n < |here|
    requires k == AbsInt(there[n] - here[n]) && down == (there[n] < here[n])
    ensures Measured(here, there, steps + [k], negative + [down], if count < k then k else count, n + 1)
  {
    var s, c := steps + [k], if count < k then k else count;
    assert s[n] == k;
    if c != 0 && c == count {
      var i :| 0 <= i < n && steps[i] == count;
      assert s[i] == c;
    }
  }

  lemma MeasuredCarries(here: seq<int>, there: seq<int>, m: Move, n: nat)
    requires Measured(here, there, m.steps, m.negative, m.count, n) && n == |here|
    ensures m.count > 0 ==> Carries(m, here, there)
    ensures m.count == 0 <==> here == there
  {
    if m.count == 0 {
      forall i | 0 <= i < n ensures here[i] == there[i] {
        assert m.steps[i] == 0;
      }
    } else {
      var i :| 0 <= i < n && m.steps[i] == m.count;
      assert here[i] != there[i];
    }
  }

  /** The loop over the axes. */
  method Measure(here: seq<int>, target: seq<real>, t: Settings)
    returns (targetSteps: seq<int>, steps: seq<nat>, negative: seq<bool>, count: nat, unit: array<real>)
    requires Usable(t) && |target| == |here| == |t.stepsPerMm|
    ensures fresh(unit) && targetSteps == TargetSteps(target, t) && NearestSteps(targetSteps, target, t)
    ensures Measured(here, targetSteps, steps, negative, count, |here|)
    ensures unit[..] == Delta(here, targetSteps, t)
  {
    hide Round, AbsInt, AxisSteps, NearestSteps;
    ghost var there := TargetSteps(target, t);
    ghost var delta := Delta(here, there, t);
    targetSteps, steps, negative, count := [], [], [], 0;
    unit := new real[|here|];
    var i := 0;
    while i < |here|
      invariant 0 <= i <= |here| && |targetSteps| == i && forall k :: 0 <= k < i ==> targetSteps[k] == there[k]
      invariant Measured(here, there, steps, negative, count, i)
      invariant forall k :: 0 <= k < i ==> unit[k] == delta[k]
    {
      var goal := AxisSteps(target[i], t.stepsPerMm[i]);
      assert goal == there[i];
      var k := AbsInt(goal - here[i]);
      var deltaMm := (goal - here[i]) as real / t.stepsPerMm[i];
      DeltaSign(here[i], goal, t.stepsPerMm[i]);
      MeasuredNext(here, there, steps, negative, count, i, k, deltaMm < 0.0);
      targetSteps, steps, negative := targetSteps + [goal], steps + [k], negative + [deltaMm < 0.0];
      count := if count < k then k else count;
      unit[i] := deltaMm;
      i := i + 1;
    }
    assert targetSteps == there;
    TargetStepsAreNearest(targetSteps, target, t);
    assert unit[..] == delta;
  }

  /** The block a line from `here` to `there` is turned into, up to its junction limit. */
  ghost predicate LineBlock(b: Block, here: seq<int>, there: seq<int>, unit: seq<real>, data: LineData, t: Settings)
    requires Usable(t) && |here| == |there| == |unit| == |t.stepsPerMm|
  {
    && Carries(b.move, here, there)
    && b.mm > 0.0 && IsUnit(unit) && Scaled(unit, b.mm) == Delta(here, there, t)
    && b.entry == 0.0
    && b.accel > 0.0 && LargestWithin(b.accel, t.acceleration, unit)
    && LargestWithin(b.move.rapidRate, t.maxRate, unit)
    && b.move.rapid == data.rapid && b.move.noFeedOverride == data.noFeedOverride
    && b.move.programmedRate == (if data.rapid then b.move.rapidRate else if data.inverseTime then data.feedRate * b.mm
        else data.feedRate)
  }

  /** At its programmed rate a rapid is as fast as its axes allow, a line in inverse time takes the given
      part of a minute, and any other line moves at the given feed rate. */
  lemma ProgrammedTime(b: Block, here: seq<int>, there: seq<int>, unit: seq<real>, data: LineData, t: Settings)
    requires Usable(t) && |here| == |there| == |unit| == |t.stepsPerMm|
    requires LineBlock(b, here, there, unit, data, t) && data.feedRate > 0.0
    ensures data.rapid ==> LargestWithin(b.move.programmedRate, t.maxRate, unit)
    ensures !data.rapid && !data.inverseTime ==> b.move.programmedRate == data.feedRate
    ensures !data.rapid && data.inverseTime ==>
      b.move.programmedRate > 0.0 && b.mm / b.move.programmedRate == 1.0 / data.feedRate
  {
    hide LargestWithin, Scaled, IsUnit, Carries;
    if !data.rapid && data.inverseTime {
      var f, rate := data.feedRate, b.move.programmedRate;
      TimesPositive(f, b.mm);
      assert rate == Times(f, b.mm);
      var time := b.mm / rate;
      assert time * rate == b.mm;
      SameFactor(time * f, 1.0, b.mm);
      assert (1.0 / f) * f == 1.0;
      SameFactor(time, 1.0 / f, f);
    }
  }

  /** The speed limits of a block that follows one with the given direction and nominal speed. */
  ghost predicate Limited(b: Block, first: bool, previous: seq<real>, unit: seq<real>, previousNominal: real,
                          o: Overrides, t: Settings, sqrt: real -> real)
    requires |previous| == |unit| == |t.acceleration|
  {
    && (if first then b.move.maxJunction == 0.0 else IsJunctionLimit(b.move.maxJunction, previous, unit, t, sqrt))
    && b.maxEntry == MaxEntry(NominalSpeed(b.move, o), previousNominal, b.move.maxJunction)
  }

  /** Length and axis limits of a line.  `unit` is scaled to a unit vector in place. */
  method LimitLine(unit: array<real>, t: Settings, sqrt: real -> real) returns (mm: real, accel: real, rapidRate: real)
    requires Usable(t) && IsSqrt(sqrt) && unit.Length == |t.acceleration|
    requires exists i :: 0 <= i < unit.Length && unit[i] != 0.0
    modifies unit
    ensures mm > 0.0 && IsUnit(unit[..]) && Scaled(unit[..], mm) == old(unit[..])
    ensures accel > 0.0 && LargestWithin(accel, t.acceleration, unit[..])
    ensures LargestWithin(rapidRate, t.maxRate, unit[..])
  {
    mm := ToUnitVector(unit, sqrt);
    accel := LimitByAxisMaximum(t.acceleration, unit[..]);
    AxisCapPositive(t.acceleration, unit[..], |t.acceleration|);
    rapidRate := LimitByAxisMaximum(t.maxRate, unit[..]);
  }

  /** The junction limit: rest for the first block of an empty queue. */
  method LimitJunction(first: bool, previous: seq<real>, unit: seq<real>, t: Settings, sqrt: real -> real)
    returns (v2: real)
    requires Usable(t) && IsSqrt(sqrt) && |previous| == |unit| == |t.acceleration|
    requires IsUnit(unit) && (!first ==> IsUnit(previous))
    ensures v2 >= 0.0
    ensures if first then v2 == 0.0 else IsJunctionLimit(v2, previous, unit, t, sqrt)
  {
    if first {
      v2 := 0.0;
    } else {
      v2 := JunctionSpeedSqr(previous, unit, t, sqrt);
    }
  }

  /** The new block: the middle of plan_buffer_line. */
  method MakeBlock(here: seq<int>, targetSteps: seq<int>, steps: seq<nat>, negative: seq<bool>, count: nat,
                   unit: array<real>,
                   first: bool, previous: seq<real>, previousNominal: real,
                   data: LineData, o: Overrides, t: Settings, sqrt: real -> real) returns (b: Block)
    requires Usable(t) && IsSqrt(sqrt) && |previous| == |t.acceleration| == |here| && (!first ==> IsUnit(previous))
    requires Measured(here, targetSteps, steps, negative, count, |here|) && count > 0
    requires unit[..] == Delta(here, targetSteps, t)
    modifies unit
    ensures LineBlock(b, here, targetSteps, unit[..], data, t)
    ensures Limited(b, first, previous, unit[..], previousNominal, o, t, sqrt)
    ensures Movable(b) && (first ==> b.maxEntry == 0.0)
  {
    hide Measured, Carries, LargestWithin, IsUnit, Scaled, Delta, IsJunctionLimit, NominalSpeed, MaxEntry, Movable;
    MeasuredCarries(here, targetSteps, Move(steps, negative, count, false, false, 0.0, 0.0, 0.0), |here|);
    MovesSomewhere(here, targetSteps, t, unit[..]);
    var mm, accel, rapidRate := LimitLine(unit, t, sqrt);
    var programmed := if data.rapid then rapidRate else if data.inverseTime then data.feedRate * mm else data.feedRate;
    var maxJunction := LimitJunction(first, previous, unit[..], t, sqrt);
    var move := Move(steps, negative, count, data.rapid, data.noFeedOverride, maxJunction, rapidRate, programmed);
    MeasuredCarries(here, targetSteps, move, |here|);
    var nominal := NominalSpeed(move, o);
    b := Block(move, 0.0, MaxEntry(nominal, previousNominal, maxJunction), accel, mm);
    LimitsAreMovable(b, nominal, previousNominal, maxJunction);
  }

  class LinePlanner {
    const ring: BlockRing
    const position: array<int>          // pl.position, in steps
    const previousUnit: array<real>     // pl.previous_unit_vec
    var previousNominal: real           // pl.previous_nominal_speed
    const settings: Settings
    const sqrt: real -> real

    constructor (ring: BlockRing, axes: nat, settings: Settings, sqrt: real -> real)
      requires Usable(settings) && |settings.stepsPerMm| == axes && IsSqrt(sqrt) && ring.Valid()
        && ring.tail == ring.head
      ensures Valid() && this.ring == ring && fresh(position) && fresh(previousUnit)
      ensures this.settings == settings && this.sqrt == sqrt && position.Length == axes && previousNominal == 0.0
    {
      this.ring, this.settings, this.sqrt := ring, settings, sqrt;
      position := new int[axes](_ => 0);
      previousUnit := new real[axes](_ => 0.0);
      previousNominal := 0.0;
    }

    ghost predicate Valid()
      reads this, ring, ring.buffer, ring.prep, position, previousUnit
    {
      && ring.Valid() && Usable(settings) && IsSqrt(sqrt)
      && position.Length == previousUnit.Length == |settings.stepsPerMm|
      && previousNominal >= 0.0
      && (ring.tail != ring.head ==> IsUnit(previousUnit[..]))
    }

    /** Stores the path data of the new block and queues it: the end of plan_buffer_line. */
    method Commit(b: Block, targetSteps: seq<int>, unit: seq<real>, nominal: real)
      requires Valid() && ring.nextHead != ring.tail && nominal >= 0.0
      requires |targetSteps| == |unit| == position.Length && IsUnit(unit)
      requires Movable(b) && b.entry == 0.0 && (ring.tail == ring.head ==> b.maxEntry == 0.0)
      modifies this`previousNominal, position, previousUnit, ring`head, ring`nextHead, ring`planned, ring.buffer,
        ring.prep`plBlock, ring.prep`recalculate
      ensures Valid() && position[..] == targetSteps && previousUnit[..] == unit && previousNominal == nominal
      ensures ring.AsPlan() == Apply(old(ring.AsPlan()), PlanRun.Append(b))
      ensures ring.prep.plBlock == if old(ring.tail != ring.head && ring.planned == ring.tail && ring.prep.plBlock >= 0)
        then -1 else old(ring.prep.plBlock)
      ensures ring.prep.recalculate == (ring.prep.plBlock != old(ring.prep.plBlock) || old(ring.prep.recalculate))
    {
      previousNominal := nominal;
      CopyVector(previousUnit, unit);
      CopySteps(position, targetSteps);
      ring.Append(b);
    }

    /** plan_buffer_line, for everything but a system motion. */
    method BufferLine(target: seq<real>, data: LineData, o: Overrides) returns (ok: bool, ghost b: Block)
      requires Valid() && |target| == position.Length && ring.nextHead != ring.tail
      modifies this`previousNominal, position, previousUnit, ring`head, ring`nextHead, ring`planned, ring.buffer,
        ring.prep`plBlock, ring.prep`recalculate
      ensures Valid()
      ensures NearestSteps(position[..], target, settings) && (ok <==> position[..] != old(position[..]))
      ensures !ok ==> ring.AsPlan() == old(ring.AsPlan()) && previousUnit[..] == old(previousUnit[..])
      ensures !ok ==> previousNominal == old(previousNominal) && ring.prep.plBlock == old(ring.prep.plBlock)
      ensures ok ==> LineBlock(b, old(position[..]), position[..], previousUnit[..], data, settings)
      ensures ok ==> Limited(b, old(ring.tail == ring.head), old(previousUnit[..]), previousUnit[..],
                             old(previousNominal), o, settings, sqrt)
      ensures ok ==> previousNominal == NominalSpeed(b.move, o)
      ensures ok ==> ring.prep.plBlock == if old(ring.tail != ring.head && ring.planned == ring.tail
          && ring.prep.plBlock >= 0) then -1 else old(ring.prep.plBlock)
      ensures ring.prep.recalculate == (ring.prep.plBlock != old(ring.prep.plBlock) || old(ring.prep.recalculate))
      ensures ok ==>
        Enabled(old(ring.AsPlan()), PlanRun.Append(b))
        && ring.AsPlan() == Apply(old(ring.AsPlan()), PlanRun.Append(b))
    {
      var zero := Block(Move([], [], 0, false, false, 0.0, 0.0, 0.0), 0.0, 0.0, 0.0, 0.0);
      b := zero;
      ring.ClearHead(zero);
      var here := position[..];
      var targetSteps, steps, negative, count, unit := Measure(here, target, settings);
      MeasuredCarries(here, targetSteps, Move(steps, negative, count, false, false, 0.0, 0.0, 0.0), |here|);
      if count == 0 {
        return false, b;
      }
      var block := MakeBlock(here, targetSteps, steps, negative, count, unit, ring.head == ring.tail, previousUnit[..],
                             previousNominal, data, o, settings, sqrt);
      b := block;
      Commit(block, targetSteps, unit[..], NominalSpeed(block.move, o));
      ok := true;
    }
  }

  method CopyVector(a: array<real>, s: seq<real>)
    requires a.Length == |s|
    modifies a
    ensures a[..] == s
  {
    for i := 0 to a.Length
      invariant forall k :: 0 <= k < i ==> a[k] == s[k]
    {
      a[i] := s[i];
    }
  }

  method CopySteps(a: array<int>, s: seq<int>)
    requires a.Length == |s|
    modifies a
    ensures a[..] == s
  {
    for i := 0 to a.Length
      invariant forall k :: 0 <= k < i ==> a[k] == s[k]
    {
      a[i] := s[i];
    }
  }

  lemma MovesSomewhere(here: seq<int>, there: seq<int>, t: Settings, delta: seq<real>)
    requires Usable(t) && |here| == |there| == |t.stepsPerMm| && delta == Delta(here, there, t) && here != there
    ensures exists i :: 0 <= i < |delta| && delta[i] != 0.0
  {
    var i :| 0 <= i < |here| && here[i] != there[i];
    DeltaSign(here[i], there[i], t.stepsPerMm[i]);
    assert delta[i] != 0.0;
  }

  lemma LimitsAreMovable(b: Block, nominal: real, previousNominal: real, maxJunction: real)
    requires b.entry == 0.0 && b.maxEntry == MaxEntry(nominal, previousNominal, maxJunction)
    requires b.accel > 0.0 && b.mm > 0.0 && maxJunction >= 0.0
    ensures Movable(b) && (maxJunction == 0.0 ==> b.maxEntry == 0.0)
  {
    TimesPositive(b.accel, b.mm);
    SquareSign(nominal);
    SquareSign(previousNominal);
    assert nominal * nominal == Times(nominal, nominal)
      && previousNominal * previousNominal == Times(previousNominal, previousNominal);
  }
}
