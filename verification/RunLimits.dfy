/** Nominal speeds along a queue, and what executing one segment means for the plan. */
module RunLimits {
  import opened PlanTypes
  import opened PlanSpec
  import opened PlanUpdate
  import opened PlanRun
  import opened BufferLine
  import opened Kinematics
  import Limits
  import opened VelocityProfile

  /** Squared nominal speed of a block under the given overrides. */
  function NominalSqr(b: Block, o: Overrides): real {
    Sq(NominalSpeed(b.move, o))
  }

  /** No block is entered faster than it or its predecessor may travel. */
  ghost predicate Rated(s: seq<Block>, o: Overrides) {
    && (forall i :: 0 <= i < |s| ==> s[i].accel > 0.0 && s[i].mm > 0.0 && s[i].move.count > 0)
    && (forall i :: 1 <= i < |s| ==> s[i].maxEntry <= Min(NominalSqr(s[i - 1], o), NominalSqr(s[i], o)))
    && (s != [] ==> s[0].entry <= NominalSqr(s[0], o))
  }

  lemma RatedRecalc(s: seq<Block>, p: nat, o: Overrides)
    requires Rated(s, o) && p < |s|
    ensures Rated(Recalc(s, p), o)
  {
    hide Sq;
    var r := Recalc(s, p);
    forall i | 0 <= i < |r| ensures r[i].move == s[i].move && r[i].maxEntry == s[i].maxEntry && r[i].accel == s[i].accel
      && r[i].mm == s[i].mm {
    }
    assert r[0].entry == s[0].entry;
  }

  lemma RatedAdvance(s: seq<Block>, v2: real, mm: real, o: Overrides)
    requires Rated(s, o) && s != [] && mm > 0.0 && v2 <= NominalSqr(s[0], o)
    ensures Rated(Advanced(s, v2, mm), o)
  {
    hide Sq;
    var t := Advanced(s, v2, mm);
    forall i | 1 <= i < |t| ensures t[i].maxEntry <= Min(NominalSqr(t[i - 1], o), NominalSqr(t[i], o)) {
      assert t[i] == s[i] && t[i - 1].move == s[i - 1].move;
    }
  }

  lemma RatedFinish(s: seq<Block>, o: Overrides)
    requires Rated(s, o) && Sound(s) && s != []
    ensures Rated(s[1..], o)
  {
    hide Sq;
    var t := s[1..];
    if t != [] {
      RevBounds(s, 1);
      assert t[0].entry <= t[0].maxEntry;
    }
    forall i | 1 <= i < |t| ensures t[i].maxEntry <= Min(NominalSqr(t[i - 1], o), NominalSqr(t[i], o)) {
      assert t[i] == s[i + 1] && t[i - 1] == s[i];
    }
  }

  // ---------------------------------------------------------------- the course of the executing block

  /** What the profile of the executing block is computed from. */
  function CourseOf(s: seq<Block>, hold: bool, o: Overrides): Course
    requires s != []
  {
    Course(s[0].accel, s[0].entry, s[0].mm, ExitSqr(s), NominalSpeed(s[0].move, o), hold)
  }

  lemma ReachIsGain(b: Block)
    ensures Reach(b) == Gain(b.accel, b.mm)
  {
  }

  /** A good plan keeps the exit of the executing block in reach, and below its nominal speed. */
  lemma GoodIsFollowable(s: seq<Block>, p: nat, o: Overrides)
    requires Good(s, p) && Rated(s, o) && s != []
    ensures Abs(s[0].entry - ExitSqr(s)) <= Reach(s[0]) && 0.0 <= ExitSqr(s) <= NominalSqr(s[0], o)
  {
    hide Sq, Reach;
    assert Movable(s[0]);
    SqNonNegative(NominalSpeed(s[0].move, o));
    GoodIsSound(s, p);
    if |s| > 1 {
      assert Movable(s[1]);
      assert s[1].entry == Fwd(s, 1);
      FwdBounds(s, 1);
      RevBounds(s, 1);
      assert s[0].entry <= s[0 + 1].entry + Reach(s[0]);
    }
  }

  /** Every plan a run can produce can be followed by the segment generator. */
  lemma PlanIsFollowable(plan: Plan, o: Overrides)
    requires Inv(plan) && Rated(plan.blocks, o) && plan.blocks != []
    ensures Followable(CourseOf(plan.blocks, plan.held, o))
    ensures plan.blocks[0].entry <= Sq(NominalSpeed(plan.blocks[0].move, o))
  {
    hide Sq, Reach, Gain;
    var s := plan.blocks;
    assert Movable(s[0]);
    ReachIsGain(s[0]);
    if |s| > 1 {
      assert Movable(s[1]);
    }
    if !plan.held {
      GoodIsFollowable(s, plan.planned, o);
    }
  }

  /** One segment along the course is a step the plan allows. */
  lemma SegmentAdvances(c: Course, s: seq<Block>, v2: real, mm: real)
    requires Followable(c) && !c.hold && s != [] && c.exitSqr == ExitSqr(s) && c.accel == s[0].accel
    requires 0.0 <= mm <= s[0].mm <= c.mm && s[0].entry == Target(c, s[0].mm) && v2 == Target(c, mm) >= 0.0
    ensures FollowsPlan(s, v2, mm)
  {
    var d := s[0].mm;
    SegmentChanges(c, d, mm);
    ReachIsGain(s[0]);
    ReachIsGain(s[0].(mm := mm));
    hide Target, Gain, Reach;
  }

  lemma SegmentChanges(c: Course, d: real, mm: real)
    requires Followable(c) && !c.hold && 0.0 <= mm <= d <= c.mm
    ensures Gain(c.accel, mm) >= 0.0
    ensures Abs(Target(c, mm) - Target(c, d)) <= Gain(c.accel, d) - Gain(c.accel, mm)
    ensures Abs(Target(c, mm) - c.exitSqr) <= Gain(c.accel, mm)
  {
    hide Target, Gain;
    TargetChanges(c, mm, d);
    GainSum(c.accel, d, mm);
    GainOrder(c.accel, 0.0, mm);
  }

  /** One segment of a feed hold. */
  lemma SegmentHolds(c: Course, s: seq<Block>, v2: real, mm: real)
    requires Followable(c) && c.hold && s != [] && c.accel == s[0].accel
    requires 0.0 <= mm <= s[0].mm <= c.mm && s[0].entry == Target(c, s[0].mm) && v2 == Target(c, mm)
    ensures v2 == s[0].entry - (Reach(s[0]) - Reach(s[0].(mm := mm)))
  {
    GainSum(c.accel, c.mm, s[0].mm);
    GainSum(c.accel, c.mm, mm);
    assert Reach(s[0]) == Gain(c.accel, s[0].mm) && Reach(s[0].(mm := mm)) == Gain(c.accel, mm);
  }

  /** With the rapid override at most 100 percent and a rapid rate of at least the minimum feed
      rate, no axis exceeds its maximum rate at any speed a rated block is executed with. */
  lemma NoAxisTooFast(m: Move, v: real, o: Overrides, maxRate: seq<real>, unit: seq<real>)
    requires |maxRate| == |unit| && Limits.LargestWithin(m.rapidRate, maxRate, unit)
    requires (m.rapid ==> m.programmedRate == m.rapidRate && o.rapid <= 100) && m.rapidRate >= MINIMUM_FEED_RATE
    requires v >= 0.0 && Sq(v) <= Sq(NominalSpeed(m, o))
    ensures Limits.WithinAxes(v, maxRate, unit, |unit|)
  {
    NominalWithinRapidRate(m, o);
    SqOrder(NominalSpeed(m, o), v);
    assert v <= m.rapidRate;
    Limits.LargestCovers(m.rapidRate, maxRate, unit, v);
  }
}
