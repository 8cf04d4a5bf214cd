/** Every block that is queued, loaded or executed keeps the rate limits of its line. */
module AxisLimits {
  import opened PlanTypes
  import opened BufferLine
  import opened Kinematics
  import opened Limits
  import LinePlanner
  import RunLimits
  import VelocityProfile
  import SM = StepMachine

  /** The distance a move makes along each axis, in mm. */
  function Travel(m: Move, t: Settings): (d: seq<real>)
    requires Usable(t) && |m.steps| == |m.negative| == |t.stepsPerMm|
    ensures |d| == |m.steps|
  {
    seq(|m.steps|, i requires 0 <= i < |m.steps| => SignedSteps(m, i) as real / t.stepsPerMm[i])
  }

  /** `unit` is the direction of the move, `mm` its length. */
  ghost predicate Heads(m: Move, t: Settings, unit: seq<real>, mm: real) {
    && Usable(t) && |m.steps| == |m.negative| == |unit| == |t.stepsPerMm|
    && mm > 0.0 && IsUnit(unit) && Scaled(unit, mm) == Travel(m, t)
  }

  /** The rapid rate is the largest its axes allow along the move's direction; a rapid is programmed
      at that rate. */
  ghost predicate MoveLimited(m: Move, t: Settings) {
    && (m.rapid ==> m.programmedRate == m.rapidRate)
    && exists unit, mm :: Heads(m, t, unit, mm) && LargestWithin(m.rapidRate, t.maxRate, unit)
  }

  /** A move has only one direction. */
  lemma OneDirection(m: Move, t: Settings, u: seq<real>, k: real, v: seq<real>, l: real)
    requires Heads(m, t, u, k) && Heads(m, t, v, l)
    ensures u == v && k == l
  {
    hide Sq, IsUnit, Dot, Travel, Scaled;
    var d := Travel(m, t);
    UnitLength(u, k, d);
    UnitLength(v, l, d);
    SqOrder(k, l);
    SameDirection(u, v, k, d);
  }

  lemma SameDirection(u: seq<real>, v: seq<real>, k: real, d: seq<real>)
    requires k > 0.0 && Scaled(u, k) == d == Scaled(v, k)
    ensures u == v
  {
    assert |u| == |d| == |v|;
    forall i | 0 <= i < |d|
      ensures u[i] == v[i]
    {
      assert d[i] == u[i] * k == v[i] * k;
      SameFactor(u[i], v[i], k);
    }
  }

  /** A line's block is limited. */
  lemma LineLimited(b: Block, here: seq<int>, there: seq<int>, unit: seq<real>, data: LineData, t: Settings)
    requires Usable(t) && |here| == |there| == |unit| == |t.stepsPerMm|
    requires LinePlanner.LineBlock(b, here, there, unit, data, t)
    ensures MoveLimited(b.move, t)
  {
    hide LargestWithin, IsUnit;
    assert Travel(b.move, t) == Delta(here, there, t);
    assert Heads(b.move, t, unit, b.mm);
  }

  /** Every block of the planner's queue and every block loaded since the reset. */
  ghost predicate AllLimited(mach: SM.Machine, t: Settings) {
    && (forall k :: 0 <= k < |mach.queue| ==> MoveLimited(mach.queue[k], t))
    && (forall k :: 1 <= k < |mach.blocks| ==> MoveLimited(mach.blocks[k], t))
  }

  lemma EventKeepsLimits(mach: SM.Machine, e: SM.Event, t: Settings)
    requires SM.WellFormed(mach) && SM.Can(mach, e) && AllLimited(mach, t)
    requires e.Append? ==> MoveLimited(e.move, t)
    ensures AllLimited(SM.Next(mach, e), t)
  {
    hide MoveLimited, SM.Chain;
  }

  /** With a rapid override of at most 100 percent and a rapid rate of at least the minimum feed rate,
      no speed up to the nominal speed takes an axis beyond its maximum rate. */
  lemma WithinRates(m: Move, v: real, o: Overrides, t: Settings, unit: seq<real>, mm: real)
    requires MoveLimited(m, t) && Heads(m, t, unit, mm)
    requires (m.rapid ==> o.rapid <= 100) && m.rapidRate >= MINIMUM_FEED_RATE
    requires v >= 0.0 && Sq(v) <= Sq(NominalSpeed(m, o))
    ensures WithinAxes(v, t.maxRate, unit, |unit|)
  {
    hide IsUnit, Scaled, Travel, NominalSpeed, LargestWithin;
    var u, k :| Heads(m, t, u, k) && LargestWithin(m.rapidRate, t.maxRate, u);
    OneDirection(m, t, u, k, unit, mm);
    RunLimits.NoAxisTooFast(m, v, o, t.maxRate, unit);
  }

  // ---------------------------------------------------------------- where the minimum feed rate wins

  /** With a rapid override of at most 100 percent, a move at its nominal speed keeps every axis within
      its maximum rate exactly when the rapid rate along it reaches the minimum feed rate. */
  lemma NominalWithinAxes(m: Move, o: Overrides, t: Settings, unit: seq<real>, mm: real)
    requires MoveLimited(m, t) && Heads(m, t, unit, mm) && (m.rapid ==> o.rapid <= 100)
    ensures WithinAxes(NominalSpeed(m, o), t.maxRate, unit, |unit|) <==> m.rapidRate >= MINIMUM_FEED_RATE
  {
    hide IsUnit, Scaled, Travel, WithinAxes;
    if m.rapidRate >= MINIMUM_FEED_RATE {
      WithinRates(m, NominalSpeed(m, o), o, t, unit, mm);
    } else {
      var u, k :| Heads(m, t, u, k) && LargestWithin(m.rapidRate, t.maxRate, u);
      OneDirection(m, t, u, k, unit, mm);
      CrawlsAtMinimum(m, o);
    }
  }

  lemma CrawlsAtMinimum(m: Move, o: Overrides)
    requires (m.rapid ==> m.programmedRate == m.rapidRate && o.rapid <= 100) && m.rapidRate < MINIMUM_FEED_RATE
    ensures NominalSpeed(m, o) == MINIMUM_FEED_RATE <= SOME_LARGE_VALUE
  {
    if m.rapid {
      var r, k := m.rapidRate, 0.01 * o.rapid as real;
      assert r * k <= Max(r, 0.0) by {
        if r > 0.0 {
          ShareAtMost(r, o.rapid);
        } else {
          assert Times(-r, k) >= 0.0 && r * k == -Times(-r, k);
        }
      }
      assert m.programmedRate * k == r * k;
    }
  }

  /** Half a millimetre per minute along the only axis. */
  const SLOW := Settings([1.0], [0.5], [1.0], 0.0)

  const CRAWL := Block(Move([1], [false], 1, false, true, 0.0, 0.5, 0.5), 0.0, 0.0, 1.0, 1.0)

  lemma CrawlHeads()
    ensures Heads(CRAWL.move, SLOW, [1.0], 1.0)
  {
    assert Dot([1.0], [1.0], 0) == 0.0;
    assert Times(1.0, 1.0) == 1.0;
    assert Travel(CRAWL.move, SLOW) == [1.0] == Scaled([1.0], 1.0);
  }

  lemma CrawlCap()
    ensures LargestWithin(0.5, [0.5], [1.0])
  {
    AxisCapLargestWithin([0.5], [1.0]);
    assert AxisCap([0.5], [1.0], 0) == SOME_LARGE_VALUE;
  }

  /** Such a move exists, and its profile takes the axis there: halfway through the only block of a
      queue it is at the nominal speed, beyond the maximum rate. */
  lemma SlowAxis(o: Overrides, unit: seq<real>, v: real)
    requires o.rapid <= 100 && unit == [1.0] && v == NominalSpeed(CRAWL.move, o)
    ensures MoveLimited(CRAWL.move, SLOW) && Heads(CRAWL.move, SLOW, unit, 1.0)
    ensures Sq(v) == VelocityProfile.Target(RunLimits.CourseOf([CRAWL], false, o), 0.5)
    ensures !WithinAxes(v, SLOW.maxRate, unit, 1)
  {
    CrawlHeads();
    CrawlCap();
    hide Heads, LargestWithin, WithinAxes;
    NominalWithinAxes(CRAWL.move, o, SLOW, unit, 1.0);
  }
}
