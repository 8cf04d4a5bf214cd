/** Planner, segment generator and stepper together: from target positions to motor steps. */
module MotionSystem {
  import opened PlanTypes
  import opened PlanSpec
  import opened PlanRun
  import opened BufferLine
  import opened Kinematics
  import Prep
  import opened Planner
  import opened LinePlanner
  import opened RunLimits
  import opened AxisLimits
  import Limits
  import VelocityProfile
  import opened PrepView
  import opened Preparation
  import Runs = PrepRuns
  import opened Bresenham
  import opened MotionLink
  import SM = StepMachine
  import opened Stepper

  /** A new block keeps the queue within its nominal speeds. */
  lemma RatedAppend(s: seq<Block>, b: Block, previousNominal: real, o: Overrides)
    requires Rated(s, o) && b.accel > 0.0 && b.mm > 0.0 && b.move.count > 0 && b.entry == 0.0 && previousNominal >= 0.0
    requires b.maxEntry == MaxEntry(NominalSpeed(b.move, o), previousNominal, b.move.maxJunction)
    requires s != [] ==> previousNominal == NominalSpeed(s[|s| - 1].move, o)
    ensures Rated(s + [b], o)
  {
    var t, n := s + [b], NominalSpeed(b.move, o);
    SqNonNegative(n);
    SqOrder(previousNominal, n);
    assert Sq(n) == n * n && Sq(previousNominal) == previousNominal * previousNominal;
    hide NominalSpeed, Sq;
    forall i | 1 <= i < |t| ensures t[i].maxEntry <= Min(NominalSqr(t[i - 1], o), NominalSqr(t[i], o)) {
      if i < |s| {
        assert t[i] == s[i] && t[i - 1] == s[i - 1];
      } else {
        assert t[i] == b && t[i - 1] == s[|s| - 1];
      }
    }
  }

  /** The nominal speed remembered for the next line is that of the newest block. */
  ghost predicate RemembersNominal(s: seq<Block>, previousNominal: real, o: Overrides) {
    s != [] ==> previousNominal == NominalSpeed(s[|s| - 1].move, o)
  }

  lemma SameMovesRemember(s: seq<Block>, t: seq<Block>, previousNominal: real, o: Overrides)
    requires RemembersNominal(s, previousNominal, o) && |t| <= |s| && Moves(t) == Moves(s)[|s| - |t|..]
    ensures RemembersNominal(t, previousNominal, o)
  {
    if t != [] {
      assert Moves(t)[|t| - 1] == Moves(s)[|s| - 1];
    }
  }

  lemma NewBlockFits(b: Block, here: seq<int>, there: seq<int>, unit: seq<real>, data: LineData, t: Settings,
                     first: bool,
                     previous: seq<real>, previousNominal: real, o: Overrides, sqrt: real -> real, plan: Plan)
    requires Usable(t) && |here| == |there| == |unit| == |t.stepsPerMm| == |previous|
    requires LineBlock(b, here, there, unit, data, t) && Limited(b, first, previous, unit, previousNominal, o, t, sqrt)
    requires Enabled(plan, PlanRun.Append(b))
    ensures Movable(b) && FreshBlock(b, here, there, previousNominal, o) && MoveLimited(b.move, t)
  {
    LineLimited(b, here, there, unit, data, t);
    hide IsJunctionLimit, Limits.LargestWithin, MoveLimited;
  }

  /** What the planner promises of a block it has just made. */
  ghost predicate FreshBlock(b: Block, here: seq<int>, there: seq<int>, previousNominal: real, o: Overrides) {
    && Carries(b.move, here, there) && b.entry == 0.0 && b.accel > 0.0 && b.mm > 0.0
    && b.maxEntry == MaxEntry(NominalSpeed(b.move, o), previousNominal, b.move.maxJunction)
  }

  /** A new line keeps planner, generator and stepper together. */
  lemma LineKeeps(w: View, b: Block, mach: SM.Machine, here: seq<int>, there: seq<int>, previousNominal: real,
                  o: Overrides)
    requires ViewOk(w, o) && Linked(w, mach) && SM.WellFormed(mach) && SM.Conserved(mach) && mach.plPos == here
    requires RemembersNominal(w.plan.blocks, previousNominal, o) && previousNominal >= 0.0
    requires Movable(b) && FreshBlock(b, here, there, previousNominal, o)
    ensures ViewOk(Appended(w, b), o) && Runs.Leads(w, Runs.Line(b), Appended(w, b), o)
    ensures SM.Can(mach, SM.Append(b.move)) && Linked(Appended(w, b), SM.Next(mach, SM.Append(b.move)))
    ensures SM.WellFormed(SM.Next(mach, SM.Append(b.move))) && SM.Conserved(SM.Next(mach, SM.Append(b.move)))
    ensures SM.Next(mach, SM.Append(b.move)).plPos == there
    ensures RemembersNominal(Appended(w, b).plan.blocks, NominalSpeed(b.move, o), o)
    ensures |Appended(w, b).plan.blocks| == |w.plan.blocks| + 1
  {
    CarriesPosition(b.move, here, there);
    RatedAppend(w.plan.blocks, b, previousNominal, o);
    AppendedOk(w, b, o);
    LinkedAppend(w, b, mach, o);
    SM.EventKeeps(mach, SM.Append(b.move));
    AppendedLast(w, b, o);
    hide SM.Chain, SM.Conserved, AllLimited, Linked, MaxEntry, NominalSpeed, Appended, Inv, Carries, SM.MoveOk,
      SM.Moved, Sq;
  }

  lemma AppendedView(w: View, b: Block)
    ensures var told := w.plan.blocks != [] && w.plan.planned == 0 && w.loaded;
      Appended(w, b) == w.(plan := Apply(w.plan, PlanRun.Append(b)), loaded := w.loaded && !told, pending := w.pending
          || told)
  {
  }

  lemma AppendedLast(w: View, b: Block, o: Overrides)
    requires ViewOk(w, o)
    ensures |Appended(w, b).plan.blocks| == |w.plan.blocks| + 1
    ensures Appended(w, b).plan.blocks[|w.plan.blocks|].move == b.move
  {
    hide Sq, Rated, Sound, Good;
  }

  /** A segment of `n` steps of block `number` comes in behind the others. */
  ghost predicate Publishes(was: seq<SM.Seg>, live: seq<SM.Seg>, number: int, n: nat, level: nat)
    requires level <= MAX_AMASS_LEVEL
  {
    && |live| == |was| + 1 && live[..|was|] == was && live[|was|].number == number && live[|was|].level == level
    && live[|was|].ticks * Worth(level) == 8 * n
  }

  /** The interrupt takes machine `mach` to `after`. */
  ghost predicate OneTick(mach: SM.Machine, after: SM.Machine) {
    SM.WellFormed(mach) && after == SM.Next(mach, SM.Tick)
  }

  class MotionSystem {
    const line: LinePlanner
    const preparation: Preparation
    const stepper: Stepper
    ghost var run: Runs.Run     // of planner and generator

    constructor (line: LinePlanner, preparation: Preparation, stepper: Stepper)
      requires line.Valid() && preparation.Valid() && stepper.Valid() && line.ring == preparation.ring
      requires line.ring.tail == line.ring.head && !preparation.executeHold && line.ring.prep.plBlock == -1
        && !line.ring.prep.recalculate && Runs.Initial(preparation.Seen())
      requires stepper.machine == SM.Initial(ZeroMove(line.position.Length), line.position[..])
      requires line.position != stepper.counters && line.position != stepper.sysPosition
      ensures Valid() && this.line == line && this.preparation == preparation && this.stepper == stepper
    {
      this.line, this.preparation, this.stepper := line, preparation, stepper;
      run := Runs.Run([preparation.Seen()], []);
      new;
      Runs.StartRecords(preparation.Seen(), preparation.overrides);
      hide Runs.Records;
      SM.InitialConserved(ZeroMove(line.position.Length), line.position[..]);
      line.ring.PlanStands();
    }

    ghost predicate Valid()
      reads this, line, line.ring, line.ring.buffer, line.ring.prep, line.position, line.previousUnit,
        preparation, preparation.ring, preparation.ring.buffer, preparation.ring.prep, preparation.prep,
        stepper, stepper.segmentBuffer, stepper.stBlockBuffer, stepper.counters, stepper.sysPosition
    {
      && line.Valid() && preparation.Valid() && stepper.Valid()
      && line.ring == preparation.ring && line.position != stepper.counters && line.position != stepper.sysPosition
      && Linked(preparation.Seen(), stepper.machine)
      && RemembersNominal(preparation.Seen().plan.blocks, line.previousNominal, preparation.overrides)
      && stepper.machine.plPos == line.position[..] && SM.WellFormed(stepper.machine) && SM.Conserved(stepper.machine)
      && AllLimited(stepper.machine, line.settings)
      && Runs.Records(run, preparation.Seen(), preparation.overrides)
    }

    /** The stepper interrupt, at any time. */
    method Interrupt() returns (stop: bool)
      requires Valid()
      modifies stepper`running, stepper`execIndex, stepper`stepCount, stepper`steps, stepper`segmentTail,
        stepper`machine,
        stepper.counters, stepper.sysPosition
      ensures Valid() && preparation.Seen() == old(preparation.Seen()) && line.position[..] == old(line.position[..])
      ensures OneTick(old(stepper.machine), stepper.machine) && (stop <==> old(stepper.machine).live == [])
    {
      hide SegmentRings.Shows, ViewOk, SM.WellFormed, SM.Conserved, AllLimited, Linked, Runs.Records, Runs.Leads,
        Runs.LeftSlow, Runs.AddsLine, Runs.AddsRound, Runs.RoundAdded, Runs.IsRound, SM.Next, BlockRing.AsPlan,
        BlockRing.AllHarmless, RemembersNominal;
      LinkedTick(preparation.Seen(), stepper.machine);
      SM.EventKeeps(stepper.machine, SM.Tick);
      EventKeepsLimits(stepper.machine, SM.Tick, line.settings);
      TickKeepsPlanner(stepper.machine);
      stop := stepper.Interrupt();
    }

    /** plan_buffer_line: a target that differs from the planner's position by a step or more
        becomes a block, and the planner's position moves to it. */
    method Line(target: seq<real>, data: LineData) returns (ok: bool)
      requires Valid() && |target| == line.position.Length && line.ring.nextHead != line.ring.tail
      modifies line`previousNominal, line.position, line.previousUnit, line.ring`head, line.ring`nextHead,
        line.ring`planned,
        line.ring.buffer, line.ring.prep`plBlock, line.ring.prep`recalculate, stepper`machine, this`run
      ensures Valid() && NearestSteps(line.position[..], target, line.settings)
      ensures ok <==> line.position[..] != old(line.position[..])
      ensures ok ==> |preparation.Seen().plan.blocks| == old(|preparation.Seen().plan.blocks|) + 1
      ensures ok ==> Runs.AddsLine(old(run), run)
      ensures !ok ==>
        preparation.Seen() == old(preparation.Seen()) && stepper.machine == old(stepper.machine) && run == old(run)
    {
      hide SegmentRings.Shows, ViewOk, SM.WellFormed, SM.Conserved, AllLimited, Linked, Runs.Records, Runs.Leads,
        Runs.LeftSlow, Runs.AddsLine, Runs.AddsRound, Runs.RoundAdded, Runs.IsRound, SM.Next, BlockRing.AsPlan,
        BlockRing.AllHarmless,
        RemembersNominal, Apply, LineBlock, Limited, FreshBlock, MoveLimited, Movable, Enabled, Appended, SM.MoveOk,
          Rated, Stepper.Valid, IsSqrt, Usable, Limits.IsUnit, NearestSteps;
      ghost var w, plan, here, nominal := preparation.Seen(), line.ring.AsPlan(), line.position[..],
        line.previousNominal;
      ghost var first, previous := line.ring.tail == line.ring.head, line.previousUnit[..];
      line.ring.PlanStands();
      ghost var b: Block;
      ok, b := line.BufferLine(target, data, preparation.overrides);
      if ok {
        HeldCommutes(w.plan, plan, b);
        AppendedView(w, b);
        Rejoin(w, plan, b, here, data, first, previous, nominal);
      }
    }

    /** The stepper's queue gets the new block too. */
    ghost method Rejoin(w: View, plan: Plan, b: Block, here: seq<int>, data: LineData, first: bool,
                        previous: seq<real>, previousNominal: real)
      requires line.Valid() && stepper.Valid() && line.ring == preparation.ring && IsSqrt(preparation.sqrt)
      requires line.ring.prep == preparation.prep && !preparation.prep.decelOverride
      requires line.position != stepper.counters && line.position != stepper.sysPosition
      requires preparation.Seen() == Appended(w, b)
      requires ViewOk(w, preparation.overrides) && Linked(w, stepper.machine)
      requires SM.WellFormed(stepper.machine) && SM.Conserved(stepper.machine) && stepper.machine.plPos == here
      requires RemembersNominal(w.plan.blocks, previousNominal, preparation.overrides) && previousNominal >= 0.0
      requires |previous| == |here| == line.position.Length && Enabled(plan, PlanRun.Append(b))
      requires LineBlock(b, here, line.position[..], line.previousUnit[..], data, line.settings)
      requires Limited(b, first, previous, line.previousUnit[..], previousNominal, preparation.overrides, line.settings,
                       line.sqrt)
      requires AllLimited(stepper.machine, line.settings)
      requires line.previousNominal == NominalSpeed(b.move, preparation.overrides)
      requires Runs.Records(run, w, preparation.overrides)
      modifies stepper`machine, this`run
      ensures Valid() && preparation.Seen() == Appended(w, b) && |Appended(w, b).plan.blocks| == |w.plan.blocks| + 1
      ensures Runs.AddsLine(old(run), run)
    {
      hide SegmentRings.Shows, ViewOk, SM.WellFormed, SM.Conserved, AllLimited, Linked, Runs.Records, Runs.Leads,
        Runs.LeftSlow, Runs.AddsLine, Runs.AddsRound, Runs.RoundAdded, Runs.IsRound, SM.Next, BlockRing.AsPlan,
        BlockRing.AllHarmless,
        RemembersNominal, Apply, Appended, SM.MoveOk, Rated, Movable, FreshBlock, NominalSpeed, LineBlock, Limited,
        MoveLimited, Enabled, Usable, IsSqrt, Limits.IsUnit;
      NewBlockFits(b, here, line.position[..], line.previousUnit[..], data, line.settings, first, previous,
                   previousNominal, preparation.overrides, line.sqrt, plan);
      LineKeeps(w, b, stepper.machine, here, line.position[..], previousNominal, preparation.overrides);
      EventKeepsLimits(stepper.machine, SM.Append(b.move), line.settings);
      stepper.QueueBlock(b.move);
      Runs.RunExtends(run, w, Runs.Line(b), Appended(w, b), preparation.overrides);
      run := Runs.Extended(run, Runs.Line(b), Appended(w, b));
    }

    /** One round of st_prep_buffer.  The resolution level is whatever the segment's timing gives. */
    method Prepare(level: nat) returns (r: Outcome)
      requires Valid() && stepper.BufferHasRoom() && level <= MAX_AMASS_LEVEL
      modifies preparation`course, preparation`endMotion, preparation.prep, line.ring`tail, line.ring`planned,
        line.ring.buffer,
        stepper`prepIndex, stepper`segmentHead, stepper`segmentNextHead, stepper`machine, stepper.stBlockBuffer,
          stepper.segmentBuffer, this`run
      ensures Valid() && line.position[..] == old(line.position[..])
      ensures r.Nothing? ==>
        preparation.Seen() == old(preparation.Seen()) && stepper.machine == old(stepper.machine) && run == old(run)
      ensures r.Nothing? <==>
        old(preparation.endMotion) || old(line.ring.prep.plBlock == -1 && line.ring.tail == line.ring.head)
      ensures !r.Nothing? ==> Runs.AddsRound(old(run), run)
      ensures if r.Segment? then Publishes(old(stepper.machine).live, stepper.machine.live, SM.Last(stepper.machine),
                                           r.steps, level)
              else stepper.machine.live == old(stepper.machine).live
    {
      hide SegmentRings.Shows, ViewOk, SM.WellFormed, SM.Conserved, AllLimited, Linked, Runs.Records, Runs.Leads,
        Runs.LeftSlow, Runs.AddsLine, Runs.AddsRound, Runs.RoundAdded, Runs.IsRound, SM.Next, SM.Can,
        BlockRing.AsPlan, BlockRing.AllHarmless,
        RemembersNominal, Taken, Loadable, Cut, Prepped, ProperLength, NominalSpeed, NoStepLeft, Publishes, IsSqrt,
        Usable, Limits.IsUnit, StartsAt, EventOf, Stepper.View;
      ghost var w, mach, x, mm := preparation.Seen(), stepper.machine, preparation.Seen(), 0.0;
      line.ring.TailOfPlanIfAny();
      var move := line.ring.buffer[line.ring.tail].move;
      r, x, mm := preparation.PrepareSegment();
      line.ring.PlanStands();
      if !r.Nothing? {
        ghost var e, y := EventOf(r, mm, preparation.Seen()), preparation.Seen();
        Runs.RoundExtends(run, w, x, e, y, preparation.overrides);
        run := Runs.RoundAdded(run, w, x, e, y);
        Follow(w, x, mm, r, move, level);
      }
    }

    /** The stepper's part of a round: it loads a new block's data and publishes the segment. */
    method Follow(ghost w: View, ghost x: View, ghost mm: real, r: Outcome, move: Move, level: nat)
      requires line.Valid() && preparation.Valid() && stepper.Valid() && line.ring == preparation.ring
      requires line.position != stepper.counters && line.position != stepper.sysPosition
      requires stepper.BufferHasRoom() && level <= MAX_AMASS_LEVEL && !r.Nothing?
      requires ViewOk(w, preparation.overrides) && Linked(w, stepper.machine) && !w.ended && r.first == !TailInHand(w)
      requires RemembersNominal(w.plan.blocks, line.previousNominal, preparation.overrides)
      requires SM.WellFormed(stepper.machine) && SM.Conserved(stepper.machine)
        && stepper.machine.plPos == line.position[..]
      requires AllLimited(stepper.machine, line.settings)
      requires if w.loaded then x == w else Loadable(w) && x == Taken(w, x.shape, x.speed, preparation.overrides)
      requires w.plan.blocks != [] && move == w.plan.blocks[0].move
      requires ViewOk(x, preparation.overrides) && x.loaded && Cut(x, r, mm, preparation.Seen())
      requires Runs.Records(run, preparation.Seen(), preparation.overrides)
      modifies stepper`prepIndex, stepper`segmentHead, stepper`segmentNextHead, stepper`machine, stepper.stBlockBuffer,
        stepper.segmentBuffer
      ensures Valid()
      ensures if r.Segment? then Publishes(old(stepper.machine).live, stepper.machine.live, SM.Last(stepper.machine),
                                           r.steps, level)
              else stepper.machine.live == old(stepper.machine).live
    {
      hide SegmentRings.Shows, ViewOk, SM.WellFormed, SM.Conserved, AllLimited, Linked, Runs.Records, Runs.Leads,
        Runs.LeftSlow, Runs.AddsLine, Runs.AddsRound, Runs.RoundAdded, Runs.IsRound, SM.Next, SM.Can,
        BlockRing.AsPlan, BlockRing.AllHarmless,
        RemembersNominal, Taken, Loadable, Cut, Prepped, IsSqrt, Usable, Limits.IsUnit, Publishes;
      TakenLinks(w, x, r.first, stepper.machine, line.previousNominal, preparation.overrides);
      if r.first {
        EventKeepsLimits(stepper.machine, SM.Load, line.settings);
        LoadKeepsPlanner(stepper.machine);
        stepper.LoadBlock(move);
      }
      CutLinks(x, r, mm, preparation.Seen(), level, stepper.machine, line.previousNominal, preparation.overrides);
      if r.Segment? {
        EventKeepsLimits(stepper.machine, SM.Publish(r.steps, level), line.settings);
        PublishKeepsPlanner(stepper.machine, r.steps, level);
        stepper.WriteSegment(r.steps, level);
        stepper.PublishSegment(r.steps, level);
      }
    }

    /** A feed hold starts in a cycle. */
    method StartHold()
      requires Valid() && !preparation.executeHold && !preparation.endMotion
      modifies preparation`executeHold, line.ring.buffer, preparation.prep`plBlock, preparation.prep`recalculate,
        this`run
      ensures Valid() && preparation.Seen() == HoldStarted(old(preparation.Seen())) && preparation.executeHold
      ensures run == Runs.Extended(old(run), Runs.StartHold, preparation.Seen())
    {
      hide SegmentRings.Shows, ViewOk, SM.WellFormed, SM.Conserved, AllLimited, Linked, Runs.Records, Runs.Leads,
        Runs.LeftSlow, Runs.AddsLine, Runs.AddsRound, Runs.RoundAdded, Runs.IsRound, BlockRing.AsPlan,
        BlockRing.AllHarmless, RemembersNominal, Apply;
      LinkedTold(preparation.Seen(), stepper.machine);
      HoldOnlyFlags(preparation.Seen().plan);
      ghost var w := preparation.Seen();
      preparation.StartHold();
      Runs.RunExtends(run, w, Runs.StartHold, preparation.Seen(), preparation.overrides);
      run := Runs.Extended(run, Runs.StartHold, preparation.Seen());
    }

    /** The cycle stop of a hold, whenever the interrupt raises it. */
    method CycleStop()
      requires Valid()
      modifies preparation`executeHold, line.ring`planned, line.ring.buffer, preparation.prep`plBlock,
        preparation.prep`recalculate, this`run
      ensures Valid() && preparation.Seen() == Stopped(old(preparation.Seen())) && !preparation.executeHold
      ensures run == Runs.Extended(old(run), Runs.CycleStop, preparation.Seen())
      ensures Continuous(preparation.Seen()) <==> !Runs.LeftSlow(old(run).views, old(run).events, |old(run).events|)
    {
      hide SegmentRings.Shows, ViewOk, SM.WellFormed, SM.Conserved, AllLimited, Linked, Runs.Records, Runs.Leads,
        Runs.LeftSlow, Runs.AddsLine, Runs.AddsRound, Runs.RoundAdded, Runs.IsRound, BlockRing.AsPlan,
        BlockRing.AllHarmless, RemembersNominal, Apply;
      LinkedStopped(preparation.Seen(), stepper.machine);
      StoppedRemembers(preparation.Seen(), line.previousNominal, preparation.overrides);
      ghost var w := preparation.Seen();
      Runs.SlowNow(run, w, preparation.overrides);
      preparation.CycleStop();
      Runs.RunExtends(run, w, Runs.CycleStop, preparation.Seen(), preparation.overrides);
      run := Runs.Extended(run, Runs.CycleStop, preparation.Seen());
    }

    /** The cycle start that resumes it. */
    method CycleStart()
      requires Valid() && !preparation.executeHold
      modifies preparation`endMotion, this`run
      ensures Valid() && preparation.Seen() == Restarted(old(preparation.Seen())) && !preparation.endMotion
      ensures run == Runs.Extended(old(run), Runs.CycleStart, preparation.Seen())
    {
      hide SegmentRings.Shows, ViewOk, SM.WellFormed, SM.Conserved, AllLimited, Linked, Runs.Records, Runs.Leads,
        Runs.LeftSlow, Runs.AddsLine, Runs.AddsRound, Runs.RoundAdded, Runs.IsRound, BlockRing.AsPlan,
        BlockRing.AllHarmless, RemembersNominal;
      LinkedStopped(preparation.Seen(), stepper.machine);
      ghost var w := preparation.Seen();
      preparation.CycleStart();
      Runs.RunExtends(run, w, Runs.CycleStart, preparation.Seen(), preparation.overrides);
      run := Runs.Extended(run, Runs.CycleStart, preparation.Seen());
    }

    /** From power-up on, the speed has been continuous exactly when no cycle stop came after a block
        that ended slower than planned, before the next one was taken over. */
    lemma SpeedContinuous()
      requires Valid()
      ensures |run.views| == |run.events| + 1 && run.views[|run.events|] == preparation.Seen()
      ensures (forall j :: 0 <= j < |run.views| ==> Continuous(run.views[j]))
        <==> Runs.StopsInTime(run.views, run.events, |run.events|)
    {
      hide Continuous, Runs.StopsInTime, ViewOk, Linked, SM.WellFormed, SM.Conserved, AllLimited, SegmentRings.Shows;
      Runs.ContinuousExactlyWhen(run.views, run.events, preparation.overrides);
    }

    /** No point of an executed profile is too fast for an axis: at every distance of the course, also
        in a hold, the target speed keeps each axis within its maximum rate. */
    lemma NoPointTooFast(d: real, v: real, unit: seq<real>, mm: real)
      requires Valid() && preparation.Seen().loaded && !preparation.endMotion
      requires d <= preparation.course.mm && v >= 0.0 && Sq(v) == VelocityProfile.Target(preparation.course, d)
      requires Heads(line.ring.buffer[line.ring.tail].move, line.settings, unit, mm)
      requires preparation.overrides.rapid <= 100
        && line.ring.buffer[line.ring.tail].move.rapidRate >= MINIMUM_FEED_RATE
      ensures Limits.WithinAxes(v, line.settings.maxRate, unit, |unit|)
    {
      hide SegmentRings.Shows, SM.WellFormed, SM.Conserved, BlockRing.AllHarmless, RemembersNominal, MoveLimited, Heads,
        VelocityProfile.Target, NominalSpeed, Limits.WithinAxes;
      var w, m := preparation.Seen(), line.ring.buffer[line.ring.tail].move;
      line.ring.TailOfPlanIfAny();
      ExecutedIsLimited(w, stepper.machine, line.settings, preparation.overrides);
      CourseCapped(w, d, v, preparation.overrides);
      hide ViewOk, BlockRing.AsPlan;
      WithinRates(m, v, preparation.overrides, line.settings, unit, mm);
    }

    /** Whatever has happened in whatever order: once the planner's queue, the block in hand and the
        segment buffer are empty, the motors are where the planner believes they are. */
    lemma Arrives()
      requires Valid() && line.ring.tail == line.ring.head && stepper.segmentTail == stepper.segmentHead
      ensures stepper.sysPosition[..] == line.position[..]
    {
      line.ring.PlanStands();
      RunningIsLive(stepper.View(), stepper.machine);
      EmptyIsDrained(preparation.Seen(), stepper.machine, preparation.overrides);
      hide SM.Chain, ViewOk;
      forall i | 0 <= i < |stepper.machine.sysPos| ensures stepper.machine.sysPos[i] == stepper.machine.plPos[i] {
        SM.DrainedOwesNothing(stepper.machine, i);
      }
    }
  }

  lemma ExecutedIsLimited(w: View, mach: SM.Machine, t: Settings, o: Overrides)
    requires ViewOk(w, o) && Linked(w, mach) && AllLimited(mach, t) && w.loaded
    ensures w.plan.blocks != [] && MoveLimited(w.plan.blocks[0].move, t)
  {
    hide MoveLimited, Inv, Rated;
  }

  /** The whole course stays below the nominal speed. */
  lemma CourseCapped(w: View, d: real, v: real, o: Overrides)
    requires ViewOk(w, o) && w.loaded && !w.ended && d <= w.course.mm && Sq(v) == VelocityProfile.Target(w.course, d)
    ensures w.plan.blocks != [] && Sq(v) <= Sq(NominalSpeed(w.plan.blocks[0].move, o))
  {
    AtTarget(w, o);
    VelocityProfile.TargetCapped(w.course, d);
    hide VelocityProfile.Target, Sq, NominalSpeed, Inv, Rated;
  }

  lemma EmptyIsDrained(w: View, mach: SM.Machine, o: Overrides)
    requires ViewOk(w, o) && Linked(w, mach) && w.plan.blocks == [] && mach.live == []
    ensures SM.Drained(mach)
  {
  }

  lemma StoppedRemembers(w: View, previousNominal: real, o: Overrides)
    requires RemembersNominal(w.plan.blocks, previousNominal, o)
    ensures RemembersNominal(Stopped(w).plan.blocks, previousNominal, o)
  {
    hide RemembersNominal;
    var s := w.plan.blocks;
    if s != [] {
      RecalcMoves(s, 0);
    }
    assert Moves(Stopped(w).plan.blocks) == Moves(s)[0..];
    SameMovesRemember(s, Stopped(w).plan.blocks, previousNominal, o);
  }

  /** Taking a block over: the stepper loads it exactly when it is a new one. */
  lemma TakenLinks(w: View, x: View, first: bool, mach: SM.Machine, previousNominal: real, o: Overrides)
    requires RemembersNominal(w.plan.blocks, previousNominal, o)
    requires ViewOk(w, o) && Linked(w, mach) && SM.WellFormed(mach) && SM.Conserved(mach) && !w.ended
    requires first == !TailInHand(w)
    requires if w.loaded then x == w else Loadable(w) && x == Taken(w, x.shape, x.speed, o)
    ensures first ==> SM.Can(mach, SM.Load) && w.plan.blocks != [] && mach.queue[0] == w.plan.blocks[0].move
    ensures var after := if first then SM.Next(mach, SM.Load) else mach;
      Linked(x, after) && SM.WellFormed(after) && SM.Conserved(after) && after.plPos == mach.plPos
    ensures x.loaded && !x.pending && RemembersNominal(x.plan.blocks, previousNominal, o)
  {
    hide SM.Chain, SM.WellFormed, SM.Conserved, SM.Next, SM.Can, Linked, ViewOk, RemembersNominal, TakenPlan, Sq;
    if !w.loaded {
      LinkedTaken(w, x.shape, x.speed, mach, o);
      TakenMoves(w);
      if first {
        SM.EventKeeps(mach, SM.Load);
        LoadKeepsPlanner(mach);
      }
      assert Moves(x.plan.blocks) == Moves(w.plan.blocks)[0..];
      SameMovesRemember(w.plan.blocks, x.plan.blocks, previousNominal, o);
    } else {
      RunnableTail(w, o);
    }
  }

  lemma LoadKeepsPlanner(mach: SM.Machine)
    requires SM.WellFormed(mach) && SM.Can(mach, SM.Load)
    ensures SM.Next(mach, SM.Load).plPos == mach.plPos && SM.Next(mach, SM.Load).live == mach.live
  {
  }

  /** Cutting a segment: the stepper publishes exactly its steps. */
  lemma CutLinks(w: View, r: Outcome, mm: real, y: View, level: nat, mach: SM.Machine, previousNominal: real,
                 o: Overrides)
    requires w.loaded && !w.pending && Linked(w, mach) && SM.WellFormed(mach) && SM.Conserved(mach) && Cut(w, r, mm, y)
    requires ViewOk(w, o) && level <= MAX_AMASS_LEVEL && RemembersNominal(w.plan.blocks, previousNominal, o)
    ensures RemembersNominal(y.plan.blocks, previousNominal, o)
    ensures r.Bailed? ==> Linked(y, mach)
    ensures r.Segment? ==> SM.Can(mach, SM.Publish(r.steps, level))
    ensures r.Segment? ==> var after := SM.Next(mach, SM.Publish(r.steps, level));
      Linked(y, after) && SM.WellFormed(after) && SM.Conserved(after) && after.plPos == mach.plPos
  {
    hide SM.Chain, Sq, Inv, SM.WellFormed, SM.Conserved, AllLimited, Linked, Runs.Records, Runs.Leads, Runs.LeftSlow,
      Runs.AddsLine, Runs.AddsRound, Runs.RoundAdded, Runs.IsRound, RemembersNominal;
    PreppedMoves(w, if r.Bailed? then 0.0 else y.speed, mm, previousNominal, o);
    match r
    case Bailed(_) =>
      LinkedBail(w, y.shape, 0.0, mm, true, mach);
    case Segment(n, _) =>
      LinkedSegment(w, y.shape, y.speed, mm, y.stepsRemaining, mm == w.shape.complete && mm > 0.0, n, level, mach);
      SM.EventKeeps(mach, SM.Publish(n, level));
      PublishKeepsPlanner(mach, n, level);
  }

  lemma PublishKeepsPlanner(mach: SM.Machine, n: nat, level: nat)
    requires SM.WellFormed(mach) && SM.Can(mach, SM.Publish(n, level))
    ensures SM.Next(mach, SM.Publish(n, level)).plPos == mach.plPos
    ensures var after := SM.Next(mach, SM.Publish(n, level)); Publishes(mach.live, after.live, SM.Last(after), n, level)
  {
  }

  lemma SegmentBlocks(w: View, v: real, mm: real)
    requires w.plan.blocks != []
    ensures Apply(w.plan, SegmentAction(w, v, mm)).blocks
      == if mm > 0.0 then Advanced(w.plan.blocks, Sq(v), mm) else w.plan.blocks[1..]
  {
    hide Sq, Advanced;
  }

  lemma PreppedMoves(w: View, v: real, mm: real, previousNominal: real, o: Overrides)
    requires w.plan.blocks != [] && RemembersNominal(w.plan.blocks, previousNominal, o)
    ensures RemembersNominal(Apply(w.plan, SegmentAction(w, v, mm)).blocks, previousNominal, o)
  {
    hide Sq, RemembersNominal, Apply;
    var s := w.plan.blocks;
    SegmentBlocks(w, v, mm);
    var t := if mm > 0.0 then Advanced(s, Sq(v), mm) else s[1..];
    assert Moves(t) == Moves(s)[|s| - |t|..];
    SameMovesRemember(s, t, previousNominal, o);
  }

  lemma TickKeepsPlanner(mach: SM.Machine)
    requires SM.WellFormed(mach)
    ensures SM.Next(mach, SM.Tick).plPos == mach.plPos
  {
  }

  /** Everything after power-up: plan_reset and st_reset on cleared memory, at position zero. */
  method PowerUp(blocks: nat, segments: nat, axes: nat, settings: Settings, overrides: Overrides, sqrt: real -> real)
    returns (system: MotionSystem)
    requires blocks >= 2 && segments >= 3 && Usable(settings) && |settings.stepsPerMm| == axes && IsSqrt(sqrt)
    ensures fresh(system) && system.Valid()
    ensures system.line.settings == settings && system.preparation.overrides == overrides
    ensures system.line.ring.tail == system.line.ring.head && system.stepper.segmentTail == system.stepper.segmentHead
  {
    hide SegmentRings.Shows, ViewOk, SM.WellFormed, SM.Conserved, AllLimited, Linked, Runs.Records, Runs.Leads,
      Runs.LeftSlow, Runs.AddsLine, Runs.AddsRound, Runs.RoundAdded, Runs.IsRound, SM.Next, BlockRing.AsPlan,
      BlockRing.AllHarmless,
      RemembersNominal;
    var cleared := Block(Move([], [], 0, false, false, 0.0, 0.0, 0.0), 0.0, 0.0, 0.0, 0.0);
    var prep := new Prep.PrepState();
    var ring := new BlockRing(blocks, prep, cleared);
    var line := new LinePlanner(ring, axes, settings, sqrt);
    var preparation := new Preparation(ring, prep, overrides, sqrt);
    var stepper := new Stepper(segments, axes, line.position[..]);
    system := new MotionSystem(line, preparation, stepper);
  }
}
