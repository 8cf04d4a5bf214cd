/** st_prep_buffer on the planner's ring: loading blocks, choosing profiles, cutting segments. */
module Preparation {
  import opened PlanTypes
  import opened PlanSpec
  import opened PlanRun
  import opened BufferLine
  import opened Prep
  import opened Ring
  import opened RingQueue
  import opened Planner
  import opened Kinematics
  import opened VelocityProfile
  import opened ProfileSelection
  import opened RampStep
  import opened SegmentGen
  import opened SegmentLength
  import opened RunLimits
  import opened StepExtract
  import opened PrepView
  import Runs = PrepRuns

  /** What one pass of st_prep_buffer produces. */
  datatype Outcome =
    | Nothing                              // END_MOTION is set, or there is no block
    | Bailed(first: bool)                  // the hold ended without a step to execute
    | Segment(steps: nat, first: bool)     // `first`: a new block was taken over for it

  /** What a cut turns `w` into: every segment has a step, and its steps come off the steps left. */
  ghost predicate Cut(w: View, r: Outcome, mm: real, y: View) {
    && w.plan.blocks != []
    && match r
       case Nothing => false
       case Bailed(_) =>
         && w.plan.held && w.shape.exit == 0.0 && SameEnd(w.shape, y.shape) && mm == w.plan.blocks[0].mm
         && y == Prepped(w, y.shape, 0.0, mm, w.stepsRemaining, true)
       case Segment(n, _) =>
         && n >= 1 && n == Ceil(w.stepsRemaining) - Ceil(y.stepsRemaining) && Ceil(y.stepsRemaining) >= 0
         && Delivered(w, y.shape, y.speed, mm) && (mm == 0.0 ==> Ceil(y.stepsRemaining) == 0)
         && StepsMatch(y.stepsRemaining, w.stepPerMm, w.reqMm, mm)
         && y == Prepped(w, y.shape, y.speed, mm, y.stepsRemaining, mm == w.shape.complete && mm > 0.0)
  }

  /** A segment that leaves `mm` covers at least 1.25 steps, unless the profile ends before, and at
      most what the nominal speed makes in a hundredth of a second beyond that. */
  ghost predicate ProperLength(w: View, mm: real, o: Overrides) {
    && w.plan.blocks != [] && w.stepPerMm > 0.0
    && var start, step, nominal := w.plan.blocks[0].mm, 1.0 / w.stepPerMm, NominalSpeed(w.plan.blocks[0].move, o);
       && (mm == w.shape.complete || mm <= Max(0.0, start - 1.25 * step))
       && start - mm <= 1.25 * step + nominal / 6000.0
  }

  /** A hold ends within the step that is under way: there is no whole one up to its end. */
  ghost predicate NoStepLeft(w: View) {
    Ceil(StepDistance(w.stepPerMm, w.shape.complete)) == Ceil(w.stepsRemaining)
  }

  /** A segment without a step is one that reaches the end of its profile within the step under way. */
  lemma NoStepWhen(w: View, left: real, n: int)
    requires w.plan.blocks != [] && w.plan.blocks[0].mm > 0.0
    requires StepsMatch(w.stepsRemaining, w.stepPerMm, w.reqMm, w.plan.blocks[0].mm)
    requires 0.0 <= w.shape.complete <= left <= w.plan.blocks[0].mm
    requires left == w.shape.complete || left <= MinimumMm(w.plan.blocks[0].mm, w.reqMm)
    requires n == Ceil(w.stepsRemaining) - Ceil(StepDistance(w.stepPerMm, left))
    ensures n == 0 <==> NoStepLeft(w)
  {
    SegmentSteps(w.stepsRemaining, w.stepPerMm, w.reqMm, w.plan.blocks[0].mm, left, n);
    hide Ceil;
    if w.shape.complete < left {
      var x, y := StepDistance(w.stepPerMm, w.shape.complete), StepDistance(w.stepPerMm, left);
      TimesPositive(w.stepPerMm, left - w.shape.complete);
      assert Times(w.stepPerMm, left - w.shape.complete) == y - x;
      CeilOrder(x, y);
    }
  }

  lemma LengthIsProper(w: View, mm: real, o: Overrides)
    requires ViewOk(w, o) && w.loaded && !w.ended && w.plan.blocks != []
    requires mm == w.shape.complete || mm <= MinimumMm(w.plan.blocks[0].mm, w.reqMm)
    requires mm >= MinimumMm(w.plan.blocks[0].mm, w.reqMm) - w.course.nominal / 6000.0
    ensures ProperLength(w, mm, o)
  {
    RunnableTail(w, o);
    assert w.course.nominal == NominalSpeed(w.plan.blocks[0].move, o);
    hide ViewOk, OnTrack, NominalSpeed, Ceil;
    StepLength(w.stepPerMm, w.reqMm);
  }

  lemma StepLength(stepPerMm: real, reqMm: real)
    requires stepPerMm > 0.0 && StepDistance(stepPerMm, reqMm) == 1.25
    ensures reqMm == 1.25 * (1.0 / stepPerMm)
  {
    var step := 1.0 / stepPerMm;
    assert step * stepPerMm == 1.0;
    SameFactor(reqMm, 1.25 * step, stepPerMm);
  }

  lemma CourseIsCapped(w: View, o: Overrides)
    requires ViewOk(w, o) && w.loaded && !w.ended
    ensures Capped(w.course)
  {
  }

  /** The event a cut is, in the runs of planner and generator. */
  function EventOf(r: Outcome, mm: real, y: View): Runs.Event
    requires !r.Nothing?
  {
    if r.Bailed? then Runs.Bail(y.shape.ramp) else Runs.Cut(y.shape.ramp, y.speed, mm, y.stepsRemaining)
  }

  lemma CutIsEvent(w: View, r: Outcome, mm: real, y: View, o: Overrides)
    requires w.loaded && !w.ended && Cut(w, r, mm, y)
    ensures !r.Nothing? && Runs.Leads(w, EventOf(r, mm, y), y, o)
  {
    hide Sq, Target, OnTrack, StepsMatch, Apply;
    assert y.shape == w.shape.(ramp := y.shape.ramp);
  }

  lemma HarmlessWhenMovable(b: Block)
    requires Movable(b)
    ensures Harmless(b)
  {
  }

  lemma HeldCommutes(plan: Plan, after: Plan, b: Block)
    requires plan == SetHeld(after, plan.held)
    ensures Apply(plan, PlanRun.Append(b)) == SetHeld(Apply(after, PlanRun.Append(b)), plan.held)
    ensures Apply(plan, Replan) == SetHeld(Apply(after, Replan), false)
  {
  }

  lemma HoldOnlyFlags(plan: Plan)
    ensures Apply(plan, Hold) == SetHeld(plan, true)
  {
  }

  class Preparation {
    const ring: BlockRing
    const prep: PrepState
    const overrides: Overrides
    const sqrt: real -> real
    var executeHold: bool     // STEP_CONTROL_EXECUTE_HOLD
    var endMotion: bool       // STEP_CONTROL_END_MOTION
    ghost var course: Course

    constructor (ring: BlockRing, prep: PrepState, overrides: Overrides, sqrt: real -> real)
      requires ring.Valid() && ring.prep == prep && IsSqrt(sqrt) && ring.tail == ring.head
      requires prep.plBlock == -1 && !prep.recalculate && !prep.decelOverride && prep.currentSpeed == 0.0
        && prep.exitSpeed == 0.0
      ensures Valid() && this.ring == ring && this.prep == prep && this.overrides == overrides && this.sqrt == sqrt
      ensures !executeHold && !endMotion && Runs.Initial(Seen())
    {
      this.ring, this.prep, this.overrides, this.sqrt := ring, prep, overrides, sqrt;
      executeHold, endMotion := false, false;
      course := Course(1.0, 0.0, 1.0, 0.0, 1.0, false);
    }

    /** Planner and generator as a value. */
    ghost function Seen(): View
      reads this, ring, ring.buffer, ring.prep, prep
      requires ring.Indices()
    {
      View(SetHeld(ring.AsPlan(), executeHold), prep.plBlock >= 0, prep.recalculate, prep.currentSpeed, prep.Shape(),
           course,
           prep.stepsRemaining, prep.stepPerMm, prep.reqMmIncrement, endMotion)
    }

    ghost predicate Valid()
      reads this, ring, ring.buffer, ring.prep, prep
    {
      && ring.Valid() && ring.prep == prep && IsSqrt(sqrt) && !prep.decelOverride
      && ViewOk(Seen(), overrides)
    }

    /** plan_buffer_line's last step. */
    method Append(b: Block)
      requires Valid() && ring.nextHead != ring.tail && Movable(b) && b.entry == 0.0
      requires ring.tail == ring.head ==> b.maxEntry == 0.0
      requires Rated(Seen().plan.blocks + [b], overrides)
      modifies ring`head, ring`nextHead, ring`planned, ring.buffer, prep`plBlock, prep`recalculate
      ensures Valid() && Seen() == Appended(old(Seen()), b)
      ensures Runs.Leads(old(Seen()), Runs.Line(b), Seen(), overrides)
    {
      hide ViewOk, Apply, Inv, Rated, BlockRing.AllHarmless, BlockRing.AsPlan, Reach;
      ghost var w := Seen();
      AppendedOk(w, b, overrides);
      ring.PlanStands();
      HarmlessWhenMovable(b);
      ring.Append(b);
      HeldCommutes(w.plan, old(ring.AsPlan()), b);
      assert Seen() == Appended(w, b);
    }

    /** EXEC_FEED_HOLD in a cycle. */
    method StartHold()
      requires Valid() && !executeHold && !endMotion
      modifies this`executeHold, ring.buffer, prep`plBlock, prep`recalculate
      ensures Valid() && Seen() == HoldStarted(old(Seen())) && executeHold
      ensures Runs.Leads(old(Seen()), Runs.StartHold, Seen(), overrides)
    {
      hide ViewOk, Apply, Inv, Rated, BlockRing.AllHarmless, BlockRing.AsPlan;
      ghost var w := Seen();
      HoldOnlyFlags(w.plan);
      HoldStartedOk(w, overrides);
      ring.TellStepper();
      executeHold := true;
      assert Seen() == HoldStarted(w);
    }

    /** EXEC_CYCLE_STOP in a hold: the plan is reinitialized, END_MOTION stays set. */
    method CycleStop()
      requires Valid()
      modifies this`executeHold, ring`planned, ring.buffer, prep`plBlock, prep`recalculate
      ensures Valid() && Seen() == Stopped(old(Seen())) && !executeHold
      ensures Runs.Leads(old(Seen()), Runs.CycleStop, Seen(), overrides)
      ensures Continuous(Seen()) <==> AtPlannedSpeed(old(Seen()))
    {
      hide ViewOk, Apply, Inv, Rated, BlockRing.AllHarmless, BlockRing.AsPlan;
      ghost var w := Seen();
      StoppedOk(w, overrides);
      ring.CycleReinitialize();
      executeHold := false;
      HeldCommutes(w.plan, old(ring.AsPlan()), Block(Move([], [], 0, false, false, 0.0, 0.0, 0.0), 0.0, 0.0, 0.0, 0.0));
      assert Seen() == Stopped(w);
    }

    /** EXEC_CYCLE_START once the hold is over: step_control is normal operation again. */
    method CycleStart()
      requires Valid() && !executeHold
      modifies this`endMotion
      ensures Valid() && Seen() == Restarted(old(Seen())) && !endMotion
      ensures Runs.Leads(old(Seen()), Runs.CycleStart, Seen(), overrides)
    {
      hide ViewOk, BlockRing.AllHarmless, BlockRing.AsPlan;
      RestartedOk(Seen(), overrides);
      endMotion := false;
    }

    /** Loads the stepping data of a new block, or takes the replanned tail up again. */
    method LoadBlock(ghost w: View)
      requires ring.Valid() && ring.prep == prep && IsSqrt(sqrt) && !prep.decelOverride
      requires prep.plBlock == -1 && ring.tail != ring.head && w == Seen() && Loadable(w)
      modifies prep`plBlock, prep`recalculate, prep`decelOverride, prep`currentSpeed,
        prep`stepsRemaining, prep`stepPerMm, prep`reqMmIncrement, ring.buffer
      ensures ring.Valid() && prep.plBlock == ring.tail && !prep.recalculate && !prep.decelOverride
      ensures SetHeld(ring.AsPlan(), executeHold) == TakenPlan(w) && StartsAt(w, prep.currentSpeed)
      ensures ring.buffer[ring.tail].entry == Sq(prep.currentSpeed)
      ensures StepsLoaded(w, prep.stepsRemaining, prep.stepPerMm, prep.reqMmIncrement)
    {
      hide BlockRing.AllHarmless, BlockRing.AsPlan, BlockRing.Queue, Sq, TakenPlan;
      ring.TailOfPlan();
      TakenPlanIs(w, ring.AsPlan());
      if prep.recalculate {
        TakeUp();
      } else {
        LoadSteps(ring.buffer[ring.tail]);
        LoadSpeed(ring.buffer[ring.tail]);
      }
      ring.TailOfPlan();
    }

    /** The tail again, after it was replanned: only its profile is recomputed. */
    method TakeUp()
      requires ring.Valid() && ring.prep == prep && prep.plBlock == -1
      requires ring.tail != ring.head && ring.buffer[ring.tail].entry == Sq(prep.currentSpeed)
      modifies prep`plBlock, prep`recalculate, prep`decelOverride
      ensures ring.Valid() && prep.plBlock == ring.tail && !prep.recalculate && !prep.decelOverride
      ensures ring.AsPlan() == old(ring.AsPlan()) && ring.buffer[ring.tail].entry == Sq(prep.currentSpeed)
    {
      prep.recalculate, prep.decelOverride := false, false;
      assert ring.AsPlan() == old(ring.AsPlan());
      hide BlockRing.AsPlan;
      ring.Load();
    }

    method LoadSteps(ghost b: Block)
      requires ring.Valid() && ring.prep == prep && b == ring.buffer[ring.tail] && b.mm > 0.0
        && b.move.count as real / b.mm > 0.0
      modifies prep`stepsRemaining, prep`stepPerMm, prep`reqMmIncrement
      ensures prep.stepsRemaining == b.move.count as real && prep.stepPerMm == b.move.count as real / b.mm
      ensures prep.stepPerMm != 0.0 && prep.reqMmIncrement == REQ_MM_INCREMENT_SCALAR / prep.stepPerMm
      ensures ring.Valid() && ring.AsPlan() == old(ring.AsPlan())
    {
      prep.stepsRemaining := ring.buffer[ring.tail].move.count as real;
      prep.stepPerMm := prep.stepsRemaining / ring.buffer[ring.tail].mm;
      prep.reqMmIncrement := REQ_MM_INCREMENT_SCALAR / prep.stepPerMm;
    }

    /** The speed a new block starts with: the exit speed of the last one in a hold, otherwise the
        planned speed. */
    method LoadSpeed(ghost b: Block)
      requires ring.Valid() && ring.prep == prep && IsSqrt(sqrt) && !prep.decelOverride && prep.plBlock == -1
      requires ring.tail != ring.head && b == ring.buffer[ring.tail] && b.entry >= 0.0
      requires prep.currentSpeed == prep.exitSpeed >= 0.0
      modifies prep`plBlock, prep`decelOverride, prep`currentSpeed, ring.buffer
      ensures ring.Valid() && prep.plBlock == ring.tail && !prep.decelOverride && prep.currentSpeed >= 0.0
      ensures ring.AsPlan()
        == if executeHold then Apply(old(ring.AsPlan()), HoldTake(Sq(old(prep.currentSpeed)))) else old(ring.AsPlan())
      ensures ring.buffer[ring.tail].entry == Sq(prep.currentSpeed)
    {
      hide BlockRing.AllHarmless, Sq, Apply;
      if executeHold || prep.decelOverride {
        prep.currentSpeed := prep.exitSpeed;
        ring.LoadHeld();
        prep.decelOverride := false;
      } else {
        Root(sqrt, ring.buffer[ring.tail].entry);
        prep.currentSpeed := sqrt(ring.buffer[ring.tail].entry);
        ring.Load();
      }
    }

    /** The course of the tail, read from the ring. */
    method ReadCourse() returns (c: Course)
      requires ring.Valid() && ring.tail != ring.head && ring.prep == prep && prep.plBlock == ring.tail
      requires ring.buffer[ring.tail].entry == Sq(prep.currentSpeed)
      ensures ring.AsPlan().blocks != [] && c == CourseOf(ring.AsPlan().blocks, executeHold, overrides)
    {
      hide BlockRing.AllHarmless, BlockRing.AsPlan, BlockRing.Queue, Sq;
      ring.TailOfPlan();
      var exitSqr := ring.ExecBlockExitSpeedSqr();
      var b := ring.buffer[ring.tail];
      c := Course(b.accel, b.entry, b.mm, exitSqr, NominalSpeed(b.move, overrides), executeHold);
    }

    /** Computes the profile of the tail; the plan does not depend on it. */
    method ChooseProfile(c: Course)
      requires ring.Valid() && ring.prep == prep && IsSqrt(sqrt) && !prep.decelOverride
      requires Followable(c) && prep.currentSpeed >= 0.0 && Sq(prep.currentSpeed) == c.entrySqr <= Sq(c.nominal)
      modifies prep`rampType, prep`mmComplete, prep`exitSpeed, prep`decelOverride, prep`accelerateUntil,
        prep`decelerateAfter, prep`maximumSpeed
      ensures ring.Valid() && ring.AsPlan() == old(ring.AsPlan()) && !prep.decelOverride
      ensures OnProfile(prep.Shape(), c, prep.currentSpeed, c.mm, c.mm)
    {
      hide RampEnd, OnProfile, Followable, Sq;
      ghost var plan := ring.AsPlan();
      SelectProfile(prep, c, sqrt);
      assert ring.AsPlan() == plan;
    }

    /** Takes a block over and computes its profile. */
    method TakeBlock(ghost w: View)
      requires Valid() && w == Seen() && prep.plBlock == -1 && ring.tail != ring.head && !endMotion
      modifies this`course, prep`plBlock, prep`recalculate, prep`decelOverride, prep`currentSpeed,
        prep`stepsRemaining, prep`stepPerMm, prep`reqMmIncrement, prep`rampType, prep`mmComplete, prep`exitSpeed,
        prep`accelerateUntil, prep`decelerateAfter, prep`maximumSpeed, ring.buffer
      ensures Valid() && Loadable(w) && StartsAt(w, prep.currentSpeed)
        && Seen() == Taken(w, prep.Shape(), prep.currentSpeed, overrides)
      ensures Runs.Leads(w, Runs.Take(prep.Shape(), prep.currentSpeed), Seen(), overrides)
    {
      hide BlockRing.AllHarmless, BlockRing.AsPlan, BlockRing.Queue, Sq, TakenPlan, ViewOk, OnProfile, Followable,
        Taken, StepsLoaded, NominalSpeed, Inv, Rated, ExitSqr;
      ring.PlanStands();
      LoadableTail(w, overrides);
      TakenPlanOk(w, overrides);
      LoadBlock(w);
      var c := ReadCourse();
      course := c;
      assert c == CourseOf(TakenPlan(w).blocks, TakenPlan(w).held, overrides);
      ChooseProfile(c);
      TakenOk(w, prep.Shape(), prep.currentSpeed, overrides);
      TakenView(w, SetHeld(ring.AsPlan(), executeHold), prep.Shape(), prep.currentSpeed, c, prep.stepsRemaining,
                prep.stepPerMm, prep.reqMmIncrement, overrides);
    }

    /** The do-while loop on the executing block. */
    method RunSegment(ghost w: View) returns (mm: real)
      requires Valid() && w == Seen() && prep.plBlock >= 0 && !endMotion
      modifies prep`rampType, prep`currentSpeed
      ensures ring.Valid() && ring.Raw() == old(ring.Raw())
      ensures w.plan.blocks != [] && Delivered(w, prep.Shape(), prep.currentSpeed, mm)
      ensures mm == prep.mmComplete || mm <= MinimumMm(w.plan.blocks[0].mm, w.reqMm)
      ensures ProperLength(w, mm, overrides)
    {
      hide BlockRing.AllHarmless, BlockRing.AsPlan, BlockRing.Queue, BlockRing.Raw, Sq, ViewOk, OnTrack, Followable,
        Target,
        StepsMatch, Delivered, ProperLength;
      RunnableTail(w, overrides);
      CourseIsCapped(w, overrides);
      ring.TailOfPlan();
      var start := ring.buffer[ring.tail].mm;
      var minimumMm := if start - prep.reqMmIncrement < 0.0 then 0.0 else start - prep.reqMmIncrement;
      var dt: real;
      mm, dt := FollowProfile(prep, course, ring.buffer[ring.tail].accel, start, minimumMm);
      DeliveredSegment(w, prep.Shape(), prep.currentSpeed, mm);
      LengthIsProper(w, mm, overrides);
    }

    /** The tail is used up. */
    method FinishBlock(ghost q: seq<Block>, ghost planned: nat)
      requires ring.Valid() && ring.prep == prep && prep.plBlock == ring.tail && ring.tail != ring.head
      requires q != [] && q[1..] == ring.Raw()[1..] && planned == ring.PlannedOffset()
      modifies prep`plBlock, ring`tail, ring`planned
      ensures ring.Valid() && prep.plBlock == -1
      ensures ring.AsPlan() == Plan(q[1..], if planned > 0 then planned - 1 else 0, false)
    {
      hide BlockRing.AllHarmless, BlockRing.Queue;
      ring.LetGo();
      ring.PlanStands();
      hide BlockRing.AsPlan, BlockRing.Raw;
      ring.DiscardCurrentBlock();
    }

    /** Writes the distance left back, and lets go of a block that is used up. */
    method StoreSegment(mm: real, ghost q: seq<Block>, ghost planned: nat)
      requires ring.Valid() && ring.prep == prep && prep.plBlock == ring.tail && ring.tail != ring.head && mm >= 0.0
      requires q == ring.Raw() && planned == ring.PlannedOffset() && q[0].accel >= 0.0
      modifies prep`plBlock, ring`tail, ring`planned, ring.buffer
      ensures ring.Valid() && prep.plBlock == (if mm > 0.0 then old(prep.plBlock) else -1)
      ensures ring.AsPlan() == if mm > 0.0 then Plan(Advanced(q, Sq(prep.currentSpeed), mm), planned, false)
                               else Plan(q[1..], if planned > 0 then planned - 1 else 0, false)
      ensures ring.tail != ring.head <==> ring.AsPlan().blocks != []
    {
      hide Sq;
      ring.RawStands();
      ring.StoreDistance(mm);
      assert ring.Raw() == q[0 := q[0].(mm := mm)];
      ring.QueueFromRaw();
      if mm > 0.0 {
        assert WithEntry(q[0].(mm := mm), Sq(prep.currentSpeed)) == q[0].(mm := mm, entry := Sq(prep.currentSpeed));
      } else {
        FinishBlock(q, planned);
      }
      ring.PlanStands();
    }

    /** The last bit of a hold has no step: the tool stands, nothing is generated. */
    method Bail(ghost w: View, ghost q: seq<Block>, ghost planned: nat)
      requires ring.Valid() && ring.prep == prep && IsSqrt(sqrt) && !prep.decelOverride && prep.plBlock >= 0
        && !prep.recalculate
      requires q != [] && q == ring.Raw() && planned == ring.PlannedOffset() && ring.tail != ring.head
      requires StillSeen(w, q, planned) && executeHold && prep.stepsRemaining == w.stepsRemaining
      requires ViewOk(w, overrides) && w.loaded && !w.ended && SameEnd(w.shape, prep.Shape())
      requires prep.currentSpeed == w.shape.exit == 0.0
      modifies this`endMotion
      ensures Valid() && w.plan.blocks != []
        && Seen() == Prepped(w, prep.Shape(), 0.0, w.plan.blocks[0].mm, w.stepsRemaining, true)
    {
      hide BlockRing.AllHarmless, BlockRing.AsPlan, BlockRing.Queue, BlockRing.Raw, Sq, ViewOk, OnTrack, Apply,
        Prepped, Advanced;
      endMotion := true;
      RunnableTail(w, overrides);
      BailOk(w, prep.Shape(), prep.currentSpeed, overrides);
      PreppedView(w, q, planned, prep.Shape(), prep.currentSpeed, q[0].mm, w.stepsRemaining, true);
      ring.QueueFromRaw();
      StandsStill(q, Sq(prep.currentSpeed), q[0].mm);
    }

    /** `w` was seen when the slots held `q`, and only speed and ramp have changed since. */
    ghost predicate StillSeen(w: View, q: seq<Block>, planned: nat)
      reads this, prep
    {
      && q != [] && w.plan == Plan(q[0 := WithEntry(q[0], Sq(w.speed))], planned, executeHold)
      && w.course == course && w.stepPerMm == prep.stepPerMm && w.reqMm == prep.reqMmIncrement && !w.pending
    }

    /** A segment is done: distance and steps are written back. */
    method Commit(ghost w: View, ghost q: seq<Block>, ghost planned: nat, left: real, nStepsRemaining: int)
      requires ring.Valid() && ring.prep == prep && IsSqrt(sqrt) && !prep.decelOverride && prep.plBlock == ring.tail
        && !prep.recalculate
      requires q != [] && q == ring.Raw() && planned == ring.PlannedOffset() && ring.tail != ring.head && !endMotion
      requires StillSeen(w, q, planned)
      requires ViewOk(w, overrides) && w.loaded && !w.ended && Delivered(w, prep.Shape(), prep.currentSpeed, left)
      requires StepsMatch(nStepsRemaining as real, w.stepPerMm, w.reqMm, left)
      modifies this`endMotion, prep`plBlock, prep`stepsRemaining, ring`tail, ring`planned, ring.buffer
      ensures Valid() && prep.stepsRemaining == nStepsRemaining as real
      ensures Seen() == Prepped(w, prep.Shape(), prep.currentSpeed, left, prep.stepsRemaining, left == w.shape.complete
          && left > 0.0)
    {
      hide BlockRing.AllHarmless, BlockRing.AsPlan, BlockRing.Queue, BlockRing.Raw, Sq, ViewOk, OnTrack, Apply,
        Prepped, Advanced,
        StepsMatch, Target, Enabled;
      RunnableTail(w, overrides);
      prep.stepsRemaining := nStepsRemaining as real;
      StoreSegment(left, q, planned);
      if left == prep.mmComplete && left > 0.0 {
        endMotion := true;
      }
      SegmentOk(w, prep.Shape(), prep.currentSpeed, left, prep.stepsRemaining, endMotion, overrides);
      PreppedView(w, q, planned, prep.Shape(), prep.currentSpeed, left, prep.stepsRemaining, endMotion);
    }

    /** One segment of the executing block. */
    method CutSegment(ghost w: View, first: bool) returns (r: Outcome, ghost mm: real)
      requires Valid() && w == Seen() && prep.plBlock >= 0 && !endMotion
      modifies this`endMotion, prep`plBlock, prep`rampType, prep`currentSpeed, prep`stepsRemaining,
        ring`tail, ring`planned, ring.buffer
      ensures Valid() && Cut(w, r, mm, Seen()) && (!r.Nothing? ==> r.first == first)
      ensures r.Segment? ==> ProperLength(w, mm, overrides)
      ensures r.Bailed? <==> executeHold && NoStepLeft(w)
      ensures r.Segment? <==> !r.Bailed?
    {
      hide NoStepLeft, BlockRing.AllHarmless, BlockRing.AsPlan, BlockRing.Queue, BlockRing.Raw, Sq, ViewOk, OnTrack,
        Followable,
        Target,
        StepsMatch, Apply, Prepped, Enabled, Advanced, ProperLength;
      RunnableTail(w, overrides);
      ring.QueueFromRaw();
      ghost var q, planned := ring.Raw(), ring.PlannedOffset();
      var left := RunSegment(w);
      mm := left;
      var stepDistRemaining := StepDistance(prep.stepPerMm, left);
      var nStepsRemaining := Ceil(stepDistRemaining);
      var nStep := Ceil(prep.stepsRemaining) - nStepsRemaining;
      SegmentSteps(w.stepsRemaining, w.stepPerMm, w.reqMm, w.plan.blocks[0].mm, left, nStep);
      NoStepWhen(w, left, nStep);
      CeilOfInt(nStepsRemaining);
      if nStep == 0 {
        if executeHold {
          Bail(w, q, planned);
          mm := w.plan.blocks[0].mm;
          r := Bailed(first);
          return;
        }
      }
      Commit(w, q, planned, left, nStepsRemaining);
      r := Segment(nStep, first);
    }

    /** One round of st_prep_buffer: takes a block over if none is in hand, and cuts a segment.
        `x` is what is seen after the block is taken over, `mm` the distance the segment leaves. */
    method PrepareSegment() returns (r: Outcome, ghost x: View, ghost mm: real)
      requires Valid()
      modifies this`course, this`endMotion, prep`plBlock, prep`recalculate, prep`decelOverride, prep`currentSpeed,
        prep`stepsRemaining, prep`stepPerMm, prep`reqMmIncrement, prep`rampType, prep`mmComplete, prep`exitSpeed,
        prep`accelerateUntil, prep`decelerateAfter, prep`maximumSpeed, ring`tail, ring`planned, ring.buffer
      ensures Valid()
      ensures r.Nothing? <==> old(endMotion) || old(prep.plBlock == -1 && ring.tail == ring.head)
      ensures r.Nothing? ==> Seen() == old(Seen())
      ensures !r.Nothing? ==> ViewOk(x, overrides) && x.loaded && !x.ended && Cut(x, r, mm, Seen())
      ensures !r.Nothing? ==> (if old(Seen()).loaded then x == old(Seen())
                               else Loadable(old(Seen())) && StartsAt(old(Seen()), x.speed)
                                    && x == Taken(old(Seen()), x.shape, x.speed, overrides))
      ensures !r.Nothing? ==> Runs.IsRound(old(Seen()), x, EventOf(r, mm, Seen()), Seen(), overrides)
      ensures r.Segment? ==> ProperLength(x, mm, overrides)
      ensures !r.Nothing? ==> (r.Bailed? <==> executeHold && NoStepLeft(x))
      ensures !r.Nothing? ==> r.first == !(old(Seen()).loaded || old(Seen()).pending)
    {
      hide BlockRing.AllHarmless, BlockRing.AsPlan, BlockRing.Queue, ViewOk, Cut, Loadable, Runs.Can, Runs.Next,
        ProperLength, NoStepLeft;
      x, mm := Seen(), 0.0;
      if endMotion {
        return Nothing, x, mm;
      }
      var first := prep.plBlock == -1 && !prep.recalculate;
      if prep.plBlock == -1 {
        if ring.tail == ring.head {
          return Nothing, x, mm;
        }
        TakeBlock(x);
        x := Seen();
      }
      r, mm := CutSegment(x, first);
      CutIsEvent(x, r, mm, Seen(), overrides);
    }
  }

  lemma PreppedView(w: View, q: seq<Block>, planned: nat, shape: Profile, v: real, mm: real, stepsRemaining: real,
                    ended: bool)
    requires q != [] && w.plan == Plan(q[0 := WithEntry(q[0], Sq(w.speed))], planned, w.plan.held)
    ensures Prepped(w, shape, v, mm, stepsRemaining, ended)
      == View(SetHeld(if mm > 0.0 then Plan(Advanced(q, Sq(v), mm), planned, false)
                      else Plan(q[1..], if planned > 0 then planned - 1 else 0, false), w.plan.held),
              mm > 0.0, w.pending, v, shape, w.course, stepsRemaining, w.stepPerMm, w.reqMm, ended)
  {
    PreppedPlan(w, q, planned, v, mm);
    hide Apply, Sq, Advanced;
  }

  lemma StandsStill(q: seq<Block>, v2: real, mm: real)
    requires q != [] && mm == q[0].mm
    ensures Advanced(q, v2, mm) == q[0 := WithEntry(q[0], v2)]
  {
    assert q[0].(mm := mm, entry := v2) == WithEntry(q[0], v2);
  }

  lemma PreppedPlan(w: View, q: seq<Block>, planned: nat, v: real, mm: real)
    requires q != [] && w.plan == Plan(q[0 := WithEntry(q[0], Sq(w.speed))], planned, w.plan.held)
    ensures Apply(w.plan, SegmentAction(w, v, mm))
      == SetHeld(if mm > 0.0 then Plan(Advanced(q, Sq(v), mm), planned, false)
                 else Plan(q[1..], if planned > 0 then planned - 1 else 0, false), w.plan.held)
  {
    hide Sq;
    var s := w.plan.blocks;
    assert s[1..] == q[1..];
    assert Advanced(s, Sq(v), mm) == Advanced(q, Sq(v), mm);
  }

  lemma DeliveredSegment(w: View, shape: Profile, v: real, mm: real)
    requires w.plan.blocks != [] && w.shape.complete >= 0.0
    requires SameEnd(w.shape, shape) && v >= 0.0 && w.shape.complete <= mm <= w.plan.blocks[0].mm
    requires Sq(v) == Target(w.course, mm) && (mm == w.shape.complete ==> v == w.shape.exit)
    requires mm > w.shape.complete ==> OnTrack(shape, w.course, v, mm, mm)
    ensures Delivered(w, shape, v, mm)
  {
  }

  lemma RunnableTail(w: View, o: Overrides)
    requires ViewOk(w, o) && w.loaded && !w.ended
    ensures !w.pending && w.plan.blocks != [] && w.plan.blocks[0].mm > 0.0 && w.reqMm > 0.0
      && w.course.accel == w.plan.blocks[0].accel > 0.0
    ensures OnTrack(w.shape, w.course, w.speed, w.plan.blocks[0].mm, w.plan.blocks[0].mm) && w.shape.complete >= 0.0
    ensures w.course.hold == w.plan.held && (w.shape.complete > 0.0 ==> w.plan.held && w.shape.exit == 0.0)
    ensures StepsMatch(w.stepsRemaining, w.stepPerMm, w.reqMm, w.plan.blocks[0].mm)
  {
    CompleteOnlyInHold(w, o);
    TrackEnds(w.shape, w.course, w.speed, w.plan.blocks[0].mm, w.plan.blocks[0].mm);
    hide Sq, Inv, Sound, Good, Target;
  }

  lemma TakenView(w: View, plan: Plan, shape: Profile, v: real, c: Course, stepsRemaining: real, stepPerMm: real,
                  reqMm: real, o: Overrides)
    requires Loadable(w) && !w.ended && StepsLoaded(w, stepsRemaining, stepPerMm, reqMm)
    requires plan == TakenPlan(w) && plan.blocks != [] && c == CourseOf(plan.blocks, plan.held, o)
    ensures Taken(w, shape, v, o) == View(plan, true, false, v, shape, c, stepsRemaining, stepPerMm, reqMm, false)
  {
  }

  /** The plan after loading, from the ring's plan outside a hold. */
  lemma TakenPlanIs(w: View, after: Plan)
    requires w.plan == SetHeld(after, w.plan.held)
    ensures TakenPlan(w) == SetHeld(if w.plan.held && !w.pending then Apply(after, HoldTake(Sq(w.speed)))
        else after, w.plan.held)
  {
  }

  /** What loading the next block, or the pending tail, relies on. */
  ghost predicate Loadable(w: View) {
    && w.plan.blocks != [] && w.speed >= 0.0
    && var b := w.plan.blocks[0];
       b.mm > 0.0 && b.move.count > 0 && b.entry >= 0.0 && b.move.count as real / b.mm > 0.0
       && if w.pending then b.entry == Sq(w.speed)
          else w.speed == w.shape.exit
  }

  /** The stepping data after loading. */
  ghost predicate StepsLoaded(w: View, stepsRemaining: real, stepPerMm: real, reqMm: real)
    requires Loadable(w)
  {
    var b := w.plan.blocks[0];
    if w.pending then stepsRemaining == w.stepsRemaining && stepPerMm == w.stepPerMm && reqMm == w.reqMm
    else
      && stepsRemaining == b.move.count as real && stepPerMm == b.move.count as real / b.mm
      && reqMm == REQ_MM_INCREMENT_SCALAR / stepPerMm
  }

  lemma LoadableTail(w: View, o: Overrides)
    requires ViewOk(w, o) && !w.loaded && !w.ended && w.plan.blocks != []
    ensures Loadable(w)
  {
    var s := w.plan.blocks;
    assert Movable(s[0]);
    LoadedMatches(s[0].move.count, s[0].mm);
  }
}
