/** The planner and the segment generator together, as a value: what every operation keeps. */
module PrepView {
  import opened PlanTypes
  import opened PlanSpec
  import opened PlanUpdate
  import opened PlanRun
  import opened BufferLine
  import opened Prep
  import opened Kinematics
  import opened VelocityProfile
  import opened RampStep
  import opened RunLimits
  import opened StepExtract

  /** `loaded`: pl_block points to the tail.  `pending`: its profile has to be recomputed. */
  datatype View = View(
    plan: Plan,
    loaded: bool, pending: bool,
    speed: real, shape: Profile, course: Course,
    stepsRemaining: real, stepPerMm: real, reqMm: real,
    ended: bool)                     // STEP_CONTROL_END_MOTION

  function SetHeld(plan: Plan, held: bool): Plan {
    plan.(held := held)
  }

  /** The profile in force was computed for the tail and the exit speed the plan has now. */
  ghost predicate CourseFits(w: View, o: Overrides)
    requires w.plan.blocks != []
  {
    var c, b := w.course, w.plan.blocks[0];
    && Followable(c) && c.hold == w.plan.held && c.accel == b.accel && c.nominal == NominalSpeed(b.move, o)
    && c.entrySqr <= Sq(c.nominal)
    && (!c.hold ==> c.exitSqr == ExitSqr(w.plan.blocks))
  }

  /** Between two blocks the speed is the exit speed of the last one, and never more than the plan
      has for the next one. */
  ghost predicate BetweenBlocks(w: View) {
    && w.speed == w.shape.exit
    && (if w.plan.blocks == [] then w.speed == 0.0 else Sq(w.speed) <= w.plan.blocks[0].entry)
  }

  /** It is the speed the plan has for the next one. */
  ghost predicate AtPlannedSpeed(w: View) {
    !w.loaded && !w.pending && w.plan.blocks != [] ==> Sq(w.speed) == w.plan.blocks[0].entry
  }

  /** Outside a hold the next block starts at its planned speed; in a hold at the speed there is. */
  ghost predicate Continuous(w: View) {
    !w.plan.held ==> AtPlannedSpeed(w)
  }

  /** In the middle of the tail. */
  ghost predicate InBlock(w: View) {
    && w.plan.blocks != [] && w.plan.blocks[0].entry == Sq(w.speed)
    && StepsMatch(w.stepsRemaining, w.stepPerMm, w.reqMm, w.plan.blocks[0].mm)
  }

  ghost predicate ViewOk(w: View, o: Overrides) {
    && Inv(w.plan) && Rated(w.plan.blocks, o) && w.speed >= 0.0 && w.shape.exit >= 0.0
    && !(w.loaded && w.pending)
    && (w.loaded || w.pending ==> InBlock(w))
    && (!w.loaded && !w.pending ==> BetweenBlocks(w))
    && (w.ended ==> (w.loaded && w.plan.held) || w.pending)
    && (w.loaded && !w.ended ==>
          CourseFits(w, o) && OnTrack(w.shape, w.course, w.speed, w.plan.blocks[0].mm, w.plan.blocks[0].mm))
  }

  // ---------------------------------------------------------------- operations of the main program

  function Told(w: View): View {
    w.(loaded := false, pending := w.loaded || w.pending)
  }

  /** plan_buffer_line: the stepper is told when the recalculation starts at the tail. */
  function Appended(w: View, b: Block): View {
    var next := w.(plan := Apply(w.plan, Append(b)));
    if w.plan.blocks != [] && w.plan.planned == 0 && w.loaded then Told(next) else next
  }

  lemma TailStays(plan: Plan, b: Block)
    requires Inv(plan) && plan.blocks != []
    ensures var after := Apply(plan, Append(b));
      after.blocks != [] && after.blocks[0] == plan.blocks[0]
        && (plan.planned > 0 ==> ExitSqr(after.blocks) == ExitSqr(plan.blocks))
  {
  }

  lemma AppendedOk(w: View, b: Block, o: Overrides)
    requires ViewOk(w, o) && Movable(b) && b.entry == 0.0 && Rated(w.plan.blocks + [b], o)
    ensures ViewOk(Appended(w, b), o)
  {
    hide Sq, Reach, Inv, Rated, Recalc, PassPlanned, Movable, OnTrack, StepsMatch, Followable;
    AppendKeepsInv(w.plan, b);
    SqNonNegative(w.speed);
    if w.plan.blocks != [] {
      TailStays(w.plan, b);
      InvPlanned(w.plan);
      RatedRecalc(w.plan.blocks + [b], w.plan.planned, o);
    } else {
      assert [] + [b] == [b];
    }
  }

  lemma InvPlanned(plan: Plan)
    requires Inv(plan) && plan.blocks != []
    ensures plan.planned < |plan.blocks|
  {
  }

  lemma RecalcKeepsTail(s: seq<Block>)
    requires s != []
    ensures |Recalc(s, 0)| == |s| && Recalc(s, 0)[0] == s[0]
  {
  }

  /** A feed hold starts. */
  function HoldStarted(w: View): View {
    Told(w.(plan := Apply(w.plan, Hold)))
  }

  lemma HoldStartedOk(w: View, o: Overrides)
    requires ViewOk(w, o) && !w.plan.held && !w.ended
    ensures ViewOk(HoldStarted(w), o)
  {
    hide Sq, OnTrack, StepsMatch, Followable, Rated, Sound, Good;
  }

  /** The cycle stop of a hold: plan_cycle_reinitialize.  END_MOTION stays set. */
  function Stopped(w: View): View {
    Told(w.(plan := Apply(w.plan, Replan)))
  }

  /** The cycle start after it: step_control returns to normal operation. */
  function Restarted(w: View): View {
    w.(ended := false)
  }

  lemma RestartedOk(w: View, o: Overrides)
    requires ViewOk(w, o) && !w.plan.held
    ensures ViewOk(Restarted(w), o)
  {
    hide Sq, Inv, Rated, OnTrack, StepsMatch, Followable;
  }

  lemma StoppedOk(w: View, o: Overrides)
    requires ViewOk(w, o)
    ensures ViewOk(Stopped(w), o)
    ensures Continuous(Stopped(w)) <==> AtPlannedSpeed(w)
  {
    hide Sq, Reach, Inv, Rated, Recalc, PassPlanned, OnTrack, StepsMatch, Followable;
    ReplanKeepsInv(w.plan);
    if w.plan.blocks != [] {
      RatedRecalc(w.plan.blocks, 0, o);
      RecalcKeepsTail(w.plan.blocks);
    }
  }

  // ---------------------------------------------------------------- loading a block

  /** A block is taken over: a new one, or the tail again after it was replanned.  Mid-hold a new
      block starts at the speed the last one ended with, otherwise at its planned speed. */
  function Taken(w: View, shape: Profile, v: real, o: Overrides): View
    requires w.plan.blocks != [] && w.plan.blocks[0].mm != 0.0 && w.plan.blocks[0].move.count > 0
  {
    var plan := TakenPlan(w);
    var spm := w.plan.blocks[0].move.count as real / w.plan.blocks[0].mm;
    var x := w.(plan := plan, loaded := true, pending := false, speed := v, shape := shape,
                course := CourseOf(plan.blocks, plan.held, o));
    if w.pending then x
    else x.(stepsRemaining := w.plan.blocks[0].move.count as real, stepPerMm := spm,
            reqMm := REQ_MM_INCREMENT_SCALAR / spm)
  }

  function TakenPlan(w: View): (plan: Plan)
    ensures |plan.blocks| == |w.plan.blocks| && plan.held == w.plan.held
  {
    if w.plan.held && !w.pending then Apply(w.plan, HoldTake(Sq(w.speed))) else w.plan
  }

  /** The speed the tail is started with. */
  ghost predicate StartsAt(w: View, v: real) {
    w.plan.blocks != [] && v >= 0.0 && Sq(v) == TakenPlan(w).blocks[0].entry
  }

  /** The start is at the speed the tool has, exactly when the view is continuous. */
  lemma StartsWithoutJump(w: View, v: real, o: Overrides)
    requires ViewOk(w, o) && !w.loaded && w.plan.blocks != [] && StartsAt(w, v)
    ensures v == w.speed <==> Continuous(w)
  {
    SqOrder(v, w.speed);
    SqOrder(w.speed, v);
    hide Sq, Inv, Rated, StepsMatch;
  }

  /** Whatever is taken over, the profile can be computed. */
  lemma TakenPlanOk(w: View, o: Overrides)
    requires ViewOk(w, o) && !w.loaded && !w.ended && w.plan.blocks != []
    ensures var plan := TakenPlan(w);
      && Inv(plan) && Rated(plan.blocks, o) && plan.blocks[0].mm == w.plan.blocks[0].mm
      && plan.blocks[0].move == w.plan.blocks[0].move
      && Followable(CourseOf(plan.blocks, plan.held, o)) && 0.0 <= plan.blocks[0].entry <= NominalSqr(plan.blocks[0], o)
  {
    hide Sq, Reach, Inv, Rated, OnTrack, StepsMatch;
    if w.plan.held && !w.pending {
      HoldTakeOk(w, o);
    }
    PlanIsFollowable(TakenPlan(w), o);
  }

  lemma HoldTakeOk(w: View, o: Overrides)
    requires Inv(w.plan) && Rated(w.plan.blocks, o) && w.plan.held && w.plan.blocks != []
    requires Sq(w.speed) <= w.plan.blocks[0].entry
    ensures var plan := Apply(w.plan, HoldTake(Sq(w.speed)));
      Inv(plan) && Rated(plan.blocks, o) && plan.blocks[0] == w.plan.blocks[0].(entry := Sq(w.speed))
  {
    hide Inv, Reach;
    SqNonNegative(w.speed);
    HoldTakeKeepsInv(w.plan, Sq(w.speed));
    PlanIsFollowable(w.plan, o);
    RatedAdvance(w.plan.blocks, Sq(w.speed), w.plan.blocks[0].mm, o);
    hide Sq, Rated;
  }

  lemma ProfileOnTrack(p: Profile, c: Course, v: real, d: real)
    requires OnProfile(p, c, v, d, d)
    ensures OnTrack(p, c, v, d, d) && p.exit >= 0.0
  {
  }

  lemma TakenOk(w: View, shape: Profile, v: real, o: Overrides)
    requires ViewOk(w, o) && !w.loaded && !w.ended && StartsAt(w, v)
    requires w.plan.blocks[0].mm > 0.0 && w.plan.blocks[0].move.count > 0
    requires var plan := TakenPlan(w);
      OnProfile(shape, CourseOf(plan.blocks, plan.held, o), v, plan.blocks[0].mm, plan.blocks[0].mm)
    ensures ViewOk(Taken(w, shape, v, o), o)
  {
    TakenPlanOk(w, o);
    LoadedMatches(w.plan.blocks[0].move.count, w.plan.blocks[0].mm);
    var plan := TakenPlan(w);
    ProfileOnTrack(shape, CourseOf(plan.blocks, plan.held, o), v, plan.blocks[0].mm);
    hide Sq, Reach, Inv, Rated, OnProfile, OnTrack, StepsMatch, Followable, TakenPlan;
  }

  // ---------------------------------------------------------------- one segment

  /** What a segment that ends at speed `v` with `mm` left means for the plan. */
  function SegmentAction(w: View, v: real, mm: real): Action {
    if mm > 0.0 then if w.plan.held then HoldAdvance(Sq(v), mm) else Advance(Sq(v), mm)
    else if w.plan.held then HoldFinish else Finish
  }

  /** The view after a segment, or after the last step of a hold that has no step to execute. */
  function Prepped(w: View, shape: Profile, v: real, mm: real, stepsRemaining: real, ended: bool): View {
    w.(plan := Apply(w.plan, SegmentAction(w, v, mm)), loaded := mm > 0.0, shape := shape, speed := v,
       stepsRemaining := stepsRemaining, ended := ended)
  }

  /** What the segment generator delivers. */
  ghost predicate Delivered(w: View, shape: Profile, v: real, mm: real)
    requires w.plan.blocks != []
  {
    && SameEnd(w.shape, shape) && v >= 0.0 && 0.0 <= w.shape.complete <= mm <= w.plan.blocks[0].mm
    && Sq(v) == Target(w.course, mm)
    && (mm == w.shape.complete ==> v == w.shape.exit)
    && (mm > w.shape.complete ==> OnTrack(shape, w.course, v, mm, mm))
  }

  /** The executing block is at the target speed. */
  lemma AtTarget(w: View, o: Overrides)
    requires ViewOk(w, o) && w.loaded && !w.ended
    ensures w.plan.blocks[0].entry == Target(w.course, w.plan.blocks[0].mm) && w.plan.blocks[0].mm <= w.course.mm
    ensures Followable(w.course) && w.course.entrySqr <= Sq(w.course.nominal)
  {
    hide Target, Sq, Gain;
    OnProfileMeetsTarget(w.shape, w.course, w.speed, w.plan.blocks[0].mm);
  }

  /** In normal operation the segment is a step of the plan. */
  lemma SegmentEnabled(w: View, v: real, mm: real, o: Overrides)
    requires ViewOk(w, o) && w.loaded && !w.ended && !w.plan.held
    requires 0.0 <= mm <= w.plan.blocks[0].mm && Sq(v) == Target(w.course, mm)
    ensures Enabled(w.plan, SegmentAction(w, v, mm)) && Sq(v) <= NominalSqr(w.plan.blocks[0], o)
    ensures mm == 0.0 ==> Sq(v) == ExitSqr(w.plan.blocks)
  {
    AtTarget(w, o);
    SqNonNegative(v);
    SegmentAdvances(w.course, w.plan.blocks, Sq(v), mm);
    TargetCapped(w.course, mm);
    if mm > 0.0 {
      GainOrder(w.course.accel, 0.0, mm);
      ReachIsGain(w.plan.blocks[0].(mm := mm));
    } else {
      TargetChanges(w.course, 0.0, 0.0);
    }
    hide Target, Sq, Gain, Reach, Inv, Rated, OnTrack, StepsMatch;
  }

  /** During a hold it is a step of forced deceleration. */
  lemma HoldSegmentEnabled(w: View, v: real, mm: real, o: Overrides)
    requires ViewOk(w, o) && w.loaded && !w.ended && w.plan.held
    requires 0.0 <= mm <= w.plan.blocks[0].mm && Sq(v) == Target(w.course, mm)
    ensures Enabled(w.plan, SegmentAction(w, v, mm)) && Sq(v) <= NominalSqr(w.plan.blocks[0], o)
    ensures Sq(v) == w.plan.blocks[0].entry - (Reach(w.plan.blocks[0]) - Reach(w.plan.blocks[0].(mm := mm)))
  {
    AtTarget(w, o);
    SqNonNegative(v);
    SegmentHolds(w.course, w.plan.blocks, Sq(v), mm);
    TargetCapped(w.course, mm);
    if mm > 0.0 {
      GainOrder(w.course.accel, 0.0, mm);
      ReachIsGain(w.plan.blocks[0].(mm := mm));
    }
    hide Target, Sq, Gain, Reach, Inv, Rated, OnTrack, StepsMatch;
  }

  /** Where a block that is used up leaves the speed. */
  lemma FinishedBetween(w: View, v: real, o: Overrides)
    requires ViewOk(w, o) && w.loaded && !w.ended && v >= 0.0 && Sq(v) == Target(w.course, 0.0)
    ensures var s := w.plan.blocks[1..];
      if s == [] then v == 0.0 else Sq(v) <= s[0].entry && (!w.plan.held ==> Sq(v) == s[0].entry)
  {
    var s := w.plan.blocks;
    SqNonNegative(v);
    if w.plan.held {
      HoldSegmentEnabled(w, v, 0.0, o);
      GainOrder(w.course.accel, 0.0, 0.0);
      ReachIsGain(s[0].(mm := 0.0));
      assert |s| > 1 ==> s[0].entry <= s[0 + 1].entry + Reach(s[0]);
    } else {
      SegmentEnabled(w, v, 0.0, o);
    }
    hide Target, Sq, Gain, Reach, Rated, OnTrack, StepsMatch;
  }

  lemma SegmentOk(w: View, shape: Profile, v: real, mm: real, stepsRemaining: real, ended: bool, o: Overrides)
    requires ViewOk(w, o) && w.loaded && !w.ended && Delivered(w, shape, v, mm)
    requires StepsMatch(stepsRemaining, w.stepPerMm, w.reqMm, mm)
    requires ended == (mm == w.shape.complete && mm > 0.0)
    ensures Enabled(w.plan, SegmentAction(w, v, mm))
    ensures ViewOk(Prepped(w, shape, v, mm, stepsRemaining, ended), o)
    ensures Continuous(Prepped(w, shape, v, mm, stepsRemaining, ended))
  {
    if w.plan.held {
      HoldSegmentEnabled(w, v, mm, o);
    } else {
      SegmentEnabled(w, v, mm, o);
    }
    StepKeepsInv(w.plan, SegmentAction(w, v, mm));
    if mm > 0.0 {
      RatedAdvance(w.plan.blocks, Sq(v), mm, o);
      SegmentInBlock(w, shape, v, mm, stepsRemaining, ended, o);
    } else {
      RatedFinish(w.plan.blocks, o);
      FinishedBetween(w, v, o);
    }
    hide Target, Sq, Gain, Reach, Inv, Rated, OnTrack, StepsMatch, Followable, Enabled;
  }

  lemma SegmentInBlock(w: View, shape: Profile, v: real, mm: real, stepsRemaining: real, ended: bool, o: Overrides)
    requires ViewOk(w, o) && w.loaded && !w.ended && Delivered(w, shape, v, mm) && mm > 0.0
    requires StepsMatch(stepsRemaining, w.stepPerMm, w.reqMm, mm)
    requires ended == (mm == w.shape.complete)
    ensures var x := Prepped(w, shape, v, mm, stepsRemaining, ended);
      InBlock(x) && CourseFits(x, o) && (!ended ==> OnTrack(x.shape, x.course, v, mm, mm)) && (ended ==> x.plan.held)
  {
    hide Target, Sq, Gain, Reach, Inv, Rated, OnProfile, StepsMatch, Followable;
    CompleteOnlyInHold(w, o);
  }

  lemma CompleteOnlyInHold(w: View, o: Overrides)
    requires ViewOk(w, o) && w.loaded && !w.ended
    ensures w.shape.complete > 0.0 ==> w.plan.held && w.shape.exit == 0.0
  {
    hide Target, Sq, Gain, Reach, Inv, Rated, StepsMatch, Followable;
  }

  /** A hold that ends without a step to execute: the tool stands, the block stays as it is. */
  lemma BailOk(w: View, shape: Profile, v: real, o: Overrides)
    requires ViewOk(w, o) && w.loaded && !w.ended && w.plan.held && SameEnd(w.shape, shape) && v == w.shape.exit == 0.0
    ensures Enabled(w.plan, HoldAdvance(Sq(v), w.plan.blocks[0].mm))
    ensures ViewOk(Prepped(w, shape, v, w.plan.blocks[0].mm, w.stepsRemaining, true), o)
  {
    var s := w.plan.blocks;
    SqNonNegative(v);
    SqNonNegative(w.speed);
    assert Movable(s[0]);
    StepKeepsInv(w.plan, HoldAdvance(Sq(v), s[0].mm));
    PlanIsFollowable(w.plan, o);
    RatedAdvance(s, Sq(v), s[0].mm, o);
    hide Target, Sq, Gain, Reach, Inv, Rated, OnTrack, StepsMatch, Followable, Enabled;
  }

  // ---------------------------------------------------------------- what every state promises

  /** The steps of the tail that are not in a segment yet. */
  function Unprepped(w: View): int {
    if w.plan.blocks == [] then 0
    else if w.loaded || w.pending then Ceil(w.stepsRemaining)
    else w.plan.blocks[0].move.count
  }

  lemma TakenKeepsSteps(w: View, shape: Profile, v: real, o: Overrides)
    requires ViewOk(w, o) && !w.loaded && !w.ended && StartsAt(w, v)
    requires w.plan.blocks[0].mm > 0.0 && w.plan.blocks[0].move.count > 0
    ensures Unprepped(Taken(w, shape, v, o)) == Unprepped(w)
    ensures Taken(w, shape, v, o).plan.blocks[1..] == w.plan.blocks[1..]
    ensures Taken(w, shape, v, o).speed == w.speed <==> Continuous(w)
  {
    StartsWithoutJump(w, v, o);
    CeilOfInt(w.plan.blocks[0].move.count);
    hide CourseOf, ViewOk, Sq;
  }

  /** In every state: the block being executed is within its nominal speed, the queued distance is
      enough to stop, and outside a hold the plan is feasible and the fastest feasible one. */
  lemma StateSafe(w: View, o: Overrides, s: seq<Block>)
    requires ViewOk(w, o) && s == w.plan.blocks && s != []
    ensures w.loaded || w.pending ==> Sq(w.speed) <= NominalSqr(s[0], o)
    ensures (w.loaded || w.pending ==> s[0].entry == Sq(w.speed)) && s[0].entry <= TotalReach(s)
    ensures Sq(w.speed) <= TotalReach(s)
    ensures !w.plan.held ==> FullyPlanned(s) && Feasible(s, Entries(s))
    ensures !w.plan.held ==> forall e, i :: Feasible(s, e) && 0 <= i < |e| ==> e[i] <= s[i].entry
  {
    hide Sq, Reach, OnTrack, StepsMatch, Followable, TotalReach, Feasible;
    if !w.plan.held {
      GoodIsSound(s, w.plan.planned);
      GoodIsOptimal(s, w.plan.planned);
    }
    CanStopInQueue(s);
  }
}
