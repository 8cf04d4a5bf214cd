/** Runs of planner and segment generator: when the speed is continuous, and a run in which it is not. */
module PrepRuns {
  import opened PlanTypes
  import opened PlanSpec
  import opened PlanUpdate
  import opened PlanRun
  import opened BufferLine
  import opened Prep
  import opened Kinematics
  import opened VelocityProfile
  import opened RampStep
  import opened RunLimits
  import opened StepExtract
  import opened PrepView

  /** What the main program does to planner and generator. */
  datatype Event =
    | Line(block: Block)                                              // plan_buffer_line
    | StartHold | CycleStop | CycleStart                              // the realtime commands
    | Take(shape: Profile, v: real)                                   // st_prep_buffer takes the tail over,
    | Cut(ramp: Ramp, speed: real, mm: real, stepsRemaining: real)    // cuts a segment of it,
    | Bail(ramp: Ramp)                                                // or ends a hold without a step

  ghost predicate Can(w: View, e: Event, o: Overrides) {
    match e
    case Line(b) => Movable(b) && b.entry == 0.0 && Rated(w.plan.blocks + [b], o)
    case StartHold => !w.plan.held && !w.ended
    case CycleStop => true
    case CycleStart => !w.plan.held
    case Take(shape, v) =>
      && !w.loaded && !w.ended && StartsAt(w, v) && w.plan.blocks[0].mm > 0.0 && w.plan.blocks[0].move.count > 0
      && var plan := TakenPlan(w);
         OnProfile(shape, CourseOf(plan.blocks, plan.held, o), v, plan.blocks[0].mm, plan.blocks[0].mm)
    case Cut(ramp, v, mm, stepsRemaining) =>
      && w.loaded && !w.ended && w.plan.blocks != [] && Delivered(w, w.shape.(ramp := ramp), v, mm)
      && StepsMatch(stepsRemaining, w.stepPerMm, w.reqMm, mm)
    case Bail(_) => w.loaded && !w.ended && w.plan.blocks != [] && w.plan.held && w.shape.exit == 0.0
  }

  ghost function Next(w: View, e: Event, o: Overrides): View
    requires Can(w, e, o)
  {
    match e
    case Line(b) => Appended(w, b)
    case StartHold => HoldStarted(w)
    case CycleStop => Stopped(w)
    case CycleStart => Restarted(w)
    case Take(shape, v) => Taken(w, shape, v, o)
    case Cut(ramp, v, mm, stepsRemaining) =>
      Prepped(w, w.shape.(ramp := ramp), v, mm, stepsRemaining, mm == w.shape.complete && mm > 0.0)
    case Bail(ramp) => Prepped(w, w.shape.(ramp := ramp), 0.0, w.plan.blocks[0].mm, w.stepsRemaining, true)
  }

  ghost predicate Leads(w: View, e: Event, x: View, o: Overrides) {
    Can(w, e, o) && x == Next(w, e, o)
  }

  lemma LineKeepsSpeed(w: View, b: Block, o: Overrides)
    requires ViewOk(w, o) && Movable(b) && b.entry == 0.0
    ensures AtPlannedSpeed(Appended(w, b)) <==> AtPlannedSpeed(w)
  {
    hide Rated, Recalc, PassPlanned, OnTrack, StepsMatch, Followable, Inv;
    if w.plan.blocks != [] {
      TailStays(w.plan, b);
    }
  }

  lemma BailInBlock(w: View, shape: Profile, o: Overrides)
    requires ViewOk(w, o) && w.loaded
    ensures Prepped(w, shape, 0.0, w.plan.blocks[0].mm, w.stepsRemaining, true).loaded
  {
    assert Movable(w.plan.blocks[0]);
  }

  /** Every event keeps planner and generator consistent.  Only a cycle stop between two blocks, at a
      speed that is not the planned one, breaks the continuity of speed. */
  lemma EventKeeps(w: View, e: Event, o: Overrides)
    requires ViewOk(w, o) && Can(w, e, o)
    ensures ViewOk(Next(w, e, o), o)
    ensures Continuous(w) ==> (Continuous(Next(w, e, o)) <==> (e.CycleStop? ==> AtPlannedSpeed(w)))
  {
    hide ViewOk, Rated, Movable, OnProfile, Delivered, StepsMatch, Appended, Sq, TakenPlan, StartsAt;
    match e
    case Line(b) =>
      AppendedOk(w, b, o);
      LineKeepsSpeed(w, b, o);
      LineKeepsHold(w, b);
    case StartHold => HoldStartedOk(w, o);
    case CycleStop => StoppedOk(w, o);
    case CycleStart => RestartedOk(w, o);
    case Take(shape, v) =>
      TakenOk(w, shape, v, o);
    case Cut(ramp, v, mm, stepsRemaining) =>
      SegmentOk(w, w.shape.(ramp := ramp), v, mm, stepsRemaining, mm == w.shape.complete && mm > 0.0, o);
    case Bail(ramp) =>
      BailOk(w, w.shape.(ramp := ramp), 0.0, o);
      BailInBlock(w, w.shape.(ramp := ramp), o);
  }

  lemma LineKeepsHold(w: View, b: Block)
    ensures Appended(w, b).plan.held == w.plan.held
  {
  }

  /** After a reset. */
  ghost predicate Initial(w: View) {
    && w.plan == Plan([], 0, false) && !w.loaded && !w.pending && !w.ended
    && w.speed == 0.0 && w.shape.exit == 0.0
  }

  ghost predicate IsRun(views: seq<View>, events: seq<Event>, o: Overrides) {
    && |views| == |events| + 1 && Initial(views[0])
    && forall k :: 0 <= k < |events| ==> Can(views[k], events[k], o) && views[k + 1] == Next(views[k], events[k], o)
  }

  /** What planner and generator have gone through since the reset. */
  datatype Run = Run(views: seq<View>, events: seq<Event>)

  ghost predicate Records(run: Run, w: View, o: Overrides) {
    IsRun(run.views, run.events, o) && run.views[|run.events|] == w
  }

  function Extended(run: Run, e: Event, x: View): Run {
    Run(run.views + [x], run.events + [e])
  }

  lemma StartRecords(w: View, o: Overrides)
    requires Initial(w)
    ensures Records(Run([w], []), w, o)
  {
  }

  lemma RunExtends(run: Run, w: View, e: Event, x: View, o: Overrides)
    requires Records(run, w, o) && Leads(w, e, x, o)
    ensures Records(Extended(run, e, x), x, o)
    ensures e.Line? ==> AddsLine(run, Extended(run, e, x))
  {
    hide Can, Next, Initial;
    var r, n := Extended(run, e, x), |run.events|;
    forall k | 0 <= k < |r.events|
      ensures Can(r.views[k], r.events[k], o) && r.views[k + 1] == Next(r.views[k], r.events[k], o)
    {
      if k < n {
        assert r.views[k] == run.views[k] && r.views[k + 1] == run.views[k + 1] && r.events[k] == run.events[k];
      }
    }
  }

  /** `next` goes on from `run`. */
  ghost predicate GoesOn(run: Run, next: Run) {
    run.views <= next.views && run.events < next.events
  }

  ghost predicate AddsLine(run: Run, next: Run) {
    GoesOn(run, next) && |next.events| == |run.events| + 1 && next.events[|run.events|].Line?
  }

  ghost predicate AddsRound(run: Run, next: Run) {
    var n := |run.events|;
    && GoesOn(run, next) && (next.events[|next.events| - 1].Cut? || next.events[|next.events| - 1].Bail?)
    && (|next.events| == n + 1 || (|next.events| == n + 2 && next.events[n].Take?))
  }

  /** A round of st_prep_buffer is two events: a block is taken over, unless one is in hand, and cut. */
  ghost predicate IsRound(w: View, x: View, e: Event, y: View, o: Overrides) {
    && (if w.loaded then x == w else Leads(w, Take(x.shape, x.speed), x, o))
    && (e.Cut? || e.Bail?) && Leads(x, e, y, o)
  }

  function RoundAdded(run: Run, w: View, x: View, e: Event, y: View): Run {
    Extended(if w.loaded then run else Extended(run, Take(x.shape, x.speed), x), e, y)
  }

  lemma RoundExtends(run: Run, w: View, x: View, e: Event, y: View, o: Overrides)
    requires Records(run, w, o) && IsRound(w, x, e, y, o)
    ensures Records(RoundAdded(run, w, x, e, y), y, o) && AddsRound(run, RoundAdded(run, w, x, e, y))
  {
    hide Records, Leads;
    if w.loaded {
      RunExtends(run, w, e, y, o);
    } else {
      var take := Take(x.shape, x.speed);
      RunExtends(run, w, take, x, o);
      RunExtends(Extended(run, take, x), x, e, y, o);
    }
  }

  lemma {:induction false} RunKeepsView(views: seq<View>, events: seq<Event>, o: Overrides, k: nat)
    requires IsRun(views, events, o) && k < |views|
    ensures ViewOk(views[k], o)
  {
    hide Can, Next, ViewOk, Initial;
    if k == 0 {
      InitialOk(views[0], o);
    } else {
      RunKeepsView(views, events, o, k - 1);
      EventKeeps(views[k - 1], events[k - 1], o);
    }
  }

  lemma InitialOk(w: View, o: Overrides)
    requires Initial(w)
    ensures ViewOk(w, o) && Continuous(w)
  {
  }

  // ---------------------------------------------------------------- when the speed is continuous

  /** A block is cut to its end, slower than the plan has for the next one. */
  ghost predicate EndsSlow(w: View, e: Event) {
    e.Cut? && e.mm == 0.0 && |w.plan.blocks| > 1 && Sq(e.speed) < w.plan.blocks[1].entry
  }

  /** Before event `k` a block ended slow, and the next one has not been taken over since. */
  ghost predicate LeftSlow(views: seq<View>, events: seq<Event>, k: nat)
    requires k <= |events| < |views|
  {
    exists i :: 0 <= i < k && EndsSlow(views[i], events[i]) && NothingTaken(events, i, k)
  }

  /** Strictly between events `i` and `k`. */
  ghost predicate NothingTaken(events: seq<Event>, i: nat, k: nat)
    requires k <= |events|
  {
    forall j :: i < j < k ==> !events[j].Take?
  }

  /** A view falls behind its plan by such a cut only, and catches up by taking the next block only. */
  lemma EventSlows(w: View, e: Event, o: Overrides)
    requires ViewOk(w, o) && Can(w, e, o)
    ensures !AtPlannedSpeed(Next(w, e, o)) <==> EndsSlow(w, e) || (!AtPlannedSpeed(w) && !e.Take?)
  {
    hide Rated, Movable, OnProfile, Delivered, StepsMatch, Appended, Sq, TakenPlan, StartsAt, OnTrack, Followable, Inv;
    match e
    case Line(b) => LineKeepsSpeed(w, b, o);
    case StartHold =>
    case CycleStop => StopKeepsTail(w.plan);
    case CycleStart =>
    case Take(shape, v) =>
    case Cut(ramp, v, mm, stepsRemaining) => CutSlows(w, e, o);
    case Bail(ramp) => BailInBlock(w, w.shape.(ramp := ramp), o);
  }

  lemma StopKeepsTail(plan: Plan)
    ensures var q := Apply(plan, Replan).blocks;
      |q| == |plan.blocks| && (q != [] ==> q[0] == plan.blocks[0])
  {
    if plan.blocks != [] {
      RecalcKeepsTail(plan.blocks);
    }
  }

  lemma CutSlows(w: View, e: Event, o: Overrides)
    requires ViewOk(w, o) && Can(w, e, o) && e.Cut?
    ensures AtPlannedSpeed(w) && (AtPlannedSpeed(Next(w, e, o)) <==> !EndsSlow(w, e))
  {
    hide Rated, Movable, StepsMatch, Sq, OnTrack, Followable, Inv;
    if e.mm == 0.0 {
      FinishedBetween(w, e.speed, o);
    }
  }

  lemma SlowStep(views: seq<View>, events: seq<Event>, k: nat)
    requires 0 < k <= |events| < |views|
    ensures LeftSlow(views, events, k)
      <==> EndsSlow(views[k - 1], events[k - 1]) || (LeftSlow(views, events, k - 1) && !events[k - 1].Take?)
  {
    hide EndsSlow;
    if EndsSlow(views[k - 1], events[k - 1]) {
      assert NothingTaken(events, k - 1, k);
    } else if LeftSlow(views, events, k - 1) && !events[k - 1].Take? {
      var i :| 0 <= i < k - 1 && EndsSlow(views[i], events[i]) && NothingTaken(events, i, k - 1);
      assert NothingTaken(events, i, k);
    }
  }

  lemma {:induction false} SlowMeans(views: seq<View>, events: seq<Event>, o: Overrides, k: nat)
    requires IsRun(views, events, o) && k < |views|
    ensures !AtPlannedSpeed(views[k]) <==> LeftSlow(views, events, k)
  {
    hide Can, Next, AtPlannedSpeed, LeftSlow, EndsSlow, ViewOk;
    if k == 0 {
      NothingSlow(views, events);
    } else {
      SlowMeans(views, events, o, k - 1);
      RunKeepsView(views, events, o, k - 1);
      EventSlows(views[k - 1], events[k - 1], o);
      SlowStep(views, events, k);
    }
  }

  lemma SlowNow(run: Run, w: View, o: Overrides)
    requires Records(run, w, o)
    ensures !AtPlannedSpeed(w) <==> LeftSlow(run.views, run.events, |run.events|)
  {
    hide Can, Next, Initial, AtPlannedSpeed, LeftSlow;
    SlowMeans(run.views, run.events, o, |run.events|);
  }

  lemma NothingSlow(views: seq<View>, events: seq<Event>)
    requires |events| < |views| && Initial(views[0])
    ensures AtPlannedSpeed(views[0]) && !LeftSlow(views, events, 0)
  {
  }

  /** A block is started at another speed than the tool has, exactly when none is held and the last
      block to end did so slower than planned. */
  lemma StartsJump(views: seq<View>, events: seq<Event>, o: Overrides, k: nat)
    requires IsRun(views, events, o) && k < |events| && events[k].Take?
    ensures events[k].v != views[k].speed <==> !views[k].plan.held && LeftSlow(views, events, k)
  {
    hide Next, StartsAt, LeftSlow, ViewOk, OnProfile, AtPlannedSpeed;
    RunKeepsView(views, events, o, k);
    SlowMeans(views, events, o, k);
    TakeStarts(views[k], events[k], o);
    StartsWithoutJump(views[k], events[k].v, o);
  }

  lemma TakeStarts(w: View, e: Event, o: Overrides)
    requires Can(w, e, o) && e.Take?
    ensures !w.loaded && w.plan.blocks != [] && StartsAt(w, e.v)
  {
  }

  /** Every cycle stop among the first `k` events finds the block after a slow end taken over. */
  ghost predicate StopsInTime(views: seq<View>, events: seq<Event>, k: nat)
    requires k <= |events| < |views|
  {
    forall j :: 0 <= j < k && events[j].CycleStop? ==> !LeftSlow(views, events, j)
  }

  /** The speed is continuous through a whole run exactly when no cycle stop comes after a block that
      ended slower than planned, before the next one is taken over. */
  lemma ContinuousExactlyWhen(views: seq<View>, events: seq<Event>, o: Overrides)
    requires IsRun(views, events, o)
    ensures (forall j :: 0 <= j < |views| ==> Continuous(views[j])) <==> StopsInTime(views, events, |events|)
  {
    hide Can, Next, Continuous, AtPlannedSpeed, LeftSlow;
    if StopsInTime(views, events, |events|) {
      forall j | 0 <= j < |views|
        ensures Continuous(views[j])
      {
        RunContinuous(views, events, o, j);
      }
    } else {
      var j :| 0 <= j < |events| && events[j].CycleStop? && LeftSlow(views, events, j);
      RunKeepsView(views, events, o, j);
      SlowMeans(views, events, o, j);
      EventKeeps(views[j], events[j], o);
      assert !Continuous(views[j]) || !Continuous(views[j + 1]);
    }
  }

  lemma {:induction false} RunContinuous(views: seq<View>, events: seq<Event>, o: Overrides, k: nat)
    requires IsRun(views, events, o) && k < |views| && StopsInTime(views, events, |events|)
    ensures Continuous(views[k])
  {
    hide Can, Next, Continuous, AtPlannedSpeed, LeftSlow, ViewOk;
    if k == 0 {
      InitialOk(views[0], o);
    } else {
      RunContinuous(views, events, o, k - 1);
      RunKeepsView(views, events, o, k - 1);
      SlowMeans(views, events, o, k - 1);
      EventKeeps(views[k - 1], events[k - 1], o);
    }
  }

  // ---------------------------------------------------------------- a stop between two blocks of a hold

  const PERCENT := Overrides(100, 100)

  /** Along one axis at a step per mm, with nominal speed 5. */
  function Along(count: nat, maxJunction: real): Move {
    Move([count], [false], count, false, true, maxJunction, 5.0, 5.0)
  }

  const FIRST := Block(Along(50, 0.0), 0.0, 0.0, 0.5, 50.0)
  const SECOND := Block(Along(50, 25.0), 0.0, 25.0, 0.5, 50.0)
  const FAST := SECOND.(entry := 25.0)

  /** Accelerate to the nominal speed in the first half of the block, and keep it. */
  const RISING := Profile(Accel, 25.0, 0.0, 5.0, 5.0, 0.0)
  const RISE := Course(0.5, 0.0, 50.0, 25.0, 5.0, false)

  /** What is left of the first block when the hold begins. */
  function Part(left: real): Block {
    FIRST.(entry := 25.0, mm := left)
  }

  /** Brake through it. */
  function Braking(left: real, v: real): Profile {
    Profile(Decel, left, 0.0, 5.0, v, 0.0)
  }

  function Brake(left: real): Course {
    Course(0.5, 25.0, left, 25.0, 5.0, true)
  }

  /** What is seen on the way. */
  const RESET := View(Plan([], 0, false), false, false, 0.0, Profile(Accel, 0.0, 0.0, 0.0, 0.0, 0.0),
                      Course(1.0, 0.0, 1.0, 0.0, 1.0, false), 0.0, 0.0, 0.0, false)
  const QUEUED := RESET.(plan := Plan([FIRST], 0, false))
  const PLANNED := RESET.(plan := Plan([FIRST, FAST], 1, false))
  const STARTED := View(PLANNED.plan, true, false, 0.0, RISING, RISE, 50.0, 1.0, 1.25, false)

  function Running(left: real): View {
    View(Plan([Part(left), FAST], 1, false), true, false, 5.0, RISING.(ramp := Cruise), RISE, Ceil(left) as real,
         1.0, 1.25, false)
  }

  function Holding(left: real): View {
    Running(left).(plan := Plan([Part(left), FAST], 1, true), loaded := false, pending := true)
  }

  function Slowing(left: real, v: real): View {
    View(Holding(left).plan, true, false, 5.0, Braking(left, v), Brake(left), Ceil(left) as real, 1.0, 1.25, false)
  }

  function Between(left: real, v: real): View {
    Slowing(left, v).(plan := Plan([FAST], 0, true), loaded := false, speed := v, stepsRemaining := 0.0)
  }

  function Halted(left: real, v: real): View {
    Between(left, v).(plan := Plan([FAST], 0, false))
  }

  lemma FirstLine()
    ensures Leads(RESET, Line(FIRST), QUEUED, PERCENT)
  {
    hide Recalc, PassPlanned;
    assert [] + [FIRST] == [FIRST];
  }

  lemma SecondPlanned(s: seq<Block>)
    requires s == [FIRST, SECOND]
    ensures PassEntry(s, 0, 1) == 25.0 && PassPlanned(s, 0, 1) == 1 && Recalc(s, 0) == [FIRST, FAST]
  {
    assert RevEntry(s, 0, 1) == 25.0;
  }

  lemma SecondLine()
    ensures Leads(QUEUED, Line(SECOND), PLANNED, PERCENT)
  {
    SecondPlanned([FIRST, SECOND]);
    hide PassEntry, PassPlanned, Recalc, RevEntry;
    assert [FIRST] + [SECOND] == [FIRST, SECOND];
  }

  lemma Squares(left: real)
    ensures Sq(0.0) == 0.0 && Sq(5.0) == 25.0
    ensures Gain(0.5, 0.0) == 0.0 && Gain(0.5, left) == left && Gain(0.5, 25.0) == 25.0
    ensures Gain(0.5, 50.0 - left) == 50.0 - left && Gain(0.5, 50.0) == 50.0
  {
  }

  lemma RisingFits()
    ensures OnProfile(RISING, RISE, 0.0, 50.0, 50.0)
  {
    Squares(25.0);
    hide Sq, Gain;
    assert Followable(RISE);
    assert Accelerating(RISING, RISE, 0.0, 50.0);
  }

  lemma BrakingFits(left: real, v: real)
    requires 0.0 < left <= 25.0 && v >= 0.0 && Sq(v) == 25.0 - left
    ensures OnProfile(Braking(left, v), Brake(left), 5.0, left, left)
  {
    Squares(left);
    hide Sq, Gain;
    assert Followable(Brake(left));
    assert Stopping(Braking(left, v), Brake(left), 5.0, left);
  }

  lemma Courses(left: real)
    ensures CourseOf([FIRST, FAST], false, PERCENT) == RISE
    ensures CourseOf([Part(left), FAST], true, PERCENT) == Brake(left)
  {
  }

  lemma FirstStarts()
    ensures Can(PLANNED, Take(RISING, 0.0), PERCENT)
  {
    RisingFits();
    Courses(25.0);
    hide OnProfile, CourseOf;
    assert TakenPlan(PLANNED) == PLANNED.plan;
    assert StartsAt(PLANNED, 0.0);
  }

  /** A new block at one step per mm. */
  lemma TakenIs(w: View, shape: Profile, v: real, o: Overrides)
    requires w.plan.blocks != [] && w.plan.blocks[0].mm == w.plan.blocks[0].move.count as real > 0.0
    requires !w.pending && !w.plan.held
    ensures Taken(w, shape, v, o)
      == View(w.plan, true, false, v, shape, CourseOf(w.plan.blocks, false, o),
              w.plan.blocks[0].move.count as real, 1.0, 1.25, w.ended)
  {
    hide CourseOf;
    assert w.plan.blocks[0].move.count as real / w.plan.blocks[0].mm == 1.0;
  }

  lemma FirstTaken()
    ensures Leads(PLANNED, Take(RISING, 0.0), STARTED, PERCENT)
  {
    FirstStarts();
    Courses(25.0);
    hide OnProfile, CourseOf, Can, StartsAt, Taken;
    TakenIs(PLANNED, RISING, 0.0, PERCENT);
  }

  lemma CruiseDelivered(left: real)
    requires 0.0 < left <= 25.0
    ensures Delivered(STARTED, RISING.(ramp := Cruise), 5.0, left)
  {
    Squares(left);
    hide Sq, Gain;
    assert Cruising(RISING, RISE, 5.0, left, left);
  }

  lemma CutSteps(left: real)
    ensures StepsMatch(Ceil(left) as real, 1.0, 1.25, left)
  {
    CeilOfInt(Ceil(left));
    hide Ceil;
  }

  lemma CutIs(left: real)
    requires left > 0.0
    ensures Prepped(STARTED, RISING.(ramp := Cruise), 5.0, left, Ceil(left) as real, false) == Running(left)
  {
    hide Ceil;
  }

  lemma FirstCut(left: real)
    requires 0.0 < left <= 25.0
    ensures Leads(STARTED, Cut(Cruise, 5.0, left, Ceil(left) as real), Running(left), PERCENT)
  {
    CruiseDelivered(left);
    CutSteps(left);
    CutIs(left);
    hide Delivered, StepsMatch, Prepped, Ceil, Running;
  }

  lemma HoldBegins(left: real)
    ensures Leads(Running(left), StartHold, Holding(left), PERCENT)
  {
  }

  lemma TakenInHold(left: real, v: real)
    requires 0.0 < left <= 25.0 && v >= 0.0 && Sq(v) == 25.0 - left
    ensures Leads(Holding(left), Take(Braking(left, v), 5.0), Slowing(left, v), PERCENT)
  {
    BrakingFits(left, v);
    Courses(left);
    hide OnProfile, CourseOf;
    assert TakenPlan(Holding(left)) == Holding(left).plan;
    assert StartsAt(Holding(left), 5.0);
  }

  lemma FirstBraked(left: real, v: real)
    requires 0.0 < left <= 25.0 && v >= 0.0 && Sq(v) == 25.0 - left
    ensures Leads(Slowing(left, v), Cut(Decel, v, 0.0, 0.0), Between(left, v), PERCENT)
    ensures EndsSlow(Slowing(left, v), Cut(Decel, v, 0.0, 0.0))
  {
    hide Sq;
    assert Delivered(Slowing(left, v), Braking(left, v), v, 0.0);
    assert [Part(left), FAST][1..] == [FAST];
  }

  lemma EarlyStop(left: real, v: real)
    ensures Leads(Between(left, v), CycleStop, Halted(left, v), PERCENT)
  {
    assert Recalc([FAST], 0) == [FAST];
  }

  /** Whatever distance is left when the hold begins, up to the braking distance of 25, the hold brakes
      through the first block, to a speed below 5, or to a standstill when just that distance is left.
      The segment buffer runs empty there, and the stop leaves the second block at its planned speed. */
  lemma EarlyStopJumps(left: real, v: real, views: seq<View>, events: seq<Event>)
    requires 0.0 < left <= 25.0 && v >= 0.0 && Sq(v) == 25.0 - left
    requires views == [RESET, QUEUED, PLANNED, STARTED, Running(left), Holding(left), Slowing(left, v),
                       Between(left, v), Halted(left, v)]
    requires events == [Line(FIRST), Line(SECOND), Take(RISING, 0.0), Cut(Cruise, 5.0, left, Ceil(left) as real),
                        StartHold, Take(Braking(left, v), 5.0), Cut(Decel, v, 0.0, 0.0), CycleStop]
    ensures IsRun(views, events, PERCENT) && LeftSlow(views, events, 7) && !StopsInTime(views, events, 8)
    ensures !Continuous(views[8]) && StartsAt(views[8], 5.0)
    ensures views[8].speed == v < 5.0 && (v == 0.0 <==> left == 25.0)
  {
    hide Can, Next, EndsSlow;
    FirstLine();
    SecondLine();
    FirstTaken();
    FirstCut(left);
    HoldBegins(left);
    TakenInHold(left, v);
    FirstBraked(left, v);
    EarlyStop(left, v);
    SqOrder(v, 5.0);
    SqOrder(v, 0.0);
    assert NothingTaken(events, 6, 7);
    assert EndsSlow(views[6], events[6]);
    assert events[7] == CycleStop && views[7] == Between(left, v);
  }
}
