/** The do-while loop of st_prep_buffer: one segment's worth of time along the velocity profile. */
module SegmentGen {
  import opened PlanTypes
  import opened Prep
  import opened Kinematics
  import opened VelocityProfile
  import opened RampStep
  import opened SegmentLength

  /** Minutes per segment, at 100 acceleration ticks per second. */
  const DT_SEGMENT := 1.0 / 6000.0

  /** At the end of the profile the speed is the exit speed. */
  lemma CompleteAtExit(p: Profile, c: Course, v: real, d: real, least: real)
    requires OnTrack(p, c, v, d, least) && d == p.complete && least >= 0.0
    ensures v == p.exit
  {
    GainOrder(c.accel, 0.0, d);
    SqOrder(v, p.exit);
    if p.ramp == Accel {
      GainOrder(c.accel, p.acc, 0.0);
      GainOrder(c.accel, p.dec, 0.0);
      SqOrder(v, p.vmax);
      SqOrder(p.vmax, p.exit);
    }
  }

  /** At the end of the profile the exit speed is the target speed. */
  lemma FinishedMeetsTarget(p: Profile, c: Course)
    requires Followable(c) && if c.hold then Sq(p.exit) == Target(c, p.complete) else EndsAtExit(p, c)
    ensures Sq(p.exit) == Target(c, p.complete)
  {
    if !c.hold {
      TargetChanges(c, 0.0, 0.0);
    }
  }

  ghost predicate EndIsOnTarget(p: Profile, c: Course) {
    && Followable(c) && 0.0 <= p.complete && (p.complete > 0.0 ==> c.hold && p.exit == 0.0) && p.exit >= 0.0
    && if c.hold then Sq(p.exit) == Target(c, p.complete) else EndsAtExit(p, c)
  }

  lemma TrackEnds(p: Profile, c: Course, v: real, d: real, least: real)
    requires OnTrack(p, c, v, d, least)
    ensures EndIsOnTarget(p, c)
  {
  }

  /** A shorter least distance is easier to stay on track for. */
  lemma TrackFrom(p: Profile, c: Course, v: real, d: real, least: real)
    requires OnTrack(p, c, v, d, d) && 0.0 <= least <= d
    ensures OnTrack(p, c, v, d, least)
  {
    if p.ramp == Cruise {
      StillReached(c, d, least);
    } else if p.ramp == Decel && !c.hold {
      StillBraking(c, d, least);
    }
  }

  /** A segment that has reached its least distance is back on its profile. */
  lemma TrackTo(p: Profile, c: Course, v: real, d: real, least: real)
    requires OnTrack(p, c, v, d, least) && d <= least
    ensures OnTrack(p, c, v, d, d)
  {
  }

  function Phase(r: Ramp): nat {
    match r
    case Accel => 3
    case DecelOverride => 3
    case Cruise => 2
    case Decel => 1
  }

  /** How many full time steps fit into the distance left. */
  function StepsLeft(d: real, step: real): (n: nat)
    requires d >= 0.0 && step > 0.0
  {
    Quotient(d, step);
    (d / step).Floor
  }

  lemma Quotient(d: real, step: real)
    requires d >= 0.0 && step > 0.0
    ensures d / step >= 0.0
  {
  }

  lemma StepsLeftDecreases(d: real, e: real, step: real)
    requires 0.0 <= e <= d - step && step > 0.0
    ensures StepsLeft(e, step) < StepsLeft(d, step)
  {
    var x, y := d / step, e / step;
    assert Times(x - y, step) == d - e;
    AtLeastOne(x - y, step);
  }

  lemma LessThanStep(z: real, step: real)
    requires step > 0.0 && z < 1.0
    ensures Times(z, step) < step
  {
    TimesPositive(1.0 - z, step);
    assert Times(1.0 - z, step) == step - Times(z, step);
  }

  lemma AtLeastOne(z: real, step: real)
    requires step > 0.0 && Times(z, step) >= step
    ensures z >= 1.0
  {
    if z < 1.0 {
      LessThanStep(z, step);
    }
  }

  lemma ProgressPositive(c: Course, t: real)
    requires Followable(c) && t > 0.0
    ensures Progress(c, t) > 0.0
  {
    SqNonNegative(t);
    TimesPositive(c.accel, Sq(t));
    assert Times(c.accel, Sq(t)) == c.accel * t * t;
    TimesPositive(t, c.nominal);
  }

  /** One pass through the switch. */
  method StepRamp(prep: PrepState, ghost c: Course, accel: real, start: real, mm: real, timeVar: real,
                  ghost least: real)
    returns (mmRemaining: real, used: real)
    requires OnTrack(prep.Shape(), c, prep.currentSpeed, mm, least) && accel == c.accel && least >= 0.0
    requires timeVar > 0.0 || (least < mm && prep.mmComplete < mm && !c.hold && Phase(prep.rampType) < 3)
    modifies prep`rampType, prep`currentSpeed
    ensures StepsOnTrack(old(prep.Shape()), prep.Shape(), c, old(prep.currentSpeed), prep.currentSpeed, start,
                         mm, mmRemaining, least, timeVar, used)
  {
    match prep.rampType
    case DecelOverride => mmRemaining, used := StepSlowing(prep, c, accel, start, mm, timeVar, least);
    case Accel => mmRemaining, used := StepAccelerating(prep, c, accel, start, mm, timeVar, least);
    case Cruise => mmRemaining, used := StepCruising(prep, c, start, mm, timeVar, least);
    case Decel => mmRemaining, used := StepBraking(prep, c, accel, start, mm, timeVar, least);
  }

  /** The state of the loop between two passes. */
  ghost predicate Rolling(p: Profile, q: Profile, c: Course, v: real, d: real, least: real, more: bool, timeVar: real) {
    && SameEnd(p, q) && EndIsOnTarget(p, c) && p.complete <= d
    && (if more
        then OnTrack(q, c, v, d, least)
        else (d == p.complete && v == p.exit) || (OnTrack(q, c, v, d, least) && d <= least))
    && (more ==> timeVar > 0.0 || (least < d && p.complete < d && !c.hold && Phase(q.ramp) < 3))
  }

  /** What decides whether the loop goes on, and for how long. */
  lemma RollsOn(p: Profile, q: Profile, r: Profile, c: Course, v: real, w: real, start: real, d: real, e: real,
                least: real, timeVar: real, used: real, dt: real, dtMax: real, more: bool, next: real)
    requires Rolling(p, q, c, v, d, least, true, timeVar) && least >= 0.0 && dt + timeVar == dtMax
    requires StepsOnTrack(q, r, c, v, w, start, d, e, least, timeVar, used)
    requires more == (e > p.complete && (dt + used < dtMax || e > least))
    requires next == if dt + used < dtMax then dtMax - (dt + used) else dtMax + DT_SEGMENT - (dt + used)
    ensures Rolling(p, r, c, w, e, least, more, next)
    ensures more ==>
      Phase(r.ramp) < Phase(q.ramp)
      || (r == q && next == DT_SEGMENT && (timeVar > 0.0 ==> e <= d - Progress(c, timeVar)))
  {
    hide Change, Travelled, Gain, Sq, Progress, Target;
    assert p.complete <= e;
    if OnTrack(r, c, w, e, least) && e == p.complete {
      CompleteAtExit(r, c, w, e, least);
    }
  }

  /** And the distance it covers. */
  lemma KeepsPace(q: Profile, r: Profile, c: Course, v: real, w: real, start: real, d: real, e: real, least: real,
                  timeVar: real, used: real, dt: real, dtMax: real, more: bool, next: real)
    requires StepsOnTrack(q, r, c, v, w, start, d, e, least, timeVar, used) && OnTrack(q, c, v, d, least)
    requires Phase(q.ramp) == 3 ==> d <= start && timeVar > 0.0
    requires timeVar > 0.0 || (q.complete < d && Phase(q.ramp) < 3)
    requires least >= 0.0 && dt + timeVar == dtMax
    requires more == (e > q.complete && (dt + used < dtMax || e > least))
    requires next == if dt + used < dtMax then dtMax - (dt + used) else dtMax + DT_SEGMENT - (dt + used)
    ensures Phase(r.ramp) == 3 ==> e <= start && (more ==> next > 0.0)
    ensures Capped(c) && Within(c, least, d, timeVar, DT_SEGMENT) ==>
      if more then Within(c, least, e, next, DT_SEGMENT)
      else Min(e, least) >= least - Times(c.nominal, DT_SEGMENT)
  {
    StaysFirst(q, r, c, v, w, start, d, e, least, timeVar, used);
    hide StepsOnTrack, OnTrack, Within, Paced, Times;
    if Capped(c) && Within(c, least, d, timeVar, DT_SEGMENT) {
      StepPaced(q, r, c, v, w, start, d, e, least, timeVar, used);
      if more {
        WithinNext(q, c, least, d, e, timeVar, used, DT_SEGMENT, next);
      } else {
        WithinEnds(q, c, least, d, e, timeVar, used, DT_SEGMENT);
      }
    }
  }

  /** On the first ramps the tool moves forward, in whole steps of time. */
  lemma StaysFirst(q: Profile, r: Profile, c: Course, v: real, w: real, start: real, d: real, e: real, least: real,
                   timeVar: real, used: real)
    requires StepsOnTrack(q, r, c, v, w, start, d, e, least, timeVar, used) && OnTrack(q, c, v, d, least)
    requires Phase(q.ramp) == 3 ==> d <= start && timeVar > 0.0
    ensures Phase(r.ramp) == 3 ==> e <= start && used == timeVar
  {
    hide Change, Travelled, Gain, Sq, Progress;
    if timeVar > 0.0 && Phase(r.ramp) == 3 {
      ProgressPositive(c, timeVar);
    }
  }

  /** Follows the profile for one segment: at least one segment time, longer while the segment is
      short of its least distance, shorter only where the profile ends.  The segment ends at the
      target speed of the course. */
  method FollowProfile(prep: PrepState, ghost c: Course, accel: real, start: real, minimumMm: real)
    returns (mmRemaining: real, dt: real)
    requires OnTrack(prep.Shape(), c, prep.currentSpeed, start, start) && accel == c.accel && 0.0 <= minimumMm <= start
    modifies prep`rampType, prep`currentSpeed
    ensures SameEnd(old(prep.Shape()), prep.Shape())
    ensures prep.mmComplete <= mmRemaining <= start && (mmRemaining == prep.mmComplete || mmRemaining <= minimumMm)
    ensures Sq(prep.currentSpeed) == Target(c, mmRemaining) && prep.currentSpeed >= 0.0
    ensures mmRemaining == prep.mmComplete ==> prep.currentSpeed == prep.exitSpeed
    ensures mmRemaining > prep.mmComplete ==> OnTrack(prep.Shape(), c, prep.currentSpeed, mmRemaining, mmRemaining)
    ensures mmRemaining > prep.mmComplete ==> dt >= DT_SEGMENT
    ensures Capped(c) ==> mmRemaining >= minimumMm - c.nominal / 6000.0
  {
    ghost var p := prep.Shape();
    TrackEnds(p, c, prep.currentSpeed, start, start);
    TrackFrom(p, c, prep.currentSpeed, start, minimumMm);
    ghost var step := Progress(c, DT_SEGMENT);
    ProgressPositive(c, DT_SEGMENT);
    var dtMax := DT_SEGMENT;
    dt := 0.0;
    var timeVar := dtMax;
    mmRemaining := start;
    var more := true;
    while more
      invariant Rolling(p, prep.Shape(), c, prep.currentSpeed, mmRemaining, minimumMm, more, timeVar)
      invariant more ==> dt + timeVar == dtMax
      invariant Capped(c) ==>
        if more then Within(c, minimumMm, mmRemaining, timeVar, DT_SEGMENT)
        else Min(mmRemaining, minimumMm) >= minimumMm - Times(c.nominal, DT_SEGMENT)
      invariant Phase(prep.rampType) == 3 ==> mmRemaining <= start && (more ==> timeVar > 0.0)
      invariant mmRemaining >= 0.0 && dtMax >= DT_SEGMENT && (!more && mmRemaining > prep.mmComplete ==> dt >= dtMax)
      decreases more, Phase(prep.rampType), timeVar != DT_SEGMENT, StepsLeft(mmRemaining, step)
    {
      hide Change, Travelled, Gain, Sq, Progress, Target, StepsLeft;
      ghost var q, v, d, t := prep.Shape(), prep.currentSpeed, mmRemaining, timeVar;
      mmRemaining, timeVar := StepRamp(prep, c, accel, start, mmRemaining, timeVar, minimumMm);
      ghost var used, before := timeVar, dt;
      dt := dt + timeVar;
      ghost var next := if dt < dtMax then dtMax - dt else dtMax + DT_SEGMENT - dt;
      more := mmRemaining > prep.mmComplete && (dt < dtMax || mmRemaining > minimumMm);
      RollsOn(p, q, prep.Shape(), c, v, prep.currentSpeed, start, d, mmRemaining, minimumMm, t, used, before, dtMax,
              more,
              next);
      KeepsPace(q, prep.Shape(), c, v, prep.currentSpeed, start, d, mmRemaining, minimumMm, t, used, before, dtMax,
                more,
                next);
      if more && t == DT_SEGMENT && prep.Shape() == q {
        StepsLeftDecreases(d, mmRemaining, step);
      }
      if dt < dtMax {
        timeVar := dtMax - dt;
      } else if mmRemaining > minimumMm {
        dtMax := dtMax + DT_SEGMENT;
        timeVar := dtMax - dt;
      }
    }
    SegmentEnds(p, prep.Shape(), c, prep.currentSpeed, mmRemaining, minimumMm, start, timeVar);
  }

  lemma SegmentEnds(p: Profile, q: Profile, c: Course, v: real, d: real, least: real, start: real, timeVar: real)
    requires Rolling(p, q, c, v, d, least, false, timeVar) && 0.0 <= least <= start && p.complete <= start
    ensures d <= start && (d == p.complete || d <= least)
    ensures Sq(v) == Target(c, d) && v >= 0.0
    ensures d == p.complete ==> v == p.exit
    ensures d > p.complete ==> OnTrack(q, c, v, d, d)
  {
    if d == p.complete {
      if OnTrack(q, c, v, d, least) {
        CompleteAtExit(q, c, v, d, least);
      }
      FinishedMeetsTarget(p, c);
    } else {
      TrackTo(q, c, v, d, least);
      OnProfileMeetsTarget(q, c, v, d);
    }
  }
}
