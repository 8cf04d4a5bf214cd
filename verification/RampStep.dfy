/** One pass through the ramp switch of the segment generator. */
module RampStep {
  import opened PlanTypes
  import opened Prep
  import opened Kinematics
  import opened VelocityProfile

  /** The speed after time `t` on the current ramp. */
  function SpeedAfter(p: Profile, a: real, v: real, t: real): real {
    match p.ramp
    case Accel => v + Change(a, t)
    case Cruise => p.vmax
    case _ => v - Change(a, t)
  }

  /** The distance left after time `t` on the current ramp: average speed times time. */
  function DistanceAfter(p: Profile, a: real, v: real, d: real, t: real): real {
    match p.ramp
    case Accel => Travelled(d, t, v + 0.5 * Change(a, t))
    case Cruise => Travelled(d, t, p.vmax)
    case _ => Travelled(d, t, v - 0.5 * Change(a, t))
  }

  /** Where the current ramp ends. */
  function Boundary(p: Profile): real {
    match p.ramp
    case Cruise => p.dec
    case Decel => p.complete
    case _ => p.acc
  }

  /** True when the ramp ends within time `t`. */
  predicate EndsWithin(p: Profile, a: real, v: real, d: real, t: real) {
    match p.ramp
    case DecelOverride => v - p.vmax <= Change(a, t)
    case Decel => v <= Change(a, t) || DistanceAfter(p, a, v, d, t) <= p.complete
    case _ => DistanceAfter(p, a, v, d, t) < Boundary(p)
  }

  function NextRamp(p: Profile): Ramp {
    match p.ramp
    case DecelOverride => Cruise
    case Accel => if p.acc == p.dec then Decel else Cruise
    case _ => Decel
  }

  function EndSpeed(p: Profile): real {
    if p.ramp == Decel then p.exit else p.vmax
  }

  /** The end of the profile: the end of the block at its exit speed, or the end of a hold. */
  ghost predicate Finished(p: Profile, v: real, d: real) {
    d == p.complete && v == p.exit
  }

  /** What a profile keeps while its ramps are followed. */
  ghost predicate SameEnd(p: Profile, q: Profile) {
    q == p.(ramp := q.ramp)
  }

  /** The running segment must reach `least`; until then a ramp change can set it back. */
  ghost predicate OnTrack(p: Profile, c: Course, v: real, d: real, least: real) {
    OnProfile(p, c, v, d, Min(d, least)) && p.complete <= d
  }

  /** The least distance covered in time `t` on a ramp that does not end. */
  function Progress(c: Course, t: real): real {
    Min(0.5 * c.accel * t * t, t * c.nominal)
  }

  lemma ProgressAtMost(c: Course, t: real)
    requires c.accel > 0.0
    ensures Progress(c, t) <= 0.5 * c.accel * t * t && Progress(c, t) <= t * c.nominal
  {
  }

  lemma HalfSquare(a: real, t: real)
    requires a > 0.0
    ensures 0.5 * a * t * t >= 0.0
  {
    SqNonNegative(t);
    TimesSign(a, Sq(t));
    assert a * Sq(t) == a * t * t;
  }

  // ---------------------------------------------------------------- the ramps one by one

  /** `w` and `e` are speed and distance after some time on the acceleration ramp. */
  lemma AccelGlides(p: Profile, c: Course, v: real, d: real, least: real, w: real, e: real)
    requires OnTrack(p, c, v, d, least) && p.ramp == Accel && least >= 0.0
    requires Sq(w) + Gain(c.accel, e) == Sq(v) + Gain(c.accel, d) && w >= 0.0 && p.acc <= e <= d
    ensures OnTrack(p, c, w, e, least)
  {
    GainSum(c.accel, c.mm, d);
    GainSum(c.accel, c.mm, e);
  }

  /** How far a tool gets that speeds up, and one that slows down without coming to rest. */
  lemma SpeedingDistance(a: real, v: real, d: real, t: real)
    requires a > 0.0 && t > 0.0 && v >= 0.0
    ensures Travelled(d, t, v + 0.5 * Change(a, t)) <= d - 0.5 * a * t * t
    ensures v + Change(a, t) >= 0.0
  {
    TimesSign(t, v);
    TimesSign(a, t);
    assert t * (v + 0.5 * Change(a, t)) == t * v + 0.5 * (a * t * t);
  }

  lemma TimesSign(x: real, y: real)
    requires x >= 0.0 && y >= 0.0
    ensures x * y >= 0.0
  {
  }

  lemma AccelEnds(p: Profile, c: Course, v: real, d: real, least: real, q: Profile)
    requires OnTrack(p, c, v, d, least) && p.ramp == Accel && least >= 0.0 && q == p.(ramp := NextRamp(p))
    ensures OnTrack(q, c, p.vmax, p.acc, least) || Finished(q, p.vmax, p.acc)
  {
    var a := c.accel;
    var m := Min(p.acc, least);
    SqOrder(p.vmax, c.nominal);
    SqOrder(p.vmax, p.exit);
    GainSum(a, c.mm, p.acc);
    GainSum(a, c.mm, m);
    GainOrder(a, m, p.acc);
    GainOrder(a, 0.0, p.dec);
  }

  lemma SlowGlides(p: Profile, c: Course, v: real, d: real, least: real, w: real, e: real)
    requires OnTrack(p, c, v, d, least) && p.ramp == DecelOverride && least >= 0.0
    requires Sq(w) - Gain(c.accel, e) == Sq(v) - Gain(c.accel, d) && w > p.vmax && e <= d
    ensures OnTrack(p, c, w, e, least)
  {
    var a := c.accel;
    GainSum(a, c.mm, d);
    GainSum(a, c.mm, e);
    GainSum(a, c.mm, p.acc);
    SqOrder(p.vmax, w);
    GainOrder(a, p.acc, e);
  }

  /** A braking step that does not come to rest covers at least half of a * t * t. */
  lemma BrakingDistance(a: real, v: real, d: real, t: real)
    requires a > 0.0 && t >= 0.0 && v >= Change(a, t)
    ensures Travelled(d, t, v - 0.5 * Change(a, t)) <= d - 0.5 * a * t * t
  {
    TimesSign(t, v - a * t);
    assert t * (v - a * t) == t * v - a * t * t;
    assert t * (v - 0.5 * Change(a, t)) == t * v - 0.5 * (a * t * t);
  }

  lemma SlowEnds(p: Profile, c: Course, v: real, d: real, least: real, q: Profile)
    requires OnTrack(p, c, v, d, least) && p.ramp == DecelOverride && least >= 0.0 && q == p.(ramp := Cruise)
    ensures OnTrack(q, c, p.vmax, p.acc, least)
  {
    var a, m := c.accel, Min(p.acc, least);
    GainSum(a, c.mm, p.acc);
    GainSum(a, c.mm, m);
    GainOrder(a, m, p.acc);
  }

  /** A step back in time is possible here, but only while the segment is short of its least
      distance. */
  lemma CruiseGlides(p: Profile, c: Course, v: real, d: real, least: real, t: real)
    requires OnTrack(p, c, v, d, least) && p.ramp == Cruise && (t > 0.0 || least < d) && least >= 0.0
    requires !EndsWithin(p, c.accel, v, d, t)
    ensures OnTrack(p, c, p.vmax, DistanceAfter(p, c.accel, v, d, t), least)
    ensures t > 0.0 ==> DistanceAfter(p, c.accel, v, d, t) <= d - Progress(c, t)
    ensures t <= 0.0 ==> DistanceAfter(p, c.accel, v, d, t) >= d
  {
    hide Travelled, Gain, Sq, Progress;
    var e := DistanceAfter(p, c.accel, v, d, t);
    TravelSign(d, t, p.vmax);
    if t > 0.0 {
      ProgressAtMost(c, t);
      StillReached(c, Min(d, least), Min(e, least));
    }
  }

  lemma TravelSign(d: real, t: real, v: real)
    requires v >= 0.0
    ensures Travelled(d, t, v) == d - t * v && (t > 0.0 ==> t * v >= 0.0) && (t <= 0.0 ==> t * v <= 0.0)
  {
    if t > 0.0 {
      TimesSign(t, v);
    } else {
      TimesSign(-t, v);
      assert -t * v == -(t * v);
    }
  }

  /** Once at nominal speed, at nominal speed from there on. */
  lemma StillReached(c: Course, m: real, k: real)
    requires Followable(c) && k <= m && FromEntry(c, m) == Sq(c.nominal)
    ensures FromEntry(c, k) == Sq(c.nominal)
  {
    GainSum(c.accel, c.mm, m);
    GainSum(c.accel, c.mm, k);
    GainOrder(c.accel, k, m);
  }

  lemma CruiseEnds(p: Profile, c: Course, v: real, d: real, least: real, q: Profile)
    requires OnTrack(p, c, v, d, least) && p.ramp == Cruise && least >= 0.0 && q == p.(ramp := Decel)
    ensures OnTrack(q, c, p.vmax, p.dec, least)
  {
    var m := Min(p.dec, least);
    StillReached(c, Min(d, least), m);
    GainOrder(c.accel, m, p.dec);
  }

  lemma BrakeGlides(p: Profile, c: Course, v: real, d: real, least: real, w: real, e: real)
    requires OnTrack(p, c, v, d, least) && p.ramp == Decel && least >= 0.0
    requires Sq(w) - Gain(c.accel, e) == Sq(v) - Gain(c.accel, d) && w >= 0.0 && p.complete <= e
    requires e <= d || (least < d && !c.hold)
    ensures OnTrack(p, c, w, e, least)
  {
    var a := c.accel;
    if c.hold {
      GainSum(a, c.mm, d);
      GainSum(a, c.mm, e);
    } else {
      StillBraking(c, Min(d, least), Min(e, least));
    }
  }

  /** A braking step back in time. */
  lemma BrakingBack(a: real, v: real, d: real, t: real)
    requires a > 0.0 && t <= 0.0 && v >= 0.0
    ensures Travelled(d, t, v - 0.5 * Change(a, t)) >= d && v - Change(a, t) >= 0.0
  {
    TimesSign(-t, a);
    TimesSign(-t, v - 0.5 * Change(a, t));
    assert -t * (v - 0.5 * Change(a, t)) == -(t * (v - 0.5 * Change(a, t)));
  }

  /** A braking tool that is not at the exit speed moves. */
  lemma BrakeEnds(p: Profile, c: Course, v: real, d: real, least: real)
    requires OnTrack(p, c, v, d, least) && p.ramp == Decel && least >= 0.0 && p.complete < d
    ensures v > p.exit
  {
    GainSum(c.accel, c.mm, d);
    GainSum(c.accel, c.mm, p.complete);
    GainOrder(c.accel, p.complete, d);
    GainOrder(c.accel, 0.0, d);
    SqOrder(p.exit, v);
  }

  lemma StillBraking(c: Course, m: real, k: real)
    requires Followable(c) && !c.hold && k <= m && c.exitSqr + Gain(c.accel, m) <= FromEntry(c, m)
    ensures c.exitSqr + Gain(c.accel, k) <= FromEntry(c, k)
  {
    GainSum(c.accel, m, k);
    FromEntryChanges(c, k, m);
  }

  // ---------------------------------------------------------------- the switch

  lemma AccelStepsOnTrack(p: Profile, c: Course, v: real, d: real, least: real, t: real, w: real, e: real)
    requires OnTrack(p, c, v, d, least) && p.ramp == Accel && least >= 0.0 && t > 0.0
    requires !EndsWithin(p, c.accel, v, d, t) && w == SpeedAfter(p, c.accel, v, t)
      && e == DistanceAfter(p, c.accel, v, d, t)
    ensures OnTrack(p, c, w, e, least) && e <= d - Progress(c, t)
  {
    hide Change, Travelled, Gain, Sq, Progress;
    AcceleratingKeeps(c.accel, v, d, t);
    SpeedingDistance(c.accel, v, d, t);
    HalfSquare(c.accel, t);
    ProgressAtMost(c, t);
    AccelGlides(p, c, v, d, least, w, e);
  }

  lemma SlowStepsOnTrack(p: Profile, c: Course, v: real, d: real, least: real, t: real, w: real, e: real)
    requires OnTrack(p, c, v, d, least) && p.ramp == DecelOverride && least >= 0.0 && t > 0.0
    requires !EndsWithin(p, c.accel, v, d, t) && w == SpeedAfter(p, c.accel, v, t)
      && e == DistanceAfter(p, c.accel, v, d, t)
    ensures OnTrack(p, c, w, e, least) && e <= d - Progress(c, t)
  {
    hide Change, Travelled, Gain, Sq, Progress;
    DeceleratingKeeps(c.accel, v, d, t);
    BrakingDistance(c.accel, v, d, t);
    HalfSquare(c.accel, t);
    ProgressAtMost(c, t);
    SlowGlides(p, c, v, d, least, w, e);
  }

  lemma BrakeStepsOnTrack(p: Profile, c: Course, v: real, d: real, least: real, t: real, w: real, e: real)
    requires OnTrack(p, c, v, d, least) && p.ramp == Decel && least >= 0.0 && (t > 0.0 || (least < d && !c.hold))
    requires !EndsWithin(p, c.accel, v, d, t) && w == SpeedAfter(p, c.accel, v, t)
      && e == DistanceAfter(p, c.accel, v, d, t)
    ensures OnTrack(p, c, w, e, least) && (t > 0.0 ==> e <= d - Progress(c, t))
  {
    hide Change, Travelled, Gain, Sq, Progress;
    DeceleratingKeeps(c.accel, v, d, t);
    if t > 0.0 {
      BrakingDistance(c.accel, v, d, t);
      HalfSquare(c.accel, t);
      ProgressAtMost(c, t);
    } else {
      BrakingBack(c.accel, v, d, t);
    }
    BrakeGlides(p, c, v, d, least, w, e);
  }

  /** The time to the end of the current ramp.  On the first ramps it is measured from the start of
      the segment. */
  function EndTime(p: Profile, start: real, v: real, d: real): real {
    match p.ramp
    case Cruise => if p.vmax == 0.0 then 0.0 else (d - p.dec) / p.vmax
    case Decel => if v + p.exit == 0.0 then 0.0 else RampTime(d - p.complete, v, p.exit)
    case _ => if v + p.vmax == 0.0 then 0.0 else RampTime(start - p.acc, v, p.vmax)
  }

  /** For a ramp that starts with the segment it is the time the ramp takes: at the mean of the speeds at
      its ends, and at the acceleration of the block. */
  lemma EndTimeIs(p: Profile, c: Course, v: real, d: real, least: real)
    requires OnTrack(p, c, v, d, least) && v + EndSpeed(p) > 0.0
    ensures EndTime(p, d, v, d) * (v + EndSpeed(p)) == 2.0 * (d - Boundary(p))
    ensures EndSpeed(p) == v + EndTime(p, d, v, d)
                             * (if p.ramp == Accel then c.accel else if p.ramp == Cruise then 0.0 else -c.accel)
  {
    hide OnTrack, Sq, Gain, EndTime, Boundary;
    RampGain(p, c, v, d, least);
    if p.ramp == Cruise {
      SteadyTime(p, v, d);
    } else {
      RampEndTime(p, c.accel, v, d);
    }
  }

  lemma SteadyTime(p: Profile, v: real, d: real)
    requires p.ramp == Cruise && p.vmax == v != 0.0
    ensures EndTime(p, d, v, d) * (v + EndSpeed(p)) == 2.0 * (d - Boundary(p))
  {
    assert (d - p.dec) / v * v == d - p.dec;
  }

  lemma RampEndTime(p: Profile, a: real, v: real, d: real)
    requires p.ramp != Cruise && v + EndSpeed(p) > 0.0
    requires Gain(a, d - Boundary(p)) == if p.ramp == Accel then Sq(EndSpeed(p)) - Sq(v) else Sq(v) - Sq(EndSpeed(p))
    ensures EndTime(p, d, v, d) * (v + EndSpeed(p)) == 2.0 * (d - Boundary(p))
    ensures EndSpeed(p) == v + EndTime(p, d, v, d) * (if p.ramp == Accel then a else -a)
  {
    hide Sq, Gain, RampTime;
    RampTimeIs(a, d - Boundary(p), v, EndSpeed(p));
  }

  lemma RampGain(p: Profile, c: Course, v: real, d: real, least: real)
    requires OnTrack(p, c, v, d, least)
    ensures var change := Sq(EndSpeed(p)) - Sq(v);
      p.ramp != Cruise ==> Gain(c.accel, d - Boundary(p)) == if p.ramp == Accel then change else -change
    ensures p.ramp == Cruise ==> p.vmax == v
  {
    hide Sq, Gain, FromEntry;
    GainDifference(c.accel, c.mm - Boundary(p), c.mm - d);
    GainDifference(c.accel, d, Boundary(p));
  }

  lemma GainDifference(a: real, x: real, y: real)
    ensures Gain(a, x) - Gain(a, y) == Gain(a, x - y)
  {
  }

  /** What a pass through the switch with worker time `t` does to profile, speed and distance. */
  ghost predicate Stepped(p: Profile, q: Profile, a: real, v: real, w: real, start: real, d: real, e: real,
                          t: real, used: real) {
    if EndsWithin(p, a, v, d, t)
    then q == p.(ramp := NextRamp(p)) && w == EndSpeed(p) && e == Boundary(p) && used == EndTime(p, start, v, d)
    else q == p && w == SpeedAfter(p, a, v, t) && e == DistanceAfter(p, a, v, d, t) && used == t
  }

  ghost predicate StepsOnTrack(p: Profile, q: Profile, c: Course, v: real, w: real, start: real, d: real, e: real,
                               least: real, t: real, used: real) {
    && Stepped(p, q, c.accel, v, w, start, d, e, t, used)
    && (OnTrack(q, c, w, e, least) || Finished(q, w, e))
    && (!EndsWithin(p, c.accel, v, d, t) && t > 0.0 ==> e <= d - Progress(c, t))
  }

  /** RAMP_DECEL_OVERRIDE */
  method StepSlowing(prep: PrepState, ghost c: Course, accel: real, start: real, mm: real, timeVar: real,
                     ghost least: real)
    returns (mmRemaining: real, used: real)
    requires OnTrack(prep.Shape(), c, prep.currentSpeed, mm, least) && prep.rampType == DecelOverride
      && accel == c.accel
    requires timeVar > 0.0 && least >= 0.0
    modifies prep`rampType, prep`currentSpeed
    ensures StepsOnTrack(old(prep.Shape()), prep.Shape(), c, old(prep.currentSpeed), prep.currentSpeed, start,
                         mm, mmRemaining, least, timeVar, used)
  {
    hide Change, Travelled, RampTime, Gain, Sq, Progress;
    ghost var p, v := prep.Shape(), prep.currentSpeed;
    var speedVar := Change(accel, timeVar);
    if prep.currentSpeed - prep.maximumSpeed <= speedVar {
      mmRemaining := prep.accelerateUntil;
      used := RampTime(start - mmRemaining, prep.currentSpeed, prep.maximumSpeed);
      prep.rampType := Cruise;
      prep.currentSpeed := prep.maximumSpeed;
      SlowEnds(p, c, v, mm, least, prep.Shape());
    } else {
      mmRemaining := Travelled(mm, timeVar, prep.currentSpeed - 0.5 * speedVar);
      prep.currentSpeed := prep.currentSpeed - speedVar;
      used := timeVar;
      SlowStepsOnTrack(p, c, v, mm, least, timeVar, prep.currentSpeed, mmRemaining);
    }
  }

  /** RAMP_ACCEL */
  method StepAccelerating(prep: PrepState, ghost c: Course, accel: real, start: real, mm: real, timeVar: real,
                          ghost least: real)
    returns (mmRemaining: real, used: real)
    requires OnTrack(prep.Shape(), c, prep.currentSpeed, mm, least) && prep.rampType == Accel && accel == c.accel
    requires timeVar > 0.0 && least >= 0.0
    modifies prep`rampType, prep`currentSpeed
    ensures StepsOnTrack(old(prep.Shape()), prep.Shape(), c, old(prep.currentSpeed), prep.currentSpeed, start,
                         mm, mmRemaining, least, timeVar, used)
  {
    hide Change, Travelled, RampTime, Gain, Sq, Progress;
    ghost var p, v := prep.Shape(), prep.currentSpeed;
    var speedVar := Change(accel, timeVar);
    mmRemaining := Travelled(mm, timeVar, prep.currentSpeed + 0.5 * speedVar);
    if mmRemaining < prep.accelerateUntil {
      mmRemaining := prep.accelerateUntil;
      used := RampTime(start - mmRemaining, prep.currentSpeed, prep.maximumSpeed);
      if mmRemaining == prep.decelerateAfter {
        prep.rampType := Decel;
      } else {
        prep.rampType := Cruise;
      }
      prep.currentSpeed := prep.maximumSpeed;
      AccelEnds(p, c, v, mm, least, prep.Shape());
    } else {
      prep.currentSpeed := prep.currentSpeed + speedVar;
      used := timeVar;
      AccelStepsOnTrack(p, c, v, mm, least, timeVar, prep.currentSpeed, mmRemaining);
    }
  }

  /** RAMP_CRUISE */
  method StepCruising(prep: PrepState, ghost c: Course, ghost start: real, mm: real, timeVar: real, ghost least: real)
    returns (mmRemaining: real, used: real)
    requires OnTrack(prep.Shape(), c, prep.currentSpeed, mm, least) && prep.rampType == Cruise
    requires (timeVar > 0.0 || least < mm) && least >= 0.0
    modifies prep`rampType
    ensures StepsOnTrack(old(prep.Shape()), prep.Shape(), c, old(prep.currentSpeed), prep.currentSpeed, start,
                         mm, mmRemaining, least, timeVar, used)
  {
    hide Change, Travelled, RampTime, Gain, Sq, Progress;
    ghost var p, v := prep.Shape(), prep.currentSpeed;
    var mmVar := Travelled(mm, timeVar, prep.maximumSpeed);
    if mmVar < prep.decelerateAfter {
      used := (mm - prep.decelerateAfter) / prep.maximumSpeed;
      mmRemaining := prep.decelerateAfter;
      prep.rampType := Decel;
      CruiseEnds(p, c, v, mm, least, prep.Shape());
    } else {
      mmRemaining := mmVar;
      used := timeVar;
      CruiseGlides(p, c, v, mm, least, timeVar);
    }
  }

  /** RAMP_DECEL.  A hold that ends where it starts has speed and distance zero; its time is then
      the quotient of two zeros, which the caller never uses. */
  method StepBraking(prep: PrepState, ghost c: Course, accel: real, ghost start: real, mm: real, timeVar: real,
                     ghost least: real)
    returns (mmRemaining: real, used: real)
    requires OnTrack(prep.Shape(), c, prep.currentSpeed, mm, least) && prep.rampType == Decel && accel == c.accel
    requires (timeVar > 0.0 || (least < mm && !c.hold && prep.mmComplete < mm)) && least >= 0.0
    modifies prep`currentSpeed
    ensures StepsOnTrack(old(prep.Shape()), prep.Shape(), c, old(prep.currentSpeed), prep.currentSpeed, start,
                         mm, mmRemaining, least, timeVar, used)
  {
    hide Change, Travelled, RampTime, Gain, Sq, Progress;
    ghost var p, v := prep.Shape(), prep.currentSpeed;
    var speedVar := Change(accel, timeVar);
    if prep.mmComplete < mm {
      BrakeEnds(p, c, v, mm, least);
    }
    if timeVar <= 0.0 {
      BrakingBack(accel, v, mm, timeVar);
    }
    if prep.currentSpeed > speedVar {
      var mmVar := Travelled(mm, timeVar, prep.currentSpeed - 0.5 * speedVar);
      if mmVar > prep.mmComplete {
        mmRemaining := mmVar;
        prep.currentSpeed := prep.currentSpeed - speedVar;
        used := timeVar;
        BrakeStepsOnTrack(p, c, v, mm, least, timeVar, prep.currentSpeed, mmRemaining);
        return;
      }
    }
    used := if prep.currentSpeed + prep.exitSpeed == 0.0 then 0.0
            else RampTime(mm - prep.mmComplete, prep.currentSpeed, prep.exitSpeed);
    mmRemaining := prep.mmComplete;
    prep.currentSpeed := prep.exitSpeed;
  }
}
