/** Choosing the velocity profile of a block: the first half of st_prep_buffer. */
module ProfileSelection {
  import opened PlanTypes
  import opened Prep
  import opened Kinematics
  import opened VelocityProfile

  /** Where the ramp from `c.entrySqr` up, or down, to squared speed `s` ends. */
  function RampEnd(c: Course, s: real): real
    requires c.accel != 0.0
  {
    c.mm - 0.5 / c.accel * (if s >= c.entrySqr then s - c.entrySqr else c.entrySqr - s)
  }

  lemma RampEndGain(c: Course, s: real)
    requires c.accel > 0.0
    ensures s >= c.entrySqr ==> c.entrySqr + Gain(c.accel, c.mm - RampEnd(c, s)) == s
    ensures s <= c.entrySqr ==> c.entrySqr - Gain(c.accel, c.mm - RampEnd(c, s)) == s
    ensures s >= c.entrySqr ==> Gain(c.accel, RampEnd(c, s)) == Gain(c.accel, c.mm) - (s - c.entrySqr)
    ensures s <= c.entrySqr ==> Gain(c.accel, RampEnd(c, s)) == Gain(c.accel, c.mm) - (c.entrySqr - s)
    ensures RampEnd(c, s) <= c.mm && (s != c.entrySqr ==> RampEnd(c, s) < c.mm)
  {
    var d := if s >= c.entrySqr then s - c.entrySqr else c.entrySqr - s;
    GainInverse(c.accel, d);
    GainSum(c.accel, c.mm, 0.5 / c.accel * d);
    GainSum(c.accel, c.mm, RampEnd(c, s));
    GainOrder(c.accel, 0.0, 0.5 / c.accel * d);
  }

  /** Where braking from the nominal speed has to start. */
  function BrakeStart(c: Course): real
    requires c.accel != 0.0
  {
    0.5 / c.accel * (Sq(c.nominal) - c.exitSqr)
  }

  /** Where the ramps from the entry and to the exit would meet. */
  function Intersection(c: Course): real
    requires c.accel != 0.0
  {
    0.5 * (c.mm + 0.5 / c.accel * (c.entrySqr - c.exitSqr))
  }

  lemma IntersectionGain(c: Course)
    requires c.accel > 0.0
    ensures 2.0 * Gain(c.accel, Intersection(c)) == Gain(c.accel, c.mm) + c.entrySqr - c.exitSqr
    ensures Gain(c.accel, BrakeStart(c)) == Sq(c.nominal) - c.exitSqr
  {
    GainInverse(c.accel, c.entrySqr - c.exitSqr);
    GainInverse(c.accel, Sq(c.nominal) - c.exitSqr);
    var k := 0.5 / c.accel * (c.entrySqr - c.exitSqr);
    GainSum(c.accel, c.mm, k);
    assert 2.0 * Gain(c.accel, 0.5 * (c.mm + k)) == Gain(c.accel, c.mm + k);
  }

  // ---------------------------------------------------------------- each kind of profile fits its course

  lemma HoldFits(c: Course, p: Profile, v: real)
    requires Followable(c) && c.hold && v >= 0.0 && Sq(v) == c.entrySqr && p.ramp == Decel && p.exit >= 0.0
    requires var stop := RampEnd(c, 0.0);
      if stop < 0.0 then p.complete == 0.0 && Sq(p.exit) == c.entrySqr - Gain(c.accel, c.mm)
      else p.complete == stop && p.exit == 0.0
    ensures OnProfile(p, c, v, c.mm, c.mm)
  {
    RampEndGain(c, 0.0);
    GainOrder(c.accel, 0.0, c.mm);
  }

  /** Above the nominal speed, and able to slow down to it within the block. */
  lemma SlowingFits(c: Course, p: Profile, v: real)
    requires Followable(c) && !c.hold && v >= 0.0 && Sq(v) == c.entrySqr > Sq(c.nominal) && p.ramp == DecelOverride
    requires EndsAtExit(p, c) && p.acc == RampEnd(c, Sq(c.nominal)) > 0.0 && p.dec == BrakeStart(c)
      && p.vmax == c.nominal
    ensures OnProfile(p, c, v, c.mm, c.mm)
  {
    var a := c.accel;
    RampEndGain(c, Sq(c.nominal));
    IntersectionGain(c);
    GainOrder(a, 0.0, p.dec);
    GainOrder(a, p.dec, p.acc);
    GainOrder(a, 0.0, c.mm);
    SqOrder(c.nominal, v);
  }

  /** Above the nominal speed over the whole block: the exit speed then is the nominal speed. */
  lemma SlowingThroughFits(c: Course, p: Profile, v: real)
    requires Followable(c) && !c.hold && v >= 0.0 && Sq(v) == c.entrySqr > Sq(c.nominal) && p.ramp == Decel
    requires RampEnd(c, Sq(c.nominal)) <= 0.0
    requires p.complete == 0.0 && p.exit >= 0.0 && Sq(p.exit) == c.entrySqr - Gain(c.accel, c.mm)
    ensures OnProfile(p, c, v, c.mm, c.mm)
  {
    RampEndGain(c, Sq(c.nominal));
    GainOrder(c.accel, RampEnd(c, Sq(c.nominal)), 0.0);
    GainOrder(c.accel, 0.0, c.mm);
  }

  lemma TrapezoidFits(c: Course, p: Profile, v: real)
    requires Followable(c) && !c.hold && v >= 0.0 && Sq(v) == c.entrySqr <= Sq(c.nominal) && EndsAtExit(p, c)
    requires 0.0 < Intersection(c) < c.mm && p.dec == BrakeStart(c) < Intersection(c) && p.vmax == c.nominal
    requires c.entrySqr == Sq(c.nominal) ==> p.ramp == Cruise
    requires c.entrySqr != Sq(c.nominal) ==> p.ramp == Accel && p.acc == RampEnd(c, Sq(c.nominal))
    ensures OnProfile(p, c, v, c.mm, c.mm)
  {
    var a := c.accel;
    RampEndGain(c, Sq(c.nominal));
    IntersectionGain(c);
    GainOrder(a, 0.0, p.dec);
    GainOrder(a, p.dec, Intersection(c));
    GainOrder(a, p.dec, RampEnd(c, Sq(c.nominal)));
    GainOrder(a, p.dec, c.mm);
    GainOrder(a, 0.0, c.mm);
    SqOrder(v, c.nominal);
  }

  lemma TriangleFits(c: Course, p: Profile, v: real)
    requires Followable(c) && !c.hold && v >= 0.0 && Sq(v) == c.entrySqr <= Sq(c.nominal) && EndsAtExit(p, c)
    requires 0.0 < Intersection(c) < c.mm && BrakeStart(c) >= Intersection(c) && p.ramp == Accel
    requires p.acc == p.dec == Intersection(c) && p.vmax >= 0.0 && Sq(p.vmax) == Gain(c.accel, p.acc) + c.exitSqr
    ensures OnProfile(p, c, v, c.mm, c.mm)
  {
    var a := c.accel;
    IntersectionGain(c);
    GainSum(a, c.mm, p.acc);
    GainOrder(a, 0.0, p.acc);
    GainOrder(a, p.acc, BrakeStart(c));
    GainOrder(a, 0.0, c.mm);
    SqOrder(c.nominal, p.vmax);
    SqOrder(0.0, p.vmax);
  }

  lemma DecelerationFits(c: Course, p: Profile, v: real)
    requires Followable(c) && !c.hold && v >= 0.0 && Sq(v) == c.entrySqr <= Sq(c.nominal) && EndsAtExit(p, c)
    requires Intersection(c) >= c.mm && p.ramp == Decel
    ensures OnProfile(p, c, v, c.mm, c.mm)
  {
    IntersectionGain(c);
    GainOrder(c.accel, Intersection(c), c.mm);
    GainOrder(c.accel, 0.0, c.mm);
  }

  lemma AccelerationFits(c: Course, p: Profile, v: real)
    requires Followable(c) && !c.hold && v >= 0.0 && Sq(v) == c.entrySqr <= Sq(c.nominal) && EndsAtExit(p, c)
    requires Intersection(c) <= 0.0 && p.ramp == Accel && p.acc == 0.0 && p.vmax == p.exit
    ensures OnProfile(p, c, v, c.mm, c.mm)
  {
    var a := c.accel;
    IntersectionGain(c);
    GainOrder(a, Intersection(c), 0.0);
    GainOrder(a, 0.0, c.mm);
    SqOrder(p.vmax, c.nominal);
    SqOrder(0.0, p.vmax);
  }

  // ---------------------------------------------------------------- the selection

  /** The profile of a block during a feed hold. */
  method SelectHoldProfile(prep: PrepState, c: Course, sqrt: real -> real)
    requires Followable(c) && c.hold && IsSqrt(sqrt) && prep.currentSpeed >= 0.0 && Sq(prep.currentSpeed) == c.entrySqr
    modifies prep`rampType, prep`mmComplete, prep`exitSpeed
    ensures OnProfile(prep.Shape(), c, prep.currentSpeed, c.mm, c.mm)
  {
    prep.mmComplete := 0.0;
    var inv2Accel := 0.5 / c.accel;
    prep.rampType := Decel;
    var decelDist := c.mm - inv2Accel * c.entrySqr;
    assert decelDist == RampEnd(c, 0.0);
    RampEndGain(c, 0.0);
    GainOrder(c.accel, decelDist, 0.0);
    if decelDist < 0.0 {
      var left := c.entrySqr - 2.0 * c.accel * c.mm;
      Root(sqrt, left);
      prep.exitSpeed := sqrt(left);
    } else {
      prep.mmComplete := decelDist;
      prep.exitSpeed := 0.0;
    }
    HoldFits(c, prep.Shape(), prep.currentSpeed);
  }

  /** Entry above the nominal speed: only after an override was reduced. */
  method SelectSlowingProfile(prep: PrepState, c: Course, sqrt: real -> real)
    requires Followable(c) && !c.hold && IsSqrt(sqrt) && prep.currentSpeed >= 0.0
    requires Sq(prep.currentSpeed) == c.entrySqr > Sq(c.nominal) && EndsAtExit(prep.Shape(), c)
    modifies prep`rampType, prep`exitSpeed, prep`decelOverride, prep`accelerateUntil, prep`decelerateAfter,
      prep`maximumSpeed
    ensures OnProfile(prep.Shape(), c, prep.currentSpeed, c.mm, c.mm)
    ensures prep.decelOverride == (old(prep.decelOverride) || RampEnd(c, Sq(c.nominal)) <= 0.0)
  {
    hide OnProfile;
    var inv2Accel := 0.5 / c.accel;
    prep.accelerateUntil := c.mm - inv2Accel * (c.entrySqr - Sq(c.nominal));
    if prep.accelerateUntil <= 0.0 {
      prep.rampType := Decel;
      var left := c.entrySqr - 2.0 * c.accel * c.mm;
      RampEndGain(c, Sq(c.nominal));
      GainOrder(c.accel, prep.accelerateUntil, 0.0);
      SqNonNegative(c.nominal);
      Root(sqrt, left);
      prep.exitSpeed := sqrt(left);
      prep.decelOverride := true;
      SlowingThroughFits(c, prep.Shape(), prep.currentSpeed);
    } else {
      prep.decelerateAfter := inv2Accel * (Sq(c.nominal) - c.exitSqr);
      prep.maximumSpeed := c.nominal;
      prep.rampType := DecelOverride;
      SlowingFits(c, prep.Shape(), prep.currentSpeed);
    }
  }

  /** Trapezoid or triangle. */
  method SelectPeakProfile(prep: PrepState, c: Course, intersectDistance: real, sqrt: real -> real)
    requires Followable(c) && !c.hold && IsSqrt(sqrt) && prep.currentSpeed >= 0.0
    requires Sq(prep.currentSpeed) == c.entrySqr <= Sq(c.nominal) && EndsAtExit(prep.Shape(), c)
    requires prep.rampType == Accel && prep.accelerateUntil == c.mm && 0.0 < intersectDistance == Intersection(c) < c.mm
    modifies prep`rampType, prep`accelerateUntil, prep`decelerateAfter, prep`maximumSpeed
    ensures OnProfile(prep.Shape(), c, prep.currentSpeed, c.mm, c.mm)
  {
    var inv2Accel := 0.5 / c.accel;
    prep.decelerateAfter := inv2Accel * (Sq(c.nominal) - c.exitSqr);
    if prep.decelerateAfter < intersectDistance {
      prep.maximumSpeed := c.nominal;
      if c.entrySqr == Sq(c.nominal) {
        prep.rampType := Cruise;
      } else {
        prep.accelerateUntil := prep.accelerateUntil - inv2Accel * (Sq(c.nominal) - c.entrySqr);
      }
      TrapezoidFits(c, prep.Shape(), prep.currentSpeed);
    } else {
      prep.accelerateUntil := intersectDistance;
      prep.decelerateAfter := intersectDistance;
      GainOrder(c.accel, 0.0, intersectDistance);
      var peakSqr := 2.0 * c.accel * intersectDistance + c.exitSqr;
      Root(sqrt, peakSqr);
      prep.maximumSpeed := sqrt(peakSqr);
      TriangleFits(c, prep.Shape(), prep.currentSpeed);
    }
  }

  /** Computes or recomputes the velocity profile of the block being prepped.  Whatever the case,
      the profile leaves the entry at the entry speed and meets the target speed of its course. */
  method SelectProfile(prep: PrepState, c: Course, sqrt: real -> real)
    requires Followable(c) && IsSqrt(sqrt) && prep.currentSpeed >= 0.0 && Sq(prep.currentSpeed) == c.entrySqr
    modifies prep`rampType, prep`mmComplete, prep`exitSpeed, prep`decelOverride, prep`accelerateUntil,
      prep`decelerateAfter, prep`maximumSpeed
    ensures OnProfile(prep.Shape(), c, prep.currentSpeed, c.mm, c.mm)
    ensures prep.decelOverride
      == (old(prep.decelOverride) || (!c.hold && c.entrySqr > Sq(c.nominal) && RampEnd(c, Sq(c.nominal)) <= 0.0))
  {
    if c.hold {
      SelectHoldProfile(prep, c, sqrt);
      return;
    }
    prep.mmComplete := 0.0;
    prep.rampType := Accel;
    prep.accelerateUntil := c.mm;
    Root(sqrt, c.exitSqr);
    prep.exitSpeed := sqrt(c.exitSqr);
    var intersectDistance := 0.5 * (c.mm + 0.5 / c.accel * (c.entrySqr - c.exitSqr));
    if c.entrySqr > Sq(c.nominal) {
      SelectSlowingProfile(prep, c, sqrt);
    } else if intersectDistance > 0.0 {
      if intersectDistance < c.mm {
        SelectPeakProfile(prep, c, intersectDistance, sqrt);
      } else {
        prep.rampType := Decel;
        DecelerationFits(c, prep.Shape(), prep.currentSpeed);
      }
    } else {
      prep.accelerateUntil := 0.0;
      prep.maximumSpeed := prep.exitSpeed;
      AccelerationFits(c, prep.Shape(), prep.currentSpeed);
    }
  }
}
