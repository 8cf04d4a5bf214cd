/** The velocity profile of a block: which ramps it takes, and what speed that means at every
    distance from the end of the block. */
module VelocityProfile {
  import opened PlanTypes
  import opened Prep
  import opened Kinematics

  /** What a profile is computed from: the block as it stands, the planned exit speed and the
      nominal speed.  `hold` forces a stop. */
  datatype Course = Course(accel: real, entrySqr: real, mm: real, exitSqr: real, nominal: real, hold: bool)

  /** The plan can be followed: the exit speed is in reach both ways and below the nominal speed. */
  ghost predicate Followable(c: Course) {
    && c.accel > 0.0 && c.mm > 0.0 && c.entrySqr >= 0.0 && c.exitSqr >= 0.0 && c.nominal > 0.0
    && (!c.hold ==> Abs(c.entrySqr - c.exitSqr) <= Gain(c.accel, c.mm) && c.exitSqr <= Sq(c.nominal))
  }

  // ---------------------------------------------------------------- the reference: speed against distance

  /** How fast the tool may be at distance `d` coming from the entry: towards the nominal speed at
      full acceleration, from above or from below. */
  function FromEntry(c: Course, d: real): real {
    if c.entrySqr <= Sq(c.nominal) then Min(Sq(c.nominal), c.entrySqr + Gain(c.accel, c.mm - d))
    else Max(Sq(c.nominal), c.entrySqr - Gain(c.accel, c.mm - d))
  }

  /** The squared speed at distance `d` from the end: braking all the way in a hold, otherwise the
      highest speed that entry, nominal speed and exit allow. */
  function Target(c: Course, d: real): real {
    if c.hold then c.entrySqr - Gain(c.accel, c.mm - d)
    else Min(c.exitSqr + Gain(c.accel, d), FromEntry(c, d))
  }

  /** No motion that starts at the entry speed, keeps to the acceleration and nominal speed and ends
      at the exit speed is faster anywhere: `w` gives its squared speed at each distance. */
  lemma TargetIsFastest(c: Course, w: real -> real, d: real)
    requires Followable(c) && !c.hold && c.entrySqr <= Sq(c.nominal) && 0.0 <= d <= c.mm
    requires w(c.mm) == c.entrySqr && w(0.0) == c.exitSqr && w(d) <= Sq(c.nominal)
    requires forall x, y :: 0.0 <= x <= y <= c.mm ==> Abs(w(y) - w(x)) <= Gain(c.accel, y - x)
    ensures w(d) <= Target(c, d)
  {
    assert Abs(w(c.mm) - w(d)) <= Gain(c.accel, c.mm - d);
    assert Abs(w(d) - w(0.0)) <= Gain(c.accel, d - 0.0);
  }

  lemma FromEntryChanges(c: Course, x: real, y: real)
    requires Followable(c) && x <= y
    ensures Abs(FromEntry(c, y) - FromEntry(c, x)) <= Gain(c.accel, y - x)
    ensures c.entrySqr <= Sq(c.nominal) ==> FromEntry(c, y) <= FromEntry(c, x)
    ensures c.entrySqr > Sq(c.nominal) ==> FromEntry(c, x) <= FromEntry(c, y)
  {
    GainSum(c.accel, y, x);
    GainSum(c.accel, c.mm, x);
    GainSum(c.accel, c.mm, y);
    GainOrder(c.accel, x, y);
  }

  /** The speed never changes faster than the acceleration allows, and the planned exit stays in
      reach. */
  lemma TargetChanges(c: Course, x: real, y: real)
    requires Followable(c) && 0.0 <= x <= y <= c.mm
    ensures Abs(Target(c, y) - Target(c, x)) <= Gain(c.accel, y - x)
    ensures !c.hold ==> Abs(Target(c, x) - c.exitSqr) <= Gain(c.accel, x)
    ensures !c.hold ==> Target(c, c.mm) == c.entrySqr && Target(c, 0.0) == c.exitSqr
  {
    GainSum(c.accel, y, x);
    GainSum(c.accel, c.mm, x);
    GainSum(c.accel, c.mm, y);
    GainOrder(c.accel, x, y);
    GainOrder(c.accel, 0.0, c.mm);
    GainOrder(c.accel, 0.0, x);
    FromEntryChanges(c, x, y);
  }

  /** The speed stays below the nominal speed, or below the entry speed while slowing down to it. */
  lemma TargetCapped(c: Course, d: real)
    requires Followable(c) && d <= c.mm
    ensures Target(c, d) <= Max(c.entrySqr, Sq(c.nominal))
  {
    GainSum(c.accel, c.mm, d);
    GainOrder(c.accel, d, c.mm);
  }

  // ---------------------------------------------------------------- profiles that hit the target speed

  ghost predicate EndsAtExit(p: Profile, c: Course) {
    p.complete == 0.0 && p.exit >= 0.0 && Sq(p.exit) == c.exitSqr
  }

  /** The ramp away from the entry, which ends at `acc`. */
  ghost predicate Accelerating(p: Profile, c: Course, v: real, d: real) {
    && EndsAtExit(p, c) && c.entrySqr <= Sq(c.nominal) && 0.0 <= p.acc <= d <= c.mm
    && Sq(v) == c.entrySqr + Gain(c.accel, c.mm - d)
    && 0.0 < p.vmax <= c.nominal && Sq(p.vmax) == c.entrySqr + Gain(c.accel, c.mm - p.acc)
    && ((p.acc == 0.0 && p.vmax == p.exit) || Peaks(p, c))
  }

  /** Both breakpoints are set: 0 <= dec <= acc, and the peak can be braked to the exit speed.
      Unless the peak is the nominal speed the two coincide. */
  ghost predicate Peaks(p: Profile, c: Course) {
    && 0.0 <= p.dec <= p.acc && Sq(p.vmax) == c.exitSqr + Gain(c.accel, p.dec)
    && (p.dec < p.acc ==> p.vmax == c.nominal)
  }

  /** The ramp down to the nominal speed, after an override was reduced. */
  ghost predicate Slowing(p: Profile, c: Course, v: real, d: real) {
    && EndsAtExit(p, c) && c.entrySqr > Sq(c.nominal) && 0.0 < p.acc <= d <= c.mm
    && Sq(v) == c.entrySqr - Gain(c.accel, c.mm - d)
    && p.vmax == c.nominal <= v && Sq(p.vmax) == c.entrySqr - Gain(c.accel, c.mm - p.acc)
    && 0.0 <= p.dec <= p.acc && Sq(p.vmax) == c.exitSqr + Gain(c.accel, p.dec)
  }

  /** At nominal speed.  `m` is `d`, or the distance the running segment has to reach. */
  ghost predicate Cruising(p: Profile, c: Course, v: real, d: real, m: real) {
    && EndsAtExit(p, c) && v == p.vmax == c.nominal && 0.0 <= p.dec <= d && 0.0 <= m <= d && m <= c.mm
    && Sq(p.vmax) == c.exitSqr + Gain(c.accel, p.dec)
    && FromEntry(c, m) == Sq(c.nominal)
  }

  /** Braking to the exit speed. */
  ghost predicate Braking(p: Profile, c: Course, v: real, d: real, m: real) {
    && EndsAtExit(p, c) && 0.0 <= m <= d && m <= c.mm
    && Sq(v) == c.exitSqr + Gain(c.accel, d)
    && c.exitSqr + Gain(c.accel, m) <= FromEntry(c, m)
  }

  /** Braking to a standstill, or through the whole block. */
  ghost predicate Stopping(p: Profile, c: Course, v: real, d: real) {
    && 0.0 <= p.complete <= d <= c.mm && p.exit >= 0.0 && (p.complete > 0.0 ==> p.exit == 0.0)
    && Sq(v) == c.entrySqr - Gain(c.accel, c.mm - d)
    && Sq(p.exit) == c.entrySqr - Gain(c.accel, c.mm - p.complete)
  }

  ghost predicate OnProfile(p: Profile, c: Course, v: real, d: real, m: real) {
    && v >= 0.0 && Followable(c)
    && match p.ramp
       case Accel => !c.hold && 0.0 <= m <= d && Accelerating(p, c, v, d)
       case Cruise => !c.hold && Cruising(p, c, v, d, m)
       case DecelOverride => !c.hold && 0.0 <= m <= d && Slowing(p, c, v, d)
       case Decel => if c.hold then 0.0 <= m <= d && Stopping(p, c, v, d) else Braking(p, c, v, d, m)
  }

  /** On the profile the speed is the target speed. */
  lemma OnProfileMeetsTarget(p: Profile, c: Course, v: real, d: real)
    requires OnProfile(p, c, v, d, d)
    ensures 0.0 <= d <= c.mm && Sq(v) == Target(c, d)
  {
    var a := c.accel;
    GainSum(a, c.mm, d);
    GainOrder(a, d, p.dec);
    GainOrder(a, d, p.acc);
    GainOrder(a, p.dec, p.acc);
    GainOrder(a, d, c.mm);
    match p.ramp
    case Accel =>
      GainSum(a, c.mm, p.acc);
      SqOrder(p.vmax, c.nominal);
    case Cruise =>
    case DecelOverride =>
      GainSum(a, c.mm, p.acc);
      SqOrder(p.vmax, v);
    case Decel =>
  }
}
