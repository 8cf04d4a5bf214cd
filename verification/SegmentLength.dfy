/** How far one segment can get: what the nominal speed makes in a segment's time, once the least
    distance is reached. */
module SegmentLength {
  import opened PlanTypes
  import opened Prep
  import opened Kinematics
  import opened VelocityProfile
  import opened RampStep

  /** The block is not faster than its nominal speed. */
  ghost predicate Capped(c: Course) {
    Followable(c) && c.entrySqr <= Sq(c.nominal)
  }

  /** In a step of time `t` that takes the distance left from `d` to `e`, what lies beyond `least` is
      no more than the nominal speed makes in that time, nor in the time the step reports. */
  ghost predicate Paced(p: Profile, c: Course, least: real, d: real, e: real, t: real, used: real) {
    if t > 0.0
    then
      && Min(e, least) >= Min(d, least) - Times(c.nominal, t)
      && (used < t && p.complete < e ==> used >= 0.0 && Min(e, least) >= Min(d, least) - Times(c.nominal, used))
    else e >= d && used == t
  }

  lemma TimesOrder(k: real, x: real, y: real)
    requires k >= 0.0
    ensures x <= y ==> Times(k, x) <= Times(k, y)
    ensures Times(k, x + y) == Times(k, x) + Times(k, y) && Times(k, x - y) == Times(k, x) - Times(k, y)
    ensures Times(k, 0.0) == 0.0
  {
    if x < y && k > 0.0 {
      TimesPositive(k, y - x);
      assert Times(k, y - x) == Times(k, y) - Times(k, x);
    }
  }

  /** A change of speed between `u` and `w`, neither above `k`, takes time, and so covers ground. */
  lemma ChangeTakes(a: real, k: real, u: real, w: real, t: real, x: real)
    requires a > 0.0 && 0.0 <= w <= u <= k && u - w <= Change(a, t) && Gain(a, x) <= Sq(u) - Sq(w)
    ensures x <= Times(k, t)
  {
    TimesSign(u - w, k - u);
    TimesSign(u - w, k - w);
    assert Sq(u) - Sq(w) <= 2.0 * (u - w) * k by {
      assert (u - w) * (k - u) + (u - w) * (k - w) == 2.0 * (u - w) * k - (Sq(u) - Sq(w));
    }
    TimesSign(k, Change(a, t) - (u - w));
    assert k * (Change(a, t) - (u - w)) == a * Times(k, t) - (u - w) * k;
    var z := x - Times(k, t);
    assert Times(a, z) == a * x - a * Times(k, t) <= 0.0;
    if z > 0.0 {
      TimesPositive(a, z);
    }
  }

  /** A ramp between two speeds not above `k`. */
  lemma RampTakes(k: real, v: real, w: real, d: real, t: real)
    requires 0.0 <= v <= k && 0.0 <= w <= k && v + w > 0.0 && d >= 0.0 && t == RampTime(d, v, w)
    ensures d <= Times(k, t) && t >= 0.0
  {
    var s := v + w;
    assert t * s == 2.0 * d;
    assert Times(-t, s) == -(t * s);
    if t < 0.0 {
      TimesPositive(-t, s);
    }
    TimesSign(2.0 * k - s, t);
    assert (2.0 * k - s) * t == 2.0 * Times(k, t) - t * s;
  }

  // ---------------------------------------------------------------- accelerating

  lemma AccelSpeeds(p: Profile, c: Course, v: real, d: real, least: real)
    requires OnTrack(p, c, v, d, least) && p.ramp == Accel
    ensures 0.0 <= v <= p.vmax <= c.nominal && p.acc <= d && 0.0 < p.vmax
    ensures Sq(p.vmax) == Sq(v) + Gain(c.accel, d - p.acc)
  {
    GainSum(c.accel, c.mm, p.acc);
    GainSum(c.accel, c.mm, d);
    GainSum(c.accel, d, p.acc);
    GainOrder(c.accel, p.acc, d);
    SqOrder(v, p.vmax);
    SqOrder(p.vmax, v);
  }

  lemma AccelPaced(p: Profile, q: Profile, c: Course, v: real, w: real, start: real, d: real, e: real, least: real,
                   t: real, used: real)
    requires Stepped(p, q, c.accel, v, w, start, d, e, t, used) && OnTrack(p, c, v, d, least)
    requires Capped(c) && p.ramp == Accel && d <= start && t > 0.0
    ensures Paced(p, c, least, d, e, t, used)
  {
    var a, k, w := c.accel, c.nominal, v + Change(c.accel, t);
    var glide := DistanceAfter(p, a, v, d, t);
    AccelSpeeds(p, c, v, d, least);
    AcceleratingKeeps(a, v, d, t);
    SpeedingDistance(a, v, d, t);
    TimesSign(a, t);
    GainSum(a, d, glide);
    GainSum(a, d, p.acc);
    GainOrder(a, p.acc, glide);
    SqOrder(w, p.vmax);
    SqOrder(p.vmax, w);
    hide Sq, Gain, Travelled, OnTrack, RampTime, Times;
    if glide < p.acc {
      ChangeTakes(a, k, p.vmax, v, t, d - p.acc);
      RampTakes(k, v, p.vmax, start - p.acc, used);
    } else {
      ChangeTakes(a, k, w, v, t, d - e);
    }
    TimesOrder(k, 0.0, t);
  }

  // ---------------------------------------------------------------- cruising and braking

  lemma CruisePaced(p: Profile, q: Profile, c: Course, v: real, w: real, start: real, d: real, e: real, least: real,
                    t: real, used: real)
    requires Stepped(p, q, c.accel, v, w, start, d, e, t, used) && OnTrack(p, c, v, d, least)
    requires Capped(c) && p.ramp == Cruise
    ensures Paced(p, c, least, d, e, t, used)
  {
    var k := c.nominal;
    TravelSign(d, t, k);
    TimesOrder(k, 0.0, t);
    assert Times(k, t) == t * k;
    var x := (d - p.dec) / k;
    assert Times(k, x) == d - p.dec == -Times(k, -x);
    if x < 0.0 {
      TimesPositive(k, -x);
    }
  }

  /** On the braking curve: nowhere too fast at the least distance. */
  lemma BrakingSpeeds(p: Profile, c: Course, v: real, d: real, least: real)
    requires OnTrack(p, c, v, d, least) && p.ramp == Decel && Capped(c)
    ensures 0.0 <= p.exit <= c.nominal && p.complete <= d && v >= 0.0
    ensures Sq(v) - Gain(c.accel, d) == Sq(p.exit) - Gain(c.accel, p.complete)
    ensures v > c.nominal ==>
      least < d && Sq(p.exit) - Gain(c.accel, p.complete) + Gain(c.accel,
      least) <= Sq(c.nominal)
  {
    GainSum(c.accel, c.mm, d);
    GainSum(c.accel, c.mm, p.complete);
    GainOrder(c.accel, d, c.mm);
    GainOrder(c.accel, p.complete, c.mm);
    GainOrder(c.accel, 0.0, d);
    SqOrder(v, c.nominal);
    SqOrder(c.nominal, v);
    SqOrder(p.exit, c.nominal);
    SqOrder(c.nominal, p.exit);
  }

  /** Down to distance `e` at speed `w`, from distance `d` at speed `v`. */
  lemma BrakePaced(c: Course, v: real, w: real, d: real, e: real, least: real, t: real, curve: real)
    requires Capped(c) && t > 0.0 && 0.0 <= w <= v && v - w <= Change(c.accel, t) && e <= d
    requires Sq(v) - Gain(c.accel, d) == curve == Sq(w) - Gain(c.accel, e)
    requires v > c.nominal ==> least < d && curve + Gain(c.accel, least) <= Sq(c.nominal)
    ensures Min(e, least) >= Min(d, least) - Times(c.nominal, t)
  {
    var a, k := c.accel, c.nominal;
    GainSum(a, d, e);
    GainSum(a, least, e);
    GainOrder(a, e, least);
    SqOrder(w, k);
    SqOrder(k, w);
    TimesOrder(k, 0.0, t);
    hide Sq, Gain, Change, Times;
    if v <= k {
      ChangeTakes(a, k, v, w, t, d - e);
    } else if e < least {
      ChangeTakes(a, k, k, w, t, least - e);
    }
  }

  lemma DecelPaced(p: Profile, q: Profile, c: Course, v: real, w: real, start: real, d: real, e: real, least: real,
                   t: real, used: real)
    requires Stepped(p, q, c.accel, v, w, start, d, e, t, used) && OnTrack(p, c, v, d, least)
    requires Capped(c) && p.ramp == Decel && t > 0.0 && least >= 0.0
    ensures Paced(p, c, least, d, e, t, used)
  {
    var a := c.accel;
    var glide := DistanceAfter(p, a, v, d, t);
    BrakingSpeeds(p, c, v, d, least);
    DeceleratingKeeps(a, v, d, t);
    GainOrder(a, p.complete, d);
    SqOrder(p.exit, v);
    SqOrder(v, p.exit);
    if v <= Change(a, t) {
      hide Sq, Gain, Change, Travelled, OnTrack, Times;
      BrakePaced(c, v, p.exit, d, p.complete, least, t, Sq(v) - Gain(a, d));
    } else {
      BrakingDistance(a, v, d, t);
      HalfSquare(a, t);
      hide Sq, Gain, Travelled, OnTrack, Times;
      BrakePaced(c, v, v - Change(a, t), d, glide, least, t, Sq(v) - Gain(a, d));
    }
  }

  lemma DecelBack(p: Profile, q: Profile, c: Course, v: real, w: real, start: real, d: real, e: real, least: real,
                  t: real, used: real)
    requires Stepped(p, q, c.accel, v, w, start, d, e, t, used) && OnTrack(p, c, v, d, least)
    requires p.ramp == Decel && t <= 0.0 && least >= 0.0 && p.complete < d
    ensures Paced(p, c, least, d, e, t, used)
  {
    BrakeEnds(p, c, v, d, least);
    BrakingBack(c.accel, v, d, t);
    TimesSign(-t, c.accel);
    hide OnTrack;
  }

  /** Every step is paced. */
  lemma StepPaced(p: Profile, q: Profile, c: Course, v: real, w: real, start: real, d: real, e: real, least: real,
                  t: real, used: real)
    requires StepsOnTrack(p, q, c, v, w, start, d, e, least, t, used) && OnTrack(p, c, v, d, least)
    requires Capped(c) && least >= 0.0 && (p.ramp == Accel ==> d <= start)
    requires t > 0.0 || (p.complete < d && p.ramp != Accel && p.ramp != DecelOverride)
    ensures Paced(p, c, least, d, e, t, used)
  {
    hide Paced, Change, Travelled, Stepped;
    match p.ramp
    case Accel => AccelPaced(p, q, c, v, w, start, d, e, least, t, used);
    case Cruise => CruisePaced(p, q, c, v, w, start, d, e, least, t, used);
    case Decel =>
      if t > 0.0 {
        DecelPaced(p, q, c, v, w, start, d, e, least, t, used);
      } else {
        DecelBack(p, q, c, v, w, start, d, e, least, t, used);
      }
    case DecelOverride =>
      assert false;
  }

  // ---------------------------------------------------------------- the whole segment

  /** What the loop keeps when the next step takes time `t`: with `dt` the time of one segment, the
      distance beyond `least` is paced. */
  ghost predicate Within(c: Course, least: real, d: real, t: real, dt: real) {
    if t > 0.0 then t <= dt && Min(d, least) - Times(c.nominal, t) >= least - Times(c.nominal, dt)
    else least < d
  }

  lemma WithinNext(p: Profile, c: Course, least: real, d: real, e: real, t: real, used: real, dt: real, next: real)
    requires Within(c, least, d, t, dt) && Paced(p, c, least, d, e, t, used) && c.nominal > 0.0 && dt > 0.0
    requires (next == t - used && used < t && p.complete < e) || (next == t - used + dt && used >= t && least < e)
    ensures Within(c, least, e, next, dt)
  {
    TimesOrder(c.nominal, next, dt);
    TimesOrder(c.nominal, t, used);
    hide Times;
  }

  lemma WithinEnds(p: Profile, c: Course, least: real, d: real, e: real, t: real, used: real, dt: real)
    requires Within(c, least, d, t, dt) && Paced(p, c, least, d, e, t, used) && c.nominal > 0.0 && dt > 0.0
    ensures Min(e, least) >= least - Times(c.nominal, dt)
  {
    TimesOrder(c.nominal, 0.0, dt);
    hide Times;
  }
}
