/** Squared speed against distance under constant acceleration. */
module Kinematics {
  import opened PlanTypes

  /** The change of squared speed at acceleration `a` over distance `d`. */
  function Gain(a: real, d: real): real {
    2.0 * a * d
  }

  function Max(x: real, y: real): real {
    if x < y then y else x
  }

  lemma GainOrder(a: real, x: real, y: real)
    requires a > 0.0
    ensures x < y <==> Gain(a, x) < Gain(a, y)
    ensures x == y <==> Gain(a, x) == Gain(a, y)
    ensures Gain(a, 0.0) == 0.0
  {
    if x < y {
      TimesPositive(a, y - x);
    } else if y < x {
      TimesPositive(a, x - y);
    }
    assert Times(a, y - x) == a * y - a * x && Times(a, x - y) == a * x - a * y;
  }

  lemma GainSum(a: real, x: real, y: real)
    ensures Gain(a, x + y) == Gain(a, x) + Gain(a, y)
    ensures Gain(a, x - y) == Gain(a, x) - Gain(a, y)
  {
  }

  /** `inv_2_accel` turns a change of squared speed into the distance it takes. */
  lemma GainInverse(a: real, s: real)
    requires a > 0.0
    ensures Gain(a, 0.5 / a * s) == s
  {
    var k := 0.5 / a;
    assert k * a == 0.5;
    assert 2.0 * a * (k * s) == 2.0 * (k * a) * s;
  }

  lemma SqNonNegative(x: real)
    ensures Sq(x) >= 0.0 && (x != 0.0 <==> Sq(x) > 0.0)
  {
    if x > 0.0 {
      TimesPositive(x, x);
    } else if x < 0.0 {
      TimesPositive(-x, -x);
    }
    assert Times(x, x) == Sq(x) && Times(-x, -x) == Sq(x);
  }

  lemma Root(sqrt: real -> real, x: real)
    requires IsSqrt(sqrt) && x >= 0.0
    ensures sqrt(x) >= 0.0 && Sq(sqrt(x)) == x
  {
  }

  // ---------------------------------------------------------------- one step in time

  /** The change of speed at acceleration `a` in time `t`. */
  function Change(a: real, t: real): real {
    a * t
  }

  /** Where a tool at distance `d` from the end is after time `t`, at average speed `v`. */
  function Travelled(d: real, t: real, v: real): real {
    d - t * v
  }

  /** The time distance `d` takes on a ramp between two speeds. */
  function RampTime(d: real, v: real, w: real): real
    requires v + w != 0.0
  {
    2.0 * d / (v + w)
  }

  /** It is the time at the mean of the two speeds, and the one in which the acceleration gets from one
      to the other. */
  lemma RampTimeIs(a: real, d: real, v: real, w: real)
    requires v + w > 0.0
    ensures RampTime(d, v, w) * (v + w) == 2.0 * d
    ensures Sq(w) - Sq(v) == Gain(a, d) ==> w == v + a * RampTime(d, v, w)
    ensures Sq(v) - Sq(w) == Gain(a, d) ==> w == v - a * RampTime(d, v, w)
  {
    var t := RampTime(d, v, w);
    assert t * (v + w) == 2.0 * d;
    hide RampTime, Sq;
    if Sq(w) - Sq(v) == Gain(a, d) {
      SpeedChange(a, t, d, v, w);
    }
    if Sq(v) - Sq(w) == Gain(a, d) {
      SpeedChange(-a, t, d, v, w);
    }
  }

  lemma SpeedChange(a: real, t: real, d: real, v: real, w: real)
    requires v + w > 0.0 && t * (v + w) == 2.0 * d && Sq(w) - Sq(v) == Gain(a, d)
    ensures w == v + a * t
  {
    var s := v + w;
    SquaresDiffer(v, w, s);
    assert (a * t) * s == a * (t * s);
    assert a * (2.0 * d) == Gain(a, d);
    hide Sq, Gain;
    SameFactor(w - v, a * t, s);
  }

  lemma SquaresDiffer(v: real, w: real, s: real)
    requires s == v + w
    ensures Sq(w) - Sq(v) == (w - v) * s
  {
  }

  /** Accelerating keeps squared speed plus gain; decelerating keeps squared speed minus gain. */
  lemma AcceleratingKeeps(a: real, v: real, d: real, t: real)
    ensures Sq(v + Change(a, t)) + Gain(a, Travelled(d, t, v + 0.5 * Change(a, t))) == Sq(v) + Gain(a, d)
  {
    var s := a * t;
    assert Sq(v + s) == Sq(v) + 2.0 * v * s + s * s;
    assert 2.0 * a * (t * (v + 0.5 * s)) == 2.0 * v * s + s * s;
  }

  lemma DeceleratingKeeps(a: real, v: real, d: real, t: real)
    ensures Sq(v - Change(a, t)) - Gain(a, Travelled(d, t, v - 0.5 * Change(a, t))) == Sq(v) - Gain(a, d)
  {
    var s := a * t;
    assert Sq(v - s) == Sq(v) - 2.0 * v * s + s * s;
    assert 2.0 * a * (t * (v - 0.5 * s)) == 2.0 * v * s - s * s;
  }
}
