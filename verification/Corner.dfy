/** The corner between two lines, and the circle that rounds it. */
module Corner {
  import opened PlanTypes
  import opened Limits

  function CosTheta(previous: seq<real>, unit: seq<real>): real
    requires |previous| == |unit|
  {
    -Dot(previous, unit, |unit|)
  }

  function Difference(unit: seq<real>, previous: seq<real>): (d: seq<real>)
    requires |previous| == |unit|
    ensures |d| == |unit|
  {
    seq(|unit|, i requires 0 <= i < |unit| => unit[i] - previous[i])
  }

  /** A circle of radius `r` about `center` touches the line through the origin along `unit`. */
  predicate Touches(center: seq<real>, unit: seq<real>, r: real)
    requires |center| == |unit|
  {
    Dot(center, center, |center|) - Sq(Dot(center, unit, |center|)) == Sq(r)
  }

  /** With the corner at the origin: a circle that touches both lines, whose centre lies at distance
      `h` along `bisector`, and whose closest point misses the corner by the deviation. */
  predicate Rounds(previous: seq<real>, unit: seq<real>, bisector: seq<real>, deviation: real, r: real, h: real)
    requires |previous| == |unit| == |bisector|
  {
    && r >= 0.0 && h - r == deviation
    && Touches(Scaled(bisector, h), previous, r) && Touches(Scaled(bisector, h), unit, r)
  }

  lemma {:induction false} DotCommutes(u: seq<real>, v: seq<real>, n: nat)
    requires n <= |u| && n <= |v|
    ensures Dot(u, v, n) == Dot(v, u, n)
  {
    if n > 0 {
      DotCommutes(u, v, n - 1);
    }
  }

  lemma {:induction false} DotScaledLeft(u: seq<real>, k: real, v: seq<real>, n: nat)
    requires n <= |u| == |v|
    ensures Dot(Scaled(u, k), v, n) == Times(k, Dot(u, v, n))
  {
    if n > 0 {
      DotScaledLeft(u, k, v, n - 1);
      TimesSum(k, Dot(u, v, n - 1), u[n - 1], v[n - 1]);
    }
  }

  lemma TimesSum(k: real, d: real, x: real, y: real)
    ensures Times(k, d) + Times(x * k, y) == Times(k, d + Times(x, y))
  {
  }

  lemma {:induction false} DotOfDifferences(u: seq<real>, p: seq<real>, v: seq<real>, n: nat)
    requires n <= |u| == |p| == |v|
    ensures Dot(Difference(u, p), v, n) == Dot(u, v, n) - Dot(p, v, n)
  {
    if n > 0 {
      DotOfDifferences(u, p, v, n - 1);
      assert Times(u[n - 1] - p[n - 1], v[n - 1]) == Times(u[n - 1], v[n - 1]) - Times(p[n - 1], v[n - 1]);
    }
  }

  /** The bisector meets both lines at the same angle. */
  lemma BisectorProjects(previous: seq<real>, unit: seq<real>, bisector: seq<real>, m: real, n: nat)
    requires |previous| == |unit| == |bisector| == n && IsUnit(previous) && IsUnit(unit) && IsUnit(bisector)
    requires m > 0.0 && Scaled(bisector, m) == Difference(unit, previous)
    ensures var c := CosTheta(previous, unit);
      Times(m, Dot(bisector, unit, n)) == 1.0 + c && Times(m, Dot(bisector, previous, n)) == -1.0 - c
        && Sq(m) == 2.0 + 2.0 * c
  {
    var d := Difference(unit, previous);
    DotOfDifference(unit, previous, d, n);
    hide Dot, Times, Scaled, Difference, Sq;
    DotScaledLeft(bisector, m, unit, n);
    DotScaledLeft(bisector, m, previous, n);
    DotOfDifferences(unit, previous, unit, n);
    DotOfDifferences(unit, previous, previous, n);
    DotCommutes(unit, previous, n);
    UnitLength(bisector, m, d);
  }

  lemma ProjectionSquared(m: real, x: real, c: real)
    requires Sq(m) == 2.0 + 2.0 * c && (m * x == 1.0 + c || m * x == -1.0 - c) && m > 0.0
    ensures Sq(x) == 0.5 * (1.0 + c)
  {
    assert (m * x) * (m * x) == (1.0 + c) * (1.0 + c);
    assert (m * m) * (x * x) == (m * x) * (m * x);
    var y := Sq(x) - 0.5 * (1.0 + c);
    assert Sq(m) * y == 0.0;
  }

  /** A circle at distance `h` with the sine of the half angle touches a line at that angle. */
  lemma TouchesAtAngle(bisector: seq<real>, unit: seq<real>, h: real, s: real, c: real, n: nat)
    requires |bisector| == |unit| == n && IsUnit(bisector)
    requires Sq(Dot(bisector, unit, n)) == 0.5 * (1.0 + c) && Sq(s) == 0.5 * (1.0 - c)
    ensures Touches(Scaled(bisector, h), unit, h * s)
  {
    hide Dot;
    var center := Scaled(bisector, h);
    DotScaled(bisector, center, h, n);
    DotScaledLeft(bisector, h, unit, n);
    var x := Dot(bisector, unit, n);
    assert Sq(h * x) == Sq(h) * Sq(x) && Sq(h * s) == Sq(h) * Sq(s);
  }

  /** The circle of the half angle formula rounds the corner. */
  lemma FormulaRounds(previous: seq<real>, unit: seq<real>, bisector: seq<real>, m: real, deviation: real, s: real,
                      h: real)
    requires |previous| == |unit| == |bisector| && IsUnit(previous) && IsUnit(unit) && IsUnit(bisector)
    requires m > 0.0 && Scaled(bisector, m) == Difference(unit, previous)
    requires 0.0 <= s < 1.0 && Sq(s) == 0.5 * (1.0 - CosTheta(previous, unit)) && h >= 0.0 && h - h * s == deviation
    ensures Rounds(previous, unit, bisector, deviation, h * s, h)
  {
    hide Dot, IsUnit, CosTheta, Touches, Scaled;
    var n, c := |unit|, CosTheta(previous, unit);
    BisectorProjects(previous, unit, bisector, m, n);
    ProjectionSquared(m, Dot(bisector, unit, n), c);
    ProjectionSquared(m, Dot(bisector, previous, n), c);
    TouchesAtAngle(bisector, unit, h, s, c, n);
    TouchesAtAngle(bisector, previous, h, s, c, n);
    TimesNonNegative(h, s);
  }

  /** No other circle does. */
  lemma OneCircle(previous: seq<real>, unit: seq<real>, bisector: seq<real>, m: real, deviation: real, s: real,
                  r: real, h: real)
    requires |previous| == |unit| == |bisector| && IsUnit(previous) && IsUnit(unit) && IsUnit(bisector)
    requires m > 0.0 && Scaled(bisector, m) == Difference(unit, previous) && deviation >= 0.0
    requires 0.0 <= s < 1.0 && Sq(s) == 0.5 * (1.0 - CosTheta(previous, unit))
      && Rounds(previous, unit, bisector, deviation, r, h)
    ensures r == h * s && h - h * s == deviation
  {
    hide Dot, IsUnit, CosTheta, Scaled;
    var n, c := |unit|, CosTheta(previous, unit);
    BisectorProjects(previous, unit, bisector, m, n);
    ProjectionSquared(m, Dot(bisector, unit, n), c);
    TouchesAtAngle(bisector, unit, h, s, c, n);
    TimesNonNegative(h, s);
    SqOrder(r, h * s);
  }

  lemma TimesNonNegative(x: real, y: real)
    requires x >= 0.0 && y >= 0.0
    ensures x * y >= 0.0
  {
  }
}
