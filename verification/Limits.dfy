/** Unit vectors and the per-axis limits a direction allows. */
module Limits {
  import opened PlanTypes

  /** SOME_LARGE_VALUE */
  const SOME_LARGE_VALUE := 100000000000000000000000000000000000000.0

  /** The share of `x` that falls on an axis. */
  function OnAxis(x: real, u: real): real {
    x * Abs(u)
  }

  /** A speed or acceleration `x` along direction `unit` keeps the first `n` axes within their
      settings. */
  ghost predicate WithinAxes(x: real, setting: seq<real>, unit: seq<real>, n: nat)
    requires n <= |unit| == |setting|
  {
    forall i :: 0 <= i < n ==> OnAxis(x, unit[i]) <= Abs(setting[i])
  }

  lemma QuotientBounds(x: real, m: real, u: real)
    requires u != 0.0
    ensures x <= Abs(m / u) <==> OnAxis(x, u) <= Abs(m)
    ensures Abs(m / u) >= 0.0
  {
    var q := m / u;
    assert q * u == m;
    assert Abs(q) * Abs(u) == Abs(m);
    if x <= Abs(q) {
      assert (Abs(q) - x) * Abs(u) >= 0.0;
    } else {
      assert (x - Abs(q)) * Abs(u) > 0.0;
    }
  }

  /** The least of SOME_LARGE_VALUE and the limits of the first `n` axes the direction uses. */
  function AxisCap(setting: seq<real>, unit: seq<real>, n: nat): real
    requires n <= |unit| == |setting|
  {
    if n == 0 then SOME_LARGE_VALUE
    else if unit[n - 1] == 0.0 then AxisCap(setting, unit, n - 1)
    else Min(AxisCap(setting, unit, n - 1), Abs(setting[n - 1] / unit[n - 1]))
  }

  lemma {:induction false} AxisCapIsLargest(setting: seq<real>, unit: seq<real>, n: nat, x: real)
    requires n <= |unit| == |setting|
    ensures x <= AxisCap(setting, unit, n) <==> x <= SOME_LARGE_VALUE && WithinAxes(x, setting, unit, n)
  {
    if n > 0 {
      AxisCapIsLargest(setting, unit, n - 1, x);
      assert WithinAxes(x, setting, unit, n)
        <==> WithinAxes(x, setting, unit, n - 1) && OnAxis(x, unit[n - 1]) <= Abs(setting[n - 1]);
      if unit[n - 1] != 0.0 {
        QuotientBounds(x, setting[n - 1], unit[n - 1]);
      }
    }
  }

  ghost predicate LargestWithin(limit: real, setting: seq<real>, unit: seq<real>)
    requires |unit| == |setting|
  {
    var n := |unit|;
    forall x :: WithinAxes(x, setting, unit, n) && x <= SOME_LARGE_VALUE <==> x <= limit
  }

  lemma LargestCovers(limit: real, setting: seq<real>, unit: seq<real>, x: real)
    requires |unit| == |setting| && LargestWithin(limit, setting, unit) && x <= limit
    ensures WithinAxes(x, setting, unit, |unit|)
  {
  }

  lemma AxisCapLargestWithin(setting: seq<real>, unit: seq<real>)
    requires |unit| == |setting|
    ensures LargestWithin(AxisCap(setting, unit, |unit|), setting, unit)
  {
    var n := |unit|;
    var limit := AxisCap(setting, unit, n);
    forall x ensures WithinAxes(x, setting, unit, n) && x <= SOME_LARGE_VALUE <==> x <= limit {
      AxisCapIsLargest(setting, unit, n, x);
    }
  }

  lemma {:induction false} AxisCapPositive(setting: seq<real>, unit: seq<real>, n: nat)
    requires n <= |unit| == |setting| && forall i :: 0 <= i < |setting| ==> setting[i] != 0.0
    ensures AxisCap(setting, unit, n) > 0.0
  {
    if n > 0 {
      AxisCapPositive(setting, unit, n - 1);
      if unit[n - 1] != 0.0 {
        assert (setting[n - 1] / unit[n - 1]) * unit[n - 1] == setting[n - 1];
      }
    }
  }

  /** limit_value_by_axis_maximum: the largest value, up to SOME_LARGE_VALUE, that keeps every axis
      within its setting. */
  method LimitByAxisMaximum(setting: seq<real>, unit: seq<real>) returns (limit: real)
    requires |unit| == |setting|
    ensures limit == AxisCap(setting, unit, |unit|)
    ensures LargestWithin(limit, setting, unit)
  {
    limit := SOME_LARGE_VALUE;
    var i := 0;
    while i < |unit|
      invariant 0 <= i <= |unit|
      invariant limit == AxisCap(setting, unit, i)
    {
      if unit[i] != 0.0 {
        limit := Min(limit, Abs(setting[i] / unit[i]));
      }
      i := i + 1;
    }
    AxisCapLargestWithin(setting, unit);
  }

  // ---------------------------------------------------------------- vectors

  /** The inner product of the first `n` components. */
  function Dot(u: seq<real>, v: seq<real>, n: nat): real
    requires n <= |u| && n <= |v|
  {
    if n == 0 then 0.0 else Dot(u, v, n - 1) + Times(u[n - 1], v[n - 1])
  }

  ghost predicate IsUnit(u: seq<real>) {
    Dot(u, u, |u|) == 1.0
  }

  lemma SquareSign(x: real)
    ensures Times(x, x) >= 0.0 && (x != 0.0 ==> Times(x, x) > 0.0)
  {
    if x > 0.0 {
      TimesPositive(x, x);
    } else if x < 0.0 {
      TimesPositive(-x, -x);
      assert Times(-x, -x) == Times(x, x);
    }
  }

  lemma {:induction false} DotPositive(u: seq<real>, n: nat, i: nat)
    requires i < n <= |u| && u[i] != 0.0
    ensures Dot(u, u, n) > 0.0
  {
    SquareSign(u[n - 1]);
    if i < n - 1 {
      DotPositive(u, n - 1, i);
    } else {
      DotNonNegative(u, n - 1);
    }
  }

  lemma {:induction false} DotNonNegative(u: seq<real>, n: nat)
    requires n <= |u|
    ensures Dot(u, u, n) >= 0.0
  {
    if n > 0 {
      SquareSign(u[n - 1]);
      DotNonNegative(u, n - 1);
    }
  }

  function Scaled(v: seq<real>, k: real): (w: seq<real>)
    ensures |w| == |v|
  {
    seq(|v|, i requires 0 <= i < |v| => v[i] * k)
  }

  lemma {:induction false} DotScaled(u: seq<real>, v: seq<real>, k: real, n: nat)
    requires n <= |u| == |v| && v == Scaled(u, k)
    ensures Dot(v, v, n) == Dot(u, u, n) * k * k
  {
    if n > 0 {
      DotScaled(u, v, k, n - 1);
      assert Times(v[n - 1], v[n - 1]) == Times(u[n - 1], u[n - 1]) * k * k;
    }
  }

  /** The length of a scaled unit vector. */
  lemma UnitLength(u: seq<real>, k: real, d: seq<real>)
    requires IsUnit(u) && d == Scaled(u, k)
    ensures Dot(d, d, |d|) == Sq(k)
  {
    hide Dot;
    DotScaled(u, d, k, |d|);
  }

  /** |u - v|^2 expanded. */
  lemma {:induction false} DotOfDifference(u: seq<real>, v: seq<real>, d: seq<real>, n: nat)
    requires n <= |u| == |v| == |d| && forall i :: 0 <= i < |u| ==> d[i] == u[i] - v[i]
    ensures Dot(d, d, n) == Dot(u, u, n) + Dot(v, v, n) - 2.0 * Dot(u, v, n)
  {
    if n > 0 {
      DotOfDifference(u, v, d, n - 1);
      var x, y := u[n - 1], v[n - 1];
      assert Times(x - y, x - y) == Times(x, x) + Times(y, y) - 2.0 * Times(x, y);
    }
  }

  lemma {:induction false} DotOfZero(u: seq<real>, n: nat)
    requires n <= |u| && Dot(u, u, n) > 0.0
    ensures exists i :: 0 <= i < n && u[i] != 0.0
  {
    if n > 0 && u[n - 1] == 0.0 {
      DotOfZero(u, n - 1);
    }
  }

  lemma RootIsPositive(m2: real, m: real)
    requires m2 > 0.0 && m >= 0.0 && m * m == m2
    ensures m > 0.0 && m2 * (1.0 / m) * (1.0 / m) == 1.0
  {
    var k := 1.0 / m;
    assert m * k == 1.0;
    assert m2 * k * k == (m * k) * (m * k);
  }

  lemma ScaledTwice(x: real, k: real, m: real)
    requires k * m == 1.0
    ensures x * k * m == x
  {
    assert x * k * m == x * (k * m);
  }

  lemma ScaledBack(v: seq<real>, m: real, k: real)
    requires k * m == 1.0
    ensures Scaled(Scaled(v, k), m) == v
  {
    var w := Scaled(Scaled(v, k), m);
    forall i | 0 <= i < |v| ensures w[i] == v[i] {
      ScaledTwice(v[i], k, m);
    }
  }

  lemma ScaledToUnit(v: seq<real>, m: real, k: real, n: nat)
    requires n == |v| && k * m == 1.0 && Dot(v, v, n) == m * m
    ensures IsUnit(Scaled(v, k))
  {
    var w := Scaled(v, k);
    DotScaled(v, w, k, n);
    calc {
      Dot(w, w, n);
      Dot(v, v, n) * k * k;
      m * m * k * k;
      (k * m) * (k * m);
      1.0;
    }
  }

  /** The length of the vector: the first loop and the square root. */
  method Magnitude(v: seq<real>, sqrt: real -> real) returns (m: real)
    requires IsSqrt(sqrt) && exists i :: 0 <= i < |v| && v[i] != 0.0
    ensures m > 0.0 && m * m == Dot(v, v, |v|) && m == sqrt(Dot(v, v, |v|))
  {
    m := 0.0;
    var i := 0;
    while i < |v|
      invariant 0 <= i <= |v| && m == Dot(v, v, i)
    {
      if v[i] != 0.0 {
        m := m + v[i] * v[i];
      }
      assert Dot(v, v, i + 1) == Dot(v, v, i) + Times(v[i], v[i]);
      i := i + 1;
    }
    ghost var k :| 0 <= k < |v| && v[k] != 0.0;
    DotPositive(v, |v|, k);
    ghost var m2 := m;
    m := sqrt(m);
    RootIsPositive(m2, m);
  }

  /** The unit vector along `v`. */
  function Direction(v: seq<real>, sqrt: real -> real): (u: seq<real>)
    ensures |u| == |v|
  {
    var m := sqrt(Dot(v, v, |v|));
    if m == 0.0 then v else Scaled(v, 1.0 / m)
  }

  /** convert_delta_vector_to_unit_vector: the vector is scaled to length one in place; its old
      length is the result.  The division asks for a vector that is not all zero. */
  method ToUnitVector(vector: array<real>, sqrt: real -> real) returns (magnitude: real)
    requires IsSqrt(sqrt)
    requires exists i :: 0 <= i < vector.Length && vector[i] != 0.0
    modifies vector
    ensures magnitude > 0.0 && magnitude == sqrt(Dot(old(vector[..]), old(vector[..]), vector.Length))
    ensures IsUnit(vector[..]) && Scaled(vector[..], magnitude) == old(vector[..])
    ensures vector[..] == Direction(old(vector[..]), sqrt)
  {
    ghost var v := vector[..];
    magnitude := Magnitude(vector[..], sqrt);
    var inverse := 1.0 / magnitude;
    Scale(vector, inverse);
    assert inverse * magnitude == 1.0;
    ScaledBack(v, magnitude, inverse);
    ScaledToUnit(v, magnitude, inverse, |v|);
  }

  /** The second loop: every component times `k`. */
  method Scale(vector: array<real>, k: real)
    modifies vector
    ensures vector[..] == Scaled(old(vector[..]), k)
  {
    ghost var v := vector[..];
    ghost var w := Scaled(v, k);
    var i := 0;
    while i < vector.Length
      invariant 0 <= i <= vector.Length
      invariant forall j :: 0 <= j < vector.Length ==> vector[j] == if j < i then w[j] else v[j]
    {
      vector[i] := vector[i] * k;
      i := i + 1;
    }
  }
}
