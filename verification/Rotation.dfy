/** Rotations of a vector in the plane: exact ones, and the small ones that mc_arc approximates. */
module Rotation {
  import opened PlanTypes
  import opened Kinematics

  /** The coordinates of a point on the unit circle. */
  ghost predicate OnCircle(cos: real -> real, sin: real -> real, a: real) {
    Norm(cos(a), sin(a)) == 1.0
  }

  /** The addition theorem. */
  ghost predicate AddsUp(cos: real -> real, sin: real -> real, a: real, b: real) {
    && cos(a + b) == cos(a) * cos(b) - sin(a) * sin(b)
    && sin(a + b) == sin(a) * cos(b) + cos(a) * sin(b)
  }

  /** Taylor's theorem for small angles. */
  ghost predicate NearTaylor(cos: real -> real, sin: real -> real, a: real) {
    -1.0 <= a <= 1.0 ==>
      && Abs(cos(a) - (1.0 - a * a / 2.0)) <= a * a * a * a / 24.0
      && Abs(sin(a) - (a - a * a * a / 6.0)) <= Abs(a) * a * a * a * a / 120.0
  }

  /** What is used of cosine, sine and pi. */
  ghost predicate IsTrig(cos: real -> real, sin: real -> real, pi: real) {
    && (forall a :: OnCircle(cos, sin, a))
    && (forall a, b :: AddsUp(cos, sin, a, b))
    && (forall a :: NearTaylor(cos, sin, a))
    && 3.0 < pi < 4.0 && cos(2.0 * pi) == 1.0 && sin(2.0 * pi) == 0.0
  }

  /** The angle of a point, between -pi and pi. */
  ghost predicate IsAngle(angle: real, y: real, x: real, cos: real -> real, sin: real -> real, pi: real,
                          sqrt: real -> real) {
    && -pi <= angle <= pi
    && cos(angle) * sqrt(Norm(x, y)) == x && sin(angle) * sqrt(Norm(x, y)) == y
  }

  ghost predicate IsAtan2(atan2: (real, real) -> real, cos: real -> real, sin: real -> real, pi: real,
                          sqrt: real -> real) {
    forall y, x :: IsAngle(atan2(y, x), y, x, cos, sin, pi, sqrt)
  }

  // ---------------------------------------------------------------- one small rotation

  /** The approximations of cosine and sine, to third order, with 0.16666667 read as 1/6. */
  function CosT(theta: real): real {
    0.5 * (2.0 - theta * theta)
  }

  function SinT(theta: real): real {
    theta / 6.0 * ((2.0 - theta * theta) + 4.0)
  }

  /** What one rotation does to the squared radius. */
  function Shrink(theta: real): real {
    var t := theta * theta;
    1.0 - t * t / 12.0 + t * t * t / 36.0
  }

  /** The loss of squared radius one rotation can cause. */
  function Loss(theta: real): real {
    var t := theta * theta;
    t * t / 12.0
  }

  lemma RotationNorm(c: real, s: real, x: real, y: real)
    ensures Norm(x * c - y * s, x * s + y * c) == Norm(c, s) * Norm(x, y)
  {
  }

  lemma ApproximationNorm(theta: real)
    ensures Norm(CosT(theta), SinT(theta)) == Shrink(theta)
  {
    var t := theta * theta;
    var c := CosT(theta);
    assert c * c == 1.0 - t + t * t / 4.0;
    var u := (6.0 - t) / 6.0;
    assert SinT(theta) == theta * u;
    assert SinT(theta) * SinT(theta) == t * (u * u);
    assert u * u == 1.0 - t / 3.0 + t * t / 36.0;
    assert t * (u * u) == t - t * t / 3.0 + t * t * t / 36.0;
  }

  lemma ShrinkBounds(theta: real)
    requires Sq(theta) <= 1.0
    ensures 1.0 - Loss(theta) <= Shrink(theta) <= 1.0
    ensures 0.0 <= Loss(theta) <= 1.0 / 12.0
  {
    var t := Sq(theta);
    SqNonNegative(theta);
    SqNonNegative(t);
    assert t * t <= t by {
      assert t * (1.0 - t) >= 0.0;
    }
    assert t * t * t <= t * t by {
      assert (t * t) * (1.0 - t) >= 0.0;
    }
    assert t * t * t >= 0.0;
  }

  /** After `k` rotations from a radius vector of squared length `r2`. */
  ghost predicate Drifted(n: real, r2: real, theta: real, k: nat) {
    r2 - r2 * (k as real * Loss(theta)) <= n <= r2
  }

  lemma DriftStep(n: real, m: real, r2: real, theta: real, k: nat)
    requires Drifted(n, r2, theta, k) && Sq(theta) <= 1.0 && r2 >= 0.0 && n >= 0.0 && m == Shrink(theta) * n
    ensures Drifted(m, r2, theta, k + 1)
  {
    ShrinkBounds(theta);
    var f, q := Shrink(theta), Loss(theta);
    hide Shrink, Loss;
    Scaled(f, 1.0, n);
    Scaled(1.0 - q, f, n);
    Scaled(n, r2, q);
    assert (1.0 - q) * n == n - q * n;
    assert r2 * ((k + 1) as real * q) == r2 * (k as real * q) + q * r2;
  }

  lemma Scaled(x: real, y: real, z: real)
    requires x <= y && z >= 0.0
    ensures x * z <= y * z
  {
    if x < y && z > 0.0 {
      TimesPositive(y - x, z);
      assert Times(y - x, z) == y * z - x * z;
    }
  }

  /** Between two exact corrections the radius shrinks by no more than the fourth power of the angle. */
  lemma DriftBound(n: real, r2: real, theta: real, k: nat)
    requires Drifted(n, r2, theta, k) && k <= 12 && Sq(theta) <= 1.0 && r2 >= 0.0
    ensures r2 * (1.0 - Sq(Sq(theta))) <= n <= r2
  {
    ShrinkBounds(theta);
    var q := Loss(theta);
    assert 12.0 * q == Sq(Sq(theta));
    assert k as real * q <= 12.0 * q by {
      assert (12.0 - k as real) * q >= 0.0;
    }
    assert r2 * (k as real * q) <= r2 * (12.0 * q) by {
      assert r2 * (12.0 * q - k as real * q) >= 0.0;
    }
    assert r2 * (1.0 - 12.0 * q) == r2 - r2 * (12.0 * q);
  }

  lemma NormNonNegative(x: real, y: real)
    ensures Norm(x, y) >= 0.0
  {
    SqNonNegative(x);
    SqNonNegative(y);
    assert x * x == Sq(x) && y * y == Sq(y);
  }

  // ---------------------------------------------------------------- the angle and the number of lines

  /** The vector (a, b) turned by the angle with cosine `c` and sine `s`, counter-clockwise. */
  function Turn0(a: real, b: real, c: real, s: real): real {
    a * c - b * s
  }

  function Turn1(a: real, b: real, c: real, s: real): real {
    a * s + b * c
  }

  lemma Added(cos: real -> real, sin: real -> real, pi: real, a: real, b: real, c: real)
    requires IsTrig(cos, sin, pi) && c == a + b
    ensures cos(c) == cos(a) * cos(b) - sin(a) * sin(b) && sin(c) == sin(a) * cos(b) + cos(a) * sin(b)
  {
    assert AddsUp(cos, sin, a, b);
  }

  lemma OnUnitCircle(cos: real -> real, sin: real -> real, pi: real, a: real)
    requires IsTrig(cos, sin, pi)
    ensures Norm(cos(a), sin(a)) == 1.0
  {
    assert OnCircle(cos, sin, a);
  }

  lemma AtZero(cos: real -> real, sin: real -> real, pi: real)
    requires IsTrig(cos, sin, pi)
    ensures cos(0.0) == 1.0 && sin(0.0) == 0.0
  {
    assert NearTaylor(cos, sin, 0.0);
  }

  /** A full turn more is the same direction. */
  lemma FullTurn(cos: real -> real, sin: real -> real, pi: real, a: real, b: real)
    requires IsTrig(cos, sin, pi) && b == a + 2.0 * pi
    ensures cos(b) == cos(a) && sin(b) == sin(a)
  {
    Added(cos, sin, pi, a, 2.0 * pi, b);
  }

  lemma AngleIs(y: real, x: real, cos: real -> real, sin: real -> real, pi: real, sqrt: real -> real,
                atan2: (real, real) -> real)
    requires IsTrig(cos, sin, pi) && IsAtan2(atan2, cos, sin, pi, sqrt)
    ensures IsAngle(atan2(y, x), y, x, cos, sin, pi, sqrt) && -pi <= atan2(y, x) <= pi && 3.0 < pi
  {
  }

  /** The travel turns the start, at (a, b) from the centre, into the direction of the target, at
      (u, v): onto the target itself where both are at the same distance. */
  lemma TravelLeads(a: real, b: real, u: real, v: real, angle: real, travel: real, cos: real -> real,
                    sin: real -> real, pi: real, sqrt: real -> real)
    requires IsTrig(cos, sin, pi) && IsSqrt(sqrt) && Norm(a, b) == Norm(u, v)
    requires IsAngle(angle, a * v - b * u, a * u + b * v, cos, sin, pi, sqrt)
    requires travel == angle || travel == angle - 2.0 * pi || travel == angle + 2.0 * pi
    ensures Turn0(a, b, cos(travel), sin(travel)) == u && Turn1(a, b, cos(travel), sin(travel)) == v
  {
    hide IsTrig, IsSqrt, Norm;
    if travel == angle + 2.0 * pi {
      FullTurn(cos, sin, pi, angle, travel);
    } else if travel == angle - 2.0 * pi {
      FullTurn(cos, sin, pi, travel, angle);
    }
    ProductOfNorms(a, b, u, v);
    ZeroNorm(a, b);
    RootOfSquare(sqrt, Norm(a, b), Norm(a * u + b * v, a * v - b * u));
    TurnsOnto(a, b, u, v, cos(travel), sin(travel));
  }

  lemma ProductOfNorms(a: real, b: real, u: real, v: real)
    ensures Norm(a * u + b * v, a * v - b * u) == Norm(a, b) * Norm(u, v)
  {
  }

  lemma RootOfSquare(sqrt: real -> real, x: real, y: real)
    requires IsSqrt(sqrt) && x >= 0.0 && y == x * x
    ensures sqrt(y) == x
  {
    TimesSign(x, x);
    Root(sqrt, y);
    SqOrder(sqrt(y), x);
    hide IsSqrt;
  }

  lemma TimesSign(x: real, y: real)
    requires x >= 0.0 && y >= 0.0
    ensures x * y >= 0.0
  {
  }

  lemma TurnsOnto(a: real, b: real, u: real, v: real, c: real, s: real)
    requires Norm(a, b) == Norm(u, v) && c * Norm(a, b) == a * u + b * v && s * Norm(a, b) == a * v - b * u
    ensures Turn0(a, b, c, s) == u && Turn1(a, b, c, s) == v
  {
    var r2 := Norm(a, b);
    assert Turn0(a, b, c, s) * r2 == a * (c * r2) - b * (s * r2) == u * r2;
    assert Turn1(a, b, c, s) * r2 == a * (s * r2) + b * (c * r2) == v * r2;
    ZeroNorm(a, b);
    ZeroNorm(u, v);
    if r2 > 0.0 {
      SameFactor(Turn0(a, b, c, s), u, r2);
      SameFactor(Turn1(a, b, c, s), v, r2);
    }
  }

  lemma ZeroNorm(x: real, y: real)
    ensures Norm(x, y) >= 0.0 && (Norm(x, y) == 0.0 ==> x == 0.0 && y == 0.0)
  {
    SqNonNegative(x);
    SqNonNegative(y);
    assert Norm(x, y) == Sq(x) + Sq(y);
  }

  // ---------------------------------------------------------------- how far a rotation strays

  /** An error vector of a squared radius `r2` after `k` rotations. */
  ghost predicate Strayed(x: real, y: real, r2: real, theta: real, k: nat) {
    Norm(x, y) <= Sq(k as real * Slip(theta)) * r2
  }

  /** The error of one rotation, relative to the radius. */
  function Slip(theta: real): real {
    Sq(Sq(theta)) / 20.0
  }

  /** The approximations are that close. */
  lemma ApproximationError(cos: real -> real, sin: real -> real, pi: real, theta: real)
    requires IsTrig(cos, sin, pi) && Sq(theta) <= 1.0
    ensures Norm(CosT(theta) - cos(theta), SinT(theta) - sin(theta)) <= Sq(Slip(theta))
  {
    SmallAngle(theta);
    TaylorHere(cos, sin, pi, theta);
    Quartic(theta);
    hide IsTrig, CosT, SinT;
    SmallError(CosT(theta) - cos(theta), SinT(theta) - sin(theta), Sq(Sq(theta)));
  }

  lemma TaylorHere(cos: real -> real, sin: real -> real, pi: real, a: real)
    requires IsTrig(cos, sin, pi) && -1.0 <= a <= 1.0
    ensures Abs(CosT(a) - cos(a)) <= a * a * a * a / 24.0
    ensures Abs(SinT(a) - sin(a)) <= Abs(a) * a * a * a * a / 120.0
  {
    assert NearTaylor(cos, sin, a);
    hide IsTrig;
    assert CosT(a) == 1.0 - a * a / 2.0;
    assert SinT(a) == a - a * a * a / 6.0;
  }

  lemma SmallError(c: real, s: real, q: real)
    requires Abs(c) <= q / 24.0 && Abs(s) <= q / 120.0
    ensures Norm(c, s) <= Sq(q / 20.0)
  {
    SquareBelow(c, q / 24.0);
    SquareBelow(s, q / 120.0);
    SqNonNegative(q);
    assert Sq(q / 24.0) == Sq(q) / 576.0 && Sq(q / 120.0) == Sq(q) / 14400.0 && Sq(q / 20.0) == Sq(q) / 400.0;
    assert Norm(c, s) == Sq(c) + Sq(s);
  }

  lemma SmallAngle(theta: real)
    requires Sq(theta) <= 1.0
    ensures -1.0 <= theta <= 1.0
  {
    if theta > 1.0 {
      SqOrder(1.0, theta);
    }
    assert Sq(-theta) == Sq(theta);
    if theta < -1.0 {
      SqOrder(1.0, -theta);
    }
  }

  lemma Quartic(theta: real)
    requires -1.0 <= theta <= 1.0
    ensures theta * theta * theta * theta == Sq(Sq(theta))
    ensures Abs(theta) * theta * theta * theta * theta <= Sq(Sq(theta))
  {
    var q := Sq(Sq(theta));
    assert theta * theta * theta * theta == q;
    SqNonNegative(Sq(theta));
    TimesSign(1.0 - Abs(theta), q);
    assert (1.0 - Abs(theta)) * q == q - Abs(theta) * q;
    assert Abs(theta) * theta * theta * theta * theta == Abs(theta) * q;
  }

  lemma SquareBelow(x: real, y: real)
    requires Abs(x) <= y
    ensures Sq(x) <= Sq(y)
  {
    SqOrder(Abs(x), y);
    assert Sq(Abs(x)) == Sq(x);
  }

  /** The triangle inequality, for vectors of lengths at most `p` and `q` times a radius. */
  lemma Triangle(x: real, y: real, u: real, v: real, p: real, q: real, r2: real)
    requires p >= 0.0 && q >= 0.0 && r2 >= 0.0 && Norm(x, y) <= Sq(p) * r2 && Norm(u, v) <= Sq(q) * r2
    ensures Norm(x + u, y + v) <= Sq(p + q) * r2
  {
    Schwarz(x, y, u, v, p, q, r2);
    assert Norm(x + u, y + v) == Norm(x, y) + Norm(u, v) + 2.0 * (x * u + y * v);
    assert Sq(p + q) * r2 == Sq(p) * r2 + Sq(q) * r2 + 2.0 * (Times(p, q) * r2);
  }

  lemma Schwarz(x: real, y: real, u: real, v: real, p: real, q: real, r2: real)
    requires p >= 0.0 && q >= 0.0 && r2 >= 0.0 && Norm(x, y) <= Sq(p) * r2 && Norm(u, v) <= Sq(q) * r2
    ensures x * u + y * v <= Times(p, q) * r2
  {
    var dot, cross, k := x * u + y * v, x * v - y * u, Times(p, q) * r2;
    ProductOfNorms(x, y, u, v);
    SqNonNegative(cross);
    assert Norm(dot, cross) == Sq(dot) + Sq(cross);
    ZeroNorm(u, v);
    ZeroNorm(x, y);
    ProductBelow(Norm(x, y), Norm(u, v), Sq(p) * r2, Sq(q) * r2);
    SquareOfProduct(p, q, r2);
    TimesSign(p, q);
    TimesSign(Times(p, q), r2);
    hide Norm, Sq;
    if dot > k {
      SqOrder(k, dot);
    }
  }

  lemma SquareOfProduct(p: real, q: real, r2: real)
    ensures (Sq(p) * r2) * (Sq(q) * r2) == Sq(Times(p, q) * r2)
  {
    var a, b := p * p, q * q;
    assert Sq(Times(p, q)) == a * b;
    assert (a * r2) * (b * r2) == (a * b) * (r2 * r2);
    assert Sq(Times(p, q) * r2) == Sq(Times(p, q)) * (r2 * r2);
  }

  lemma ProductBelow(m: real, n: real, p: real, q: real)
    requires 0.0 <= n <= q && m <= p && p >= 0.0
    ensures m * n <= p * q
  {
    TimesSign(p - m, n);
    TimesSign(p, q - n);
    assert (p - m) * n + p * (q - n) == p * q - m * n;
  }

  /** One rotation of a vector (x, y) that should be (u, v): `c`, `s` for the exact cosine and sine. */
  lemma StrayStep(x: real, y: real, u: real, v: real, r2: real, theta: real, k: nat, c: real, s: real)
    requires Strayed(x - u, y - v, r2, theta, k) && Norm(u, v) == r2 && Sq(theta) <= 1.0
    requires Norm(CosT(theta) - c, SinT(theta) - s) <= Sq(Slip(theta))
    ensures Strayed(Turn0(x, y, CosT(theta), SinT(theta)) - Turn0(u, v, c, s),
                    Turn1(x, y, CosT(theta), SinT(theta)) - Turn1(u, v, c, s), r2, theta, k + 1)
  {
    var cT, sT, q := CosT(theta), SinT(theta), Slip(theta);
    ApproximationNorm(theta);
    ShrinkBounds(theta);
    SqNonNegative(Sq(theta));
    hide CosT, SinT, Shrink, Sq, Slip, Norm;
    TurnShrinks(x - u, y - v, cT, sT, 1.0);
    TurnShrinks(u, v, cT - c, sT - s, Sq(q));
    ZeroNorm(u, v);
    TimesSign(k as real, q);
    Differences(x, y, u, v, cT, sT, c, s);
    Triangle(Turn0(x - u, y - v, cT, sT), Turn1(x - u, y - v, cT, sT), Turn0(u, v, cT - c, sT - s),
             Turn1(u, v, cT - c, sT - s), k as real * q, q, r2);
    assert k as real * q + q == (k + 1) as real * q;
  }

  lemma TurnShrinks(x: real, y: real, c: real, s: real, m: real)
    requires Norm(c, s) <= m
    ensures Norm(Turn0(x, y, c, s), Turn1(x, y, c, s)) <= m * Norm(x, y)
  {
    RotationNorm(c, s, x, y);
    ZeroNorm(x, y);
    hide Norm;
    Scaled(Norm(c, s), m, Norm(x, y));
  }

  lemma Differences(x: real, y: real, u: real, v: real, cT: real, sT: real, c: real, s: real)
    ensures Turn0(x, y, cT, sT) - Turn0(u, v, c, s) == Turn0(x - u, y - v, cT, sT) + Turn0(u, v, cT - c, sT - s)
    ensures Turn1(x, y, cT, sT) - Turn1(u, v, c, s) == Turn1(x - u, y - v, cT, sT) + Turn1(u, v, cT - c, sT - s)
  {
  }
}
