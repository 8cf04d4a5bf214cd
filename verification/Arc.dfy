/** mc_arc: an arc as straight lines, by repeated small rotations of the radius vector. */
module Arc {
  import opened PlanTypes
  import opened Kinematics
  import opened Rotation
  import BufferLine

  /** N_ARC_CORRECTION */
  const N_ARC_CORRECTION := 12

  /** ARC_ANGULAR_TRAVEL_EPSILON */
  const ARC_ANGULAR_TRAVEL_EPSILON := 0.0000005

  /** atan2 corrected for the direction: clockwise travel is negative, counter-clockwise positive, and
      within epsilon of none it is a full turn. */
  function Corrected(angle: real, clockwise: bool, pi: real, epsilon: real): (a: real)
    requires pi > 0.0 && 0.0 <= epsilon < pi && -pi <= angle <= pi
    ensures if clockwise then -2.0 * pi - epsilon <= a < -epsilon else epsilon < a <= 2.0 * pi + epsilon
    ensures a == angle || a == angle - 2.0 * pi || a == angle + 2.0 * pi
  {
    if clockwise then if angle >= -epsilon then angle - 2.0 * pi else angle
    else if angle <= epsilon then angle + 2.0 * pi else angle
  }

  /** The plane, the linear axis, the centre, and the radius vector of the start. */
  datatype Geometry = Geometry(axis0: nat, axis1: nat, axisLinear: nat, center0: real, center1: real,
                               radius0: real, radius1: real)

  ghost predicate Proper(g: Geometry, axes: nat) {
    && g.axis0 < axes && g.axis1 < axes && g.axisLinear < axes
    && g.axis0 != g.axis1 && g.axis0 != g.axisLinear && g.axis1 != g.axisLinear
  }

  /** The squared radius of the arc. */
  function RadiusSqr(g: Geometry): real {
    Norm(g.radius0, g.radius1)
  }

  /** The angle turned after `i` segments. */
  function Turned(i: nat, theta: real): real {
    i as real * theta
  }

  /** Where the arc is after `i` segments, from its centre. */
  function Exact0(g: Geometry, i: nat, theta: real, cos: real -> real, sin: real -> real): real {
    Turn0(g.radius0, g.radius1, cos(Turned(i, theta)), sin(Turned(i, theta)))
  }

  function Exact1(g: Geometry, i: nat, theta: real, cos: real -> real, sin: real -> real): real {
    Turn1(g.radius0, g.radius1, cos(Turned(i, theta)), sin(Turned(i, theta)))
  }

  lemma TurnedNext(i: nat, k: nat, theta: real)
    requires k == i + 1
    ensures Turned(k, theta) == Turned(i, theta) + theta && Turned(0, theta) == 0.0
  {
  }

  /** One segment on, the exact point is turned by one more angle. */
  lemma ExactStep(g: Geometry, i: nat, k: nat, theta: real, cos: real -> real, sin: real -> real, pi: real)
    requires IsTrig(cos, sin, pi) && k == i + 1
    ensures var u, v := Exact0(g, i, theta, cos, sin), Exact1(g, i, theta, cos, sin);
      && Exact0(g, k, theta, cos, sin) == Turn0(u, v, cos(theta), sin(theta))
      && Exact1(g, k, theta, cos, sin) == Turn1(u, v, cos(theta), sin(theta))
      && Norm(u, v) == RadiusSqr(g)
  {
    hide IsTrig, Norm, Turn0, Turn1, Turned;
    var t, n := Turned(i, theta), Turned(k, theta);
    TurnedNext(i, k, theta);
    Added(cos, sin, pi, t, theta, n);
    OnUnitCircle(cos, sin, pi, t);
    TurnKeeps(g.radius0, g.radius1, cos(t), sin(t));
    TurnTwice(g.radius0, g.radius1, cos(t), sin(t), cos(theta), sin(theta), cos(n), sin(n));
  }

  lemma TurnKeeps(a: real, b: real, c: real, s: real)
    requires Norm(c, s) == 1.0
    ensures Norm(Turn0(a, b, c, s), Turn1(a, b, c, s)) == Norm(a, b)
  {
    RotationNorm(c, s, a, b);
  }

  lemma TurnTwice(a: real, b: real, c: real, s: real, d: real, r: real, e: real, f: real)
    requires e == c * d - s * r && f == s * d + c * r
    ensures Turn0(a, b, e, f) == Turn0(Turn0(a, b, c, s), Turn1(a, b, c, s), d, r)
    ensures Turn1(a, b, e, f) == Turn1(Turn0(a, b, c, s), Turn1(a, b, c, s), d, r)
  {
  }

  lemma TurnNorm(x: real, y: real, theta: real)
    ensures Norm(Turn0(x, y, CosT(theta), SinT(theta)), Turn1(x, y, CosT(theta), SinT(theta)))
      == Shrink(theta) * Norm(x, y)
  {
    RotationNorm(CosT(theta), SinT(theta), x, y);
    ApproximationNorm(theta);
  }

  lemma TurnOffset(x: real, y: real, c: real, s: real)
    ensures -x * c + y * s == Turn0(-x, -y, c, s) && -x * s - y * c == Turn1(-x, -y, c, s)
  {
  }

  lemma NoStray(r2: real, theta: real)
    ensures Drifted(r2, r2, theta, 0) && (r2 >= 0.0 ==> Strayed(0.0, 0.0, r2, theta, 0))
  {
    assert 0 as real * Slip(theta) == 0.0 == 0 as real * Loss(theta);
  }

  lemma ExactStart(g: Geometry, theta: real, cos: real -> real, sin: real -> real, pi: real)
    requires IsTrig(cos, sin, pi)
    ensures Exact0(g, 0, theta, cos, sin) == g.radius0 && Exact1(g, 0, theta, cos, sin) == g.radius1
  {
    AtZero(cos, sin, pi);
    TurnedNext(0, 1, theta);
    hide IsTrig, Turned;
  }

  /** The radius vector of the loop for segment `i`, after `count` rotations since the last exact one. */
  ghost predicate Tracks(g: Geometry, i: nat, theta: real, cos: real -> real, sin: real -> real,
                         x: real, y: real, count: nat) {
    var u, v := Exact0(g, i, theta, cos, sin), Exact1(g, i, theta, cos, sin);
    && count <= N_ARC_CORRECTION
    && (Sq(theta) <= 1.0 ==>
          Drifted(Norm(x, y), RadiusSqr(g), theta, count) && Strayed(x - u, y - v, RadiusSqr(g), theta, count))
    && (count == 0 ==> x == u && y == v)
  }

  lemma TracksExact(g: Geometry, i: nat, theta: real, cos: real -> real, sin: real -> real, pi: real)
    requires IsTrig(cos, sin, pi)
    ensures Tracks(g, i, theta, cos, sin, Exact0(g, i, theta, cos, sin), Exact1(g, i, theta, cos, sin), 0)
  {
    ExactStep(g, i, i + 1, theta, cos, sin, pi);
    hide IsTrig, Exact0, Exact1, Drifted, Strayed, Sq;
    NoStray(RadiusSqr(g), theta);
    ZeroNorm(g.radius0, g.radius1);
  }

  lemma TracksRotation(g: Geometry, i: nat, k: nat, theta: real, cos: real -> real, sin: real -> real, pi: real,
                       x: real, y: real, count: nat)
    requires IsTrig(cos, sin, pi) && Tracks(g, i, theta, cos, sin, x, y, count) && count < N_ARC_CORRECTION
      && k == i + 1
    ensures Tracks(g, k, theta, cos, sin, Turn0(x, y, CosT(theta), SinT(theta)), Turn1(x, y, CosT(theta), SinT(theta)),
                   count + 1)
  {
    hide IsTrig, Exact0, Exact1, CosT, SinT, Drifted, Strayed, Sq, Shrink, Norm, Turn0, Turn1, RadiusSqr;
    var u, v, r2 := Exact0(g, i, theta, cos, sin), Exact1(g, i, theta, cos, sin), RadiusSqr(g);
    ExactStep(g, i, k, theta, cos, sin, pi);
    TurnNorm(x, y, theta);
    ZeroNorm(x, y);
    ZeroNorm(u, v);
    if Sq(theta) <= 1.0 {
      var m := Norm(Turn0(x, y, CosT(theta), SinT(theta)), Turn1(x, y, CosT(theta), SinT(theta)));
      DriftStep(Norm(x, y), m, r2, theta, count);
      ApproximationError(cos, sin, pi, theta);
      StrayStep(x, y, u, v, r2, theta, count, cos(theta), sin(theta));
    }
  }

  /** Advances the radius vector to segment `i`: a rotation, or every thirteenth time an exact
      correction. */
  method NextRadius(g: Geometry, offset0: real, offset1: real, theta: real, cosT: real, sinT: real, i: nat,
                    r0: real, r1: real, count: nat, cos: real -> real, sin: real -> real, ghost pi: real)
    returns (x: real, y: real, n: nat)
    requires IsTrig(cos, sin, pi) && i > 0 && Tracks(g, i - 1, theta, cos, sin, r0, r1, count)
    requires g.radius0 == -offset0 && g.radius1 == -offset1 && cosT == CosT(theta) && sinT == SinT(theta)
    ensures Tracks(g, i, theta, cos, sin, x, y, n) && n == (if count < N_ARC_CORRECTION then count + 1 else 0)
  {
    hide Tracks, CosT, SinT, IsTrig;
    if count < N_ARC_CORRECTION {
      TracksRotation(g, i - 1, i, theta, cos, sin, pi, r0, r1, count);
      y := r0 * sinT + r1 * cosT;
      x := r0 * cosT - r1 * sinT;
      n := count + 1;
      assert x == Turn0(r0, r1, CosT(theta), SinT(theta)) && y == Turn1(r0, r1, CosT(theta), SinT(theta));
    } else {
      TracksExact(g, i, theta, cos, sin, pi);
      assert Turned(i, theta) == i as real * theta;
      var cosTi := cos(i as real * theta);
      var sinTi := sin(i as real * theta);
      TurnOffset(offset0, offset1, cosTi, sinTi);
      x := -offset0 * cosTi + offset1 * sinTi;
      y := -offset0 * sinTi - offset1 * cosTi;
      n := 0;
      assert x == Exact0(g, i, theta, cos, sin) && y == Exact1(g, i, theta, cos, sin);
    }
  }

  /** `position` after `i` segments, away from the plane. */
  ghost predicate OffPlane(p: seq<real>, i: nat, g: Geometry, start: seq<real>, rise: real)
    requires Proper(g, |start|) && |p| == |start|
  {
    && p[g.axisLinear] == start[g.axisLinear] + i as real * rise
    && forall j :: 0 <= j < |p| && j != g.axis0 && j != g.axis1 && j != g.axisLinear ==> p[j] == start[j]
  }

  /** How many segments the last exact correction before the end of segment `i` lies back. */
  function SinceExact(i: nat): nat {
    i % (N_ARC_CORRECTION + 1)
  }

  lemma SinceExactStep(i: nat, k: nat)
    requires k == i + 1
    ensures SinceExact(0) == 0 && SinceExact(k) == if SinceExact(i) < N_ARC_CORRECTION then SinceExact(i) + 1 else 0
    ensures SinceExact(k) == k % 13
  {
  }

  lemma OffPlaneAtStart(g: Geometry, start: seq<real>, rise: real)
    requires Proper(g, |start|)
    ensures OffPlane(start, 0, g, start, rise)
  {
  }

  /** For small angles, (x, y) is as near to (a, b), turned by the angle with cosine `c` and sine `s`, as
      theta is small, and on the circle or a little inside it; where `exact` is asked for it is there. */
  ghost predicate NearTurned(x: real, y: real, a: real, b: real, c: real, s: real, theta: real, exact: bool) {
    var u, v := a * c - b * s, a * s + b * c;
    && (Sq(theta) <= 1.0 ==>
          && Norm(x - u, y - v) <= Sq(0.6 * Sq(Sq(theta))) * Norm(a, b)
          && Norm(a, b) * (1.0 - Sq(Sq(theta))) <= Norm(x, y) <= Norm(a, b))
    && (exact ==> x == u && y == v)
  }

  /** Where line `i` ends: near the start turned by as many angles about the centre, there exactly at
      every thirteenth segment, on the helix along the linear axis, and unmoved on the other axes. */
  ghost predicate OnArc(p: seq<real>, i: nat, g: Geometry, start: seq<real>, theta: real, rise: real,
                        cos: real -> real, sin: real -> real)
    requires Proper(g, |start|) && |p| == |start|
  {
    && NearTurned(p[g.axis0] - g.center0, p[g.axis1] - g.center1, start[g.axis0] - g.center0,
                  start[g.axis1] - g.center1,
                  cos(i as real * theta), sin(i as real * theta), theta, i % 13 == 0)
    && OffPlane(p, i, g, start, rise)
  }

  lemma AtMostTwelve(k: nat, q: real)
    requires k <= 12 && q >= 0.0
    ensures 0.0 <= k as real * q <= 12.0 * q
  {
    TimesSign(k as real, q);
    TimesSign(12.0 - k as real, q);
    assert (12.0 - k as real) * q == 12.0 * q - k as real * q;
  }

  /** At most twelve rotations stray no further. */
  lemma StrayBound(x: real, y: real, r2: real, theta: real, k: nat)
    requires Strayed(x, y, r2, theta, k) && k <= 12 && r2 >= 0.0
    ensures Norm(x, y) <= Sq(0.6 * Sq(Sq(theta))) * r2
  {
    var q := Slip(theta);
    var d := k as real * q;
    SqNonNegative(Sq(theta));
    assert 12.0 * q == 0.6 * Sq(Sq(theta));
    AtMostTwelve(k, q);
    SquareBelow(d, 12.0 * q);
    Rotation.Scaled(Sq(d), Sq(12.0 * q), r2);
  }

  lemma TracksNear(g: Geometry, i: nat, theta: real, cos: real -> real, sin: real -> real, x: real, y: real, count: nat)
    requires Tracks(g, i, theta, cos, sin, x, y, count)
    ensures NearTurned(x, y, g.radius0, g.radius1, cos(Turned(i, theta)), sin(Turned(i, theta)), theta, count == 0)
  {
    hide Turned, Norm, Sq, Drifted, Strayed;
    ZeroNorm(g.radius0, g.radius1);
    if Sq(theta) <= 1.0 {
      DriftBound(Norm(x, y), RadiusSqr(g), theta, count);
      StrayBound(x - Exact0(g, i, theta, cos, sin), y - Exact1(g, i, theta, cos, sin), RadiusSqr(g), theta, count);
    }
  }

  /** A line end at the current radius vector. */
  lemma LineOnArc(p: seq<real>, i: nat, g: Geometry, start: seq<real>, theta: real, rise: real, cos: real -> real,
                  sin: real -> real, x: real, y: real, count: nat)
    requires Proper(g, |start|) && |p| == |start| && Tracks(g, i, theta, cos, sin, x, y, count)
    requires OffPlane(p, i, g, start, rise) && count == i % 13
    requires p[g.axis0] == g.center0 + x && p[g.axis1] == g.center1 + y
    requires g.radius0 == start[g.axis0] - g.center0 && g.radius1 == start[g.axis1] - g.center1
    ensures OnArc(p, i, g, start, theta, rise, cos, sin)
  {
    TracksNear(g, i, theta, cos, sin, x, y, count);
    hide NearTurned, OffPlane, Tracks;
    assert Turned(i, theta) == i as real * theta;
    assert p[g.axis0] - g.center0 == x && p[g.axis1] - g.center1 == y;
  }

  /** The lines of an arc so far: each ends where the arc is after as many segments. */
  ghost predicate Traced(lines: seq<seq<real>>, g: Geometry, start: seq<real>, theta: real, rise: real,
                         cos: real -> real, sin: real -> real)
    requires Proper(g, |start|)
  {
    forall i :: 0 <= i < |lines| ==> |lines[i]| == |start| && OnArc(lines[i], i + 1, g, start, theta, rise, cos, sin)
  }

  method Approximate(theta: real) returns (cosT: real, sinT: real)
    ensures cosT == CosT(theta) && sinT == SinT(theta)
  {
    cosT := 2.0 - theta * theta;
    sinT := theta / 6.0 * (cosT + 4.0);
    cosT := cosT * 0.5;
  }

  lemma TracedAppend(lines: seq<seq<real>>, p: seq<real>, g: Geometry, start: seq<real>, theta: real, rise: real,
                     cos: real -> real, sin: real -> real)
    requires Proper(g, |start|) && Traced(lines, g, start, theta, rise, cos, sin)
    requires |p| == |start| && OnArc(p, |lines| + 1, g, start, theta, rise, cos, sin)
    ensures Traced(lines + [p], g, start, theta, rise, cos, sin)
  {
    hide OnArc;
  }

  /** Moves the current position to the end of segment `i`. */
  method Place(position: array<real>, g: Geometry, r0: real, r1: real, rise: real, ghost i: nat, ghost start: seq<real>)
    requires Proper(g, position.Length) && |start| == position.Length && i > 0
      && OffPlane(position[..], i - 1, g, start, rise)
    modifies position
    ensures OffPlane(position[..], i, g, start, rise)
    ensures position[g.axis0] == g.center0 + r0 && position[g.axis1] == g.center1 + r1
  {
    ghost var p := position[..];
    position[g.axis0] := g.center0 + r0;
    position[g.axis1] := g.center1 + r1;
    position[g.axisLinear] := position[g.axisLinear] + rise;
    assert i as real * rise == (i - 1) as real * rise + rise;
    assert forall j ::
      0 <= j < position.Length && j != g.axis0 && j != g.axis1 && j != g.axisLinear
      ==> position[j] == p[j];
  }

  /** mc_arc's loop: `segments - 1` intermediate lines, unless the system aborts after one of them. */
  method IntermediateLines(position: array<real>, g: Geometry, offset0: real, offset1: real, ghost start: seq<real>,
                           segments: nat, theta: real, rise: real, cos: real -> real, sin: real -> real,
                           ghost pi: real, aborts: nat -> bool)
    returns (lines: seq<seq<real>>, aborted: bool)
    requires Proper(g, position.Length) && IsTrig(cos, sin, pi) && segments > 0 && start == position[..]
    requires g.radius0 == -offset0 == start[g.axis0] - g.center0 && g.radius1 == -offset1 == start[g.axis1] - g.center1
    modifies position
    ensures Traced(lines, g, start, theta, rise, cos, sin)
    ensures !aborted ==> |lines| == segments - 1
    ensures aborted ==> 1 <= |lines| <= segments - 1 && aborts(|lines|)
  {
    hide Tracks, CosT, SinT, Norm, OnArc, IsTrig, OffPlane, SinceExact;
    var r0, r1 := -offset0, -offset1;
    var cosT, sinT := Approximate(theta);
    ExactStart(g, theta, cos, sin, pi);
    TracksExact(g, 0, theta, cos, sin, pi);
    OffPlaneAtStart(g, start, rise);
    SinceExactStep(0, 1);
    lines, aborted := [], false;
    var count, i := 0, 1;
    while i < segments
      invariant 1 <= i <= segments && |lines| == i - 1 && count == SinceExact(i - 1)
      invariant Tracks(g, i - 1, theta, cos, sin, r0, r1, count) && cosT == CosT(theta) && sinT == SinT(theta)
      invariant Traced(lines, g, start, theta, rise, cos, sin)
      invariant OffPlane(position[..], i - 1, g, start, rise)
    {
      hide Traced;
      SinceExactStep(i - 1, i);
      r0, r1, count := NextRadius(g, offset0, offset1, theta, cosT, sinT, i, r0, r1, count, cos, sin, pi);
      Place(position, g, r0, r1, rise, i, start);
      LineOnArc(position[..], i, g, start, theta, rise, cos, sin, r0, r1, count);
      TracedAppend(lines, position[..], g, start, theta, rise, cos, sin);
      lines := lines + [position[..]];
      if aborts(i) {
        return lines, true;
      }
      i := i + 1;
    }
  }

  /** The angle the arc sweeps: in the commanded direction, from the start to the target. */
  method AngularTravel(radius0: real, radius1: real, rt0: real, rt1: real, clockwise: bool,
                       ghost cos: real -> real, ghost sin: real -> real, pi: real, ghost sqrt: real -> real,
                       atan2: (real, real) -> real)
    returns (travel: real)
    requires IsTrig(cos, sin, pi) && IsSqrt(sqrt) && IsAtan2(atan2, cos, sin, pi, sqrt)
    ensures var epsilon := ARC_ANGULAR_TRAVEL_EPSILON;
      if clockwise then -2.0 * pi - epsilon <= travel < -epsilon else epsilon < travel <= 2.0 * pi + epsilon
    ensures Norm(radius0, radius1) == Norm(rt0, rt1) ==>
      && radius0 * cos(travel) - radius1 * sin(travel) == rt0
      && radius0 * sin(travel) + radius1 * cos(travel) == rt1
  {
    hide IsTrig, IsAtan2, IsAngle, IsSqrt, Norm;
    AngleIs(radius0 * rt1 - radius1 * rt0, radius0 * rt0 + radius1 * rt1, cos, sin, pi, sqrt, atan2);
    var angle := atan2(radius0 * rt1 - radius1 * rt0, radius0 * rt0 + radius1 * rt1);
    travel := Corrected(angle, clockwise, pi, ARC_ANGULAR_TRAVEL_EPSILON);
    if Norm(radius0, radius1) == Norm(rt0, rt1) {
      TravelLeads(radius0, radius1, rt0, rt1, angle, travel, cos, sin, pi, sqrt);
    }
  }

  /** The data the lines of an arc go out with: in inverse time the rate is multiplied by their number,
      and the flag cleared. */
  function LineFeed(data: BufferLine.LineData, segments: nat): BufferLine.LineData {
    if segments > 0 && data.inverseTime
    then data.(feedRate := data.feedRate * segments as real, inverseTime := false)
    else data
  }

  function Total(lengths: seq<real>): real {
    if lengths == [] then 0.0 else lengths[0] + Total(lengths[1..])
  }

  /** How long lines of these lengths take at one rate. */
  function TimeAt(lengths: seq<real>, rate: real): real
    requires rate > 0.0
  {
    if lengths == [] then 0.0 else lengths[0] / rate + TimeAt(lengths[1..], rate)
  }

  lemma {:induction false} TimeOfTotal(lengths: seq<real>, rate: real)
    requires rate > 0.0
    ensures TimeAt(lengths, rate) * rate == Total(lengths)
    decreases |lengths|
  {
    if lengths != [] {
      TimeOfTotal(lengths[1..], rate);
      assert lengths[0] / rate * rate == lengths[0];
    }
  }

  /** In inverse time an arc is to take 1/F minutes over all its lines.  At the rate they go out with it
      does exactly when they are 1 mm long on average: the planner no longer multiplies by the length. */
  lemma InverseTimeArc(lengths: seq<real>, data: BufferLine.LineData)
    requires lengths != [] && data.inverseTime && data.feedRate > 0.0
    ensures var sent := LineFeed(data, |lengths|);
      !sent.inverseTime && sent.feedRate > 0.0
      && (TimeAt(lengths, sent.feedRate) == 1.0 / data.feedRate <==> Total(lengths) == |lengths| as real)
  {
    hide TimeAt, Total, Times;
    var n, f, rate := |lengths| as real, data.feedRate, LineFeed(data, |lengths|).feedRate;
    TimesPositive(f, n);
    RateIs(f, n, rate);
    TimeOfTotal(lengths, rate);
    MinutesPerFeed(TimeAt(lengths, rate), rate, f, n, Total(lengths));
  }

  lemma RateIs(f: real, n: real, rate: real)
    requires rate == f * n
    ensures rate == Times(f, n)
  {
  }

  lemma MinutesPerFeed(time: real, rate: real, f: real, n: real, total: real)
    requires f > 0.0 && n > 0.0 && rate == Times(f, n) && time * rate == total
    ensures time == 1.0 / f <==> total == n
  {
    assert (1.0 / f) * f == 1.0;
    assert (time * f) * n == total;
    if total == n {
      SameFactor(time * f, 1.0, n);
      SameFactor(time, 1.0 / f, f);
    }
  }

  method SendFeed(data: BufferLine.LineData, segments: nat) returns (sent: BufferLine.LineData)
    ensures sent == LineFeed(data, segments)
  {
    sent := data;
    if segments > 0 {
      if data.inverseTime {
        sent := sent.(feedRate := sent.feedRate * segments as real);
        sent := sent.(inverseTime := false);
      }
    }
  }

  /** The whole of mc_arc, given the number of segments: unless the system aborts, the last line goes to
      the exact target. */
  method Arc(target: seq<real>, position: array<real>, offset: seq<real>, axis0: nat, axis1: nat, axisLinear: nat,
             clockwise: bool, segments: nat, data: BufferLine.LineData, cos: real -> real, sin: real -> real, pi: real,
             ghost sqrt: real -> real, atan2: (real, real) -> real, aborts: nat -> bool)
    returns (lines: seq<seq<real>>, aborted: bool, sent: BufferLine.LineData, ghost travel: real)
    requires |target| == |offset| == position.Length && axis0 < position.Length && axis1 < position.Length
    requires axisLinear < position.Length && axis0 != axis1 && axis0 != axisLinear && axis1 != axisLinear
    requires IsTrig(cos, sin, pi) && IsSqrt(sqrt) && IsAtan2(atan2, cos, sin, pi, sqrt)
    modifies position
    ensures var epsilon := ARC_ANGULAR_TRAVEL_EPSILON;
      if clockwise then -2.0 * pi - epsilon <= travel < -epsilon else epsilon < travel <= 2.0 * pi + epsilon
    ensures var x, y := target[axis0] - (old(position[axis0]) + offset[axis0]),
                        target[axis1] - (old(position[axis1]) + offset[axis1]);
      Norm(offset[axis0], offset[axis1]) == Norm(x, y) ==>
        && x == -offset[axis0] * cos(travel) + offset[axis1] * sin(travel)
        && y == -offset[axis0] * sin(travel) - offset[axis1] * cos(travel)
    ensures sent == LineFeed(data, segments)
    ensures aborted ==> segments > 1 && 1 <= |lines| <= segments - 1
    ensures !aborted ==> |lines| == (if segments == 0 then 1 else segments) && lines[|lines| - 1] == target
    ensures segments > 0 ==>
      Traced(if aborted then lines else lines[..segments - 1],
             Geometry(axis0, axis1, axisLinear, old(position[axis0]) + offset[axis0],
                      old(position[axis1]) + offset[axis1], -offset[axis0], -offset[axis1]),
             old(position[..]), travel / segments as real,
             (target[axisLinear] - old(position[axisLinear])) / segments as real, cos, sin)
  {
    hide IsTrig, IsSqrt, IsAtan2, LineFeed;
    var center0 := position[axis0] + offset[axis0];
    var center1 := position[axis1] + offset[axis1];
    var g := Geometry(axis0, axis1, axisLinear, center0, center1, -offset[axis0], -offset[axis1]);
    assert Norm(g.radius0, g.radius1) == Norm(offset[axis0], offset[axis1]);
    var angularTravel := AngularTravel(g.radius0, g.radius1, target[axis0] - center0, target[axis1] - center1,
                                       clockwise,
                                       cos, sin, pi, sqrt, atan2);
    travel := angularTravel;
    lines, aborted := [], false;
    sent := SendFeed(data, segments);
    if segments > 0 {
      var theta := angularTravel / segments as real;
      var rise := (target[axisLinear] - position[axisLinear]) / segments as real;
      ghost var start := position[..];
      lines, aborted := IntermediateLines(position, g, offset[axis0], offset[axis1], start, segments, theta, rise, cos,
                                          sin, pi, aborts);
      if aborted {
        return;
      }
    }
    ghost var traced := lines;
    lines := lines + [target];
    assert segments > 0 ==> lines[..segments - 1] == traced;
  }
}
