/** Radius-format arcs: the centre computed from the radius word. */
module ArcCenter {
  import opened PlanTypes
  import opened Kinematics

  datatype Center =
    | Center(i: real, j: real, r: real)
    | RadiusError               // STATUS_GCODE_ARC_RADIUS_ERROR

  /** Twice the signed area of the travel (x, y) and a point (i, j): negative when the point lies to
      the right of the direction of travel. */
  function Side(x: real, y: real, i: real, j: real): real {
    x * j - y * i
  }

  /** The point is at distance |r| from the start, which is the origin, and from the target. */
  ghost predicate Equidistant(x: real, y: real, r: real, i: real, j: real) {
    Norm(i, j) == r * r && Norm(x - i, y - j) == r * r
  }

  lemma CenterDistances(x: real, y: real, h: real, d2: real, r2: real)
    requires d2 == Norm(x, y) && d2 * (1.0 + h * h) == 4.0 * r2
    ensures Norm(0.5 * (x - y * h), 0.5 * (y + x * h)) == r2
    ensures Norm(x - 0.5 * (x - y * h), y - 0.5 * (y + x * h)) == r2
    ensures 2.0 * Side(x, y, 0.5 * (x - y * h), 0.5 * (y + x * h)) == h * d2
  {
    var a, b := x - y * h, y + x * h;
    assert a * a + b * b == d2 * (1.0 + h * h) by {
      assert a * a == x * x - 2.0 * (x * y * h) + y * y * (h * h);
      assert b * b == y * y + 2.0 * (x * y * h) + x * x * (h * h);
    }
    assert x - 0.5 * a == 0.5 * (x + y * h) && y - 0.5 * b == 0.5 * (y - x * h);
    var e, f := x + y * h, y - x * h;
    assert e * e + f * f == d2 * (1.0 + h * h) by {
      assert e * e == x * x + 2.0 * (x * y * h) + y * y * (h * h);
      assert f * f == y * y - 2.0 * (x * y * h) + x * x * (h * h);
    }
    assert x * b - y * a == h * d2;
  }

  /** The quotient `h` of the code: its square restores the radius. */
  lemma HeightRatio(root: real, d: real, d2: real, r2: real, h: real)
    requires d > 0.0 && d * d == d2 && root >= 0.0 && root * root == 4.0 * r2 - d2
    requires h == root / d || h == -(root / d)
    ensures d2 * (1.0 + h * h) == 4.0 * r2 && h * d2 == (if h == root / d then root * d else -(root * d))
  {
    var q := root / d;
    assert q * d == root;
    assert h * h == q * q;
    assert d2 * (q * q) == (q * d) * (q * d);
    assert q * d2 == (q * d) * d;
  }

  lemma NormPositive(x: real, y: real)
    requires x != 0.0 || y != 0.0
    ensures Norm(x, y) > 0.0
  {
    SqNonNegative(x);
    SqNonNegative(y);
    assert x * x == Sq(x) && y * y == Sq(y);
  }

  /** The centre lies on the side of travel the standard asks for: to the right for clockwise arcs
      with a positive radius, mirrored for counter-clockwise ones and again for a negative radius. */
  ghost predicate OnProperSide(x: real, y: real, ccw: bool, r: real, i: real, j: real) {
    if ccw == (r < 0.0) then Side(x, y, i, j) <= 0.0 else Side(x, y, i, j) >= 0.0
  }

  /** The radius-format branch of gc_execute_line.  Equal in-plane endpoints divide by zero there. */
  method RadiusFormat(x: real, y: real, radius: real, ccw: bool, sqrt: real -> real) returns (c: Center)
    requires IsSqrt(sqrt) && (x != 0.0 || y != 0.0)
    ensures c.RadiusError? <==> 4.0 * (radius * radius) < Norm(x, y)
    ensures c.Center? ==>
      Equidistant(x, y, radius, c.i, c.j) && OnProperSide(x, y, ccw, radius, c.i, c.j)
      && c.r == Abs(radius)
    ensures c.Center? ==> (Side(x, y, c.i, c.j) == 0.0 <==> 4.0 * (radius * radius) == Norm(x, y))
  {
    var square := 4.0 * (radius * radius) - x * x - y * y;
    if square < 0.0 {
      return RadiusError;
    }
    var root, d := sqrt(square), sqrt(x * x + y * y);
    ghost var d2, r2 := Norm(x, y), radius * radius;
    NormPositive(x, y);
    Roots(sqrt, square, x, y, root, d);
    var h := -(root / d);
    if ccw {
      h := -h;
    }
    var r := radius;
    if radius < 0.0 {
      h := -h;
      r := -radius;
    }
    HeightRatio(root, d, d2, r2, h);
    CenterDistances(x, y, h, d2, r2);
    SideSign(root, d, h, square);
    c := Center.Center(0.5 * (x - y * h), 0.5 * (y + x * h), r);
    hide Norm, Side;
  }

  lemma Roots(sqrt: real -> real, square: real, x: real, y: real, root: real, d: real)
    requires IsSqrt(sqrt) && square >= 0.0 && Norm(x, y) > 0.0 && root == sqrt(square) && d == sqrt(x * x + y * y)
    ensures root >= 0.0 && root * root == square && d > 0.0 && d * d == Norm(x, y)
  {
    var d2 := Norm(x, y);
    assert d == sqrt(d2);
    Root(sqrt, d2);
    Root(sqrt, square);
    SqNonNegative(d);
    assert Sq(d) == d * d && Sq(root) == root * root;
  }

  lemma SideSign(root: real, d: real, h: real, square: real)
    requires d > 0.0 && root >= 0.0 && root * root == square && (h == root / d || h == -(root / d))
    ensures root * d >= 0.0 && (root * d == 0.0 <==> square == 0.0)
    ensures h == root / d && h == -(root / d) ==> root * d == 0.0
  {
    if root > 0.0 {
      TimesPositive(root, d);
      TimesPositive(root, root);
      assert Times(root, d) == root * d && Times(root, root) == root * root;
    }
    assert (root / d) * d == root;
  }

  // ---------------------------------------------------------------- the centre is the only one

  lemma HalfWay(x: real, y: real, r: real, i: real, j: real)
    requires Equidistant(x, y, r, i, j)
    ensures 2.0 * (x * i + y * j) == Norm(x, y)
    ensures 4.0 * (Side(x, y, i, j) * Side(x, y, i, j)) == 4.0 * (Norm(x, y) * (r * r)) - Norm(x, y) * Norm(x, y)
  {
    var p, s, d2 := x * i + y * j, x * j - y * i, Norm(x, y);
    assert (x - i) * (x - i) == x * x - 2.0 * (x * i) + i * i;
    assert (y - j) * (y - j) == y * y - 2.0 * (y * j) + j * j;
    Lagrange(x, y, i, j);
    assert 2.0 * p == d2;
    assert 4.0 * (p * p) == d2 * d2;
  }

  lemma Lagrange(x: real, y: real, i: real, j: real)
    ensures (x * i + y * j) * (x * i + y * j) + (x * j - y * i) * (x * j - y * i) == Norm(x, y) * Norm(i, j)
  {
    var a, b, c, d := x * i, y * j, x * j, y * i;
    assert a * b == c * d;
    assert (a + b) * (a + b) + (c - d) * (c - d) == a * a + b * b + c * c + d * d;
    assert a * a == (x * x) * (i * i) && b * b == (y * y) * (j * j);
    assert c * c == (x * x) * (j * j) && d * d == (y * y) * (i * i);
  }

  /** A point is determined by its projection on the travel and its side. */
  lemma FromProjection(x: real, y: real, i: real, j: real)
    ensures Norm(x, y) * i == x * (x * i + y * j) - y * Side(x, y, i, j)
    ensures Norm(x, y) * j == y * (x * i + y * j) + x * Side(x, y, i, j)
  {
  }

  /** Two points at the radius from both ends, on the same side of travel, are the same point. */
  lemma CenterIsUnique(x: real, y: real, r: real, i: real, j: real, a: real, b: real)
    requires (x != 0.0 || y != 0.0) && Equidistant(x, y, r, i, j) && Equidistant(x, y, r, a, b)
    requires (Side(x, y, i, j) <= 0.0 && Side(x, y, a, b) <= 0.0)
      || (Side(x, y, i, j) >= 0.0 && Side(x, y, a, b) >= 0.0)
    ensures a == i && b == j
  {
    NormPositive(x, y);
    HalfWay(x, y, r, i, j);
    HalfWay(x, y, r, a, b);
    hide Norm, Side, Equidistant;
    SameRoot(Side(x, y, i, j), Side(x, y, a, b));
    SameProjection(x, y, i, j, a, b);
  }

  lemma SameRoot(s: real, t: real)
    requires s * s == t * t && ((s <= 0.0 && t <= 0.0) || (s >= 0.0 && t >= 0.0))
    ensures s == t
  {
    SqOrder(Abs(s), Abs(t));
    assert Sq(Abs(s)) == s * s && Sq(Abs(t)) == t * t;
  }

  lemma SameProjection(x: real, y: real, i: real, j: real, a: real, b: real)
    requires Norm(x, y) > 0.0 && Side(x, y, i, j) == Side(x, y, a, b) && x * i + y * j == x * a + y * b
    ensures a == i && b == j
  {
    FromProjection(x, y, i, j);
    FromProjection(x, y, a, b);
    var d2, s, p := Norm(x, y), Side(x, y, i, j), x * i + y * j;
    hide Norm, Side;
    assert d2 * i == x * p - y * s && d2 * a == x * p - y * s;
    assert d2 * j == y * p + x * s && d2 * b == y * p + x * s;
    SameFactor(a, i, d2);
    SameFactor(b, j, d2);
  }
}
