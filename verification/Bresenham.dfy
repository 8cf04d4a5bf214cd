/** Bresenham stepping at adaptive resolution.  A block of `n` step events is executed in eighths
    of an event: a tick at level 0, 1, 2 or 3 is worth 8, 4, 2 or 1 of them. */
module Bresenham {

  /** MAX_AMASS_LEVEL */
  const MAX_AMASS_LEVEL := 3

  /** What one tick at a level is worth: the step data is stored shifted by three, and shifted
      back by the level. */
  function Worth(level: nat): (u: nat)
    requires level <= MAX_AMASS_LEVEL
    ensures 1 <= u <= 8
  {
    if level == 0 then 8 else if level == 1 then 4 else if level == 2 then 2 else 1
  }

  /** n_step << amass_level */
  function Ticks(n: nat, level: nat): nat
    requires level <= MAX_AMASS_LEVEL
  {
    if level == 0 then n else if level == 1 then 2 * n else if level == 2 then 4 * n else 8 * n
  }

  lemma TicksAreWorth(n: nat, level: nat)
    requires level <= MAX_AMASS_LEVEL
    ensures Ticks(n, level) * Worth(level) == 8 * n && Ticks(n, level) >= n
  {
  }

  /** Pulses of an axis with `s` of `n` steps after `p` eighths of an event. */
  function Pulses(n: nat, s: nat, p: nat): nat
    requires n > 0
  {
    (4 * n + s * p - 1) / (8 * n)
  }

  /** The Bresenham counter at that point.  It starts half way. */
  function Counter(n: nat, s: nat, p: nat): int
    requires n > 0
  {
    4 * n + s * p - 8 * n * Pulses(n, s, p)
  }

  lemma DivMod(a: nat, b: nat, q: nat)
    requires b > 0 && q == a / b
    ensures 0 <= a - b * q < b
  {
  }

  lemma CounterRange(n: nat, s: nat, p: nat)
    requires n > 0
    ensures 0 < Counter(n, s, p) <= 8 * n
  {
    assert s * p >= 0;
    DivMod(4 * n + s * p - 1, 8 * n, Pulses(n, s, p));
  }

  lemma AtLeast(b: nat, d: nat)
    requires d >= 1
    ensures b * d >= b
  {
  }

  lemma Apart(b: nat, q: int, r: int)
    requires b > 0 && q < r
    ensures b * r >= b * q + b
  {
    var d := r - q;
    AtLeast(b, d);
    assert b * (q + d) == b * q + b * d;
  }

  lemma QuotientIs(a: nat, b: nat, q: int)
    requires b > 0 && 0 <= a - b * q < b
    ensures a / b == q
  {
    var r := a / b;
    DivMod(a, b, r);
    if q < r {
      Apart(b, q, r);
    } else if q > r {
      Apart(b, r, q);
    }
  }

  lemma QuotientOf(a: nat, b: nat, q: int, bq: int)
    requires b > 0 && bq == b * q && 0 <= a - bq < b
    ensures a / b == q
  {
    QuotientIs(a, b, q);
  }

  /** One tick: the counter goes up by the shifted steps; above the event count it gives a pulse
      and comes down again.  There is never more than one pulse. */
  lemma TickCounts(n: nat, s: nat, p: nat, u: nat)
    requires n > 0 && s <= n && u <= 8
    ensures var c := Counter(n, s, p) + s * u;
      if c > 8 * n then Pulses(n, s, p + u) == Pulses(n, s, p) + 1 && Counter(n, s, p + u) == c - 8 * n
      else Pulses(n, s, p + u) == Pulses(n, s, p) && Counter(n, s, p + u) == c
  {
    CounterRange(n, s, p);
    var q, x, y := Pulses(n, s, p), s * p, s * u;
    var c := Counter(n, s, p) + y;
    AtMostEight(s, u);
    assert s * (p + u) == x + y;
    var k := if c > 8 * n then q + 1 else q;
    var bq := 8 * n * q;
    assert 8 * n * (q + 1) == bq + 8 * n;
    QuotientOf(4 * n + s * (p + u) - 1, 8 * n, k, if c > 8 * n then bq + 8 * n else bq);
  }

  lemma AtMostEight(s: nat, u: nat)
    requires u <= 8
    ensures 0 <= s * u <= 8 * s
  {
  }

  /** A whole block pulses every axis exactly as often as it has steps, and leaves the counter
      where it started. */
  lemma WholeBlock(n: nat, s: nat)
    requires n > 0
    ensures Pulses(n, s, 8 * n) == s && Counter(n, s, 8 * n) == Counter(n, s, 0) == 4 * n && Pulses(n, s, 0) == 0
  {
    assert s * (8 * n) == 8 * n * s;
    assert s * 0 == 0;
    QuotientIs(4 * n + s * (8 * n) - 1, 8 * n, s);
    QuotientIs(4 * n + s * 0 - 1, 8 * n, 0);
  }

  /** At every point the pulses are within half a step of the straight line s * p / (8 * n). */
  lemma NearLine(n: nat, s: nat, p: nat)
    requires n > 0
    ensures -4 * n < s * p - 8 * n * Pulses(n, s, p) <= 4 * n
  {
    CounterRange(n, s, p);
  }
}
