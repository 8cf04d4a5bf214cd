/** The planner block, and small arithmetic shared by all parts of the model. */
module PlanTypes {

  /** What a queued motion never changes once it is in the buffer. */
  datatype Move = Move(
    steps: seq<nat>,        // step count along each axis
    negative: seq<bool>,    // direction bits: set means the axis moves down
    count: nat,             // step_event_count: the largest of `steps`
    rapid: bool,            // PL_COND_FLAG_RAPID_MOTION
    noFeedOverride: bool,   // PL_COND_FLAG_NO_FEED_OVERRIDE
    maxJunction: real,      // max_junction_speed_sqr
    rapidRate: real,        // rapid_rate
    programmedRate: real)   // programmed_rate

  /** One queued linear motion.  Speeds are squared, as the planner stores them. */
  datatype Block = Block(
    move: Move,
    entry: real,            // entry_speed_sqr
    maxEntry: real,         // max_entry_speed_sqr
    accel: real,            // acceleration
    mm: real)               // millimeters still to travel

  /** The largest change of squared speed the block allows over its remaining distance. */
  function Reach(b: Block): real {
    2.0 * b.accel * b.mm
  }

  function Min(x: real, y: real): real {
    if x < y then x else y
  }

  function Abs(x: real): real {
    if x < 0.0 then -x else x
  }

  function Sq(v: real): real {
    v * v
  }

  /** Keeps the sign of a product visible to the solver. */
  function Times(x: real, y: real): real {
    x * y
  }

  lemma TimesPositive(x: real, y: real)
    requires x > 0.0 && y > 0.0
    ensures Times(x, y) > 0.0
  {
  }

  lemma SameFactor(x: real, y: real, k: real)
    requires k > 0.0 && x * k == y * k
    ensures x == y
  {
    assert (x - y) * k == 0.0;
  }

  lemma SqOrder(x: real, y: real)
    requires x >= 0.0 && y >= 0.0
    ensures x < y <==> Sq(x) < Sq(y)
    ensures x == y <==> Sq(x) == Sq(y)
  {
    if x < y {
      TimesPositive(y - x, y + x);
    } else if y < x {
      TimesPositive(x - y, x + y);
    }
    assert Times(y - x, y + x) == Sq(y) - Sq(x) && Times(x - y, x + y) == Sq(x) - Sq(y);
  }

  /** The squared length of a vector in the plane. */
  function Norm(x: real, y: real): real {
    x * x + y * y
  }

  function Ceil(x: real): int {
    -((-x).Floor)
  }

  /** `f` yields the non-negative root of every non-negative number. */
  ghost predicate IsSqrt(f: real -> real) {
    forall x :: x >= 0.0 ==> f(x) >= 0.0 && f(x) * f(x) == x
  }
}
