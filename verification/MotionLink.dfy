/** The planner's queue and the stepper's machine describe the same motions. */
module MotionLink {
  import opened PlanTypes
  import opened PlanUpdate
  import opened PlanRun
  import opened BufferLine
  import Prep
  import opened PrepView
  import RunLimits
  import opened StepExtract
  import opened Bresenham
  import SM = StepMachine

  function Moves(s: seq<Block>): (m: seq<Move>)
    ensures |m| == |s| && forall i :: 0 <= i < |s| ==> m[i] == s[i].move
  {
    seq(|s|, i requires 0 <= i < |s| => s[i].move)
  }

  /** The tail has been taken over by the segment generator. */
  predicate TailInHand(w: View) {
    w.loaded || w.pending
  }

  /** The blocks not yet taken over are the machine's queue, and the steps of the one in hand that
      are in no segment are its unprepped steps. */
  ghost predicate Linked(w: View, mach: SM.Machine) {
    if TailInHand(w)
    then w.plan.blocks != [] && mach.queue == Moves(w.plan.blocks)[1..] && mach.unprepped == Ceil(w.stepsRemaining)
         && |mach.blocks| > 1 && mach.blocks[|mach.blocks| - 1] == w.plan.blocks[0].move
    else mach.queue == Moves(w.plan.blocks) && mach.unprepped == 0
  }

  lemma RecalcMoves(s: seq<Block>, p: nat)
    requires p < |s|
    ensures Moves(Recalc(s, p)) == Moves(s)
  {
  }

  lemma LinkedAppend(w: View, b: Block, mach: SM.Machine, o: Overrides)
    requires ViewOk(w, o) && Linked(w, mach) && SM.WellFormed(mach) && SM.Can(mach, SM.Append(b.move))
    ensures Linked(Appended(w, b), SM.Next(mach, SM.Append(b.move)))
  {
    hide SM.Chain, Sq, RunLimits.Rated, Sound, Good;
    var s := w.plan.blocks;
    if s == [] {
      assert Moves([b]) == [] + [b.move];
    } else {
      RecalcMoves(s + [b], w.plan.planned);
      assert Moves(s + [b]) == Moves(s) + [b.move];
      assert (Moves(s) + [b.move])[1..] == Moves(s)[1..] + [b.move];
    }
  }

  lemma LinkedTold(w: View, mach: SM.Machine)
    requires Linked(w, mach)
    ensures Linked(HoldStarted(w), mach)
  {
  }

  lemma LinkedStopped(w: View, mach: SM.Machine)
    requires Linked(w, mach)
    ensures Linked(Stopped(w), mach) && Linked(Restarted(w), mach)
  {
    if w.plan.blocks != [] {
      RecalcMoves(w.plan.blocks, 0);
    }
  }

  lemma LinkedTick(w: View, mach: SM.Machine)
    requires Linked(w, mach) && SM.WellFormed(mach)
    ensures Linked(w, SM.Next(mach, SM.Tick))
  {
  }

  /** A block is taken over: the machine loads it, unless only its profile is recomputed. */
  lemma LinkedTaken(w: View, shape: Prep.Profile, v: real, mach: SM.Machine, o: Overrides)
    requires ViewOk(w, o) && Linked(w, mach) && SM.WellFormed(mach) && !w.loaded && !w.ended && w.plan.blocks != []
    requires w.plan.blocks[0].mm > 0.0 && w.plan.blocks[0].move.count > 0
    ensures w.pending ==> Linked(Taken(w, shape, v, o), mach)
    ensures !w.pending ==>
      SM.Can(mach, SM.Load) && mach.queue[0] == w.plan.blocks[0].move
      && Linked(Taken(w, shape, v, o), SM.Next(mach, SM.Load))
  {
    hide SM.Chain, Sq, ViewOk, RunLimits.CourseOf;
    CeilOfInt(w.plan.blocks[0].move.count);
    TakenMoves(w);
  }

  lemma TakenMoves(w: View)
    requires w.plan.blocks != []
    ensures Moves(TakenPlan(w).blocks) == Moves(w.plan.blocks)
  {
    hide Sq;
  }

  /** A segment of `n` steps of the block in hand. */
  lemma LinkedSegment(w: View, shape: Prep.Profile, v: real, mm: real, stepsRemaining: real, ended: bool, n: nat,
                      level: nat, mach: SM.Machine)
    requires Linked(w, mach) && SM.WellFormed(mach) && w.loaded && !w.pending && mm >= 0.0 && level <= MAX_AMASS_LEVEL
    requires n >= 1 && n == Ceil(w.stepsRemaining) - Ceil(stepsRemaining) && Ceil(stepsRemaining) >= 0
    requires mm == 0.0 ==> Ceil(stepsRemaining) == 0
    ensures SM.Can(mach, SM.Publish(n, level))
    ensures Linked(Prepped(w, shape, v, mm, stepsRemaining, ended), SM.Next(mach, SM.Publish(n, level)))
  {
    hide SM.Chain, Sq;
    var s := w.plan.blocks;
    assert Moves(s[1..]) == Moves(s)[1..];
    assert Moves(Advanced(s, Sq(v), mm)) == Moves(s);
  }

  /** A hold that ends without a step publishes nothing. */
  lemma LinkedBail(w: View, shape: Prep.Profile, v: real, mm: real, ended: bool, mach: SM.Machine)
    requires Linked(w, mach) && w.loaded && !w.pending && mm > 0.0
    ensures Linked(Prepped(w, shape, v, mm, w.stepsRemaining, ended), mach)
  {
    hide Sq;
    assert Moves(Advanced(w.plan.blocks, Sq(v), mm)) == Moves(w.plan.blocks);
  }

  /** A line's block carries the planner's position from here to there. */
  lemma CarriesPosition(m: Move, here: seq<int>, there: seq<int>)
    requires Carries(m, here, there)
    ensures SM.MoveOk(m, |here|) && m.count > 0 && SM.Moved(here, m) == there
  {
    assert forall i :: 0 <= i < |here| ==> SignedSteps(m, i) == there[i] - here[i];
  }
}
