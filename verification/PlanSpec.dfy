/** The look-ahead plan as a value: what a full reverse-then-forward pass computes, why it is
    feasible and optimal, and why its break points survive every later append. */
module PlanSpec {
  import opened PlanTypes

  /** A block the planner can work with. */
  ghost predicate Movable(b: Block) {
    b.entry >= 0.0 && b.maxEntry >= 0.0 && Reach(b) > 0.0
  }

  ghost predicate AllMovable(s: seq<Block>) {
    forall i :: 0 <= i < |s| ==> Movable(s[i])
  }

  // ---------------------------------------------------------------- the full plan

  /** Reverse pass: the fastest entry into block `i` from which the rest of the queue can stop. */
  function Rev(s: seq<Block>, i: nat): real
    requires i < |s|
    decreases |s| - i
  {
    if i == |s| - 1 then Min(s[i].maxEntry, Reach(s[i]))
    else Min(s[i].maxEntry, Rev(s, i + 1) + Reach(s[i]))
  }

  /** Forward pass on top of the reverse pass, starting from the given entry of block 0. */
  function Fwd(s: seq<Block>, i: nat): real
    requires i < |s|
  {
    if i == 0 then s[0].entry else Min(Rev(s, i), Fwd(s, i - 1) + Reach(s[i - 1]))
  }

  /** The squared speed at which block 0 must end. */
  function ExitSqr(s: seq<Block>): real
    requires |s| > 0
  {
    if |s| > 1 then s[1].entry else 0.0
  }

  // ---------------------------------------------------------------- feasibility and optimality

  /** `e` is a plan for `s`: it starts where the tool is, respects every junction limit, every
      acceleration limit in both directions, and can come to rest at the end. */
  ghost predicate Feasible(s: seq<Block>, e: seq<real>)
    requires |s| > 0
  {
    && |e| == |s|
    && e[0] == s[0].entry
    && (forall i :: 1 <= i < |s| ==> 0.0 <= e[i] <= s[i].maxEntry)
    && (forall i :: 0 <= i < |s| - 1 ==> e[i] - Reach(s[i]) <= e[i + 1] <= e[i] + Reach(s[i]))
    && e[|s| - 1] <= Reach(s[|s| - 1])
  }

  function FullPlan(s: seq<Block>): (e: seq<real>)
    ensures |e| == |s|
    ensures forall i :: 0 <= i < |s| ==> e[i] == Fwd(s, i)
  {
    seq(|s|, i requires 0 <= i < |s| => Fwd(s, i))
  }

  lemma {:induction false} RevBounds(s: seq<Block>, i: nat)
    requires i < |s| && AllMovable(s)
    ensures 0.0 <= Rev(s, i) <= s[i].maxEntry
    ensures i == |s| - 1 ==> Rev(s, i) <= Reach(s[i])
    ensures i < |s| - 1 ==> Rev(s, i) <= Rev(s, i + 1) + Reach(s[i])
    decreases |s| - i
  {
    assert Movable(s[i]);
    if i < |s| - 1 {
      RevBounds(s, i + 1);
    }
  }

  lemma {:induction false} FwdBounds(s: seq<Block>, i: nat)
    requires i < |s| && AllMovable(s)
    ensures 0.0 <= Fwd(s, i)
    ensures i > 0 ==> Fwd(s, i) <= Rev(s, i)
  {
    assert Movable(s[i]);
    if i > 0 {
      RevBounds(s, i);
      FwdBounds(s, i - 1);
      assert Movable(s[i - 1]);
    }
  }

  /** The tail can still be braked into the rest of the queue. */
  ghost predicate TailCanBrake(s: seq<Block>)
    requires |s| > 0
  {
    s[0].entry <= (if |s| > 1 then Rev(s, 1) else 0.0) + Reach(s[0])
  }

  lemma FwdDecel(s: seq<Block>, i: nat)
    requires i < |s| - 1 && AllMovable(s) && TailCanBrake(s)
    ensures Fwd(s, i) - Reach(s[i]) <= Fwd(s, i + 1)
  {
    assert Movable(s[i]);
    FwdBounds(s, i);
    RevBounds(s, i);
  }

  /** No feasible plan is faster anywhere than the full plan. */
  lemma {:induction false} FullPlanIsFastest(s: seq<Block>, e: seq<real>, i: nat)
    requires 0 < |s| && i < |s| && AllMovable(s) && Feasible(s, e)
    ensures e[i] <= Fwd(s, i)
  {
    if i > 0 {
      BelowReverse(s, e, i);
      FullPlanIsFastest(s, e, i - 1);
    }
  }

  lemma {:induction false} BelowReverse(s: seq<Block>, e: seq<real>, i: nat)
    requires 0 < i < |s| && AllMovable(s) && Feasible(s, e)
    ensures e[i] <= Rev(s, i)
    decreases |s| - i
  {
    if i < |s| - 1 {
      BelowReverse(s, e, i + 1);
    }
  }

  /** The full plan is feasible exactly when the tail can still brake, and then it is the fastest
      feasible plan; otherwise no plan is feasible at all. */
  lemma FullPlanOptimal(s: seq<Block>)
    requires |s| > 0 && AllMovable(s)
    ensures Feasible(s, FullPlan(s)) <==> TailCanBrake(s)
    ensures (exists e :: Feasible(s, e)) <==> TailCanBrake(s)
    ensures forall e, i :: Feasible(s, e) && 0 <= i < |s| ==> e[i] <= FullPlan(s)[i]
  {
    forall e, i | Feasible(s, e) && 0 <= i < |s| ensures e[i] <= FullPlan(s)[i] {
      FullPlanIsFastest(s, e, i);
    }
    if TailCanBrake(s) {
      FullPlanFeasible(s);
    }
    forall e | Feasible(s, e) ensures TailCanBrake(s) {
      if |s| > 1 {
        assert e[0] - Reach(s[0]) <= e[0 + 1];
        BelowReverse(s, e, 1);
      }
    }
  }

  lemma FullPlanFeasible(s: seq<Block>)
    requires |s| > 0 && AllMovable(s) && TailCanBrake(s)
    ensures Feasible(s, FullPlan(s))
  {
    var e := FullPlan(s);
    forall i | 1 <= i < |s| ensures 0.0 <= e[i] <= s[i].maxEntry {
      FwdBounds(s, i);
      RevBounds(s, i);
    }
    forall i | 0 <= i < |s| - 1 ensures e[i] - Reach(s[i]) <= e[i + 1] <= e[i] + Reach(s[i]) {
      FwdDecel(s, i);
    }
    FwdBounds(s, |s| - 1);
    RevBounds(s, |s| - 1);
  }

  // ---------------------------------------------------------------- appending a block

  lemma {:induction false} RevGrows(s: seq<Block>, b: Block, i: nat)
    requires i < |s| && AllMovable(s) && Movable(b)
    ensures Rev(s, i) <= Rev(s + [b], i)
    decreases |s| - i
  {
    var t := s + [b];
    RevBounds(t, |s|) by { assert AllMovable(t); }
    if i < |s| - 1 {
      RevGrows(s, b, i + 1);
    }
  }

  lemma {:induction false} FwdGrows(s: seq<Block>, b: Block, i: nat)
    requires i < |s| && AllMovable(s) && Movable(b)
    ensures Fwd(s, i) <= Fwd(s + [b], i)
  {
    if i > 0 {
      RevGrows(s, b, i);
      FwdGrows(s, b, i - 1);
    }
  }

  /** Equal reverse values at `p` mean equal reverse values everywhere before `p`. */
  lemma {:induction false} RevAgreesBefore(s: seq<Block>, b: Block, p: nat, i: nat)
    requires i <= p < |s|
    requires Rev(s, p) == Rev(s + [b], p)
    ensures Rev(s, i) == Rev(s + [b], i)
    decreases p - i
  {
    if i < p {
      RevAgreesBefore(s, b, p, i + 1);
    }
  }

  /** A break point: the tail, a junction taken at its maximum, or one reached by strict full
      acceleration. */
  ghost predicate Break(s: seq<Block>, p: nat)
    requires p < |s|
  {
    p == 0 || Fwd(s, p) == s[p].maxEntry || Fwd(s, p - 1) + Reach(s[p - 1]) < Rev(s, p)
  }

  /** The junction before a strict full acceleration is itself a break point. */
  lemma BreakBefore(s: seq<Block>, p: nat)
    requires 0 < p < |s| && AllMovable(s)
    requires Fwd(s, p - 1) + Reach(s[p - 1]) < Rev(s, p)
    ensures Break(s, p - 1)
  {
    assert Movable(s[p - 1]);
    if p > 1 && Fwd(s, p - 1) == Rev(s, p - 1) {
      assert Rev(s, p - 1) == Min(s[p - 1].maxEntry, Rev(s, p) + Reach(s[p - 1]));
    }
  }

  /** Stability: an append changes nothing up to a break point, and the break point stays one. */
  lemma {:induction false} BreakIsStable(s: seq<Block>, b: Block, p: nat)
    requires p < |s| && AllMovable(s) && Movable(b) && Break(s, p)
    ensures forall i :: 0 <= i <= p ==> Fwd(s + [b], i) == Fwd(s, i)
    ensures Break(s + [b], p)
  {
    var t := s + [b];
    if p > 0 {
      assert AllMovable(t);
      RevGrows(s, b, p);
      if Fwd(s, p) == s[p].maxEntry {
        FwdBounds(s, p);
        RevBounds(s, p);
        RevBounds(t, p);
        forall i | 0 <= i <= p ensures Fwd(t, i) == Fwd(s, i) {
          FwdAgrees(s, b, p, i);
        }
      } else {
        BreakBefore(s, p);
        BreakIsStable(s, b, p - 1);
      }
    }
  }

  lemma {:induction false} FwdAgrees(s: seq<Block>, b: Block, p: nat, i: nat)
    requires i <= p < |s|
    requires Rev(s, p) == Rev(s + [b], p)
    ensures Fwd(s, i) == Fwd(s + [b], i)
  {
    if i > 0 {
      RevAgreesBefore(s, b, p, i);
      FwdAgrees(s, b, p, i - 1);
    }
  }
}
