/** Every run of the planner: appends, execution of the tail, discards, feed holds and replanning.
    The entry of block 0 is always the stepper's current squared speed. */
module PlanRun {
  import opened PlanTypes
  import opened PlanSpec
  import opened PlanUpdate

  // ---------------------------------------------------------------- what a plan promises

  /** Outside a feed hold: the entries are the full plan, the planned pointer is a break point and
      the tail can be braked into the queue. */
  ghost predicate Good(s: seq<Block>, p: nat) {
    && AllMovable(s)
    && (s == [] ==> p == 0)
    && (s != [] ==> p < |s| && FullyPlanned(s) && Break(s, p) && TailCanBrake(s))
  }

  /** Always, also while a feed hold runs the tail slower than planned: every junction can be
      braked for. */
  ghost predicate Sound(s: seq<Block>) {
    && AllMovable(s)
    && (forall i :: 1 <= i < |s| ==> s[i].entry <= Rev(s, i))
    && (forall i :: 0 <= i < |s| - 1 ==> s[i].entry <= s[i + 1].entry + Reach(s[i]))
    && (s != [] ==> s[|s| - 1].entry <= Reach(s[|s| - 1]))
  }

  lemma GoodIsSound(s: seq<Block>, p: nat)
    requires Good(s, p)
    ensures Sound(s)
  {
    forall i | 1 <= i < |s| ensures s[i].entry <= Rev(s, i) {
      FwdBounds(s, i);
    }
    forall i | 0 <= i < |s| - 1 ensures s[i].entry <= s[i + 1].entry + Reach(s[i]) {
      FwdDecel(s, i);
    }
    if s != [] {
      FwdBounds(s, |s| - 1);
      RevBounds(s, |s| - 1);
    }
  }

  /** Braking: the current squared speed never exceeds what the queued distance can absorb. */
  function TotalReach(s: seq<Block>): real {
    if s == [] then 0.0 else Reach(s[0]) + TotalReach(s[1..])
  }

  lemma {:induction false} CanStopInQueue(s: seq<Block>)
    requires Sound(s) && s != []
    ensures s[0].entry <= TotalReach(s)
  {
    if |s| > 1 {
      SoundTail(s);
      CanStopInQueue(s[1..]);
    } else {
      assert s[1..] == [];
    }
  }

  lemma SoundTail(s: seq<Block>)
    requires Sound(s) && s != []
    ensures Sound(s[1..])
  {
    var t := s[1..];
    forall i | 0 <= i < |t| ensures Movable(t[i]) && Rev(t, i) == Rev(s, i + 1) {
      assert Movable(s[i + 1]);
      RevSuffix(s, i);
    }
  }

  // ---------------------------------------------------------------- append

  lemma SoundShortcut(s: seq<Block>, b: Block, p: nat)
    requires Sound(s) && Movable(b)
    ensures ShortcutExact(s, p) && ShortcutExact(s + [b], p)
  {
    var t := s + [b];
    assert AllMovable(t);
    forall i | p < i < |s| ensures s[i].entry == s[i].maxEntry ==> Rev(s, i) == s[i].maxEntry == Rev(t, i) {
      RevBounds(s, i);
      RevGrows(s, b, i);
      RevBounds(t, i);
    }
  }

  lemma AppendKeepsGood(s: seq<Block>, p: nat, b: Block, t: seq<Block>, r: seq<Block>, n: nat, q: nat)
    requires Good(s, p) && s != [] && Movable(b)
    requires t == s + [b] && PassedFrom(t, p, r) && n == |s| && q == PassPlanned(t, p, n)
    ensures Good(r, q)
  {
    GoodIsSound(s, p);
    SoundShortcut(s, b, p);
    BreakIsStable(s, b, p);
    PassIsFull(t, p, r);
    PassEndsOnBreak(t, p, r, n, q);
    PassedMovable(t, p, r);
    AppendKeepsTail(s, b, t, r);
  }

  lemma AppendKeepsTail(s: seq<Block>, b: Block, t: seq<Block>, r: seq<Block>)
    requires AllMovable(s) && s != [] && Movable(b) && TailCanBrake(s)
    requires t == s + [b] && SameShape(t, r) && r[0] == s[0]
    ensures TailCanBrake(r)
  {
    assert AllMovable(t);
    RevSameShape(t, r, 1);
    if |s| > 1 {
      RevGrows(s, b, 1);
    } else {
      RevBounds(t, 1);
    }
  }

  lemma PassedMovable(s: seq<Block>, p: nat, t: seq<Block>)
    requires p < |s| && AllMovable(s) && PassedFrom(s, p, t)
    ensures AllMovable(t)
  {
    forall i | 0 <= i < |t| ensures Movable(t[i]) {
      assert Movable(s[i]) && SameLimits(s[i], t[i]);
      if i > p {
        PassEntryNonNegative(s, p, i);
      }
    }
  }

  lemma {:induction false} PassEntryNonNegative(s: seq<Block>, p: nat, i: nat)
    requires p <= i < |s| && AllMovable(s)
    ensures PassEntry(s, p, i) >= 0.0
    decreases i
  {
    assert Movable(s[i]);
    if i > p {
      assert Movable(s[i - 1]);
      PassEntryNonNegative(s, p, i - 1);
      RevEntryNonNegative(s, p, i);
    }
  }

  lemma {:induction false} RevEntryNonNegative(s: seq<Block>, p: nat, i: nat)
    requires p < i < |s| && AllMovable(s)
    ensures RevEntry(s, p, i) >= 0.0
    decreases |s| - i
  {
    assert Movable(s[i]);
    if i < |s| - 1 {
      RevEntryNonNegative(s, p, i + 1);
    }
  }

  lemma PassEntryBelowRev(s: seq<Block>, p: nat, i: nat)
    requires p < i < |s| && AllMovable(s) && ShortcutExact(s, p)
    ensures PassEntry(s, p, i) <= Rev(s, i)
    ensures PassEntry(s, p, i) == Rev(s, i) || PassEntry(s, p, i) >= PassEntry(s, p, i - 1)
  {
    assert Movable(s[i - 1]);
    RevEntryIsRev(s, p, i);
  }

  /** The part of the queue up to the planned pointer can be braked into the rest. */
  ghost predicate SoundUpTo(s: seq<Block>, p: nat)
    requires p < |s|
  {
    && (forall i :: 1 <= i <= p ==> s[i].entry <= Rev(s, i))
    && (forall i :: 0 <= i < p ==> s[i].entry <= s[i + 1].entry + Reach(s[i]))
    && s[p].entry <= (if p < |s| - 1 then Rev(s, p + 1) else 0.0) + Reach(s[p])
  }

  lemma PassKeepsLimit(s: seq<Block>, p: nat, t: seq<Block>, i: nat)
    requires p < |s| && AllMovable(s) && ShortcutExact(s, p) && PassedFrom(s, p, t)
    requires SoundUpTo(s, p) && 1 <= i < |s|
    ensures t[i].entry <= Rev(s, i) == Rev(t, i)
  {
    RevSameShape(s, t, i);
    if i > p {
      PassEntryBelowRev(s, p, i);
    }
  }

  lemma PassKeepsBraking(s: seq<Block>, p: nat, t: seq<Block>, i: nat, j: nat)
    requires p < |s| && AllMovable(s) && ShortcutExact(s, p) && PassedFrom(s, p, t)
    requires SoundUpTo(s, p) && j == i + 1 < |s|
    ensures t[i].entry <= t[j].entry + Reach(s[i])
  {
    assert Movable(s[i]);
    if i >= p {
      PassEntryBelowRev(s, p, j);
      if i > p {
        PassKeepsLimit(s, p, t, i);
        RevBounds(s, i);
      }
    }
  }

  /** The windowed passes keep every junction brakeable, wherever the planned pointer stands. */
  lemma PassKeepsSound(s: seq<Block>, p: nat, t: seq<Block>)
    requires p < |s| && AllMovable(s) && AllMovable(t) && ShortcutExact(s, p) && PassedFrom(s, p, t)
    requires SoundUpTo(s, p)
    ensures Sound(t)
  {
    forall i | 1 <= i < |t| ensures t[i].entry <= Rev(t, i) {
      PassKeepsLimit(s, p, t, i);
    }
    forall i | 0 <= i < |t| - 1 ensures t[i].entry <= t[i + 1].entry + Reach(t[i]) {
      assert SameLimits(s[i], t[i]);
      PassKeepsBraking(s, p, t, i, i + 1);
    }
    var n := |s| - 1;
    assert SameLimits(s[n], t[n]);
    RevBounds(s, n);
    if n > 0 {
      PassKeepsLimit(s, p, t, n);
    }
  }

  lemma AppendKeepsSound(s: seq<Block>, p: nat, b: Block, t: seq<Block>, r: seq<Block>)
    requires Sound(s) && p < |s| && Movable(b)
    requires t == s + [b] && PassedFrom(t, p, r)
    ensures Sound(r)
  {
    SoundShortcut(s, b, p);
    PassedMovable(t, p, r);
    forall i | 1 <= i <= p ensures t[i].entry <= Rev(t, i) {
      RevGrows(s, b, i);
    }
    if p + 1 < |s| {
      RevGrows(s, b, p + 1);
    } else {
      RevBounds(t, |s|);
    }
    PassKeepsSound(t, p, r);
  }

  /** Replanning from the current speed restores the full plan. */
  lemma ReplanIsGood(s: seq<Block>, r: seq<Block>, n: nat, q: nat)
    requires Sound(s) && s != [] && PassedFrom(s, 0, r) && n == |s| - 1 && q == PassPlanned(s, 0, n)
    ensures Good(r, q)
  {
    forall i | 0 < i < |s| - 1 && s[i].entry == s[i].maxEntry ensures Rev(s, i) == s[i].maxEntry {
      RevBounds(s, i);
    }
    PassedMovable(s, 0, r);
    PassIsFull(s, 0, r);
    PassEndsOnBreak(s, 0, r, n, q);
    if |s| > 1 {
      RevSameShape(s, r, 1);
    }
  }

  // ---------------------------------------------------------------- executing the tail

  /** The tail after the stepper has moved on to distance `mm` and squared speed `v2`. */
  function Advanced(s: seq<Block>, v2: real, mm: real): (r: seq<Block>)
    requires s != []
    ensures |r| == |s|
  {
    s[0 := s[0].(entry := v2, mm := mm)]
  }

  /** `t` is `s` with a tail at squared speed `v2` that has reach `left`. */
  ghost predicate TailMoved(s: seq<Block>, v2: real, left: real, t: seq<Block>) {
    && |t| == |s| > 0
    && t[0].entry == v2 && t[0].maxEntry == s[0].maxEntry && Reach(t[0]) == left
    && forall k :: 1 <= k < |s| ==> t[k] == s[k]
  }

  lemma AdvancedMoves(s: seq<Block>, v2: real, mm: real)
    requires s != []
    ensures TailMoved(s, v2, Reach(s[0].(mm := mm)), Advanced(s, v2, mm))
  {
  }

  lemma {:induction false} RevOfSameQueue(s: seq<Block>, t: seq<Block>, i: nat)
    requires |t| == |s| && 0 < i < |s| && (forall k :: 1 <= k < |s| ==> t[k] == s[k])
    ensures Rev(t, i) == Rev(s, i)
    decreases |s| - i
  {
    if i < |s| - 1 {
      RevOfSameQueue(s, t, i + 1);
    }
  }

  lemma {:induction false} FwdOfSameQueue(s: seq<Block>, t: seq<Block>, i: nat)
    requires |t| == |s| && 0 < i < |s| && (forall k :: 1 <= k < |s| ==> t[k] == s[k])
    requires Fwd(t, 1) == Fwd(s, 1)
    ensures Fwd(t, i) == Fwd(s, i)
  {
    if i > 1 {
      RevOfSameQueue(s, t, i);
      FwdOfSameQueue(s, t, i - 1);
    }
  }

  /** What one segment of normal execution does to the tail: the squared speed changes by no more
      than the distance allows, and the planned exit stays within reach both ways. */
  ghost predicate FollowsPlan(s: seq<Block>, v2: real, mm: real)
    requires s != []
  {
    var left := Reach(s[0].(mm := mm));
    && v2 >= 0.0 && left >= 0.0
    && Abs(v2 - s[0].entry) <= Reach(s[0]) - left
    && Abs(v2 - ExitSqr(s)) <= left
  }

  lemma MovedAllMovable(s: seq<Block>, v2: real, left: real, t: seq<Block>)
    requires AllMovable(s) && TailMoved(s, v2, left, t) && v2 >= 0.0 && left > 0.0
    ensures AllMovable(t)
  {
    assert Movable(s[0]);
    forall i | 0 <= i < |t| ensures Movable(t[i]) {
      if i > 0 {
        assert Movable(s[i]);
      }
    }
  }

  lemma MovedKeepsGood(s: seq<Block>, p: nat, v2: real, left: real, t: seq<Block>)
    requires Good(s, p) && TailMoved(s, v2, left, t) && left > 0.0 && v2 >= 0.0
    requires Abs(v2 - s[0].entry) <= Reach(s[0]) - left && Abs(v2 - ExitSqr(s)) <= left
    ensures Good(t, p)
  {
    MovedAllMovable(s, v2, left, t);
    if |s| > 1 {
      RevOfSameQueue(s, t, 1);
      assert s[1].entry == Fwd(s, 1);
      assert Fwd(t, 1) == Fwd(s, 1);
      forall i | 1 <= i < |s| ensures t[i].entry == Fwd(t, i) {
        FwdOfSameQueue(s, t, i);
      }
      if p > 0 {
        MovedKeepsBreak(s, t, p);
      }
    }
  }

  lemma MovedKeepsBreak(s: seq<Block>, t: seq<Block>, p: nat)
    requires |t| == |s| && 0 < p < |s| && (forall k :: 1 <= k < |s| ==> t[k] == s[k])
    requires Fwd(t, 1) == Fwd(s, 1) && t[0].entry + Reach(t[0]) <= s[0].entry + Reach(s[0])
    requires Break(s, p)
    ensures Break(t, p)
  {
    FwdOfSameQueue(s, t, p);
    RevOfSameQueue(s, t, p);
    if p > 1 {
      FwdOfSameQueue(s, t, p - 1);
    }
  }

  lemma MovedKeepsSound(s: seq<Block>, v2: real, left: real, t: seq<Block>)
    requires Sound(s) && TailMoved(s, v2, left, t) && v2 >= 0.0 && left > 0.0
    requires v2 <= ExitSqr(s) + left
    ensures Sound(t)
  {
    MovedAllMovable(s, v2, left, t);
    forall i | 1 <= i < |t| ensures t[i].entry <= Rev(t, i) {
      RevOfSameQueue(s, t, i);
    }
    forall i | 0 <= i < |t| - 1 ensures t[i].entry <= t[i + 1].entry + Reach(t[i]) {
      if i > 0 {
        assert s[i].entry <= s[i + 1].entry + Reach(s[i]);
      }
    }
  }

  /** Discarding a finished tail whose exit speed was reached. */
  lemma FinishKeepsGood(s: seq<Block>, p: nat)
    requires Good(s, p) && s != []
    ensures Good(s[1..], if p > 0 then p - 1 else 0)
  {
    var t := s[1..];
    GoodIsSound(s, p);
    SoundTail(s);
    if t != [] {
      assert s[1].entry == Fwd(s, 1);
      forall i | 0 <= i < |t| ensures t[i].entry == Fwd(t, i) {
        FwdSuffix(s, i);
      }
      if p > 1 {
        FwdSuffix(s, p - 1);
        FwdSuffix(s, p - 2);
        RevSuffix(s, p - 1);
      }
      if |t| > 1 {
        assert t[0].entry <= t[0 + 1].entry + Reach(t[0]);
      }
    }
  }

  /** A tail taken over at a lower speed than planned can still be braked. */
  lemma LowerKeepsSound(s: seq<Block>, v2: real, t: seq<Block>)
    requires Sound(s) && s != [] && 0.0 <= v2 <= s[0].entry && TailMoved(s, v2, Reach(s[0]), t)
    ensures Sound(t)
  {
    assert Movable(s[0]);
    if |s| > 1 {
      assert s[0].entry <= s[0 + 1].entry + Reach(s[0]);
    }
    MovedKeepsSound(s, v2, Reach(s[0]), t);
  }

  // ---------------------------------------------------------------- whole runs

  datatype Plan = Plan(blocks: seq<Block>, planned: nat, held: bool)

  datatype Action =
    | Append(block: Block)                  // plan_buffer_line
    | Advance(v2: real, mm: real)           // one segment of the tail, followed as planned
    | Finish                                // the tail is used up and discarded
    | Hold                                  // a feed hold starts
    | HoldAdvance(heldV2: real, heldMm: real) // one segment of forced deceleration
    | HoldFinish                            // the deceleration runs through the whole tail
    | HoldTake(takenV2: real)               // the next block is taken over mid-hold
    | Replan                                // plan_cycle_reinitialize

  ghost predicate Enabled(plan: Plan, a: Action) {
    match a
    case Append(b) => Movable(b) && (plan.blocks == [] ==> b.entry == 0.0)
    case Advance(v2, mm) => !plan.held && plan.blocks != [] && FollowsPlan(plan.blocks, v2, mm)
      && Reach(plan.blocks[0].(mm := mm)) > 0.0
    case Finish => !plan.held && plan.blocks != []
    case Hold => true
    case HoldAdvance(v2, mm) =>
      plan.held && plan.blocks != []
      && var left := Reach(plan.blocks[0].(mm := mm));
         left > 0.0 && 0.0 <= v2 <= plan.blocks[0].entry - (Reach(plan.blocks[0]) - left)
    case HoldFinish => plan.held && plan.blocks != []
    case HoldTake(v2) => plan.held && plan.blocks != [] && 0.0 <= v2 <= plan.blocks[0].entry
    case Replan => true
  }

  function Apply(plan: Plan, a: Action): Plan {
    if plan.blocks == [] then
      match a
      case Append(b) => plan.(blocks := [b], planned := 0)
      case Hold => plan.(held := true)
      case Replan => plan.(held := false)
      case _ => plan
    else
      match a
      case Append(b) =>
        var t, n := plan.blocks + [b], |plan.blocks|;
        if plan.planned < n then plan.(blocks := Recalc(t, plan.planned), planned := PassPlanned(t, plan.planned, n))
          else plan
      case Advance(v2, mm) => plan.(blocks := Advanced(plan.blocks, v2, mm))
      case Finish => plan.(blocks := plan.blocks[1..], planned := if plan.planned > 0 then plan.planned - 1 else 0)
      case Hold => plan.(held := true)
      case HoldAdvance(v2, mm) => plan.(blocks := Advanced(plan.blocks, v2, mm))
      case HoldFinish => plan.(blocks := plan.blocks[1..], planned := if plan.planned > 0 then plan.planned - 1 else 0)
      case HoldTake(v2) => plan.(blocks := Advanced(plan.blocks, v2, plan.blocks[0].mm))
      case Replan =>
        var n := |plan.blocks| - 1;
        plan.(blocks := Recalc(plan.blocks, 0), planned := PassPlanned(plan.blocks, 0, n), held := false)
  }

  lemma AppendIsFull(plan: Plan, b: Block, s: seq<Block>, p: nat, last: nat)
    requires s == plan.blocks + [b] && last == |plan.blocks| && p == if plan.blocks == [] then 0 else plan.planned
    requires plan.blocks != [] ==> p < last
    ensures Apply(plan, Append(b)) == Plan(Recalc(s, p), PassPlanned(s, p, last), plan.held)
  {
    if plan.blocks == [] {
      assert s == [b] && Recalc(s, p) == [b];
    }
  }

  lemma ReplanIsFull(plan: Plan, last: int)
    requires last == |plan.blocks| - 1
    ensures plan.blocks == [] ==> Apply(plan, Replan) == plan.(held := false)
    ensures plan.blocks != [] ==> Apply(plan, Replan) == Plan(Recalc(plan.blocks, 0),
                                                              PassPlanned(plan.blocks, 0, last), false)
  {
  }

  ghost predicate Inv(plan: Plan) {
    && Sound(plan.blocks)
    && (plan.blocks == [] ==> plan.planned == 0)
    && (plan.blocks != [] ==> plan.planned < |plan.blocks|)
    && (!plan.held ==> Good(plan.blocks, plan.planned))
  }

  lemma FirstBlockIsGood(b: Block, t: seq<Block>)
    requires Movable(b) && b.entry == 0.0 && t == [b]
    ensures Good(t, 0) && Sound(t)
  {
    RevBounds(t, 0);
  }

  lemma AppendKeepsInv(plan: Plan, b: Block)
    requires Inv(plan) && Enabled(plan, Append(b))
    ensures Inv(Apply(plan, Append(b)))
  {
    if plan.blocks == [] {
      FirstBlockIsGood(b, [b]);
    } else {
      var t, n := plan.blocks + [b], |plan.blocks|;
      var r, q := Recalc(t, plan.planned), PassPlanned(t, plan.planned, n);
      AppendKeepsInvAt(plan, b, t, r, n, q);
    }
  }

  lemma AppendKeepsInvAt(plan: Plan, b: Block, t: seq<Block>, r: seq<Block>, n: nat, q: nat)
    requires Inv(plan) && plan.blocks != [] && Movable(b) && n == |plan.blocks|
    requires t == plan.blocks + [b] && r == Recalc(t, plan.planned) && q == PassPlanned(t, plan.planned, n)
    ensures Inv(Plan(r, q, plan.held))
  {
    assert PassedFrom(t, plan.planned, r) by { RecalcPassed(t, plan.planned); }
    AppendKeepsSound(plan.blocks, plan.planned, b, t, r);
    if !plan.held {
      AppendKeepsGood(plan.blocks, plan.planned, b, t, r, n, q);
    }
  }

  lemma AdvanceKeepsInv(plan: Plan, v2: real, mm: real)
    requires Inv(plan) && Enabled(plan, Advance(v2, mm))
    ensures Inv(Apply(plan, Advance(v2, mm)))
  {
    var t := Advanced(plan.blocks, v2, mm);
    AdvancedMoves(plan.blocks, v2, mm);
    MovedKeepsGood(plan.blocks, plan.planned, v2, Reach(plan.blocks[0].(mm := mm)), t);
    GoodIsSound(t, plan.planned);
  }

  lemma HoldAdvanceKeepsInv(plan: Plan, v2: real, mm: real)
    requires Inv(plan) && Enabled(plan, HoldAdvance(v2, mm))
    ensures Inv(Apply(plan, HoldAdvance(v2, mm)))
  {
    var s := plan.blocks;
    AdvancedMoves(s, v2, mm);
    assert |s| > 1 ==> s[0].entry <= s[0 + 1].entry + Reach(s[0]);
    MovedKeepsSound(s, v2, Reach(s[0].(mm := mm)), Advanced(s, v2, mm));
  }

  lemma HoldTakeKeepsInv(plan: Plan, v2: real)
    requires Inv(plan) && Enabled(plan, HoldTake(v2))
    ensures Inv(Apply(plan, HoldTake(v2)))
  {
    var s := plan.blocks;
    AdvancedMoves(s, v2, s[0].mm);
    LowerKeepsSound(s, v2, Advanced(s, v2, s[0].mm));
  }

  lemma FinishKeepsInv(plan: Plan, a: Action)
    requires Inv(plan) && Enabled(plan, a) && (a.Finish? || a.HoldFinish?)
    ensures Inv(Apply(plan, a))
  {
    SoundTail(plan.blocks);
    if !plan.held {
      FinishKeepsGood(plan.blocks, plan.planned);
    }
  }

  lemma ReplanKeepsInv(plan: Plan)
    requires Inv(plan)
    ensures Inv(Apply(plan, Replan)) && !Apply(plan, Replan).held
  {
    if plan.blocks != [] {
      var n := |plan.blocks| - 1;
      var r, q := Recalc(plan.blocks, 0), PassPlanned(plan.blocks, 0, n);
      assert Good(r, q) by {
        RecalcPassed(plan.blocks, 0);
        ReplanIsGood(plan.blocks, r, n, q);
      }
      GoodIsSound(r, q);
    }
  }

  lemma StepKeepsInv(plan: Plan, a: Action)
    requires Inv(plan) && Enabled(plan, a)
    ensures Inv(Apply(plan, a))
  {
    match a
    case Append(b) => AppendKeepsInv(plan, b);
    case Advance(v2, mm) => AdvanceKeepsInv(plan, v2, mm);
    case Finish => FinishKeepsInv(plan, a);
    case Hold =>
    case HoldAdvance(v2, mm) => HoldAdvanceKeepsInv(plan, v2, mm);
    case HoldFinish => FinishKeepsInv(plan, a);
    case HoldTake(v2) => HoldTakeKeepsInv(plan, v2);
    case Replan => ReplanKeepsInv(plan);
  }

  /** `states` is a run: it starts with an empty queue and each state comes from the one before. */
  ghost predicate Run(states: seq<Plan>, actions: seq<Action>) {
    && |states| == |actions| + 1
    && states[0] == Plan([], 0, false)
    && forall k :: 0 <= k < |actions| ==>
      Enabled(states[k], actions[k])
      && states[k + 1] == Apply(states[k], actions[k])
  }

  lemma {:induction false} RunKeepsInv(states: seq<Plan>, actions: seq<Action>, k: nat)
    requires Run(states, actions) && k < |states|
    ensures Inv(states[k])
  {
    if k > 0 {
      RunKeepsInv(states, actions, k - 1);
      StepKeepsInv(states[k - 1], actions[k - 1]);
    }
  }

  function Entries(s: seq<Block>): (e: seq<real>)
    ensures |e| == |s| && forall i :: 0 <= i < |s| ==> e[i] == s[i].entry
  {
    seq(|s|, i requires 0 <= i < |s| => s[i].entry)
  }

  lemma GoodIsOptimal(s: seq<Block>, p: nat)
    requires Good(s, p) && s != []
    ensures Feasible(s, Entries(s))
    ensures forall e, i :: Feasible(s, e) && 0 <= i < |e| ==> e[i] <= s[i].entry
  {
    var f := FullPlan(s);
    assert Entries(s) == f;
    FullPlanOptimal(s);
    forall e, i | Feasible(s, e) && 0 <= i < |e| ensures e[i] <= s[i].entry {
      assert e[i] <= f[i];
    }
  }

  /** In every state of every run: the speed can be absorbed by the queued distance, and unless a
      feed hold is pending the incrementally kept plan is the full plan, which is feasible and the
      fastest feasible one from the current speed. */
  lemma RunStaysOptimal(states: seq<Plan>, actions: seq<Action>, k: nat, s: seq<Block>)
    requires Run(states, actions) && k < |states| && s == states[k].blocks && s != []
    ensures s[0].entry <= TotalReach(s)
    ensures !states[k].held ==> FullyPlanned(s) && Feasible(s, Entries(s))
    ensures !states[k].held ==> forall e, i :: Feasible(s, e) && 0 <= i < |e| ==> e[i] <= s[i].entry
  {
    RunKeepsInv(states, actions, k);
    CanStopInQueue(s);
    if !states[k].held {
      GoodIsOptimal(s, states[k].planned);
    }
  }
}
