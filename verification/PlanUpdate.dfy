/** The incremental recalculation: it touches only the blocks after the planned pointer, and
    still leaves the plan a full pass over the whole queue would give. */
module PlanUpdate {
  import opened PlanTypes
  import opened PlanSpec

  // ---------------------------------------------------------------- the pass from planned pointer p

  /** Entry of block `i` after the reverse pass.  A block already at its maximum is left alone,
      and the newest block is planned to end at rest. */
  function RevEntry(s: seq<Block>, p: nat, i: nat): real
    requires p < i < |s|
    decreases |s| - i
  {
    if i == |s| - 1 then Min(s[i].maxEntry, Reach(s[i]))
    else if s[i].entry == s[i].maxEntry then s[i].entry
    else
      var fastest := RevEntry(s, p, i + 1) + Reach(s[i]);
      if fastest < s[i].maxEntry then fastest else s[i].maxEntry
  }

  /** True when the tool has to accelerate all the way from speed `from` into block `i`. */
  predicate FullAcceleration(s: seq<Block>, p: nat, i: nat, from: real)
    requires p < i < |s|
  {
    from < RevEntry(s, p, i) && from + Reach(s[i - 1]) < RevEntry(s, p, i)
  }

  /** Entry of block `i` after both passes. */
  function PassEntry(s: seq<Block>, p: nat, i: nat): real
    requires p <= i < |s|
    decreases i
  {
    if i == p then s[p].entry
    else
      var from := PassEntry(s, p, i - 1);
      if FullAcceleration(s, p, i, from) then from + Reach(s[i - 1]) else RevEntry(s, p, i)
  }

  /** The planned pointer once the forward pass has reached block `i`. */
  function PassPlanned(s: seq<Block>, p: nat, i: nat): (q: nat)
    requires p <= i < |s|
    ensures p <= q <= i
    decreases i
  {
    if i == p then p
    else if FullAcceleration(s, p, i, PassEntry(s, p, i - 1)) || PassEntry(s, p, i) == s[i].maxEntry then i
    else PassPlanned(s, p, i - 1)
  }

  /** The whole queue after a recalculation from planned pointer `p`. */
  function Recalc(s: seq<Block>, p: nat): (r: seq<Block>)
    requires p < |s|
    ensures |r| == |s|
  {
    seq(|s|, i requires 0 <= i < |s| => if i <= p then s[i] else s[i].(entry := PassEntry(s, p, i)))
  }

  // ---------------------------------------------------------------- entries do not matter to a full pass

  /** `t` and `s` agree on everything a full pass reads except the entry speeds. */
  ghost predicate SameShape(s: seq<Block>, t: seq<Block>) {
    |t| == |s| && forall i :: 0 <= i < |s| ==> SameLimits(s[i], t[i])
  }

  ghost predicate SameLimits(b: Block, c: Block) {
    c.maxEntry == b.maxEntry && Reach(c) == Reach(b)
  }

  lemma {:induction false} RevSameShape(s: seq<Block>, t: seq<Block>, i: nat)
    requires SameShape(s, t) && i < |s|
    ensures Rev(t, i) == Rev(s, i)
    decreases |s| - i
  {
    assert SameLimits(s[i], t[i]);
    if i < |s| - 1 {
      RevSameShape(s, t, i + 1);
    }
  }

  lemma {:induction false} FwdSameShape(s: seq<Block>, t: seq<Block>, i: nat)
    requires SameShape(s, t) && i < |s| && t[0].entry == s[0].entry
    ensures Fwd(t, i) == Fwd(s, i)
  {
    if i > 0 {
      RevSameShape(s, t, i);
      FwdSameShape(s, t, i - 1);
      assert SameLimits(s[i - 1], t[i - 1]);
    }
  }

  lemma {:induction false} RevSuffix(s: seq<Block>, i: nat)
    requires |s| > 1 && i < |s| - 1
    ensures Rev(s[1..], i) == Rev(s, i + 1)
    decreases |s| - i
  {
    if i < |s| - 2 {
      RevSuffix(s, i + 1);
    }
  }

  /** The full pass of a queue whose tail is taken off, when the next tail starts at its plan. */
  lemma {:induction false} FwdSuffix(s: seq<Block>, i: nat)
    requires |s| > 1 && i < |s| - 1 && s[1].entry == Fwd(s, 1)
    ensures Fwd(s[1..], i) == Fwd(s, i + 1)
  {
    if i > 0 {
      RevSuffix(s, i);
      FwdSuffix(s, i - 1);
    }
  }

  // ---------------------------------------------------------------- incremental equals full

  /** Skipping a block that sits at its maximum is exact when its reverse value is the maximum. */
  ghost predicate ShortcutExact(s: seq<Block>, p: nat) {
    forall i :: p < i < |s| - 1 && s[i].entry == s[i].maxEntry ==> Rev(s, i) == s[i].maxEntry
  }

  lemma {:induction false} RevEntryIsRev(s: seq<Block>, p: nat, i: nat)
    requires p < i < |s| && ShortcutExact(s, p)
    ensures RevEntry(s, p, i) == Rev(s, i)
    decreases |s| - i
  {
    if i < |s| - 1 {
      RevEntryIsRev(s, p, i + 1);
    }
  }

  lemma {:induction false} PassEntryIsFwd(s: seq<Block>, p: nat, i: nat)
    requires p <= i < |s| && AllMovable(s) && ShortcutExact(s, p)
    requires s[p].entry == Fwd(s, p)
    ensures PassEntry(s, p, i) == Fwd(s, i)
    decreases i
  {
    if i > p {
      RevEntryIsRev(s, p, i);
      PassEntryIsFwd(s, p, i - 1);
      assert Movable(s[i - 1]);
    }
  }

  lemma {:induction false} PassPlannedIsBreak(s: seq<Block>, p: nat, i: nat)
    requires p <= i < |s| && AllMovable(s) && ShortcutExact(s, p)
    requires s[p].entry == Fwd(s, p) && Break(s, p)
    ensures Break(s, PassPlanned(s, p, i))
    decreases i
  {
    if i > p {
      RevEntryIsRev(s, p, i);
      PassEntryIsFwd(s, p, i);
      PassEntryIsFwd(s, p, i - 1);
      PassPlannedIsBreak(s, p, i - 1);
    }
  }

  /** Every entry is the one a full pass from the tail gives. */
  ghost predicate FullyPlanned(s: seq<Block>) {
    forall i :: 0 <= i < |s| ==> s[i].entry == Fwd(s, i)
  }

  lemma BreakSameShape(s: seq<Block>, t: seq<Block>, p: nat)
    requires SameShape(s, t) && p < |s| && t[0].entry == s[0].entry && Break(s, p)
    ensures Break(t, p)
  {
    FwdSameShape(s, t, p);
    RevSameShape(s, t, p);
    assert SameLimits(s[p], t[p]);
    if p > 0 {
      FwdSameShape(s, t, p - 1);
      assert SameLimits(s[p - 1], t[p - 1]);
    }
  }

  /** A recalculation changes entry speeds only, and none up to the planned pointer. */
  ghost predicate PassedFrom(s: seq<Block>, p: nat, t: seq<Block>)
    requires p < |s|
  {
    && SameShape(s, t)
    && (forall i :: 0 <= i <= p ==> t[i] == s[i])
    && (forall i :: p < i < |s| ==> t[i].entry == PassEntry(s, p, i))
  }

  lemma RecalcPassed(s: seq<Block>, p: nat)
    requires p < |s|
    ensures PassedFrom(s, p, Recalc(s, p))
  {
    var t := Recalc(s, p);
    forall i | 0 <= i < |s|
      ensures SameLimits(s[i], t[i])
      ensures i <= p ==> t[i] == s[i]
      ensures i > p ==> t[i].entry == PassEntry(s, p, i)
    {
    }
  }

  /** A recalculation from a break point whose prefix is fully planned plans the whole queue. */
  lemma PassIsFull(s: seq<Block>, p: nat, t: seq<Block>)
    requires p < |s| && AllMovable(s) && ShortcutExact(s, p) && PassedFrom(s, p, t)
    requires forall i :: 0 <= i <= p ==> s[i].entry == Fwd(s, i)
    ensures FullyPlanned(t)
  {
    forall i | 0 <= i < |t| ensures t[i].entry == Fwd(t, i) {
      FwdSameShape(s, t, i);
      if i > p {
        PassEntryIsFwd(s, p, i);
      }
    }
  }

  /** It also leaves the planned pointer on a break point. */
  lemma PassEndsOnBreak(s: seq<Block>, p: nat, t: seq<Block>, n: nat, q: nat)
    requires p < |s| && AllMovable(s) && ShortcutExact(s, p) && Break(s, p) && s[p].entry == Fwd(s, p)
    requires SameShape(s, t) && t[0].entry == s[0].entry && n == |s| - 1 && q == PassPlanned(s, p, n)
    ensures q < |t| && Break(t, q)
  {
    PassPlannedIsBreak(s, p, n);
    BreakSameShape(s, t, q);
  }
}
