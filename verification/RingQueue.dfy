/** A recalculation of part of the ring is a recalculation of the queue the ring holds. */
module RingQueue {
  import opened PlanTypes
  import opened PlanUpdate
  import opened PlanRun
  import opened Ring

  /** Slots may hold stale blocks, but never negative speeds or distances. */
  ghost predicate Harmless(b: Block) {
    b.entry >= 0.0 && b.maxEntry >= 0.0 && Reach(b) >= 0.0
  }

  lemma {:induction false} RevEntryShift(s: seq<Block>, w: seq<Block>, p: nat, j: nat, i: nat)
    requires p < |s| && w == s[p..] && 0 < j < |w| && i == p + j
    ensures RevEntry(w, 0, j) == RevEntry(s, p, i)
    decreases |s| - i
  {
    if i < |s| - 1 {
      RevEntryShift(s, w, p, j + 1, i + 1);
    }
  }

  lemma {:induction false} PassEntryShift(s: seq<Block>, w: seq<Block>, p: nat, j: nat, i: nat)
    requires p < |s| && w == s[p..] && j < |w| && i == p + j
    ensures PassEntry(w, 0, j) == PassEntry(s, p, i)
    decreases j
  {
    if j > 0 {
      PassEntryShift(s, w, p, j - 1, i - 1);
      RevEntryShift(s, w, p, j, i);
      assert w[j - 1] == s[i - 1];
    }
  }

  lemma {:induction false} PassPlannedShift(s: seq<Block>, w: seq<Block>, p: nat, j: nat, i: nat)
    requires p < |s| && w == s[p..] && j < |w| && i == p + j
    ensures p + PassPlanned(w, 0, j) == PassPlanned(s, p, i)
    decreases j
  {
    if j > 0 {
      PassPlannedShift(s, w, p, j - 1, i - 1);
      PassEntryShift(s, w, p, j, i);
      PassEntryShift(s, w, p, j - 1, i - 1);
      RevEntryShift(s, w, p, j, i);
      assert w[j - 1] == s[i - 1] && w[j] == s[i];
    }
  }

  lemma WindowSuffix(b: seq<Block>, tail: nat, c: nat, from: nat, p: nat, n: nat)
    requires tail < |b| && c < |b| && p < c && from == At(|b|, tail, p) && n == c - p
    ensures Window(b, from, n) == Window(b, tail, c)[p..]
  {
  }

  /** The queue from `tail`, seen through a recalculation of the `n` blocks from `from`. */
  lemma QueueRecalculated(b: seq<Block>, tail: nat, c: nat, from: nat, p: nat, n: nat, m: nat, s: seq<Block>)
    requires tail < |b| && c < |b| && p < c && from == At(|b|, tail, p) && n == c - p && m == n - 1
    requires s == Window(b, tail, c)
    ensures Window(Forwarded(b, from, n, m), tail, c) == Recalc(s, p)
  {
    var w := Window(b, from, n);
    var f := Forwarded(b, from, n, m);
    var r := Recalc(s, p);
    WindowSuffix(b, tail, c, from, p, n);
    forall i | 0 <= i < c ensures f[At(|b|, tail, i)] == r[i] {
      var x := At(|b|, tail, i);
      var j := Ahead(|b|, from, x);
      assert b[x] == s[i];
      if i > p {
        assert j == i - p;
        PassEntryShift(s, w, p, j, i);
      } else {
        assert j == 0 || j >= n;
      }
    }
  }

  lemma PlannedRecalculated(b: seq<Block>, tail: nat, c: nat, from: nat, p: nat, n: nat, m: nat, w: seq<Block>,
                            s: seq<Block>, last: nat)
    requires tail < |b| && c < |b| && p < c && from == At(|b|, tail, p) && n == c - p && m == n - 1
    requires s == Window(b, tail, c) && w == Window(b, from, n) && last == c - 1
    ensures At(|b|, from, PassPlanned(w, 0, m)) == At(|b|, tail, PassPlanned(s, p, last))
  {
    WindowSuffix(b, tail, c, from, p, n);
    PassPlannedShift(s, w, p, m, last);
  }

  // ---------------------------------------------------------------- a tail in front of the planned pointer

  lemma {:induction false} RevEntryIgnoresTail(s: seq<Block>, t: seq<Block>, p: nat, i: nat)
    requires 0 < p < i < |s| && |t| == |s| && forall k :: 1 <= k < |s| ==> t[k] == s[k]
    ensures RevEntry(t, p, i) == RevEntry(s, p, i)
    decreases |s| - i
  {
    if i < |s| - 1 {
      RevEntryIgnoresTail(s, t, p, i + 1);
    }
  }

  lemma {:induction false} PassIgnoresTail(s: seq<Block>, t: seq<Block>, p: nat, i: nat)
    requires 0 < p <= i < |s| && |t| == |s| && forall k :: 1 <= k < |s| ==> t[k] == s[k]
    ensures PassEntry(t, p, i) == PassEntry(s, p, i) && PassPlanned(t, p, i) == PassPlanned(s, p, i)
    decreases i
  {
    if i > p {
      RevEntryIgnoresTail(s, t, p, i);
      PassIgnoresTail(s, t, p, i - 1);
    }
  }

  lemma RecalcIgnoresTail(s: seq<Block>, p: nat, x: Block, t: seq<Block>)
    requires 0 < p < |s| && t == s[0 := x]
    ensures Recalc(t, p) == Recalc(s, p)[0 := x]
  {
    forall i | p < i < |s| ensures PassEntry(t, p, i) == PassEntry(s, p, i) {
      PassIgnoresTail(s, t, p, i);
    }
  }

  /** A recalculation from behind the tail, when the stepper executes the tail at `speed`. */
  lemma ExecutedTailUntouched(b: seq<Block>, tail: nat, c: nat, from: nat, p: nat, n: nat, m: nat, last: nat,
                              speed: real, f: seq<Block>, s: seq<Block>, w: seq<Block>)
    requires tail < |b| && c < |b| && 0 < p < c && from == At(|b|, tail, p) && n == c - p && m == n - 1 && last == c - 1
    requires f == Forwarded(b, from, n, m) && s == Window(WithSpeed(b, tail, speed), tail, c) && w == Window(b, from, n)
    ensures Window(WithSpeed(f, tail, speed), tail, c) == Recalc(s, p)
    ensures At(|b|, from, PassPlanned(w, 0, m)) == At(|b|, tail, PassPlanned(s, p, last))
  {
    var raw := Window(b, tail, c);
    var x := WithEntry(b[tail], Sq(speed));
    assert s == raw[0 := x];
    QueueRecalculated(b, tail, c, from, p, n, m, raw);
    PlannedRecalculated(b, tail, c, from, p, n, m, w, raw, last);
    RecalcIgnoresTail(raw, p, x, s);
    PassIgnoresTail(raw, s, p, last);
    assert f[tail] == b[tail] by {
      assert Ahead(|b|, from, tail) >= n;
    }
    assert Window(WithSpeed(f, tail, speed), tail, c) == Window(f, tail, c)[0 := x];
  }

  // ---------------------------------------------------------------- an empty queue

  lemma {:induction false} HarmlessPass(w: seq<Block>, i: nat)
    requires i < |w| && forall k :: 0 <= k < |w| ==> Harmless(w[k])
    ensures PassEntry(w, 0, i) >= 0.0
  {
    if i > 0 {
      HarmlessPass(w, i - 1);
      HarmlessRev(w, i);
      assert Harmless(w[i - 1]);
    }
  }

  lemma {:induction false} HarmlessRev(w: seq<Block>, i: nat)
    requires 0 < i < |w| && forall k :: 0 <= k < |w| ==> Harmless(w[k])
    ensures 0.0 <= RevEntry(w, 0, i)
    decreases |w| - i
  {
    assert Harmless(w[i]);
    if i < |w| - 1 {
      HarmlessRev(w, i + 1);
    }
  }

  /** Wherever the planned pointer was left, a first block that starts from rest catches it. */
  lemma FirstBlockCatchesPlanned(w: seq<Block>, m: nat)
    requires m == |w| - 1 && (forall k :: 0 <= k < |w| ==> Harmless(w[k])) && w[m].maxEntry == 0.0 && w[m].entry == 0.0
    ensures PassPlanned(w, 0, m) == m && PassEntry(w, 0, m) == 0.0
  {
    if m > 0 {
      assert Harmless(w[m]);
      HarmlessPass(w, m - 1);
    }
  }

  /** The passes leave the planned pointer at the start of the slots: no slot reaches its maximum
      entry, and the first is fast enough for what follows. */
  predicate PassesStay(w: seq<Block>)
    requires w != []
  {
    && (forall k :: 1 <= k < |w| ==>
        TotalReach(w[k..]) < w[k].maxEntry
        && (k < |w| - 1 ==> w[k].entry != w[k].maxEntry))
    && (|w| > 1 ==> TotalReach(w[1..]) <= w[0].entry + Reach(w[0]))
  }

  lemma ReachFrom(w: seq<Block>, k: nat)
    requires k < |w|
    ensures TotalReach(w[k..]) == Reach(w[k]) + TotalReach(w[k + 1..])
  {
    assert w[k..][1..] == w[k + 1..];
  }

  /** Slots below their maximum are entered at what the slots from there on can absorb. */
  lemma {:induction false} BelowMaximum(w: seq<Block>, i: nat)
    requires 1 <= i < |w|
    ensures (forall k :: i <= k < |w| ==> RevEntry(w, 0, k) != w[k].maxEntry)
      <==> (forall k :: i <= k < |w| ==>
          TotalReach(w[k..]) < w[k].maxEntry
          && (k < |w| - 1 ==> w[k].entry != w[k].maxEntry))
    ensures (forall k :: i <= k < |w| ==> RevEntry(w, 0, k) != w[k].maxEntry)
      ==> RevEntry(w, 0, i) == TotalReach(w[i..])
    decreases |w| - i
  {
    hide TotalReach, Reach;
    ReachFrom(w, i);
    if i == |w| - 1 {
      assert w[i + 1..] == [];
      NothingAhead();
    } else {
      BelowMaximum(w, i + 1);
    }
  }

  lemma NothingAhead()
    ensures TotalReach([]) == 0.0
  {
  }

  /** The pointer has not moved up to slot `i`: nothing was accelerated, nothing taken at its maximum. */
  ghost predicate Unmoved(w: seq<Block>, i: nat)
    requires i < |w|
  {
    forall k :: 1 <= k <= i ==>
      && RevEntry(w, 0, k) != w[k].maxEntry
      && RevEntry(w, 0, k) <= (if k == 1 then w[0].entry else RevEntry(w, 0, k - 1)) + Reach(w[k - 1])
  }

  lemma {:induction false} PlannedUnmoved(w: seq<Block>, i: nat)
    requires i < |w| && forall k :: 0 <= k < |w| ==> Harmless(w[k])
    ensures PassPlanned(w, 0, i) == 0 <==> Unmoved(w, i)
    ensures Unmoved(w, i) ==> PassEntry(w, 0, i) == if i == 0 then w[0].entry else RevEntry(w, 0, i)
  {
    hide RevEntry;
    if i > 0 {
      PlannedUnmoved(w, i - 1);
      assert Harmless(w[i - 1]);
    }
  }

  lemma NothingMoved(w: seq<Block>)
    requires w != []
    ensures Unmoved(w, 0)
  {
  }

  ghost predicate NoneAtMaximum(w: seq<Block>, i: nat) {
    forall k :: i <= k < |w| ==> k > 0 && RevEntry(w, 0, k) != w[k].maxEntry
  }

  /** Below their maxima, the slots behind the first never need accelerating. */
  lemma UnmovedMeans(w: seq<Block>, m: nat)
    requires 1 <= m == |w| - 1 && forall k :: 0 <= k < |w| ==> Harmless(w[k])
    ensures Unmoved(w, m) <==> NoneAtMaximum(w, 1) && RevEntry(w, 0, 1) <= w[0].entry + Reach(w[0])
  {
    if NoneAtMaximum(w, 1) {
      forall k | 2 <= k < |w|
        ensures RevEntry(w, 0, k) <= RevEntry(w, 0, k - 1) + Reach(w[k - 1])
      {
        assert Harmless(w[k - 1]);
        ReverseGrows(w, k - 1);
      }
    }
    hide RevEntry, Reach, Harmless;
    if Unmoved(w, m) {
      forall k | 1 <= k < |w|
        ensures RevEntry(w, 0, k) != w[k].maxEntry
      {
      }
    }
  }

  /** On an empty queue the passes leave the planned pointer alone exactly when `PassesStay`. */
  lemma PlannedStays(w: seq<Block>, m: nat)
    requires w != [] && m == |w| - 1 && forall k :: 0 <= k < |w| ==> Harmless(w[k])
    ensures PassPlanned(w, 0, m) == 0 <==> PassesStay(w)
  {
    hide RevEntry, PassPlanned, PassEntry, TotalReach, Reach, Harmless, Unmoved;
    PlannedUnmoved(w, m);
    if m > 0 {
      BelowMaximum(w, 1);
      UnmovedMeans(w, m);
    } else {
      NothingMoved(w);
    }
  }

  lemma ReverseGrows(w: seq<Block>, k: nat)
    requires 1 <= k < |w| - 1 && Harmless(w[k]) && RevEntry(w, 0, k) != w[k].maxEntry
    ensures RevEntry(w, 0, k + 1) <= RevEntry(w, 0, k) + Reach(w[k])
  {
  }

  /** A slot behind the first that still holds a block that started from rest is enough to move it. */
  lemma RestMovesPlanned(w: seq<Block>, k: nat)
    requires 1 <= k < |w| && w[k].maxEntry == 0.0 && forall j :: 0 <= j < |w| ==> Harmless(w[j])
    ensures !PassesStay(w)
  {
    ReachAhead(w, k);
  }

  lemma {:induction false} ReachAhead(w: seq<Block>, k: nat)
    requires k <= |w| && forall j :: 0 <= j < |w| ==> Harmless(w[j])
    ensures TotalReach(w[k..]) >= 0.0
    decreases |w| - k
  {
    if k < |w| {
      ReachFrom(w, k);
      ReachAhead(w, k + 1);
      assert Harmless(w[k]);
    }
  }

  /** Where no slot has distance left, only the maxima matter. */
  lemma StaysWhenSpent(w: seq<Block>)
    requires w != [] && (forall k :: 0 <= k < |w| ==> Harmless(w[k]) && Reach(w[k]) == 0.0)
    ensures PassesStay(w) <==> forall k ::
      1 <= k < |w|
      ==> w[k].maxEntry > 0.0 && (k < |w| - 1 ==> w[k].entry != w[k].maxEntry)
  {
    forall k | 1 <= k < |w|
      ensures TotalReach(w[k..]) == 0.0
    {
      NoReach(w, k);
    }
    hide TotalReach;
    assert Harmless(w[0]);
  }

  lemma {:induction false} NoReach(w: seq<Block>, k: nat)
    requires k <= |w| && forall j :: 0 <= j < |w| ==> Reach(w[j]) == 0.0
    ensures TotalReach(w[k..]) == 0.0
    decreases |w| - k
  {
    if k < |w| {
      ReachFrom(w, k);
      NoReach(w, k + 1);
    }
  }

  /** The passes leave harmless slots harmless. */
  lemma ForwardedHarmless(b: seq<Block>, from: nat, n: nat, k: nat)
    requires from < |b| && 1 <= n <= |b| && forall i :: 0 <= i < |b| ==> Harmless(b[i])
    ensures forall i :: 0 <= i < |b| ==> Harmless(Forwarded(b, from, n, k)[i])
  {
    var w := Window(b, from, n);
    var f := Forwarded(b, from, n, k);
    forall i | 0 <= i < |b| ensures Harmless(f[i]) {
      var j := Ahead(|b|, from, i);
      assert Harmless(b[i]);
      if 0 < j < n {
        HarmlessPass(w, j);
        HarmlessRev(w, j);
        ReachKeeps(b[i], PassEntry(w, 0, j));
        ReachKeeps(b[i], RevEntry(w, 0, j));
      }
    }
  }

  lemma SpeedHarmless(b: seq<Block>, i: nat, speed: real)
    requires i < |b| && forall k :: 0 <= k < |b| ==> Harmless(b[k])
    ensures forall k :: 0 <= k < |b| ==> Harmless(WithSpeed(b, i, speed)[k])
  {
    ReachKeeps(b[i], Sq(speed));
    assert Sq(speed) >= 0.0;
    assert Harmless(b[i]);
  }
}
