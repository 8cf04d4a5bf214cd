/** Ring arithmetic, and the two passes on a ring of blocks given as a sequence of slots. */
module Ring {
  import opened PlanTypes
  import opened PlanUpdate

  function Next(size: nat, i: nat): nat {
    if i + 1 == size then 0 else i + 1
  }

  function Prev(size: nat, i: nat): int {
    if i == 0 then size - 1 else i - 1
  }

  /** The index `k` places after `from` in a ring. */
  function At(size: nat, from: nat, k: nat): (i: nat)
    requires from < size && k <= size
    ensures i <= size && (k < size ==> i < size)
  {
    if from + k < size then from + k else from + k - size
  }

  /** How far `to` lies ahead of `from`. */
  function Ahead(size: nat, from: nat, to: nat): (k: nat)
    requires from < size && to < size
    ensures k < size && At(size, from, k) == to
  {
    if from <= to then to - from else to + size - from
  }

  function WithEntry(b: Block, v: real): Block {
    b.(entry := v)
  }

  function WithSpeed(b: seq<Block>, i: nat, speed: real): (c: seq<Block>)
    requires i < |b|
    ensures |c| == |b|
  {
    b[i := WithEntry(b[i], Sq(speed))]
  }

  /** The `n` blocks that start at ring index `from`. */
  function Window(b: seq<Block>, from: nat, n: nat): (w: seq<Block>)
    requires from < |b| && n <= |b|
    ensures |w| == n && forall k :: 0 <= k < n ==> w[k] == b[At(|b|, from, k)]
  {
    seq(n, k requires 0 <= k < n => b[At(|b|, from, k)])
  }

  lemma AheadOfAt(size: nat, from: nat, k: nat)
    requires from < size && k < size
    ensures Ahead(size, from, At(size, from, k)) == k
  {
  }

  /** The first slot of a window is dropped. */
  lemma WindowDrops(b: seq<Block>, from: nat, to: nat, planned: nat)
    requires from < |b| && to < |b| && planned < |b| && from != to
    ensures var next := Next(|b|, from);
      && next < |b| && Ahead(|b|, next, to) == Ahead(|b|, from, to) - 1
      && Window(b, next, Ahead(|b|, next, to)) == Window(b, from, Ahead(|b|, from, to))[1..]
      && Ahead(|b|, next, if planned == from then next else planned) == if planned == from then 0
        else Ahead(|b|, from, planned) - 1
  {
  }

  /** The block before one that must be entered at `exit`, as the reverse pass leaves it. */
  function Decelerated(c: Block, exit: real): Block {
    WithEntry(c,
      if c.entry == c.maxEntry then c.entry
      else if exit + Reach(c) < c.maxEntry then exit + Reach(c)
      else c.maxEntry)
  }

  // ---------------------------------------------------------------- the two passes on the ring

  /** The ring when the reverse pass over the `n` blocks from `from` has come down to block `k`. */
  function Reversed(b: seq<Block>, from: nat, n: nat, k: nat): (c: seq<Block>)
    requires from < |b| && n <= |b| && 1 <= k
    ensures |c| == |b|
  {
    var w := Window(b, from, n);
    seq(|b|, i requires 0 <= i < |b| =>
      var j := Ahead(|b|, from, i);
      if k <= j < n then WithEntry(b[i], RevEntry(w, 0, j)) else b[i])
  }

  /** The ring when the forward pass has then come up to block `k`. */
  function Forwarded(b: seq<Block>, from: nat, n: nat, k: nat): (c: seq<Block>)
    requires from < |b| && n <= |b|
    ensures |c| == |b|
  {
    var w := Window(b, from, n);
    seq(|b|, i requires 0 <= i < |b| =>
      var j := Ahead(|b|, from, i);
      if j == 0 || j >= n then b[i]
      else if j <= k then WithEntry(b[i], PassEntry(w, 0, j))
      else WithEntry(b[i], RevEntry(w, 0, j)))
  }

  lemma ReverseStarts(b: seq<Block>, from: nat, n: nat, k: nat, last: nat)
    requires from < |b| && 2 <= n <= |b| && k == n - 1 && last == At(|b|, from, k)
    ensures Reversed(b, from, n, k) == b[last := WithEntry(b[last], Min(b[last].maxEntry, Reach(b[last])))]
  {
  }

  lemma ReverseStep(b: seq<Block>, from: nat, n: nat, k: nat, k1: nat, current: nat, next: nat, c: seq<Block>)
    requires from < |b| && n <= |b| && 1 <= k && k1 == k + 1 < n && c == Reversed(b, from, n, k1)
    requires current == At(|b|, from, k) && next == At(|b|, from, k1)
    ensures c[current := Decelerated(c[current], c[next].entry)] == Reversed(b, from, n, k)
  {
    var w := Window(b, from, n);
    assert c[current] == b[current] == w[k];
    assert c[next] == WithEntry(w[k1], RevEntry(w, 0, k1));
  }

  lemma {:induction false} RevEntrySkipsFirst(w: seq<Block>, x: Block, j: nat)
    requires 1 <= j < |w|
    ensures RevEntry(w[0 := x], 0, j) == RevEntry(w, 0, j)
    decreases |w| - j
  {
    if j < |w| - 1 {
      RevEntrySkipsFirst(w, x, j + 1);
    }
  }

  /** The reverse pass does not look at the block at the planned pointer. */
  lemma ReversedWithSpeed(b: seq<Block>, from: nat, n: nat, k: nat, speed: real)
    requires from < |b| && 1 <= n <= |b| && 1 <= k
    ensures Reversed(WithSpeed(b, from, speed), from, n, k) == WithSpeed(Reversed(b, from, n, k), from, speed)
  {
    var x := WithEntry(b[from], Sq(speed));
    var w := Window(b, from, n);
    assert Window(b[from := x], from, n) == w[0 := x];
    forall j | 1 <= j < n ensures RevEntry(w[0 := x], 0, j) == RevEntry(w, 0, j) {
      RevEntrySkipsFirst(w, x, j);
    }
  }

  lemma ForwardStarts(b: seq<Block>, from: nat, n: nat)
    requires from < |b| && 1 <= n <= |b|
    ensures Forwarded(b, from, n, 0) == Reversed(b, from, n, 1)
  {
  }

  lemma ForwardOfOne(b: seq<Block>, from: nat, n: nat)
    requires from < |b| && n == 1
    ensures Forwarded(b, from, n, 0) == b
  {
  }

  /** What the forward pass does with block `next`, entered from a block at `from` with reach `r`. */
  function Accelerated(next: Block, from: real, r: real): Block {
    if from < next.entry && from + r < next.entry then WithEntry(next, from + r) else next
  }

  /** True when the forward pass moves the planned pointer to `next`. */
  predicate MovesPlanned(next: Block, from: real, r: real) {
    (from < next.entry && from + r < next.entry) || Accelerated(next, from, r).entry == next.maxEntry
  }

  lemma ForwardSees(b: seq<Block>, from: nat, n: nat, k: nat, k1: nat, current: nat, next: nat, w: seq<Block>)
    requires from < |b| && n <= |b| && k1 == k + 1 < n && w == Window(b, from, n)
    requires current == At(|b|, from, k) && next == At(|b|, from, k1)
    ensures Forwarded(b, from, n, k)[current] == WithEntry(w[k], PassEntry(w, 0, k))
    ensures Forwarded(b, from, n, k)[next] == WithEntry(w[k1], RevEntry(w, 0, k1))
  {
    assert b[current] == w[k] && b[next] == w[k1];
    assert WithEntry(w[0], w[0].entry) == w[0];
  }

  lemma ForwardStep(b: seq<Block>, from: nat, n: nat, k: nat, k1: nat, next: nat, w: seq<Block>)
    requires from < |b| && n <= |b| && k1 == k + 1 < n && w == Window(b, from, n)
    requires next == At(|b|, from, k1)
    ensures Forwarded(b, from, n, k)[next := WithEntry(w[k1], PassEntry(w, 0, k1))] == Forwarded(b, from, n, k1)
  {
    assert b[next] == w[k1];
  }

  lemma PassStep(w: seq<Block>, k: nat, k1: nat, next: Block, from: real, r: real)
    requires k1 == k + 1 < |w| && from == PassEntry(w, 0, k) && r == Reach(w[k])
    requires next == WithEntry(w[k1], RevEntry(w, 0, k1))
    ensures Accelerated(next, from, r) == WithEntry(w[k1], PassEntry(w, 0, k1))
    ensures PassPlanned(w, 0, k1) == if MovesPlanned(next, from, r) then k1 else PassPlanned(w, 0, k)
  {
  }

  lemma ReachKeeps(b: Block, v: real)
    ensures Reach(WithEntry(b, v)) == Reach(b)
  {
  }

  /** One round of the forward pass on the ring: entries and planned pointer. */
  lemma ForwardRound(b: seq<Block>, from: nat, n: nat, k: nat, k1: nat, current: nat, next: nat, w: seq<Block>,
                     c: seq<Block>, speed: real, r: real)
    requires from < |b| && n <= |b| && k1 == k + 1 < n && w == Window(b, from, n)
    requires current == At(|b|, from, k) && next == At(|b|, from, k1) && c == Forwarded(b, from, n, k)
    requires speed == c[current].entry && r == Reach(c[current])
    ensures c[next := Accelerated(c[next], speed, r)] == Forwarded(b, from, n, k1)
    ensures PassPlanned(w, 0, k1) == if MovesPlanned(c[next], speed, r) then k1 else PassPlanned(w, 0, k)
  {
    ForwardSees(b, from, n, k, k1, current, next, w);
    ForwardStep(b, from, n, k, k1, next, w);
    ReachKeeps(w[k], speed);
    PassStep(w, k, k1, c[next], speed, r);
  }

  /** A block of the window that is not its first differs from the planned pointer and, when the
      queue from `tail` to `head` contains the planned pointer, also from `tail`. */
  lemma TailOnlyFirst(size: nat, tail: nat, planned: nat, head: nat, k: nat)
    requires tail < size && planned < size && head < size && tail != head
    requires Ahead(size, tail, planned) < Ahead(size, tail, head)
    requires k < Ahead(size, planned, head) && At(size, planned, k) == tail
    ensures k == 0 && planned == tail
  {
  }
}
