/** The planner's ring of blocks, recalculated in place. */
module Planner {
  import opened PlanTypes
  import opened PlanSpec
  import opened PlanUpdate
  import opened PlanRun
  import opened Prep
  import opened Ring
  import opened RingQueue

  /** The `count` blocks from `tail` on, with the stepper's speed in a tail it is executing. */
  function QueueIn(slots: seq<Block>, tail: nat, count: nat, executing: int, speed: real): (s: seq<Block>)
    requires tail < |slots| && count <= |slots|
    ensures |s| == count
  {
    Window(if executing >= 0 then WithSpeed(slots, tail, speed) else slots, tail, count)
  }

  class BlockRing {
    const size: nat
    const buffer: array<Block>
    const prep: PrepState
    var tail: nat
    var head: nat
    var nextHead: nat
    var planned: nat

    /** plan_reset, on slots that all hold `empty`. */
    constructor (size: nat, prep: PrepState, empty: Block)
      requires size >= 2 && prep.plBlock == -1 && prep.currentSpeed >= 0.0 && Harmless(empty)
      ensures Valid() && tail == head && this.size == size && this.prep == prep && fresh(buffer)
      ensures forall k :: 0 <= k < size ==> buffer[k] == empty
    {
      this.size := size;
      this.prep := prep;
      buffer := new Block[size](_ => empty);
      tail, head, nextHead, planned := 0, 0, 1, 0;
    }

    ghost predicate Indices()
      reads this
    {
      && size >= 2 && buffer.Length == size
      && tail < size && head < size && planned < size && nextHead == Next(size, head)
    }

    /** The block being prepped, if any, is the tail of a queue whose planned pointer is in it. */
    ghost predicate PrepsTail()
      reads this, prep
      requires Indices()
    {
      || prep.plBlock == -1
      || (prep.plBlock == tail && Ahead(size, tail, planned) < Ahead(size, tail, head))
    }

    /** The number of blocks a recalculation looks at: from the planned pointer up to the head,
        the whole ring when the two coincide. */
    ghost function Span(): (n: nat)
      reads this
      requires Indices()
      ensures 1 <= n <= size
    {
      if planned == head then size else Ahead(size, planned, head)
    }

    /** True when a recalculation has to tell the stepper that it replans the executing block. */
    ghost predicate Notifies()
      reads this, prep
      requires Indices()
    {
      planned == tail && Span() >= 2 && prep.plBlock >= 0
    }

    /** The ring as the passes see it: the stepper's speed is in a tail it is executing. */
    ghost function Seen(): (b: seq<Block>)
      reads this, buffer, prep
      requires Indices()
      ensures |b| == size
    {
      if Notifies() then WithSpeed(buffer[..], tail, prep.currentSpeed) else buffer[..]
    }

    /** st_update_plan_block_parameters */
    method UpdatePlanBlockParameters()
      requires buffer.Length == size && prep.plBlock < size
      modifies prep`plBlock, prep`recalculate, buffer
      ensures prep.plBlock == if old(prep.plBlock) >= 0 then -1 else old(prep.plBlock)
      ensures prep.recalculate == (old(prep.plBlock) >= 0 || old(prep.recalculate))
      ensures buffer[..] == if old(prep.plBlock) >= 0
        then WithSpeed(old(buffer[..]), old(prep.plBlock), prep.currentSpeed) else old(buffer[..])
    {
      if prep.plBlock >= 0 {
        ghost var b := buffer[..];
        prep.recalculate := true;
        buffer[prep.plBlock] := WithEntry(buffer[prep.plBlock], Sq(prep.currentSpeed));
        assert buffer[..] == WithSpeed(b, prep.plBlock, prep.currentSpeed);
        prep.plBlock := -1;
      }
    }

    /** One block of the reverse pass. */
    method DecelerateInto(current: nat, next: nat)
      requires buffer.Length == size && current < size && next < size
      modifies buffer
      ensures buffer[..] == old(buffer[..])[current := Decelerated(old(buffer[..])[current],
                                                                   old(buffer[..])[next].entry)]
    {
      if buffer[current].entry != buffer[current].maxEntry {
        var entrySpeedSqr := buffer[next].entry + Reach(buffer[current]);
        if entrySpeedSqr < buffer[current].maxEntry {
          buffer[current] := WithEntry(buffer[current], entrySpeedSqr);
        } else {
          buffer[current] := WithEntry(buffer[current], buffer[current].maxEntry);
        }
      } else {
        assert buffer[current] == Decelerated(buffer[current], buffer[next].entry);
      }
      assert buffer[..] == old(buffer[..])[current := buffer[current]];
    }

    /** Tells the stepper when the pass reaches the tail of the queue. */
    method NotifyAt(blockIndex: nat, ghost k: nat, ghost notify: bool)
      requires Indices() && PrepsTail() && k < Span() && Span() >= 2 && blockIndex == At(size, planned, k)
      requires notify == (k == 0 && Notifies())
      modifies prep`plBlock, prep`recalculate, buffer
      ensures prep.plBlock == if notify then -1 else old(prep.plBlock)
      ensures prep.recalculate == (notify || old(prep.recalculate))
      ensures buffer[..] == if notify then WithSpeed(old(buffer[..]), planned, prep.currentSpeed) else old(buffer[..])
    {
      if prep.plBlock >= 0 && blockIndex == tail {
        TailOnlyFirst(size, tail, planned, head, k);
      }
      if blockIndex == tail {
        UpdatePlanBlockParameters();
      }
    }

    /** The reverse loop stands with block `k` done and block `k0` next.  `was` and `wasFlag` are
        the stepper's pl_block and recalculate flag before the pass. */
    ghost predicate Reversing(b: seq<Block>, n: nat, k0: int, k: nat, notify: bool, seen: seq<Block>, was: int,
                              wasFlag: bool)
      reads this, buffer, prep
    {
      && Indices() && n == Span() && |b| == size && 0 <= k0 && k == k0 + 1 < n
      && seen == (if notify then WithSpeed(b, planned, prep.currentSpeed) else b)
      && (k0 > 0 ==> PrepsTail() && notify == Notifies() && prep.plBlock == was && prep.recalculate == wasFlag)
      && (k0 > 0 ==> buffer[..] == Reversed(b, planned, n, k))
      && (k0 == 0 ==> buffer[..] == Reversed(seen, planned, n, k))
      && (k0 == 0 ==> prep.plBlock == (if notify then -1 else was) && prep.recalculate == (notify || wasFlag))
    }

    /** One round of the reverse loop: block `k` of the window is visited, block `k0` is next. */
    method VisitBackward(blockIndex: nat, current: nat, next: nat, ghost b: seq<Block>, ghost n: nat,
                         ghost k0: nat, ghost k: nat, ghost k1: nat, ghost notify: bool, ghost seen: seq<Block>,
                         ghost was: int, ghost wasFlag: bool)
      requires Reversing(b, n, k, k1, notify, seen, was, wasFlag) && k == k0 + 1
      requires blockIndex == At(size, planned, k0) && current == At(size, planned, k) && next == At(size, planned, k1)
      modifies prep`plBlock, prep`recalculate, buffer
      ensures Reversing(b, n, k0, k, notify, seen, was, wasFlag)
    {
      hide Reversed, WithSpeed, Window, Decelerated;
      ghost var told, ring := k0 == 0 && notify, if k0 == 0 then seen else b;
      NotifyAt(blockIndex, k0, told);
      ReversedWithSpeed(b, planned, n, k1, prep.currentSpeed);
      ghost var c := buffer[..];
      assert c == Reversed(ring, planned, n, k1);
      DecelerateInto(current, next);
      ReverseStep(ring, planned, n, k, k1, current, next, c);
    }

    method ReverseLoop(last: nat, ghost b: seq<Block>, ghost n: nat, ghost m: nat, ghost notify: bool,
                       ghost seen: seq<Block>)
      requires Reversing(b, n, m - 1, m, notify, seen, prep.plBlock, prep.recalculate) && last == At(size, planned, m)
      modifies prep`plBlock, prep`recalculate, buffer
      ensures Reversing(b, n, 0, 1, notify, seen, old(prep.plBlock), old(prep.recalculate))
    {
      hide Reversed, WithSpeed, Window, Ahead;
      var current, blockIndex := last, Prev(size, last);
      ghost var k0: int, k: nat := m - 1, m;
      while blockIndex != planned
        invariant Reversing(b, n, k0, k, notify, seen, old(prep.plBlock), old(prep.recalculate))
        invariant k0 <= size && blockIndex == At(size, planned, k0) && current == At(size, planned, k)
        decreases k0
      {
        ghost var k1 := k;
        k, k0 := k0, k0 - 1;
        var next := current;
        current := blockIndex;
        blockIndex := Prev(size, blockIndex);
        VisitBackward(blockIndex, current, next, b, n, k0, k, k1, notify, seen, old(prep.plBlock),
                      old(prep.recalculate));
      }
      assert k0 == 0;
    }

    /** The reverse pass of planner_recalculate. */
    method ReversePass(ghost n: nat, ghost notify: bool, ghost seen: seq<Block>)
      requires Indices() && PrepsTail() && n == Span() >= 2 && notify == Notifies() && seen == Seen()
      modifies prep`plBlock, prep`recalculate, buffer
      ensures buffer[..] == Reversed(seen, planned, n, 1)
      ensures prep.plBlock == if notify then -1 else old(prep.plBlock)
      ensures prep.recalculate == (notify || old(prep.recalculate))
    {
      ghost var b, k := buffer[..], n - 1;
      var current := Prev(size, head);
      ReverseStarts(b, planned, n, k, current);
      buffer[current] := WithEntry(buffer[current], Min(buffer[current].maxEntry, Reach(buffer[current])));
      assert buffer[..] == Reversed(b, planned, n, k);
      var blockIndex := Prev(size, current);
      if blockIndex == planned {
        NotifyAt(blockIndex, 0, notify);
        ReversedWithSpeed(b, planned, n, k, prep.currentSpeed);
      } else {
        ReverseLoop(current, b, n, k, notify, seen);
      }
    }

    /** One block of the forward pass. */
    method AccelerateInto(next: nat, current: nat, ghost c: seq<Block>)
      requires buffer.Length == size && current < size && next < size && next != current && c == buffer[..]
      modifies this`planned, buffer
      ensures buffer[..] == c[next := Accelerated(c[next], c[current].entry, Reach(c[current]))]
      ensures planned == if MovesPlanned(c[next], c[current].entry, Reach(c[current])) then next else old(planned)
    {
      if buffer[current].entry < buffer[next].entry {
        var entrySpeedSqr := buffer[current].entry + Reach(buffer[current]);
        if entrySpeedSqr < buffer[next].entry {
          buffer[next] := WithEntry(buffer[next], entrySpeedSqr);
          planned := next;
        }
      }
      if buffer[next].entry == buffer[next].maxEntry {
        planned := next;
      }
      assert buffer[..] == c[next := buffer[next]];
    }

    /** One round of the forward loop: block `k1` of the window is visited. */
    method VisitForward(next: nat, current: nat, ghost b: seq<Block>, ghost from: nat, ghost n: nat,
                        ghost k: nat, ghost k1: nat, ghost w: seq<Block>)
      requires buffer.Length == size == |b| && from < size && n <= size && k1 == k + 1 < n && w == Window(b, from, n)
      requires current == At(size, from, k) && next == At(size, from, k1)
      requires buffer[..] == Forwarded(b, from, n, k) && planned == At(size, from, PassPlanned(w, 0, k))
      modifies this`planned, buffer
      ensures buffer[..] == Forwarded(b, from, n, k1) && planned == At(size, from, PassPlanned(w, 0, k1))
    {
      ghost var c := buffer[..];
      ForwardRound(b, from, n, k, k1, current, next, w, c, c[current].entry, Reach(c[current]));
      AccelerateInto(next, current, c);
    }

    /** The forward pass of planner_recalculate. */
    method ForwardPass(ghost b: seq<Block>, ghost from: nat, ghost n: nat, ghost m: nat, ghost w: seq<Block>)
      requires Indices() && |b| == size && from == planned && n == Span() && w == Window(b, from, n) && m == n - 1
      requires buffer[..] == Reversed(b, planned, n, 1)
      modifies this`planned, buffer
      ensures buffer[..] == Forwarded(b, from, n, m) && planned == At(size, from, PassPlanned(w, 0, m))
    {
      var next, blockIndex := planned, Next(size, planned);
      ghost var k, k1 := 0, 1;
      ForwardStarts(b, from, n);
      while blockIndex != head
        invariant k1 == k + 1 <= n && blockIndex == At(size, from, k1) && next == At(size, from, k)
        invariant buffer[..] == Forwarded(b, from, n, k)
        invariant planned == At(size, from, PassPlanned(w, 0, k))
        decreases n - k
      {
        var current := next;
        next := blockIndex;
        VisitForward(next, current, b, from, n, k, k1, w);
        blockIndex := Next(size, blockIndex);
        k, k1 := k1, k1 + 1;
      }
      assert k == m;
    }

    /** planner_recalculate */
    method Recalculate(ghost from: nat, ghost n: nat, ghost m: nat, ghost notify: bool, ghost seen: seq<Block>,
                       ghost w: seq<Block>)
      requires Indices() && PrepsTail()
      requires from == planned && n == Span() && m == n - 1 && notify == Notifies() && seen == Seen()
        && w == Window(seen, from, n)
      modifies this`planned, prep`plBlock, prep`recalculate, buffer
      ensures buffer[..] == Forwarded(seen, from, n, m)
      ensures planned == At(size, from, PassPlanned(w, 0, m))
      ensures prep.plBlock == if notify then -1 else old(prep.plBlock)
      ensures prep.recalculate == (notify || old(prep.recalculate))
    {
      if Prev(size, head) == planned {
        ForwardOfOne(seen, from, n);
        return;
      }
      ReversePass(n, notify, seen);
      ForwardPass(seen, from, n, m, w);
    }

    // -------------------------------------------------------------- the queue as a value

    ghost function Count(): (n: nat)
      reads this
      requires Indices()
      ensures n < size
    {
      Ahead(size, tail, head)
    }

    /** The queue from the tail, with the stepper's speed in a tail it is executing. */
    ghost function Queue(): (s: seq<Block>)
      reads this, buffer, prep
      requires Indices()
      ensures |s| == Count()
    {
      QueueIn(buffer[..], tail, Count(), prep.plBlock, prep.currentSpeed)
    }

    ghost function PlannedOffset(): (p: nat)
      reads this
      requires Indices()
      ensures p < size
    {
      Ahead(size, tail, planned)
    }

    ghost predicate Valid()
      reads this, buffer, prep
    {
      && Indices() && prep.currentSpeed >= 0.0
      && (prep.plBlock == -1 || (prep.plBlock == tail && tail != head))
      && (tail != head ==> PlannedOffset() < Count())
      && AllHarmless(buffer[..])
    }

    /** The queue and the planned pointer, as a plan outside a feed hold. */
    ghost function AsPlan(): Plan
      reads this, buffer, prep
      requires Indices()
    {
      Plan(Queue(), if tail == head then 0 else PlannedOffset(), false)
    }

    /** Puts a block into the head slot, without replanning. */
    method Push(b: Block)
      requires Valid() && nextHead != tail && Harmless(b)
      modifies this`head, this`nextHead, buffer
      ensures Indices() && PrepsTail() && Count() == old(Count()) + 1 && head != tail
      ensures Queue() == old(Queue()) + [b]
      ensures buffer[..] == old(buffer[..])[old(head) := b] && head == old(nextHead)
      ensures AllHarmless(buffer[..])
    {
      ghost var q := Queue();
      buffer[head] := b;
      head := nextHead;
      nextHead := Next(size, head);
      assert Queue() == q + [b];
    }

    /** What a recalculation turns the slots into. */
    ghost function Outcome(): (f: seq<Block>)
      reads this, buffer, prep
      requires Indices()
      ensures |f| == size
    {
      Forwarded(Seen(), planned, Span(), Span() - 1)
    }

    ghost predicate AllHarmless(slots: seq<Block>) {
      forall i :: 0 <= i < |slots| ==> Harmless(slots[i])
    }

    lemma OutcomeHarmless()
      requires Indices() && AllHarmless(buffer[..])
      ensures AllHarmless(Outcome())
    {
      SpeedHarmless(buffer[..], tail, prep.currentSpeed);
      ForwardedHarmless(Seen(), planned, Span(), Span() - 1);
    }

    /** A first block lets the planned pointer catch up with the tail, wherever it was left. */
    lemma FirstOutcome(b: Block, w: seq<Block>, m: nat)
      requires Indices() && prep.plBlock == -1 && Count() == 1 && AllHarmless(buffer[..])
      requires buffer[tail] == b && b.entry == 0.0 && b.maxEntry == 0.0
      requires m == Span() - 1 && w == Window(Seen(), planned, Span())
      ensures QueueIn(Outcome(), tail, Count(), -1, prep.currentSpeed) == [b]
        && At(size, planned, PassPlanned(w, 0, m)) == tail
    {
      hide PassEntry, PassPlanned;
      assert w[m] == b;
      FirstBlockCatchesPlanned(w, m);
      assert WithEntry(b, 0.0) == b;
    }

    /** A recalculation from the tail: the stepper's speed is written into the tail first. */
    lemma TailOutcome(s: seq<Block>, last: nat, w: seq<Block>, m: nat)
      requires Indices() && tail != head && planned == tail && s == Queue() && last == m == Span() - 1
      requires w == Window(Seen(), planned, Span())
      ensures QueueIn(Outcome(), tail, Count(), if Notifies() then -1 else prep.plBlock, prep.currentSpeed)
        == Recalc(s, 0)
      ensures At(size, planned, PassPlanned(w, 0, m)) == At(size, tail, PassPlanned(s, 0, last))
    {
      var n, seen := Span(), Seen();
      if last > 0 {
        assert w == s;
        QueueRecalculated(seen, tail, n, tail, 0, n, last, s);
        PlannedRecalculated(seen, tail, n, tail, 0, n, last, w, s, last);
      } else {
        ForwardOfOne(seen, tail, n);
        assert Recalc(s, 0) == s;
      }
    }

    /** A recalculation from a later planned pointer: tail and stepper are left alone. */
    lemma LaterOutcome(s: seq<Block>, p: nat, last: nat, w: seq<Block>, m: nat)
      requires Indices() && tail != head && planned != tail && s == Queue()
      requires p == PlannedOffset() <= last && last == |s| - 1 && m == Span() - 1
      requires w == Window(Seen(), planned, Span())
      ensures QueueIn(Outcome(), tail, Count(), prep.plBlock, prep.currentSpeed) == Recalc(s, p) && !Notifies()
      ensures At(size, planned, PassPlanned(w, 0, m)) == At(size, tail, PassPlanned(s, p, last))
    {
      var c, n, b := Count(), Span(), buffer[..];
      if prep.plBlock >= 0 {
        ExecutedTailUntouched(b, tail, c, planned, p, n, m, last, prep.currentSpeed, Outcome(), s, w);
      } else {
        QueueRecalculated(b, tail, c, planned, p, n, m, s);
        PlannedRecalculated(b, tail, c, planned, p, n, m, w, s, last);
      }
    }

    /** The planned pointer is `p` blocks into the queue `s`, or stands anywhere and `s` is one
        block that starts from rest. */
    ghost predicate Replannable(s: seq<Block>, p: nat, last: nat)
      reads this, buffer, prep
    {
      && Indices() && PrepsTail() && tail != head && AllHarmless(buffer[..])
      && s == Queue() && last == |s| - 1
      && (p == PlannedOffset() <= last || (p == last == 0 && prep.plBlock == -1 && s[0].entry == s[0].maxEntry == 0.0))
    }

    /** True when recalculating the queue tells the stepper. */
    ghost predicate Tells(p: nat, last: nat)
      reads this, prep
    {
      p == 0 && last > 0 && prep.plBlock >= 0
    }

    lemma QueueOutcome(s: seq<Block>, p: nat, last: nat, w: seq<Block>, m: nat)
      requires Replannable(s, p, last) && m == Span() - 1 && w == Window(Seen(), planned, Span())
      ensures QueueIn(Outcome(), tail, Count(), if Notifies() then -1 else prep.plBlock, prep.currentSpeed)
        == Recalc(s, p)
      ensures At(size, planned, PassPlanned(w, 0, m)) == At(size, tail, PassPlanned(s, p, last))
      ensures Notifies() == Tells(p, last)
    {
      if planned == tail {
        TailOutcome(s, last, w, m);
      } else if PlannedOffset() <= last {
        LaterOutcome(s, p, last, w, m);
      } else {
        FirstOutcome(s[0], w, m);
        assert Recalc(s, 0) == s == [s[0]];
      }
    }

    /** On an empty queue with the planned pointer at the tail the passes run once round the ring. */
    lemma StartStays(w: seq<Block>, m: nat)
      requires Indices() && tail == head == planned && prep.plBlock == -1 && AllHarmless(buffer[..])
      requires m == Span() - 1 && w == Window(Seen(), planned, Span())
      ensures w == Window(buffer[..], tail, size)
      ensures At(size, planned, PassPlanned(w, 0, m)) == planned <==> PassesStay(w)
    {
      hide PassPlanned, PassesStay;
      PlannedStays(w, m);
    }

    /** planner_recalculate, seen on the queue; on an empty queue it only keeps the slots harmless. */
    method RecalculateQueue(ghost s: seq<Block>, ghost p: nat, ghost last: nat, ghost tells: bool)
      requires Indices() && PrepsTail() && AllHarmless(buffer[..])
      requires if tail == head then prep.plBlock == -1 && !tells else Replannable(s, p, last) && tells == Tells(p, last)
      modifies this`planned, prep`plBlock, prep`recalculate, buffer
      ensures Indices() && AllHarmless(buffer[..])
      ensures tail != head ==> Queue() == Recalc(s, p) && planned == At(size, tail, PassPlanned(s, p, last))
      ensures tail == head && old(planned) == tail ==>
        (planned == tail <==> PassesStay(Window(old(buffer[..]), tail, size)))
      ensures prep.plBlock == if tells then -1 else old(prep.plBlock)
      ensures prep.recalculate == (tells || old(prep.recalculate))
    {
      ghost var n, seen := Span(), Seen();
      ghost var m, w, f := n - 1, Window(seen, planned, n), Outcome();
      if tail != head {
        QueueOutcome(s, p, last, w, m);
      }
      OutcomeHarmless();
      if tail == head && planned == tail {
        StartStays(w, m);
      }
      assert tail == head ==> !Notifies();
      hide Recalc, PassPlanned, PassesStay, Window, WithSpeed, AllHarmless, Forwarded, QueueIn, Replannable, Tells,
        Notifies;
      Recalculate(planned, n, m, tells, seen, w);
      assert buffer[..] == f;
    }

    /** planner_recalculate on a queue that is not empty, as a change of the plan. */
    method ReplanQueue(ghost s: seq<Block>, ghost p: nat, ghost last: nat, ghost tells: bool)
      requires Indices() && PrepsTail() && AllHarmless(buffer[..]) && prep.currentSpeed >= 0.0
      requires Replannable(s, p, last) && tells == Tells(p, last)
      modifies this`planned, prep`plBlock, prep`recalculate, buffer
      ensures Valid() && AsPlan() == Plan(Recalc(s, p), PassPlanned(s, p, last), false)
      ensures prep.plBlock == if tells then -1 else old(prep.plBlock)
      ensures prep.recalculate == (tells || old(prep.recalculate))
    {
      hide Recalc, PassPlanned, Window, AllHarmless;
      RecalculateQueue(s, p, last, tells);
      AheadOfAt(size, tail, PassPlanned(s, p, last));
    }

    // -------------------------------------------------------------- the planner's operations

    /** Puts a block at the end of the queue and replans: the end of plan_buffer_line. */
    method Append(b: Block)
      requires Valid() && nextHead != tail && Harmless(b)
      requires tail == head ==> b.entry == 0.0 && b.maxEntry == 0.0
      modifies this`head, this`nextHead, this`planned, prep`plBlock, prep`recalculate, buffer
      ensures Valid() && tail != head && Count() == old(Count()) + 1
      ensures AsPlan() == Apply(old(AsPlan()), PlanRun.Append(b))
      ensures prep.plBlock == if old(tail != head && planned == tail && prep.plBlock >= 0) then -1
        else old(prep.plBlock)
      ensures prep.recalculate == (prep.plBlock != old(prep.plBlock) || old(prep.recalculate))
    {
      ghost var s, p, last := Queue() + [b], if tail == head then 0 else PlannedOffset(), Count();
      ghost var tells := p == 0 && last > 0 && prep.plBlock >= 0;
      ghost var plan := AsPlan();
      PlanRun.AppendIsFull(plan, b, s, p, last);
      Push(b);
      hide Apply, Recalc, PassPlanned;
      assert Replannable(s, p, last) && tells == Tells(p, last);
      hide Replannable, Tells, Window, AllHarmless;
      ReplanQueue(s, p, last, tells);
    }

    /** The slot after the queue is scratch space: wiping it changes nothing a plan shows. */
    method ClearHead(empty: Block)
      requires Valid() && Harmless(empty)
      modifies buffer
      ensures Valid() && AsPlan() == old(AsPlan())
    {
      ghost var q := Queue();
      buffer[head] := empty;
      assert Queue() == q;
    }

    /** plan_discard_current_block */
    method DiscardCurrentBlock()
      requires Valid() && prep.plBlock == -1
      modifies this`tail, this`planned
      ensures Valid() && head == old(head)
      ensures AsPlan() == Apply(old(AsPlan()), PlanRun.Finish)
    {
      if head != tail {
        ghost var plan := AsPlan();
        WindowDrops(buffer[..], tail, head, planned);
        hide Window, Ahead, AllHarmless;
        var blockIndex := Next(size, tail);
        if tail == planned {
          planned := blockIndex;
        }
        tail := blockIndex;
        assert Queue() == plan.blocks[1..];
      }
    }

    /** plan_cycle_reinitialize.  On an empty buffer the passes run over stale slots and may leave
        the planned pointer anywhere in the ring. */
    method CycleReinitialize()
      requires Valid()
      modifies this`planned, prep`plBlock, prep`recalculate, buffer
      ensures Valid() && prep.plBlock == -1 && prep.recalculate == (old(prep.plBlock) >= 0 || old(prep.recalculate))
      ensures AsPlan() == Apply(old(AsPlan()), PlanRun.Replan)
      ensures tail == head ==> (planned == tail <==> PassesStay(Window(old(buffer[..]), tail, size)))
    {
      ghost var plan, s, last := AsPlan(), Queue(), Count() - 1;
      PlanRun.ReplanIsFull(plan, last);
      StopAtTail();
      hide Apply, Recalc, PassPlanned, PassesStay, AllHarmless, Window;
      RecalculateQueue(s, 0, if last < 0 then 0 else last, false);
      if tail == head {
        assert Queue() == s == [] && plan == Plan(s, 0, false);
      } else {
        assert PlannedOffset() == PassPlanned(s, 0, last);
      }
    }

    /** st_update_plan_block_parameters when nothing is being replanned: the plan stays. */
    method TellStepper()
      requires Valid()
      modifies prep`plBlock, prep`recalculate, buffer
      ensures Valid() && prep.plBlock == -1 && AsPlan() == old(AsPlan())
      ensures prep.recalculate == (old(prep.plBlock) >= 0 || old(prep.recalculate))
    {
      ghost var q := Queue();
      SpeedHarmless(buffer[..], tail, prep.currentSpeed);
      UpdatePlanBlockParameters();
      assert Queue() == q;
    }

    /** plan_get_exec_block_exit_speed_sqr */
    method ExecBlockExitSpeedSqr() returns (exitSqr: real)
      requires Valid() && tail != head
      ensures AsPlan().blocks != [] && exitSqr == ExitSqr(AsPlan().blocks)
    {
      var blockIndex := Next(size, tail);
      if blockIndex == head {
        return 0.0;
      }
      assert Queue()[1] == buffer[blockIndex];
      exitSqr := buffer[blockIndex].entry;
    }

    /** pl_block is set to a tail that stands at the stepper's speed already. */
    method Load()
      requires Valid() && prep.plBlock == -1 && tail != head
      requires buffer[tail].entry == Sq(prep.currentSpeed)
      modifies prep`plBlock
      ensures Valid() && prep.plBlock == tail && AsPlan() == old(AsPlan())
    {
      ghost var q := Queue();
      prep.plBlock := tail;
      assert WithEntry(buffer[tail], Sq(prep.currentSpeed)) == buffer[tail];
      assert Queue() == q;
    }

    /** pl_block is set mid-hold: the tail is entered at the stepper's speed, whatever was planned. */
    method LoadHeld()
      requires Valid() && prep.plBlock == -1 && tail != head
      modifies prep`plBlock, buffer
      ensures Valid() && prep.plBlock == tail && AsPlan() == Apply(old(AsPlan()), HoldTake(Sq(prep.currentSpeed)))
      ensures buffer[tail] == WithEntry(old(buffer[tail]), Sq(prep.currentSpeed))
    {
      ghost var q, b := Queue(), buffer[..];
      var speed := prep.currentSpeed;
      SpeedHarmless(b, tail, speed);
      var entered := WithEntry(buffer[tail], Sq(speed));
      ghost var c := WithSpeed(b, tail, speed);
      assert c == b[tail := entered];
      prep.plBlock := tail;
      buffer[tail] := entered;
      assert buffer[..] == c;
      LoadedQueue(b, speed, q, entered);
    }

    lemma LoadedQueue(b: seq<Block>, speed: real, q: seq<Block>, entered: Block)
      requires Indices() && |b| == size && tail != head && q == QueueIn(b, tail, Count(), -1, prep.currentSpeed)
      requires speed == prep.currentSpeed && entered == WithEntry(b[tail], Sq(speed))
      ensures QueueIn(WithSpeed(b, tail, speed), tail, Count(), tail, speed) == q[0 := entered]
        == Advanced(q, Sq(speed), q[0].mm)
    {
      assert q[0] == b[tail];
      assert WithEntry(entered, Sq(speed)) == entered;
    }

    /** The queue as it is stored. */
    ghost function Raw(): (s: seq<Block>)
      reads this, buffer
      requires Indices()
      ensures |s| == Count()
    {
      Window(buffer[..], tail, Count())
    }

    lemma QueueFromRaw()
      requires Valid() && tail != head
      ensures AsPlan().blocks == (if prep.plBlock >= 0 then Raw()[0 := WithEntry(Raw()[0], Sq(prep.currentSpeed))]
          else Raw())
      ensures AsPlan().planned == PlannedOffset()
    {
      var s, speed := Raw(), prep.currentSpeed;
      assert s[0] == buffer[tail];
      assert Window(WithSpeed(buffer[..], tail, speed), tail, Count()) == s[0 := WithEntry(s[0], Sq(speed))];
    }

    lemma RawStands()
      requires Valid() && tail != head
      ensures Raw() != [] && Raw()[0] == buffer[tail]
    {
    }

    /** pl_block is cleared at the end of a block. */
    method LetGo()
      requires Valid() && tail != head && prep.plBlock == tail
      modifies prep`plBlock
      ensures Valid() && prep.plBlock == -1 && AsPlan() == Plan(Raw(), PlannedOffset(), false)
    {
      prep.plBlock := -1;
    }

    /** pl_block->millimeters is set. */
    method StoreDistance(mm: real)
      requires Valid() && tail != head && mm >= 0.0 && buffer[tail].accel >= 0.0
      modifies buffer
      ensures Valid() && Raw() == old(Raw())[0 := old(buffer[tail]).(mm := mm)]
    {
      ghost var s := Raw();
      assert Reach(buffer[tail].(mm := mm)) >= 0.0;
      buffer[tail] := buffer[tail].(mm := mm);
      assert Raw() == s[0 := s[0].(mm := mm)];
    }

    /** Where the plan's queue and planned pointer stand in the ring. */
    lemma PlanStands()
      requires Valid()
      ensures |AsPlan().blocks| == Count() && (AsPlan().blocks == [] <==> tail == head)
      ensures tail != head ==> (AsPlan().planned == 0 <==> planned == tail)
    {
    }

    /** The tail as the plan sees it. */
    lemma TailOfPlan()
      requires Valid() && tail != head
      ensures AsPlan().blocks != []
      ensures AsPlan().blocks[0] == if prep.plBlock >= 0 then WithEntry(buffer[tail], Sq(prep.currentSpeed))
        else buffer[tail]
    {
    }

    lemma TailOfPlanIfAny()
      requires Valid()
      ensures tail < buffer.Length && (AsPlan().blocks == [] <==> tail == head)
      ensures tail != head ==> AsPlan().blocks[0].move == buffer[tail].move
    {
      PlanStands();
      if tail != head {
        TailOfPlan();
      }
    }

    /** The start of plan_cycle_reinitialize: the stepper's speed becomes the tail's entry. */
    method StopAtTail()
      requires Valid()
      modifies this`planned, prep`plBlock, prep`recalculate, buffer
      ensures Valid() && planned == tail && prep.plBlock == -1 && Queue() == old(Queue())
      ensures tail == head ==> buffer[..] == old(buffer[..])
      ensures prep.recalculate == (old(prep.plBlock) >= 0 || old(prep.recalculate))
    {
      SpeedHarmless(buffer[..], tail, prep.currentSpeed);
      UpdatePlanBlockParameters();
      planned := tail;
    }
  }

  /** The only block is executed to its end, and leaves the queue. */
  method UseUp(ring: BlockRing)
    requires ring.Valid() && ring.prep.plBlock == ring.tail && ring.Count() == 1 && ring.tail != ring.head
    requires ring.buffer[ring.tail].accel >= 0.0
    modifies ring`tail, ring`planned, ring.prep`plBlock, ring.buffer
    ensures ring.Valid() && ring.tail == ring.head && ring.prep.plBlock == -1
    ensures Window(ring.buffer[..], ring.tail, ring.size)[ring.size - 1] == old(ring.buffer[ring.tail]).(mm := 0.0)
  {
    ghost var b, t := ring.buffer[ring.tail], ring.tail;
    ring.StoreDistance(0.0);
    assert ring.Raw()[0] == ring.buffer[t] == b.(mm := 0.0);
    ring.LetGo();
    ring.DiscardCurrentBlock();
  }

  /** Reinitializing an empty buffer can move the planned pointer off the tail.  These are the ring's
      operations when a hold comes too late to stop the only line before its end: the line is queued
      and taken over, the hold tells the stepper, the block is taken up again, used up and discarded,
      and the cycle stop of the hold reinitializes the plan. */
  method HoldPastTheEnd(size: nat, prep: PrepState, cleared: Block, b: Block) returns (ring: BlockRing)
    requires size >= 2 && prep.plBlock == -1 && prep.currentSpeed == 0.0 && Harmless(cleared)
    requires b.entry == b.maxEntry == 0.0 && b.mm > 0.0 && b.accel > 0.0
    modifies prep`plBlock, prep`recalculate
    ensures fresh(ring) && ring.Valid() && ring.tail == ring.head && ring.planned != ring.tail
  {
    ring := new BlockRing(size, prep, cleared);
    assert Reach(b) >= 0.0;
    ring.Append(b);
    ring.TailOfPlan();
    ring.Load();
    ring.TailOfPlan();
    ring.TellStepper();
    ring.TailOfPlan();
    ring.Load();
    UseUp(ring);
    ghost var w := Window(ring.buffer[..], ring.tail, size);
    RestMovesPlanned(w, size - 1);
    ring.CycleReinitialize();
  }

  /** No stale profile: an append that leaves the stepper's profile in force (the stepper was not
      told) changes neither the speed the executing block starts from nor its exit speed. */
  lemma NoStaleProfile(plan: Plan, b: Block)
    requires plan.blocks != [] && 0 < plan.planned < |plan.blocks|
    ensures var after := Apply(plan, PlanRun.Append(b));
      after.blocks[0] == plan.blocks[0] && ExitSqr(after.blocks) == ExitSqr(plan.blocks)
  {
    assert plan.planned >= 1;
  }
}
