/** The two rings the main program and the stepper interrupt share, as values: published segments,
    and the Bresenham data of their blocks, whose ring is one slot smaller. */
module SegmentRings {
  import opened PlanTypes
  import opened Ring
  import opened Bresenham
  import opened StepMachine

  /** segment_t, without its timing */
  datatype SegSlot = SegSlot(nStep: nat, stBlockIndex: nat, amassLevel: nat)

  /** st_block_t: everything shifted by the highest level. */
  datatype StBlock = StBlock(steps: seq<nat>, stepEventCount: nat, negative: seq<bool>)

  function Eightfold(s: seq<nat>): (r: seq<nat>)
    ensures |r| == |s|
  {
    seq(|s|, i requires 0 <= i < |s| => 8 * s[i])
  }

  function StData(m: Move): StBlock {
    StBlock(Eightfold(m.steps), 8 * m.count, m.negative)
  }

  /** x >> level */
  function ShiftRight(x: nat, level: nat): nat {
    if level == 0 then x else if level == 1 then x / 2 else if level == 2 then x / 4 else x / 8
  }

  lemma ShiftedBack(s: nat, level: nat)
    requires level <= MAX_AMASS_LEVEL
    ensures ShiftRight(8 * s, level) == s * Worth(level)
  {
  }

  /** The rings and the interrupt's own data. */
  datatype Rings = Rings(
    segs: seq<SegSlot>, stb: seq<StBlock>,
    tail: nat, head: nat,
    prepIndex: nat,           // prep.st_block_index
    running: bool,            // st.exec_segment is set
    execIndex: nat,           // st.exec_block_index
    stepCount: nat,           // st.step_count
    counters: seq<int>,       // st.counter_x and so on
    steps: seq<nat>,          // st.steps
    pos: seq<int>)            // sys_position

  ghost predicate Sized(rings: Rings, axes: nat) {
    && |rings.segs| >= 3 && |rings.stb| == |rings.segs| - 1
    && rings.tail < |rings.segs| && rings.head < |rings.segs| && rings.prepIndex < |rings.stb|
      && rings.execIndex < |rings.stb|
    && |rings.counters| == |rings.steps| == |rings.pos| == axes
  }

  /** The slot the Bresenham data of block number `k` is in. */
  function SlotOf(rings: Rings, k: nat): nat
    requires |rings.stb| > 0
  {
    k % |rings.stb|
  }

  /** The live segment `k` is in its slot, and so is the data of its block. */
  ghost predicate SegmentIn(rings: Rings, mach: Machine, k: nat)
    requires rings.tail < |rings.segs| && |rings.stb| > 0 && k < |mach.live| <= |rings.segs|
      && mach.live[k].number < |mach.blocks|
  {
    var g, x := mach.live[k], rings.segs[At(|rings.segs|, rings.tail, k)];
    && x.stBlockIndex == SlotOf(rings, g.number) && x.amassLevel == g.level
    && (k > 0 || !mach.executing ==> x.nStep == g.ticks)
    && rings.stb[SlotOf(rings, g.number)] == StData(mach.blocks[g.number])
  }

  ghost predicate CountersMatch(rings: Rings, m: Move, p: nat)
    requires |m.steps| == |rings.counters|
  {
    m.count > 0 ==> forall i :: 0 <= i < |rings.counters| ==> rings.counters[i] == Counter(m.count, m.steps[i], p)
  }

  ghost predicate StepsMatch(rings: Rings, m: Move, level: nat)
    requires |m.steps| == |rings.steps| && level <= MAX_AMASS_LEVEL
  {
    forall i :: 0 <= i < |rings.steps| ==> rings.steps[i] == m.steps[i] * Worth(level)
  }

  /** The rings hold the machine: its live segments in order, from the tail on. */
  ghost predicate Shows(rings: Rings, mach: Machine) {
    && WellFormed(mach) && Sized(rings, |mach.sysPos|) && rings.pos == mach.sysPos
    && |mach.live| == Ahead(|rings.segs|, rings.tail, rings.head)
    && NumbersLoaded(mach) && (forall k :: 0 <= k < |mach.live| ==> SegmentIn(rings, mach, k))
    && rings.prepIndex == SlotOf(rings, Last(mach))
      && (Last(mach) > 0 ==> rings.stb[rings.prepIndex] == StData(mach.blocks[Last(mach)]))
    && rings.execIndex == SlotOf(rings, mach.exec) && rings.running == mach.executing
    && CountersMatch(rings, mach.blocks[mach.exec], mach.progress)
    && (mach.executing ==>
        rings.stepCount == mach.live[0].ticks && mach.live[0].level <= MAX_AMASS_LEVEL
        && StepsMatch(rings, mach.blocks[mach.exec], mach.live[0].level))
  }

  ghost predicate NumbersLoaded(mach: Machine) {
    forall k :: 0 <= k < |mach.live| ==> mach.live[k].number < |mach.blocks|
  }

  // ---------------------------------------------------------------- block numbers and slots

  /** Numbers less than a ring apart have slots of their own. */
  lemma SlotsDiffer(a: nat, b: nat, m: nat)
    requires a < b < a + m
    ensures a % m != b % m
  {
    var x, y := a / m, b / m;
    assert a == m * x + a % m && b == m * y + b % m;
    if a % m == b % m {
      assert m * (y - x) == b - a;
      MultipleInside(m, y - x);
    }
  }

  lemma MultipleInside(m: nat, d: int)
    requires m > 0
    ensures !(0 < m * d < m)
  {
    if d >= 1 {
      AtLeast(m, d);
    } else {
      assert m * d <= 0;
    }
  }

  /** While the last block is fully published, block numbers go up to it one by one. */
  lemma {:induction false} ChainClimbs(mach: Machine, k: nat, e: nat, p: nat)
    requires WellFormed(mach) && k <= |mach.live| && e < |mach.blocks| && Chain(mach, k, e, p) && mach.unprepped == 0
    ensures e + (|mach.live| - k) >= Last(mach)
    ensures forall j :: k <= j < |mach.live| ==> mach.live[j].number + (|mach.live| - j) > Last(mach)
    decreases |mach.live| - k
  {
    if k < |mach.live| {
      var g := mach.live[k];
      if g.number == e {
        ChainClimbs(mach, k + 1, e, p + Work(g));
      } else {
        ChainClimbs(mach, k + 1, e + 1, Work(g));
      }
    }
  }

  lemma {:induction false} ChainNumbers(mach: Machine, k: nat, e: nat, p: nat)
    requires WellFormed(mach) && k <= |mach.live| && e < |mach.blocks| && Chain(mach, k, e, p)
    ensures forall j :: k <= j < |mach.live| ==> e <= mach.live[j].number < |mach.blocks|
    decreases |mach.live| - k
  {
    if k < |mach.live| {
      var g := mach.live[k];
      if g.number == e {
        ChainNumbers(mach, k + 1, e, p + Work(g));
      } else {
        ChainNumbers(mach, k + 1, e + 1, Work(g));
      }
    }
  }

  /** Loading a block, with room for one more segment: its slot belongs to no live segment. */
  lemma LoadSlotIsFree(rings: Rings, mach: Machine, k: nat)
    requires Shows(rings, mach) && mach.unprepped == 0 && |mach.live| <= |rings.segs| - 2 && k < |mach.live|
    ensures SlotOf(rings, mach.live[k].number) != SlotOf(rings, Last(mach) + 1)
  {
    ChainClimbs(mach, 0, mach.exec, mach.progress);
    SlotsDiffer(mach.live[k].number, Last(mach) + 1, |rings.stb|);
  }

  /** The interrupt sets its counters anew exactly when the block changes: the slot index tells. */
  lemma IndexTellsBlock(rings: Rings, mach: Machine)
    requires Shows(rings, mach) && mach.live != []
    ensures rings.segs[rings.tail].stBlockIndex == rings.execIndex <==> mach.live[0].number == mach.exec
    ensures rings.segs[rings.tail].stBlockIndex < |rings.stb|
      && rings.stb[rings.segs[rings.tail].stBlockIndex] == StData(mach.blocks[mach.live[0].number])
    ensures mach.exec <= mach.live[0].number <= mach.exec + 1
  {
    ChainNumbers(mach, 0, mach.exec, mach.progress);
    FirstNumber(mach);
    assert SegmentIn(rings, mach, 0);
    ExecSlot(rings, mach.exec);
    hide SlotOf, Work, Chain;
  }

  lemma FirstNumber(mach: Machine)
    requires WellFormed(mach) && mach.live != []
    ensures mach.exec <= mach.live[0].number <= mach.exec + 1
  {
  }

  lemma ExecSlot(rings: Rings, e: nat)
    requires |rings.stb| >= 2
    ensures SlotOf(rings, e) != SlotOf(rings, e + 1)
  {
    SlotsDiffer(e, e + 1, |rings.stb|);
  }

  // ---------------------------------------------------------------- the main program's events

  function Loaded(rings: Rings, m: Move): Rings
    requires |rings.stb| > 0
  {
    var i := Ring.Next(|rings.stb|, rings.prepIndex);
    if i < |rings.stb| then rings.(prepIndex := i, stb := rings.stb[i := StData(m)]) else rings
  }

  lemma NextSlot(k: nat, m: nat)
    requires m > 0
    ensures Ring.Next(m, k % m) == (k + 1) % m
  {
    var q, r := k / m, k % m;
    assert k == m * q + r;
    if r + 1 == m {
      assert m * (q + 1) == m * q + m;
      RemainderIs(k + 1, m, q + 1, 0);
    } else {
      RemainderIs(k + 1, m, q, r + 1);
    }
  }

  lemma RemainderIs(a: nat, m: nat, q: nat, r: nat)
    requires m > 0 && a == m * q + r && r < m
    ensures a % m == r
  {
    QuotientIs(a, m, q);
  }

  /** Room for one more segment: segment_buffer_tail != segment_next_head. */
  predicate HasRoom(rings: Rings)
    requires rings.head < |rings.segs|
  {
    rings.tail != Ring.Next(|rings.segs|, rings.head)
  }

  lemma RoomCounts(rings: Rings, mach: Machine)
    requires Shows(rings, mach) && HasRoom(rings)
    ensures |mach.live| <= |rings.segs| - 2
  {
    hide Chain, SlotOf;
  }

  lemma LoadedShows(rings: Rings, mach: Machine, m: Move)
    requires Shows(rings, mach) && HasRoom(rings) && Can(mach, Load) && m == mach.queue[0]
    ensures Shows(Loaded(rings, m), StepMachine.Next(mach, Load))
  {
    var moved, after := Loaded(rings, m), StepMachine.Next(mach, Load);
    NextWellFormed(mach, Load);
    RoomCounts(rings, mach);
    NextSlot(Last(mach), |rings.stb|);
    forall k | 0 <= k < |after.live| ensures after.live[k].number < |after.blocks| && SegmentIn(moved, after, k) {
      LoadSlotIsFree(rings, mach, k);
      assert SegmentIn(rings, mach, k);
    }
    hide Chain, SlotOf, Work;
  }

  /** The segment being filled is in the head slot, which is not live. */
  function Written(rings: Rings, x: SegSlot): Rings
    requires rings.head < |rings.segs|
  {
    rings.(segs := rings.segs[rings.head := x])
  }

  lemma WrittenShows(rings: Rings, mach: Machine, x: SegSlot)
    requires Shows(rings, mach)
    ensures Shows(Written(rings, x), mach)
  {
    var moved := Written(rings, x);
    forall k | 0 <= k < |mach.live| ensures SegmentIn(moved, mach, k) {
      assert SegmentIn(rings, mach, k);
      assert At(|rings.segs|, rings.tail, k) != rings.head;
    }
    hide Chain, SlotOf, Work;
  }

  function Published(rings: Rings): Rings
    requires rings.head < |rings.segs|
  {
    rings.(head := Ring.Next(|rings.segs|, rings.head))
  }

  lemma PublishedShows(rings: Rings, mach: Machine, n: nat, level: nat)
    requires Shows(rings, mach) && HasRoom(rings) && Can(mach, Publish(n, level))
    requires rings.segs[rings.head] == SegSlot(Ticks(n, level), rings.prepIndex, level)
    ensures Shows(Published(rings), StepMachine.Next(mach, Publish(n, level)))
  {
    var moved, after := Published(rings), StepMachine.Next(mach, Publish(n, level));
    NextWellFormed(mach, Publish(n, level));
    RoomCounts(rings, mach);
    LastIsLoaded(mach);
    forall k | 0 <= k < |after.live| ensures after.live[k].number < |after.blocks| && SegmentIn(moved, after, k) {
      if k < |mach.live| {
        assert SegmentIn(rings, mach, k);
        assert after.live[k] == mach.live[k];
      } else {
        assert At(|rings.segs|, rings.tail, k) == rings.head;
      }
    }
    hide Chain, SlotOf, Work;
  }

  /** A block with unprepped steps is a real one. */
  lemma LastIsLoaded(mach: Machine)
    requires WellFormed(mach) && mach.unprepped > 0
    ensures Last(mach) > 0
  {
    if Last(mach) == 0 {
      ChainEnds(mach, 0, mach.exec, mach.progress);
    }
  }

  lemma {:induction false} ChainEnds(mach: Machine, k: nat, e: nat, p: nat)
    requires WellFormed(mach) && k <= |mach.live| && e < |mach.blocks| && Chain(mach, k, e, p)
    ensures mach.unprepped <= mach.blocks[Last(mach)].count
    decreases |mach.live| - k
  {
    if k < |mach.live| {
      var g := mach.live[k];
      if g.number == e {
        ChainEnds(mach, k + 1, e, p + Work(g));
      } else {
        ChainEnds(mach, k + 1, e + 1, Work(g));
      }
    }
  }

  // ---------------------------------------------------------------- the interrupt

  /** The machine once the first live segment has been started. */
  function Started(mach: Machine): Machine
    requires mach.live != []
  {
    mach.(executing := true, exec := Current(mach).0, progress := Current(mach).1)
  }

  lemma StartedWellFormed(mach: Machine)
    requires WellFormed(mach) && mach.live != []
    ensures WellFormed(Started(mach)) && Ticked(Started(mach)) == Ticked(mach)
  {
    var after := Started(mach);
    assert mach.live[1..] == after.live[1..];
    ChainMoves(mach, after, 1, 1, after.exec, after.progress + Work(mach.live[0]));
    hide Work;
  }

  function Reset(n: nat, c: int): (r: seq<int>)
    ensures |r| == n && forall i :: 0 <= i < n ==> r[i] == c
  {
    seq(n, _ => c)
  }

  function ShiftedSteps(b: StBlock, level: nat): (r: seq<nat>)
    ensures |r| == |b.steps| && forall i :: 0 <= i < |r| ==> r[i] == ShiftRight(b.steps[i], level)
  {
    seq(|b.steps|, i requires 0 <= i < |b.steps| => ShiftRight(b.steps[i], level))
  }

  /** A new segment is taken over; the counters are set to half the event count when the slot index
      of its block differs. */
  function Begun(rings: Rings): Rings
    requires rings.tail < |rings.segs| && rings.segs[rings.tail].stBlockIndex < |rings.stb|
  {
    var x := rings.segs[rings.tail];
    var b := rings.stb[x.stBlockIndex];
    var same := x.stBlockIndex == rings.execIndex;
    rings.(running := true, stepCount := x.nStep, execIndex := x.stBlockIndex,
       counters := if same then rings.counters else Reset(|rings.counters|, b.stepEventCount / 2),
       steps := ShiftedSteps(b, x.amassLevel))
  }

  lemma BegunShows(rings: Rings, mach: Machine)
    requires Shows(rings, mach) && mach.live != [] && !rings.running
    ensures rings.segs[rings.tail].stBlockIndex < |rings.stb| && Shows(Begun(rings), Started(mach))
  {
    IndexTellsBlock(rings, mach);
    StartedWellFormed(mach);
    assert SegmentIn(rings, mach, 0);
    var moved, after := Begun(rings), Started(mach);
    var m := mach.blocks[after.exec];
    BegunCounters(rings, moved, mach, after, m);
    forall k | 0 <= k < |after.live| ensures SegmentIn(moved, after, k) {
      assert SegmentIn(rings, mach, k);
    }
    forall i | 0 <= i < |moved.steps| ensures moved.steps[i] == m.steps[i] * Worth(mach.live[0].level) {
      ShiftedBack(m.steps[i], mach.live[0].level);
    }
    hide Chain, SlotOf, Work, Worth, ShiftRight;
  }

  lemma BegunCounters(rings: Rings, moved: Rings, mach: Machine, after: Machine, m: Move)
    requires Shows(rings, mach) && mach.live != [] && WellFormed(after) && after == Started(mach)
      && m == mach.blocks[after.exec]
    requires rings.segs[rings.tail].stBlockIndex < |rings.stb| && moved == Begun(rings)
    requires rings.segs[rings.tail].stBlockIndex == rings.execIndex <==> mach.live[0].number == mach.exec
    requires rings.stb[rings.segs[rings.tail].stBlockIndex] == StData(m)
    ensures CountersMatch(moved, m, after.progress)
  {
    if mach.live[0].number != mach.exec {
      forall i | 0 <= i < |moved.counters| && m.count > 0 ensures moved.counters[i] == Counter(m.count, m.steps[i], 0) {
        WholeBlock(m.count, m.steps[i]);
      }
    }
  }

  /** One axis: the counter after the steps are added, before the comparison. */
  function Raised(rings: Rings, i: nat): int
    requires i < |rings.counters| == |rings.steps|
  {
    rings.counters[i] + rings.steps[i]
  }

  function CounterAfter(rings: Rings, b: StBlock, i: nat): int
    requires i < |rings.counters| == |rings.steps|
  {
    if Raised(rings, i) > b.stepEventCount then Raised(rings, i) - b.stepEventCount else Raised(rings, i)
  }

  function PositionAfter(rings: Rings, b: StBlock, i: nat): int
    requires i < |rings.counters| == |rings.steps| == |rings.pos| == |b.negative|
  {
    if Raised(rings, i) > b.stepEventCount then if b.negative[i] then rings.pos[i] - 1 else rings.pos[i] + 1
      else rings.pos[i]
  }

  /** The Bresenham step of every axis. */
  function Pulsed(rings: Rings, b: StBlock): (moved: Rings)
    requires |rings.counters| == |rings.steps| == |rings.pos| == |b.negative|
    ensures |moved.counters| == |rings.counters| && |moved.pos| == |rings.pos|
  {
    rings.(counters := seq(|rings.counters|, i requires 0 <= i < |rings.counters| => CounterAfter(rings, b, i)),
       pos := seq(|rings.pos|, i requires 0 <= i < |rings.pos| => PositionAfter(rings, b, i)))
  }

  /** The end of the interrupt: the segment is let go once its ticks are used up. */
  function Finished(rings: Rings): Rings
    requires rings.stepCount > 0 && rings.tail < |rings.segs|
  {
    if rings.stepCount == 1 then rings.(stepCount := 0, running := false, tail := Ring.Next(|rings.segs|, rings.tail))
    else rings.(stepCount := rings.stepCount - 1)
  }

  /** A running machine executes the block its slot index names. */
  lemma ExecutingBlock(rings: Rings, mach: Machine)
    requires Shows(rings, mach) && mach.executing
    ensures rings.stb[rings.execIndex] == StData(mach.blocks[mach.exec]) && mach.blocks[mach.exec].count > 0
    ensures rings.stepCount > 0 && MoveOk(mach.blocks[mach.exec], |mach.sysPos|)
  {
    assert SegmentIn(rings, mach, 0);
    hide SlotOf, Work, Worth;
  }

  lemma AxisPulsed(rings: Rings, m: Move, p: nat, level: nat, i: nat)
    requires |rings.counters| == |rings.steps| == |rings.pos| == |m.steps| && MoveOk(m, |rings.pos|) && m.count > 0
      && i < |rings.pos|
    requires CountersMatch(rings, m, p) && level <= MAX_AMASS_LEVEL && StepsMatch(rings, m, level)
    ensures CounterAfter(rings, StData(m), i) == Counter(m.count, m.steps[i], p + Worth(level))
    ensures PositionAfter(rings, StData(m), i) == rings.pos[i] + Part(m, i, p, p + Worth(level))
  {
    TickCounts(m.count, m.steps[i], p, Worth(level));
    hide Counter, Pulses, Worth;
  }

  lemma PulsedMatches(rings: Rings, moved: Rings, m: Move, p: nat, level: nat)
    requires |rings.counters| == |rings.steps| == |rings.pos| == |m.steps| && MoveOk(m, |rings.pos|) && m.count > 0
    requires CountersMatch(rings, m, p) && level <= MAX_AMASS_LEVEL && StepsMatch(rings, m, level)
    requires moved == Pulsed(rings, StData(m))
    ensures CountersMatch(moved, m, p + Worth(level))
      && moved.pos == StepMachine.Stepped(rings.pos, m, p, p + Worth(level))
  {
    forall i | 0 <= i < |rings.pos|
      ensures moved.counters[i] == Counter(m.count, m.steps[i], p + Worth(level))
      ensures moved.pos[i] == rings.pos[i] + Part(m, i, p, p + Worth(level))
    {
      AxisPulsed(rings, m, p, level, i);
    }
    hide Worth, Counter, Part, CounterAfter, PositionAfter;
  }

  /** After a tick the live segments are still in their slots. */
  lemma TickKeepsSegment(rings: Rings, mach: Machine, moved: Rings, after: Machine, k: nat)
    requires Shows(rings, mach) && mach.executing && mach.live != [] && WellFormed(after) && after == Ticked(mach)
      && k < |after.live|
    requires rings.stepCount == mach.live[0].ticks > 0 && moved.stb == rings.stb && moved.segs == rings.segs
    requires moved.tail == if rings.stepCount == 1 then Ring.Next(|rings.segs|, rings.tail) else rings.tail
    ensures |moved.stb| > 0 && moved.tail < |moved.segs| && |after.live| <= |moved.segs|
      && after.live[k].number < |after.blocks| && SegmentIn(moved, after, k)
  {
    var j := if mach.live[0].ticks > 1 then k else k + 1;
    assert SegmentIn(rings, mach, j);
    assert At(|moved.segs|, moved.tail, k) == At(|rings.segs|, rings.tail, j);
    hide Chain, SlotOf, Work, Worth, Stepped, CountersMatch, StepsMatch, MoveOk;
  }

  lemma TickShows(rings: Rings, mach: Machine, moved: Rings)
    requires Shows(rings, mach) && mach.executing && |mach.blocks[mach.exec].steps| == |mach.sysPos|
    requires rings.stepCount > 0 && moved == Finished(Pulsed(rings, StData(mach.blocks[mach.exec])))
    ensures Shows(moved, Ticked(mach))
  {
    var after := Ticked(mach);
    NextWellFormed(mach, Tick);
    ExecutingBlock(rings, mach);
    PulsedMatches(rings, Pulsed(rings, StData(mach.blocks[mach.exec])), mach.blocks[mach.exec], mach.progress,
                  mach.live[0].level);
    forall k | 0 <= k < |after.live| ensures after.live[k].number < |after.blocks| && SegmentIn(moved, after, k) {
      TickKeepsSegment(rings, mach, moved, after, k);
    }
    hide Chain, SlotOf, Work, Worth, Stepped, CountersMatch, SegmentIn, CounterAfter, PositionAfter, MoveOk;
  }
}
