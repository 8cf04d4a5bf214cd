/** Steps from the planner to the motors, as atomic events of the main program and of the stepper
    interrupt in any order. */
module StepMachine {
  import opened PlanTypes
  import opened BufferLine
  import opened Bresenham

  /** A published segment: the number of its block since reset, ticks left to execute, and level. */
  datatype Seg = Seg(number: nat, ticks: nat, level: nat)

  datatype Machine = Machine(
    blocks: seq<Move>,      // blocks loaded since reset; number 0 is the zeroed data of the reset
    unprepped: nat,         // step events of the last loaded block that are in no segment yet
    queue: seq<Move>,       // blocks of the planner that are not loaded yet
    live: seq<Seg>,         // published segments, the executing one first
    executing: bool,        // the first live segment has been started
    exec: nat,              // number of the block the counters belong to
    progress: nat,          // eighths of step events of it that are executed
    sysPos: seq<int>,       // sys_position
    plPos: seq<int>)        // pl.position

  // ---------------------------------------------------------------- well-formed machines

  ghost predicate MoveOk(m: Move, axes: nat) {
    |m.steps| == |m.negative| == axes && forall i :: 0 <= i < axes ==> m.steps[i] <= m.count
  }

  /** What a segment is worth, in eighths of step events. */
  function Work(g: Seg): nat
    requires g.level <= MAX_AMASS_LEVEL
  {
    g.ticks * Worth(g.level)
  }

  function Last(mach: Machine): int {
    |mach.blocks| - 1
  }

  /** From block `e` at progress `p`, the live segments from `k` on execute the loaded blocks one
      after the other, each completely, up to the unprepped rest of the last. */
  ghost predicate Chain(mach: Machine, k: nat, e: nat, p: nat)
    requires k <= |mach.live| && e < |mach.blocks|
    decreases |mach.live| - k
  {
    if k == |mach.live| then
      if e == Last(mach) then p + 8 * mach.unprepped == 8 * mach.blocks[e].count
      else e == Last(mach) - 1 && p == 8 * mach.blocks[e].count && mach.unprepped == mach.blocks[e + 1].count
    else
      var g := mach.live[k];
      && g.ticks > 0 && g.level <= MAX_AMASS_LEVEL && e <= g.number <= e + 1 && g.number <= Last(mach)
      && (if g.number == e then p + Work(g) <= 8 * mach.blocks[e].count
                                && Chain(mach, k + 1, e, p + Work(g))
          else p == 8 * mach.blocks[e].count && Work(g) <= 8 * mach.blocks[e + 1].count
               && Chain(mach, k + 1, e + 1, Work(g)))
  }

  ghost predicate WellFormed(mach: Machine) {
    && |mach.plPos| == |mach.sysPos| && mach.exec < |mach.blocks|
    && (forall k ::
        0 <= k < |mach.blocks|
        ==> MoveOk(mach.blocks[k], |mach.sysPos|) && (k > 0 ==> mach.blocks[k].count > 0))
    && (forall k :: 0 <= k < |mach.queue| ==> MoveOk(mach.queue[k], |mach.sysPos|) && mach.queue[k].count > 0)
    && mach.blocks[0].count == 0
    && Chain(mach, 0, mach.exec, mach.progress)
    && (mach.executing ==> mach.live != [] && mach.live[0].number == mach.exec)
  }

  // ---------------------------------------------------------------- what is still owed

  function AxisPulses(m: Move, i: nat, p: nat): nat
    requires i < |m.steps|
  {
    if m.count == 0 then 0 else Pulses(m.count, m.steps[i], p)
  }

  function Signed(m: Move, i: nat, k: int): int
    requires i < |m.negative|
  {
    if m.negative[i] then -k else k
  }

  /** The signed steps axis `i` makes between two points of a block. */
  function Part(m: Move, i: nat, p: nat, q: nat): int
    requires i < |m.steps| == |m.negative|
  {
    Signed(m, i, AxisPulses(m, i, q) - AxisPulses(m, i, p))
  }

  /** The signed steps left after progress `p`. */
  function Left(m: Move, i: nat, p: nat): int
    requires i < |m.steps| == |m.negative|
  {
    Signed(m, i, m.steps[i] - AxisPulses(m, i, p))
  }

  /** The signed steps of whole blocks, from number `k` on. */
  function Whole(s: seq<Move>, k: nat, i: nat): int
    requires forall j :: 0 <= j < |s| ==> i < |s[j].steps| == |s[j].negative|
    decreases |s| - k
  {
    if k >= |s| then 0 else Signed(s[k], i, s[k].steps[i]) + Whole(s, k + 1, i)
  }

  /** Everything axis `i` still has to step. */
  ghost function Owed(mach: Machine, i: nat): int
    requires WellFormed(mach) && i < |mach.sysPos|
  {
    Left(mach.blocks[mach.exec], i, mach.progress) + Whole(mach.blocks, mach.exec + 1, i) + Whole(mach.queue, 0, i)
  }

  ghost predicate Conserved(mach: Machine)
    requires WellFormed(mach)
  {
    forall i :: 0 <= i < |mach.sysPos| ==> mach.sysPos[i] + Owed(mach, i) == mach.plPos[i]
  }

  lemma FinishedOwesNothing(m: Move, i: nat, axes: nat)
    requires MoveOk(m, axes) && i < axes
    ensures Left(m, i, 8 * m.count) == 0 && AxisPulses(m, i, 0) == 0 && Left(m, i, 0) == Signed(m, i, m.steps[i])
  {
    if m.count > 0 {
      WholeBlock(m.count, m.steps[i]);
    }
  }

  // ---------------------------------------------------------------- events

  datatype Event =
    | Append(move: Move)              // plan_buffer_line
    | Load                            // st_prep_buffer takes the next block over
    | Publish(steps: nat, level: nat) // st_prep_buffer finishes a segment
    | Tick                            // the stepper interrupt

  ghost predicate Can(mach: Machine, e: Event) {
    match e
    case Append(m) => MoveOk(m, |mach.sysPos|) && m.count > 0
    case Load => mach.unprepped == 0 && mach.queue != []
    case Publish(n, level) => 1 <= n <= mach.unprepped && level <= MAX_AMASS_LEVEL
    case Tick => true
  }

  /** The block and progress the next tick starts from: the counters are set anew exactly when the
      first live segment belongs to another block. */
  function Current(mach: Machine): (nat, nat)
    requires mach.live != []
  {
    if mach.live[0].number == mach.exec then (mach.exec, mach.progress) else (mach.live[0].number, 0)
  }

  /** The positions after `i` axes have been stepped from progress `p` to `q` of block `m`. */
  function Stepped(pos: seq<int>, m: Move, p: nat, q: nat): (r: seq<int>)
    requires |pos| <= |m.steps| == |m.negative|
    ensures |r| == |pos|
  {
    seq(|pos|, i requires 0 <= i < |pos| => pos[i] + Part(m, i, p, q))
  }

  function Moved(pos: seq<int>, m: Move): (r: seq<int>)
    requires |pos| <= |m.steps| == |m.negative|
    ensures |r| == |pos|
  {
    seq(|pos|, i requires 0 <= i < |pos| => pos[i] + SignedSteps(m, i))
  }

  ghost function Next(mach: Machine, e: Event): Machine
    requires WellFormed(mach) && Can(mach, e)
  {
    match e
    case Append(m) => mach.(queue := mach.queue + [m], plPos := Moved(mach.plPos, m))
    case Load => mach.(blocks := mach.blocks + [mach.queue[0]], unprepped := mach.queue[0].count,
                       queue := mach.queue[1..])
    case Publish(n, level) =>
      mach.(live := mach.live + [Seg(Last(mach), Ticks(n, level), level)], unprepped := mach.unprepped - n)
    case Tick => if mach.live == [] then mach else Ticked(mach)
  }

  ghost function Ticked(mach: Machine): Machine
    requires WellFormed(mach) && mach.live != []
  {
    var g, (e, p) := mach.live[0], Current(mach);
    var q := p + Worth(g.level);
    mach.(sysPos := Stepped(mach.sysPos, mach.blocks[e], p, q), exec := e, progress := q, executing := g.ticks > 1,
       live := if g.ticks > 1 then mach.live[0 := g.(ticks := g.ticks - 1)] else mach.live[1..])
  }

  // ---------------------------------------------------------------- every event keeps the chain

  lemma {:induction false} ChainLoad(mach: Machine, after: Machine, k: nat, e: nat, p: nat)
    requires WellFormed(mach) && Can(mach, Load) && after == Next(mach, Load) && k <= |mach.live| && e < |mach.blocks|
      && Chain(mach, k, e, p)
    ensures Chain(after, k, e, p)
    decreases |mach.live| - k
  {
    hide Work, Worth;
    if k < |mach.live| {
      var g := mach.live[k];
      if g.number == e {
        ChainLoad(mach, after, k + 1, e, p + Work(g));
      } else {
        ChainLoad(mach, after, k + 1, e + 1, Work(g));
      }
    }
  }

  lemma SegmentWork(g: Seg, n: nat)
    requires g.level <= MAX_AMASS_LEVEL && g.ticks == Ticks(n, g.level)
    ensures Work(g) == 8 * n && g.ticks >= n
  {
    TicksAreWorth(n, g.level);
  }

  lemma {:induction false} ChainPublish(mach: Machine, n: nat, level: nat, after: Machine, k: nat, e: nat, p: nat)
    requires WellFormed(mach) && Can(mach, Publish(n, level)) && after == Next(mach, Publish(n, level))
    requires k <= |mach.live| && e < |mach.blocks| && Chain(mach, k, e, p)
    ensures Chain(after, k, e, p)
    decreases |mach.live| - k
  {
    hide Work, Worth, Ticks, MoveOk;
    if k < |mach.live| {
      var g := mach.live[k];
      assert after.live[k] == g;
      if g.number == e {
        ChainPublish(mach, n, level, after, k + 1, e, p + Work(g));
      } else {
        ChainPublish(mach, n, level, after, k + 1, e + 1, Work(g));
      }
    } else {
      SegmentWork(Seg(Last(mach), Ticks(n, level), level), n);
      assert after.live[k] == Seg(Last(mach), Ticks(n, level), level);
    }
  }

  /** The chain from `k` on only depends on the segments from there on. */
  lemma {:induction false} ChainMoves(mach: Machine, after: Machine, k: nat, j: nat, e: nat, p: nat)
    requires after.blocks == mach.blocks && after.unprepped == mach.unprepped && k <= |mach.live| && j <= |after.live|
    requires mach.live[k..] == after.live[j..] && e < |mach.blocks| && Chain(mach, k, e, p)
    ensures Chain(after, j, e, p)
    decreases |mach.live| - k
  {
    if k < |mach.live| {
      var g := mach.live[k];
      assert g == mach.live[k..][0] == after.live[j..][0] == after.live[j];
      assert mach.live[k + 1..] == mach.live[k..][1..] == after.live[j..][1..] == after.live[j + 1..];
      if g.number == e {
        ChainMoves(mach, after, k + 1, j + 1, e, p + Work(g));
      } else {
        ChainMoves(mach, after, k + 1, j + 1, e + 1, Work(g));
      }
    }
  }

  lemma WorkOff(g: Seg)
    requires g.level <= MAX_AMASS_LEVEL && g.ticks > 0
    ensures Work(g) == Worth(g.level) + Work(g.(ticks := g.ticks - 1))
    ensures g.ticks == 1 ==> Work(g) == Worth(g.level)
  {
  }

  lemma ChainTick(mach: Machine, after: Machine)
    requires WellFormed(mach) && mach.live != [] && after == Ticked(mach)
    ensures Chain(after, 0, after.exec, after.progress)
  {
    hide Work, Worth, MoveOk;
    var g := mach.live[0];
    var (e, p) := Current(mach);
    var all := p + Work(g);
    WorkOff(g);
    assert Chain(mach, 1, e, all);
    if g.ticks > 1 {
      assert after.live[1..] == mach.live[1..];
      ChainMoves(mach, after, 1, 1, e, all);
      assert after.live[0] == g.(ticks := g.ticks - 1);
    } else {
      ChainMoves(mach, after, 1, 0, e, all);
    }
  }

  lemma NextWellFormed(mach: Machine, e: Event)
    requires WellFormed(mach) && Can(mach, e)
    ensures WellFormed(Next(mach, e))
  {
    var after := Next(mach, e);
    match e
    case Append(m) =>
      ChainMoves(mach, after, 0, 0, mach.exec, mach.progress);
    case Load =>
      ChainLoad(mach, after, 0, mach.exec, mach.progress);
    case Publish(n, level) =>
      ChainPublish(mach, n, level, after, 0, mach.exec, mach.progress);
    case Tick =>
      if mach.live != [] {
        ChainTick(mach, after);
      }
  }

  // ---------------------------------------------------------------- every event conserves position

  lemma {:induction false} WholeAppend(s: seq<Move>, m: Move, k: nat, i: nat)
    requires forall j :: 0 <= j < |s| ==> i < |s[j].steps| == |s[j].negative|
    requires i < |m.steps| == |m.negative| && k <= |s|
    ensures Whole(s + [m], k, i) == Whole(s, k, i) + Signed(m, i, m.steps[i])
    decreases |s| - k
  {
    if k < |s| {
      WholeAppend(s, m, k + 1, i);
    }
  }

  lemma {:induction false} WholeShift(s: seq<Move>, k: nat, i: nat)
    requires (forall j :: 0 <= j < |s| ==> i < |s[j].steps| == |s[j].negative|) && 0 < k <= |s|
    ensures Whole(s[1..], k - 1, i) == Whole(s, k, i)
    decreases |s| - k
  {
    if k < |s| {
      WholeShift(s, k + 1, i);
    }
  }

  lemma TickConserves(mach: Machine, i: nat)
    requires WellFormed(mach) && mach.live != [] && i < |mach.sysPos| && WellFormed(Ticked(mach))
    ensures Ticked(mach).sysPos[i] + Owed(Ticked(mach), i) == mach.sysPos[i] + Owed(mach, i)
  {
    FinishedOwesNothing(mach.blocks[mach.exec], i, |mach.sysPos|);
    FinishedOwesNothing(mach.blocks[mach.live[0].number], i, |mach.sysPos|);
    hide Chain, AxisPulses;
  }

  lemma EventConserves(mach: Machine, e: Event, i: nat)
    requires WellFormed(mach) && Can(mach, e) && WellFormed(Next(mach, e)) && i < |mach.sysPos|
    requires mach.sysPos[i] + Owed(mach, i) == mach.plPos[i]
    ensures Next(mach, e).sysPos[i] + Owed(Next(mach, e), i) == Next(mach, e).plPos[i]
  {
    match e
    case Append(m) =>
      WholeAppend(mach.queue, m, 0, i);
    case Load =>
      WholeAppend(mach.blocks, mach.queue[0], mach.exec + 1, i);
      WholeShift(mach.queue, 1, i);
    case Publish(n, level) =>
    case Tick =>
      if mach.live != [] {
        TickConserves(mach, i);
      }
  }

  /** Every event keeps the machine well formed and its position conserved. */
  lemma EventKeeps(mach: Machine, e: Event)
    requires WellFormed(mach) && Can(mach, e) && Conserved(mach)
    ensures WellFormed(Next(mach, e)) && Conserved(Next(mach, e))
  {
    NextWellFormed(mach, e);
    var after := Next(mach, e);
    assert |after.sysPos| == |mach.sysPos|;
    hide Next, Chain, Owed, Can;
    forall i | 0 <= i < |after.sysPos| ensures after.sysPos[i] + Owed(after, i) == after.plPos[i] {
      EventConserves(mach, e, i);
    }
  }

  // ---------------------------------------------------------------- every interleaving

  /** After a reset: nothing queued, loaded or published, and the planner's position is taken over. */
  function Initial(zero: Move, pos: seq<int>): Machine {
    Machine([zero], 0, [], [], false, 0, 0, pos, pos)
  }

  ghost predicate Zeroed(zero: Move, axes: nat) {
    MoveOk(zero, axes) && zero.count == 0
  }

  /** `states` is a run from a reset under `events`, in whatever order main program and interrupt
      produce them. */
  ghost predicate Run(states: seq<Machine>, events: seq<Event>, zero: Move, pos: seq<int>) {
    && |states| == |events| + 1 && Zeroed(zero, |pos|) && states[0] == Initial(zero, pos)
    && forall k :: 0 <= k < |events| ==>
         WellFormed(states[k]) && Can(states[k], events[k]) && states[k + 1] == Next(states[k], events[k])
  }

  lemma InitialConserved(zero: Move, pos: seq<int>)
    requires Zeroed(zero, |pos|)
    ensures WellFormed(Initial(zero, pos)) && Conserved(Initial(zero, pos))
  {
    var mach := Initial(zero, pos);
    forall i | 0 <= i < |pos| ensures Owed(mach, i) == 0 {
      FinishedOwesNothing(zero, i, |pos|);
    }
  }

  /** Position conservation: in every state of every run, what has been stepped plus what is owed
      is the position the planner believes in. */
  lemma {:induction false} RunConserves(states: seq<Machine>, events: seq<Event>, zero: Move, pos: seq<int>, k: nat)
    requires Run(states, events, zero, pos) && k < |states|
    ensures WellFormed(states[k]) && Conserved(states[k])
  {
    hide Chain, Owed, Next, Can, WellFormed, Conserved;
    if k == 0 {
      InitialConserved(zero, pos);
    } else {
      RunConserves(states, events, zero, pos, k - 1);
      EventKeeps(states[k - 1], events[k - 1]);
    }
  }

  /** Nothing is queued, unprepped or published. */
  ghost predicate Drained(mach: Machine) {
    mach.queue == [] && mach.unprepped == 0 && mach.live == []
  }

  lemma DrainedOwesNothing(mach: Machine, i: nat)
    requires WellFormed(mach) && Drained(mach) && i < |mach.sysPos|
    ensures Owed(mach, i) == 0
  {
    FinishedOwesNothing(mach.blocks[mach.exec], i, |mach.sysPos|);
  }

  /** Once everything is drained the machine stands where the planner believes it is. */
  lemma DrainedRunArrives(states: seq<Machine>, events: seq<Event>, zero: Move, pos: seq<int>, k: nat)
    requires Run(states, events, zero, pos) && k < |states| && Drained(states[k])
    ensures states[k].sysPos == states[k].plPos
  {
    var mach := states[k];
    RunConserves(states, events, zero, pos, k);
    forall i | 0 <= i < |mach.sysPos| ensures mach.sysPos[i] == mach.plPos[i] {
      DrainedOwesNothing(mach, i);
    }
  }

  // ---------------------------------------------------------------- what is owed, part by part

  /** The signed steps the live segments from `k` on will make. */
  ghost function LiveOwed(mach: Machine, k: nat, e: nat, p: nat, i: nat): int
    requires WellFormed(mach) && k <= |mach.live| && e < |mach.blocks| && Chain(mach, k, e, p) && i < |mach.sysPos|
    decreases |mach.live| - k
  {
    if k == |mach.live| then 0
    else
      var g := mach.live[k];
      var w := Work(g);
      if g.number == e then Part(mach.blocks[e], i, p, p + w) + LiveOwed(mach, k + 1, e, p + w, i)
      else Part(mach.blocks[e + 1], i, 0, w) + LiveOwed(mach, k + 1, e + 1, w, i)
  }

  /** Progress of the last loaded block once every live segment is executed. */
  function PreppedProgress(mach: Machine): int
    requires mach.blocks != []
  {
    8 * mach.blocks[|mach.blocks| - 1].count - 8 * mach.unprepped
  }

  lemma {:induction false} ChainOwes(mach: Machine, k: nat, e: nat, p: nat, i: nat)
    requires WellFormed(mach) && k <= |mach.live| && e < |mach.blocks| && Chain(mach, k, e, p) && i < |mach.sysPos|
    ensures PreppedProgress(mach) >= 0
    ensures Left(mach.blocks[e], i, p) + Whole(mach.blocks, e + 1, i)
      == LiveOwed(mach, k, e, p, i) + Left(mach.blocks[Last(mach)], i, PreppedProgress(mach))
    decreases |mach.live| - k
  {
    hide AxisPulses;
    FinishedOwesNothing(mach.blocks[e], i, |mach.sysPos|);
    if k < |mach.live| {
      var g := mach.live[k];
      var w := Work(g);
      if g.number == e {
        ChainOwes(mach, k + 1, e, p + w, i);
      } else {
        ChainOwes(mach, k + 1, e + 1, w, i);
        FinishedOwesNothing(mach.blocks[e + 1], i, |mach.sysPos|);
      }
    } else if e != Last(mach) {
      FinishedOwesNothing(mach.blocks[e + 1], i, |mach.sysPos|);
    }
  }

  /** What is owed is what the live segments will step, plus the unprepped rest of the last loaded
      block, plus the queued blocks. */
  lemma OwedSplits(mach: Machine, i: nat)
    requires WellFormed(mach) && i < |mach.sysPos|
    ensures PreppedProgress(mach) >= 0
    ensures Owed(mach, i) == LiveOwed(mach, 0, mach.exec, mach.progress, i)
      + Left(mach.blocks[Last(mach)], i, PreppedProgress(mach)) + Whole(mach.queue, 0, i)
  {
    ChainOwes(mach, 0, mach.exec, mach.progress, i);
  }
}
