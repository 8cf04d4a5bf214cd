/** The segment buffer, the stepper block buffer and the stepper interrupt, updated in place. */
module Stepper {
  import opened PlanTypes
  import opened Bresenham
  import opened StepMachine
  import opened SegmentRings

  function ZeroMove(axes: nat): (m: Move)
    ensures Zeroed(m, axes)
  {
    Move(seq(axes, _ => 0), seq(axes, _ => false), 0, false, false, 0.0, 0.0, 0.0)
  }

  class Stepper {
    const axes: nat
    const segmentBuffer: array<SegSlot>     // SEGMENT_BUFFER_SIZE slots
    const stBlockBuffer: array<StBlock>     // one slot less
    var segmentTail: nat
    var segmentHead: nat
    var segmentNextHead: nat
    var prepIndex: nat                      // prep.st_block_index
    var running: bool                       // exec_segment is not NULL; it then is the tail
    var execIndex: nat                      // st.exec_block_index
    var stepCount: nat
    const counters: array<int>
    var steps: seq<nat>
    const sysPosition: array<int>
    ghost var machine: Machine

    /** st_reset, with the given machine position. */
    constructor (size: nat, axes: nat, pos: seq<int>)
      requires size >= 3 && |pos| == axes
      ensures Valid() && machine == Initial(ZeroMove(axes), pos)
      ensures fresh(segmentBuffer) && fresh(stBlockBuffer) && fresh(counters) && fresh(sysPosition)
      ensures segmentTail == segmentHead
    {
      this.axes := axes;
      segmentBuffer := new SegSlot[size](_ => SegSlot(0, 0, 0));
      stBlockBuffer := new StBlock[size - 1](_ => StBlock([], 0, []));
      segmentTail, segmentHead, segmentNextHead := 0, 0, 1;
      prepIndex, running, execIndex, stepCount := 0, false, 0, 0;
      counters := new int[axes](_ => 0);
      steps := seq(axes, _ => 0);
      sysPosition := new int[axes](i requires 0 <= i < |pos| => pos[i]);
      machine := Initial(ZeroMove(axes), pos);
      new;
      assert sysPosition[..] == pos;
      InitialConserved(ZeroMove(axes), pos);
    }

    ghost function View(): Rings
      reads this, segmentBuffer, stBlockBuffer, counters, sysPosition
    {
      Rings(segmentBuffer[..], stBlockBuffer[..], segmentTail, segmentHead, prepIndex, running, execIndex, stepCount,
            counters[..], steps, sysPosition[..])
    }

    ghost predicate Valid()
      reads this, segmentBuffer, stBlockBuffer, counters, sysPosition
    {
      && Shows(View(), machine) && sysPosition.Length == counters.Length == axes
      && segmentNextHead == Ring.Next(segmentBuffer.Length, segmentHead) && counters != sysPosition
    }

    /** The loop guard of st_prep_buffer. */
    predicate BufferHasRoom()
      reads this
    {
      segmentTail != segmentNextHead
    }

    /** A new block's Bresenham data goes into the next stepper block slot. */
    method LoadBlock(m: Move)
      requires Valid() && BufferHasRoom() && Can(machine, Load) && m == machine.queue[0]
      modifies this`prepIndex, this`machine, stBlockBuffer
      ensures Valid() && machine == StepMachine.Next(old(machine), Load)
    {
      hide Shows;
      ghost var rings := View();
      LoadedShows(rings, machine, m);
      ShowsSized(rings, machine);
      prepIndex := Ring.Next(stBlockBuffer.Length, prepIndex);
      stBlockBuffer[prepIndex] := StData(m);
      machine := StepMachine.Next(machine, Load);
      assert View() == Loaded(rings, m);
    }

    /** Fills the head slot; the segment is not visible to the interrupt yet. */
    method WriteSegment(nStep: nat, level: nat)
      requires Valid() && level <= MAX_AMASS_LEVEL
      modifies segmentBuffer
      ensures Valid() && segmentBuffer[segmentHead] == SegSlot(Ticks(nStep, level), prepIndex, level)
    {
      hide Shows;
      ghost var rings := View();
      var x := SegSlot(Ticks(nStep, level), prepIndex, level);
      ShowsSized(rings, machine);
      WrittenShows(rings, machine, x);
      segmentBuffer[segmentHead] := x;
      assert View() == Written(rings, x);
    }

    /** Makes the segment in the head slot visible. */
    method PublishSegment(ghost n: nat, ghost level: nat)
      requires Valid() && BufferHasRoom() && Can(machine, Publish(n, level))
      requires segmentBuffer[segmentHead] == SegSlot(Ticks(n, level), prepIndex, level)
      modifies this`segmentHead, this`segmentNextHead, this`machine
      ensures Valid() && machine == StepMachine.Next(old(machine), Publish(n, level))
    {
      hide Shows;
      ghost var rings := View();
      ShowsSized(rings, machine);
      PublishedShows(rings, machine, n, level);
      segmentHead := segmentNextHead;
      segmentNextHead := Ring.Next(segmentBuffer.Length, segmentNextHead);
      machine := StepMachine.Next(machine, Publish(n, level));
      assert View() == Published(rings);
    }

    /** A block is queued in the planner; the rings do not change. */
    ghost method QueueBlock(m: Move)
      requires Valid() && Can(machine, Append(m))
      modifies this`machine
      ensures Valid() && machine == StepMachine.Next(old(machine), Append(m))
    {
      hide Shows;
      ShowsSized(View(), machine);
      QueuedShows(View(), machine, m);
      machine := StepMachine.Next(machine, Append(m));
    }

    /** The interrupt takes the segment at the tail over. */
    method BeginSegment()
      requires Valid() && !running && segmentHead != segmentTail
      modifies this`running, this`execIndex, this`stepCount, this`steps, this`machine, counters
      ensures Valid() && running && old(machine).live != [] && machine == Started(old(machine))
    {
      hide Shows;
      ghost var rings := View();
      ShowsSized(rings, machine);
      RunningIsLive(rings, machine);
      BegunShows(rings, machine);
      var segment := segmentBuffer[segmentTail];
      running := true;
      stepCount := segment.nStep;
      if execIndex != segment.stBlockIndex {
        execIndex := segment.stBlockIndex;
        SetCounters(stBlockBuffer[execIndex].stepEventCount / 2);
      }
      steps := ShiftedSteps(stBlockBuffer[execIndex], segment.amassLevel);
      machine := Started(machine);
      assert View() == Begun(rings);
    }

    method SetCounters(c: int)
      modifies counters
      ensures counters[..] == Reset(counters.Length, c)
    {
      for i := 0 to counters.Length
        invariant forall k :: 0 <= k < i ==> counters[k] == c
      {
        counters[i] := c;
      }
    }

    /** One Bresenham step of every axis. */
    method StepAxes(b: StBlock, ghost rings: Rings)
      requires rings == View() && |rings.counters| == |rings.steps| == |rings.pos| == |b.negative|
        && counters.Length == sysPosition.Length
      requires counters != sysPosition
      modifies counters, sysPosition
      ensures counters[..] == Pulsed(rings, b).counters && sysPosition[..] == Pulsed(rings, b).pos
    {
      ghost var moved := Pulsed(rings, b);
      for i := 0 to counters.Length
        invariant forall k ::
          0 <= k < counters.Length
          ==> counters[k] == if k < i then moved.counters[k] else rings.counters[k]
        invariant forall k ::
          0 <= k < counters.Length
          ==> sysPosition[k] == if k < i then moved.pos[k] else rings.pos[k]
      {
        counters[i] := counters[i] + steps[i];
        if counters[i] > b.stepEventCount {
          counters[i] := counters[i] - b.stepEventCount;
          if b.negative[i] {
            sysPosition[i] := sysPosition[i] - 1;
          } else {
            sysPosition[i] := sysPosition[i] + 1;
          }
        }
      }
    }

    /** The stepper interrupt.  Its result says that the cycle stops. */
    method Interrupt() returns (stop: bool)
      requires Valid()
      modifies this`running, this`execIndex, this`stepCount, this`steps, this`segmentTail, this`machine, counters,
        sysPosition
      ensures Valid() && machine == StepMachine.Next(old(machine), Tick)
      ensures stop <==> old(machine).live == []
      ensures stop ==> View() == old(View())
    {
      hide Shows;
      RunningIsLive(View(), machine);
      if !running {
        if segmentHead != segmentTail {
          BeginSegment();
          StartedTicks(old(machine));
        } else {
          return true;
        }
      }
      FinishTick();
      stop := false;
    }

    /** Steps the axes and counts the tick. */
    method FinishTick()
      requires Valid() && running
      modifies this`running, this`stepCount, this`segmentTail, this`machine, counters, sysPosition
      ensures Valid() && old(machine).live != [] && WellFormed(old(machine)) && machine == Ticked(old(machine))
    {
      hide Shows;
      ghost var rings, mach := View(), machine;
      ShowsSized(rings, mach);
      RunningIsLive(rings, mach);
      ExecutingBlock(rings, mach);
      ghost var moved := Finished(Pulsed(rings, StData(mach.blocks[mach.exec])));
      TickShows(rings, mach, moved);
      StepAxes(stBlockBuffer[execIndex], rings);
      stepCount := stepCount - 1;
      if stepCount == 0 {
        running := false;
        segmentTail := Ring.Next(segmentBuffer.Length, segmentTail);
      }
      machine := Ticked(machine);
      assert View() == moved;
    }
  }

  lemma ShowsSized(rings: Rings, mach: Machine)
    requires Shows(rings, mach)
    ensures WellFormed(mach) && Sized(rings, |mach.sysPos|) && rings.pos == mach.sysPos
  {
  }

  lemma QueuedShows(rings: Rings, mach: Machine, m: Move)
    requires Shows(rings, mach) && Can(mach, Append(m))
    ensures Shows(rings, StepMachine.Next(mach, Append(m)))
  {
    var after := StepMachine.Next(mach, Append(m));
    NextWellFormed(mach, Append(m));
    forall k | 0 <= k < |after.live| ensures SegmentIn(rings, after, k) {
      assert SegmentIn(rings, mach, k);
    }
    hide Chain, SlotOf;
  }

  /** The running segment is the first live one; an empty buffer has none. */
  lemma RunningIsLive(rings: Rings, mach: Machine)
    requires Shows(rings, mach)
    ensures WellFormed(mach) && rings.running == mach.executing
    ensures mach.live == [] <==> rings.tail == rings.head
    ensures rings.running ==> mach.live != []
  {
    hide Chain, SlotOf;
  }

  lemma StartedTicks(mach: Machine)
    requires WellFormed(mach) && mach.live != []
    ensures WellFormed(Started(mach)) && Ticked(Started(mach)) == Ticked(mach)
  {
    StartedWellFormed(mach);
  }
}
