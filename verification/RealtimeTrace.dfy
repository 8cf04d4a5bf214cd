/** A run of the realtime protocol in which a restore ends late. */
module RealtimeTrace {
  import opened RealtimeSpec
  import opened RealtimeChain
  import opened RealtimeDoor
  import opened RealtimeRuns

  // ---------------------------------------------------------------- a run whose restore ends late

  /** A machine in the door state, or resumed from it, with the spindle to be restored. */
  function InDoor(place: Place, hold: bool, retracted: bool, initiated: bool, complete: bool, ajar: bool,
                  exec: Exec): Machine {
    Machine(Sys(SafetyDoor, Suspend(hold, false, retracted, initiated, complete, ajar, false, false), false, exec,
                NO_SPINDLE_STOP),
            place, false, retracted, !ajar, complete, false, false)
  }

  const QUIET := Exec(false, false, false, false, false, false)
  const START_ONLY := QUIET.(cycleStart := true)
  const SPINDLE_ON := Setup(true, false, false)

  /** One step of the run below. */
  ghost predicate Leads(mach: Machine, e: Event, after: Machine) {
    Can(mach, e) && after == Next(mach, e, SPINDLE_ON)
  }

  /** A door state that still carries restore complete from before the door opened. */
  function Stale(place: Place, retracted: bool, ajar: bool, exec: Exec): Machine {
    Machine(Sys(SafetyDoor, Suspend(true, false, retracted, false, true, ajar, false, false), false, exec,
                NO_SPINDLE_STOP),
            place, false, retracted, !ajar, false, false, true)
  }

  // The states of the run.
  const S0 := START
  const S1 := START.(sys := START.sys.(exec := QUIET.(safetyDoor := true)))
  const S2 := InDoor(LoopHead, true, false, false, false, true, QUIET)
  const S3 := InDoor(LoopEnd, true, true, false, false, true, QUIET)
  const S4 := InDoor(LoopHead, true, true, false, false, true, QUIET)
  const S5 := InDoor(LoopEnd, true, true, false, false, false, QUIET)
  const S6 := InDoor(LoopEnd, true, true, false, false, false, START_ONLY)
  const S7 := InDoor(LoopHead, true, true, true, false, false, QUIET)
  const S8 := InDoor(SpindleRestore, true, true, true, false, false, QUIET)
  const S9 := InDoor(SpindleDelay, true, true, true, false, false, QUIET)
  const S10 := InDoor(SpindleDelay, true, true, true, false, false, QUIET)
  const S11 := InDoor(CoolantRestore, true, true, true, false, false, QUIET)
  const S12 := InDoor(RestoreEnd, true, true, true, false, false, QUIET)
  const S13 := InDoor(RestoreEnd, true, true, true, false, false, QUIET.(feedHold := true))
  const S14 := InDoor(LoopEnd, true, true, true, true, false, START_ONLY.(feedHold := true))
  const S15 := InDoor(LoopHead, true, true, true, true, false, QUIET)
  const S16 := InDoor(SpindleRestore, true, true, true, true, false, QUIET)
  const S17 := InDoor(SpindleDelay, true, true, true, true, false, QUIET)
  const S18 := InDoor(SpindleDelay, true, true, true, true, false, START_ONLY)
  const S19 := Machine(Sys(Cycle, NOT_SUSPENDED, false, QUIET, NO_SPINDLE_STOP), SpindleDelay, true, true, true, true,
                       true, false)
  const S20 := Machine(Sys(Cycle, NOT_SUSPENDED, false, QUIET, NO_SPINDLE_STOP), CoolantRestore, true, true, true,
                       true, true, false)
  const S21 := Machine(Sys(Cycle, NOT_SUSPENDED, false, QUIET, NO_SPINDLE_STOP), RestoreEnd, true, true, true, true,
                       true, false)
  const S22 := Machine(Sys(Cycle, NOT_SUSPENDED.(restoreComplete := true), false, START_ONLY, NO_SPINDLE_STOP),
                       LoopEnd, true, true, true, true, false, true)
  const S23 := Machine(Sys(Cycle, NOT_SUSPENDED.(restoreComplete := true), false, START_ONLY.(safetyDoor := true),
                           NO_SPINDLE_STOP), LoopEnd, true, true, true, true, false, true)
  const S24 := Machine(Sys(Cycle, NOT_SUSPENDED.(restoreComplete := true), false,
                           START_ONLY.(safetyDoor := true, cycleStop := true), NO_SPINDLE_STOP), LoopEnd,
                       false, true, true, true, false, true)
  const S25 := Stale(LoopHead, false, true, QUIET)
  const S26 := Stale(LoopEnd, true, true, QUIET)
  const S27 := Stale(LoopHead, true, true, QUIET)
  const S28 := Stale(LoopEnd, true, false, QUIET)
  const S29 := Stale(LoopEnd, true, false, START_ONLY)
  const S30 := Machine(START.sys, LoopHead, false, true, true, false, false, true)

  function Trace(k: nat): Machine {
    match k
    case 0 => S0
    case 1 => S1
    case 2 => S2
    case 3 => S3
    case 4 => S4
    case 5 => S5
    case 6 => S6
    case 7 => S7
    case 8 => S8
    case 9 => S9
    case 10 => S10
    case 11 => S11
    case 12 => S12
    case 13 => S13
    case 14 => S14
    case 15 => S15
    case 16 => S16
    case 17 => S17
    case 18 => S18
    case 19 => S19
    case 20 => S20
    case 21 => S21
    case 22 => S22
    case 23 => S23
    case 24 => S24
    case 25 => S25
    case 26 => S26
    case 27 => S27
    case 28 => S28
    case 29 => S29
    case _ => S30
  }

  /** Its events: the door opens and closes, a restore is carried out, a feed hold cancels the
      automatic cycle start, the restore runs again, and a cycle start comes in its delay.  Then the
      door opens and closes once more. */
  function Cause(k: nat): Event {
    match k
    case 0 => Raise(false, false, true, false, false)
    case 1 => Realtime(false, false)
    case 2 => Loop(false)
    case 3 => Realtime(false, false)
    case 4 => Loop(true)
    case 5 => Raise(true, false, false, false, false)
    case 6 => Realtime(false, false)
    case 7 => Loop(true)
    case 8 => Loop(true)
    case 9 => Realtime(false, false)
    case 10 => DelayOver
    case 11 => Loop(true)
    case 12 => Raise(false, true, false, false, false)
    case 13 => Loop(true)
    case 14 => Realtime(false, false)
    case 15 => Loop(true)
    case 16 => Loop(true)
    case 17 => Raise(true, false, false, false, false)
    case 18 => Realtime(true, false)
    case 19 => DelayOver
    case 20 => Loop(true)
    case 21 => Loop(true)
    case 22 => Raise(false, false, true, false, false)
    case 23 => Stop
    case 24 => Realtime(false, false)
    case 25 => Loop(false)
    case 26 => Realtime(false, false)
    case 27 => Loop(true)
    case 28 => Raise(true, false, false, false, false)
    case _ => Realtime(false, false)
  }

  lemma TraceFrom0()
    ensures Leads(S0, Raise(false, false, true, false, false), S1)
  {
  }

  lemma TraceFrom1()
    ensures Leads(S1, Realtime(false, false), S2)
  {
  }

  lemma TraceFrom2()
    ensures Leads(S2, Loop(false), S3)
  {
  }

  lemma TraceFrom3()
    ensures Leads(S3, Realtime(false, false), S4)
  {
  }

  lemma TraceFrom4()
    ensures Leads(S4, Loop(true), S5)
  {
  }

  lemma TraceFrom5()
    ensures Leads(S5, Raise(true, false, false, false, false), S6)
  {
  }

  lemma TraceFrom6()
    ensures Leads(S6, Realtime(false, false), S7)
  {
  }

  lemma TraceFrom7()
    ensures Leads(S7, Loop(true), S8)
  {
  }

  lemma TraceFrom8()
    ensures Leads(S8, Loop(true), S9)
  {
  }

  lemma TraceFrom9()
    ensures Leads(S9, Realtime(false, false), S10)
  {
  }

  lemma TraceFrom10()
    ensures Leads(S10, DelayOver, S11)
  {
  }

  lemma TraceFrom11()
    ensures Leads(S11, Loop(true), S12)
  {
  }

  lemma TraceFrom12()
    ensures Leads(S12, Raise(false, true, false, false, false), S13)
  {
  }

  lemma TraceFrom13()
    ensures Leads(S13, Loop(true), S14)
  {
  }

  lemma TraceFrom14()
    ensures Leads(S14, Realtime(false, false), S15)
  {
  }

  lemma TraceFrom15()
    ensures Leads(S15, Loop(true), S16)
  {
  }

  lemma TraceFrom16()
    ensures Leads(S16, Loop(true), S17)
  {
  }

  lemma TraceFrom17()
    ensures Leads(S17, Raise(true, false, false, false, false), S18)
  {
  }

  lemma TraceFrom18()
    ensures Leads(S18, Realtime(true, false), S19)
  {
  }

  lemma TraceFrom19()
    ensures Leads(S19, DelayOver, S20)
  {
  }

  lemma TraceFrom20()
    ensures Leads(S20, Loop(true), S21)
  {
  }

  lemma TraceFrom21()
    ensures Leads(S21, Loop(true), S22)
  {
  }

  lemma TraceFrom22()
    ensures Leads(S22, Raise(false, false, true, false, false), S23)
  {
  }

  lemma TraceFrom23()
    ensures Leads(S23, Stop, S24)
  {
  }

  lemma TraceFrom24()
    ensures Leads(S24, Realtime(false, false), S25)
  {
  }

  lemma TraceFrom25()
    ensures Leads(S25, Loop(false), S26)
  {
  }

  lemma TraceFrom26()
    ensures Leads(S26, Realtime(false, false), S27)
  {
  }

  lemma TraceFrom27()
    ensures Leads(S27, Loop(true), S28)
  {
  }

  lemma TraceFrom28()
    ensures Leads(S28, Raise(true, false, false, false, false), S29)
  {
  }

  lemma StaleResumes(s: Sys)
    requires s == Stale(LoopEnd, true, false, START_ONLY).sys
    ensures HoldCommands(s, s.exec) == s && StopCommand(START.sys, s.exec) == START.sys
    ensures StartCommand(s, s.exec, false) == START.sys && SpindleStopToggled(START.sys, false) == START.sys
  {
  }

  lemma TraceFrom29()
    ensures Leads(S29, Realtime(false, false), S30)
  {
    StaleResumes(S29.sys);
    assert Executed(S29.sys, false, false) == START.sys;
    hide Executed;
  }

  lemma TraceLeadsEarly(k: nat)
    requires k < 18
    ensures Leads(Trace(k), Cause(k), Trace(k + 1))
  {
    hide Leads;
    TraceFrom0();
    TraceFrom1();
    TraceFrom2();
    TraceFrom3();
    TraceFrom4();
    TraceFrom5();
    TraceFrom6();
    TraceFrom7();
    TraceFrom8();
    TraceFrom9();
    TraceFrom10();
    TraceFrom11();
    TraceFrom12();
    TraceFrom13();
    TraceFrom14();
    TraceFrom15();
    TraceFrom16();
    TraceFrom17();
  }

  lemma TraceLeads(k: nat)
    requires k < 30
    ensures Leads(Trace(k), Cause(k), Trace(k + 1))
  {
    hide Leads;
    if k < 18 {
      TraceLeadsEarly(k);
    } else {
      TraceFrom18();
      TraceFrom19();
      TraceFrom20();
      TraceFrom21();
      TraceFrom22();
      TraceFrom23();
      TraceFrom24();
      TraceFrom25();
      TraceFrom26();
      TraceFrom27();
      TraceFrom28();
      TraceFrom29();
    }
  }

  function States(): (s: seq<Machine>)
    ensures |s| == 31 && forall k :: 0 <= k < 31 ==> s[k] == Trace(k)
  {
    seq(31, k requires 0 <= k < 31 => Trace(k))
  }

  function Events(): (s: seq<Event>)
    ensures |s| == 30 && forall k :: 0 <= k < 30 ==> s[k] == Cause(k)
  {
    seq(30, k requires 0 <= k < 30 => Cause(k))
  }

  lemma TraceRuns()
    ensures IsRun(States(), Events(), SPINDLE_ON)
  {
    assert Trace(0) == START;
    hide Next, Can, Trace, Cause;
    forall k | 0 <= k < 30 ensures Can(States()[k], Events()[k])
      && States()[k + 1] == Next(States()[k], Events()[k], SPINDLE_ON) {
      TraceLeads(k);
    }
  }

  lemma ResumedStates()
    ensures Trace(18) == S18 && Trace(21) == S21 && Cause(18) == Realtime(true, false) && Cause(21) == Loop(true)
    ensures InRestore(Trace(19).place) && InRestore(Trace(20).place)
  {
  }

  lemma LateStates()
    ensures Trace(22) == S22 && Trace(29) == S29 && Trace(30) == S30
  {
  }

  lemma LateFacts()
    ensures ResumesHere(S18) && InRestore(S21.place) && LateRestore(S21, Loop(true)) && !Chained(S22.sys.suspend)
    ensures S29.sys.state == SafetyDoor && S30.sys.state == Idle && !InOrder(S29)
  {
  }

  /** The chain can break, and the door can then be passed without a restore: a cycle start, given in
      the restart delay of a repeated restore, resumes the program; the restore then ends late and
      leaves restore complete alone, which the next door event finds set. */
  lemma ChainCanBreak()
    ensures IsRun(States(), Events(), SPINDLE_ON) && EndsAt(States(), Events(), 21)
      && ResumedSince(States(), Events(), 21)
    ensures !Chained(States()[22].sys.suspend)
    ensures States()[29].sys.state == SafetyDoor && States()[30].sys.state == Idle && !InOrder(States()[29])
  {
    TraceRuns();
    ResumedStates();
    LateStates();
    LateFacts();
    hide Next, Can, Trace, Cause, ResumesHere, Chained, IsRun, InRestore;
    assert ResumesAt(States(), Events(), 18);
    forall i | 18 < i <= 21
      ensures InRestore(States()[i].place)
    {
      if i != 19 && i != 20 {
        assert i == 21;
      }
    }
  }
}
