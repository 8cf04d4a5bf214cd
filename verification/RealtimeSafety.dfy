/** Hold and door safety over every sequence of realtime flags. */
module RealtimeSafety {
  import opened RealtimeSpec

  // ---------------------------------------------------------------- the stepper stops before a cycle resumes

  /** The stepper runs, or its stop has not been handled yet. */
  predicate InMotion(mach: Machine) {
    mach.moving || mach.sys.exec.cycleStop
  }

  predicate MayMove(s: State) {
    s == Cycle || s == Jog || s == Hold || s == SafetyDoor || s == Sleep
  }

  ghost predicate MotionFits(s: Sys, inMotion: bool) {
    && (inMotion ==> !s.suspend.holdComplete && MayMove(s.state))
    && (s.state == SafetyDoor && !s.suspend.holdComplete ==> s.suspend.doorAjar)
  }

  ghost predicate MotionHeld(mach: Machine) {
    !(mach.moving && mach.sys.exec.cycleStop) && MotionFits(mach.sys, InMotion(mach))
  }

  ghost predicate MotionOk(mach: Machine) {
    MotionHeld(mach) && (mach.place == MainLoop ==> mach.sys.suspend == NOT_SUSPENDED)
  }

  /** `t` comes from `s` without a cycle start or stop. */
  ghost predicate StaysOut(s: Sys, t: Sys) {
    (t.state == Cycle ==> s.state == Cycle) && t.exec.cycleStop == s.exec.cycleStop
  }

  lemma HoldStagesKeepMotion(s: Sys, x: Exec, m: bool)
    requires MotionFits(s, m)
    ensures MotionFits(Decelerated(s, x), m) && StaysOut(s, Decelerated(s, x))
    ensures MotionFits(Cancelled(s, x), m) && StaysOut(s, Cancelled(s, x))
    ensures MotionFits(FeedHeld(s, x), m) && StaysOut(s, FeedHeld(s, x))
  {
  }

  lemma DoorKeepsMotion(s: Sys, x: Exec, m: bool)
    requires MotionFits(s, m)
    ensures MotionFits(DoorOpened(s, x), m) && StaysOut(s, DoorOpened(s, x))
    ensures MotionFits(Slept(s, x), m) && StaysOut(s, Slept(s, x))
  {
  }

  lemma HeldKeepsMotion(s: Sys, x: Exec, m: bool)
    requires MotionFits(s, m)
    ensures MotionFits(Held(s, x), m) && StaysOut(s, Held(s, x))
  {
    var a := Decelerated(s, x);
    var b := Cancelled(a, x);
    HoldStagesKeepMotion(s, x, m);
    HoldStagesKeepMotion(a, x, m);
    HoldStagesKeepMotion(b, x, m);
    DoorKeepsMotion(FeedHeld(b, x), x, m);
    hide Decelerated, Cancelled, FeedHeld, DoorOpened, Slept, MotionFits;
  }

  lemma HoldKeepsMotion(s: Sys, x: Exec, m: bool)
    requires MotionFits(s, m)
    ensures MotionFits(HoldCommands(s, x), m) && StaysOut(s, HoldCommands(s, x))
  {
    HeldKeepsMotion(s, x, m);
    DoorKeepsMotion(Held(s, x), x, m);
    hide Held, DoorOpened, Slept;
  }

  lemma StartKeepsMotion(s: Sys, x: Exec, hasBlock: bool, m: bool)
    requires MotionFits(s, m)
    ensures MotionFits(StartCommand(s, x, hasBlock), m)
    ensures s.state != Cycle && StartCommand(s, x, hasBlock).state == Cycle ==> !m
    ensures StartCommand(s, x, hasBlock).exec.cycleStop == s.exec.cycleStop
  {
  }

  lemma StopKeepsMotion(s: Sys, x: Exec, m: bool)
    requires MotionFits(s, m) && (x.cycleStop ==> s.exec.cycleStop)
    ensures MotionFits(StopCommand(s, x), m && !x.cycleStop)
    ensures StopCommand(s, x).exec.cycleStop == (s.exec.cycleStop && !x.cycleStop)
    ensures StopCommand(s, x).state == Cycle ==> s.state == Cycle && !x.cycleStop
  {
  }

  /** Spindle stop overrides touch nothing else. */
  lemma ToggleKeeps(s: Sys, toggled: bool)
    ensures SpindleStopToggled(s, toggled).(spindleStop := s.spindleStop) == s
  {
  }

  lemma RealtimeKeepsMotion(mach: Machine, hasBlock: bool, toggled: bool)
    requires MotionHeld(mach)
    ensures MotionHeld(Run(mach, hasBlock, toggled)) && Run(mach, hasBlock, toggled).place == mach.place
    ensures mach.sys.state != Cycle && Run(mach, hasBlock, toggled).sys.state == Cycle ==> !InMotion(mach)
  {
    var s, x, m := mach.sys, mach.sys.exec, InMotion(mach);
    var h := HoldCommands(s, x);
    var t := StartCommand(h, x, hasBlock);
    HoldKeepsMotion(s, x, m);
    StartKeepsMotion(h, x, hasBlock, m);
    StopKeepsMotion(t, x, m);
    ToggleKeeps(StopCommand(t, x), toggled);
    hide HoldCommands, StartCommand, StopCommand, SpindleStopToggled;
  }

  lemma ReturnedKeepsMotion(mach: Machine, from: Place)
    requires MotionHeld(mach) && mach.place == from
    ensures MotionOk(Returned(mach, from)) && Returned(mach, from).sys == mach.sys
  {
    hide MotionFits;
  }

  lemma ContinuedKeepsMotion(mach: Machine, closed: bool, setup: Setup)
    requires MotionOk(mach)
    ensures MotionOk(Continued(mach, closed, setup)) && Continued(mach, closed, setup).sys.state == mach.sys.state
  {
    if mach.place == LoopHead {
      RoundKeepsMotion(mach, closed, setup);
    } else if mach.place == RestoreEnd {
      RestoreKeepsMotion(mach);
    }
    hide Round, RestoreEnded, MotionFits;
  }

  lemma RestoreKeepsMotion(mach: Machine)
    requires MotionOk(mach)
    ensures MotionOk(RestoreEnded(mach)) && RestoreEnded(mach).sys.state == mach.sys.state
  {
  }

  lemma RoundKeepsMotion(mach: Machine, closed: bool, setup: Setup)
    requires MotionOk(mach)
    ensures MotionOk(Round(mach, closed, setup)) && Round(mach, closed, setup).sys.state == mach.sys.state
  {
    SpindleKeepsRest(mach.sys, setup);
    hide SpindleRound;
    if Parks(mach.sys) {
      ParkedKeepsMotion(mach, closed);
    }
    hide Parked, ParkedSys, ParkedPlace, MotionFits;
  }

  lemma SpindleKeepsRest(s: Sys, setup: Setup)
    ensures var t := SpindleRound(s, setup);
      t.state == s.state && t.suspend == s.suspend && t.exec.cycleStop == s.exec.cycleStop
        && t.executeHold == s.executeHold
  {
  }

  lemma ParkedSysIs(s: Sys, closed: bool)
    ensures var f, t := s.suspend, ParkedSys(s, closed);
      && t.state == s.state && t.exec == s.exec && t.executeHold == s.executeHold
      && (!f.retractComplete ==> t.suspend == f.(restartRetract := false, retractComplete := true))
      && (f.retractComplete ==> t.suspend == f.(doorAjar := f.doorAjar && !(closed && s.state != Sleep)))
  {
  }

  lemma ParkedKeepsMotion(mach: Machine, closed: bool)
    requires MotionOk(mach) && mach.sys.suspend.holdComplete
    ensures MotionOk(Parked(mach, closed)) && Parked(mach, closed).sys.state == mach.sys.state
  {
    ParkedSysIs(mach.sys, closed);
    hide ParkedSys;
  }

  lemma CommandKeepsMotion(mach: Machine, e: Event)
    requires MotionOk(mach) && (e.StartJog? || e.EnterCheck? || e.RaiseAlarm? || e.Unlock?)
      && (mach.sys.state == Idle || mach.sys.state == Alarm)
    requires e.StartJog? ==> !mach.sys.suspend.holdComplete
    ensures MotionOk(mach.(sys := Commanded(mach.sys, e), moving := mach.moving || e.StartJog?))
      && Commanded(mach.sys, e).state != Cycle
  {
  }

  /** Stop before return: no step enters a cycle while the stepper runs or its cycle stop waits. */
  lemma StepKeepsMotion(mach: Machine, e: Event, setup: Setup)
    requires MotionOk(mach) && Can(mach, e)
    ensures MotionOk(Next(mach, e, setup))
    ensures mach.sys.state != Cycle && Next(mach, e, setup).sys.state == Cycle ==> !InMotion(mach)
  {
    match e
    case Raise(start, feedHold, door, cancel, sleep) =>
    case Stop =>
    case Realtime(hasBlock, toggled) =>
      hide Run, Returned, MotionFits;
      RealtimeKeepsMotion(mach, hasBlock, toggled);
      ReturnedKeepsMotion(Run(mach, hasBlock, toggled), mach.place);
    case Loop(closed) =>
      hide Continued, MotionFits;
      ContinuedKeepsMotion(mach, closed, setup);
    case DelayOver =>
    case _ =>
      hide Commanded, MotionFits;
      CommandKeepsMotion(mach, e);
  }
}
