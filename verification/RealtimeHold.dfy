/** What the commands of the realtime protocol do, and that a hold taken in motion is executed. */
module RealtimeHold {
  import opened RealtimeSpec
  import opened RealtimeSafety

  // ---------------------------------------------------------------- the hold commands

  predicate Suspended(s: State) {
    s == Hold || s == SafetyDoor || s == Sleep
  }

  /** A jog that is not being cancelled for another reason is cancelled by any hold command. */
  predicate CancelsJog(s: Sys) {
    s.state != Idle && (s.suspend.jogCancel || (s.state == Jog && !s.suspend.motionCancel))
  }

  /** The order of precedence: sleep, an alarm or check mode, the door unless a jog is cancelled, and
      last a feed hold, which neither a jog nor an open door takes. */
  lemma HoldState(s: Sys, x: Exec)
    ensures HoldCommands(s, x).state ==
      if x.sleep then Sleep
      else if s.state == Alarm || s.state == CheckMode || s.state == Sleep then s.state
      else if x.safetyDoor && !CancelsJog(s) then SafetyDoor
      else if x.feedHold && s.state != Jog && s.state != SafetyDoor then Hold
      else s.state
  {
  }

  lemma DeceleratedFlags(s: Sys, x: Exec)
    ensures var t, f := Decelerated(s, x), if s.state == Idle then NOT_SUSPENDED else s.suspend;
      && t.state == s.state && t.exec == s.exec && t.spindleStop == s.spindleStop
      && t.suspend.holdComplete == (f.holdComplete || s.state == Idle)
      && t.suspend.motionCancel == f.motionCancel && t.suspend.doorAjar == f.doorAjar
      && t.suspend.jogCancel == (if x.sleep then f.jogCancel else CancelsJog(s))
  {
  }

  lemma CancelFlags(s: Sys, x: Exec)
    ensures var t := FeedHeld(Cancelled(s, x), x);
      && t.suspend.motionCancel == (s.suspend.motionCancel || (x.motionCancel && s.state != Jog))
      && t.suspend.holdComplete == s.suspend.holdComplete && t.suspend.doorAjar == s.suspend.doorAjar
      && t.suspend.jogCancel == s.suspend.jogCancel && t.exec == s.exec && t.spindleStop == s.spindleStop
      && (s.state != Alarm ==> t.state != Alarm)
  {
  }

  lemma DoorFlags(s: Sys, x: Exec)
    ensures var t := Slept(DoorOpened(s, x), x);
      && (s.state != Alarm ==> t.suspend.holdComplete == s.suspend.holdComplete)
      && t.suspend.motionCancel == s.suspend.motionCancel && t.suspend.jogCancel == s.suspend.jogCancel
      && t.suspend.doorAjar == (s.suspend.doorAjar || x.safetyDoor) && t.exec == s.exec
        && t.spindleStop == s.spindleStop
  {
  }

  /** Where holds are taken: what is deferred to the suspend loop is noted, an idle system has nothing to
      wait for, and the flags of the commands are cleared. */
  lemma HoldFlags(s: Sys, x: Exec)
    requires Holding(x) && s.state != Alarm && s.state != CheckMode
    ensures var t, f := HoldCommands(s, x), if s.state == Idle then NOT_SUSPENDED else s.suspend;
      && t.suspend.holdComplete == (f.holdComplete || s.state == Idle)
      && t.suspend.motionCancel == (f.motionCancel || (x.motionCancel && s.state != Jog))
      && t.suspend.doorAjar == (f.doorAjar || x.safetyDoor)
      && t.suspend.jogCancel == (if x.sleep then f.jogCancel else CancelsJog(s))
      && t.spindleStop == s.spindleStop
      && t.exec == Exec(s.exec.cycleStart, s.exec.cycleStop, false, false, false, false)
  {
    var a := Decelerated(s, x);
    DeceleratedFlags(s, x);
    CancelFlags(a, x);
    DoorFlags(FeedHeld(Cancelled(a, x), x), x);
    hide Decelerated, Cancelled, FeedHeld, DoorOpened, Slept, CancelsJog;
  }

  /** An alarm and check mode take no hold: the commands are dropped, all but sleep.  From an alarm the
      system sleeps as if it were held and retracted. */
  lemma NoHoldInAlarm(s: Sys, x: Exec)
    requires Holding(x) && (s.state == Alarm || s.state == CheckMode)
    ensures var t, f := HoldCommands(s, x), s.suspend;
      && t == s.(state := t.state, suspend := t.suspend, exec := t.exec)
      && t.state == (if x.sleep then Sleep else s.state)
      && t.suspend == (if x.sleep && s.state == Alarm then f.(holdComplete := true, retractComplete := true) else f)
      && t.exec == Exec(s.exec.cycleStart, s.exec.cycleStop, false, false, false, false)
  {
  }

  predicate SameRestore(f: Suspend, g: Suspend) {
    && f.restartRetract == g.restartRetract && f.retractComplete == g.retractComplete
    && f.initiateRestore == g.initiateRestore && f.restoreComplete == g.restoreComplete
  }

  lemma StagesKeepRestore(s: Sys, x: Exec)
    ensures s.state != Idle ==> SameRestore(Decelerated(s, x).suspend, s.suspend)
    ensures s.state == Idle ==> SameRestore(Decelerated(s, x).suspend, NOT_SUSPENDED)
    ensures SameRestore(Cancelled(s, x).suspend, s.suspend) && SameRestore(FeedHeld(s, x).suspend, s.suspend)
  {
  }

  lemma DoorKeepsRestore(s: Sys, x: Exec)
    ensures s.state != SafetyDoor ==> SameRestore(DoorOpened(s, x).suspend, s.suspend)
    ensures s.state != Alarm ==> SameRestore(Slept(s, x).suspend, s.suspend)
  {
  }

  lemma StagesKeepState(s: Sys, x: Exec)
    ensures Decelerated(s, x).state == s.state == Cancelled(s, x).state
    ensures FeedHeld(s, x).state == s.state || FeedHeld(s, x).state == Hold
    ensures s.state != Alarm ==> DoorOpened(s, x).state != Alarm
  {
  }

  /** Outside the door state no hold command touches retract and restore. */
  lemma HoldKeepsRestore(s: Sys, x: Exec)
    requires Holding(x) && s.state != Alarm && s.state != CheckMode && s.state != SafetyDoor
    ensures SameRestore(HoldCommands(s, x).suspend, if s.state == Idle then NOT_SUSPENDED else s.suspend)
  {
    var a := Decelerated(s, x);
    var b := Cancelled(a, x);
    var c := FeedHeld(b, x);
    StagesKeepRestore(s, x);
    StagesKeepRestore(a, x);
    StagesKeepRestore(b, x);
    DoorKeepsRestore(c, x);
    DoorKeepsRestore(DoorOpened(c, x), x);
    StagesKeepState(s, x);
    StagesKeepState(a, x);
    StagesKeepState(b, x);
    StagesKeepState(c, x);
    hide Decelerated, Cancelled, FeedHeld, DoorOpened, Slept;
  }

  // ---------------------------------------------------------------- cycle start and cycle stop

  predicate Blocked(x: Exec) {
    x.feedHold || x.motionCancel || x.safetyDoor
  }

  /** Nothing is left to be waited for. */
  predicate Ready(s: Sys) {
    || s.state == Idle
    || (s.state == Hold && s.suspend.holdComplete && s.spindleStop == NO_SPINDLE_STOP)
    || (s.state == SafetyDoor && !s.suspend.doorAjar && s.suspend.restoreComplete)
  }

  /** A cycle start that no hold command blocks ends the suspension of a system that is ready: a cycle
      is run if a block is queued and the motion was not cancelled.  From a spindle stop it first asks
      for the spindle, from a closed door for the restore; otherwise nothing happens. */
  lemma StartTaken(s: Sys, x: Exec, hasBlock: bool)
    ensures var t, cleared := StartCommand(s, x, hasBlock), s.exec.(cycleStart := s.exec.cycleStart && !x.cycleStart);
      if x.cycleStart && !Blocked(x) && Ready(s) then
        t == Sys(if hasBlock && !s.suspend.motionCancel then Cycle
            else Idle, NOT_SUSPENDED, false, cleared, s.spindleStop)
      else
        var asks := x.cycleStart && !Blocked(x);
        t == s.(exec := cleared,
                spindleStop := if asks && s.state == Hold && s.suspend.holdComplete
                               then s.spindleStop.(restoreCycle := true) else s.spindleStop,
                suspend := if asks && s.state == SafetyDoor && !s.suspend.doorAjar && s.suspend.retractComplete
                           then s.suspend.(initiateRestore := true) else s.suspend)
  {
  }

  /** The spindle stop override of a feed hold: asked for once it stops a running spindle, asked for
      again it restores it, without resuming the program. */
  lemma SpindleStops(s: Sys, setup: Setup)
    requires s.state == Hold
    ensures s.spindleStop == NO_SPINDLE_STOP ==>
      SpindleRound(SpindleStopToggled(s, true), setup).spindleStop == NO_SPINDLE_STOP.(enabled := setup.spindleOn)
    ensures s.spindleStop == NO_SPINDLE_STOP.(enabled := true) ==>
      SpindleRound(SpindleStopToggled(s, true), setup) == s.(spindleStop := NO_SPINDLE_STOP)
  {
  }

  /** A cycle start while the spindle is stopped restores it and is then given again. */
  lemma SpindleRestored(s: Sys, x: Exec, hasBlock: bool, setup: Setup)
    requires s.state == Hold && s.suspend.holdComplete && s.spindleStop == NO_SPINDLE_STOP.(enabled := true)
    requires x.cycleStart && !Blocked(x)
    ensures var t := SpindleRound(StartCommand(s, x, hasBlock), setup);
      t.state == Hold && t.suspend == s.suspend && Ready(t) && t.exec == s.exec.(cycleStart := true)
  {
  }

  /** The restart delays: none once the door has opened again, otherwise one for each device that was
      on, but for a laser. */
  lemma RestoreDelays(restart: bool, setup: Setup)
    ensures AfterTask(SpindleRestore, restart, setup) ==
      if !restart && setup.spindleOn && !setup.laser then SpindleDelay else CoolantRestore
    ensures AfterTask(CoolantRestore, restart, setup) ==
      if !restart && setup.coolantOn then CoolantDelay else RestoreEnd
  {
  }

  /** Outside a feed hold the spindle stop override does nothing. */
  lemma SpindleOnlyInHold(s: Sys, toggled: bool)
    requires !toggled || s.state != Hold
    ensures SpindleStopToggled(s, toggled) == s
  {
  }

  /** A round of the suspend loop acts on a completed hold only.  With the door open or asleep it first
      de-energizes the machine, which drops a spindle stop; then it looks at the door, unless asleep, and
      restores what was asked for.  The door is no longer ajar once it was seen closed. */
  lemma RoundParks(mach: Machine, closed: bool, setup: Setup)
    requires mach.sys.suspend != NOT_SUSPENDED
    ensures var s, after := mach.sys, Round(mach, closed, setup);
      var t, f, parks := after.sys, s.suspend, s.suspend.holdComplete && (s.state == SafetyDoor || s.state == Sleep);
      && (!f.holdComplete ==> after == mach.(place := LoopEnd))
      && t.state == s.state && t.executeHold == s.executeHold
      && (!parks ==> t.suspend == f && after.place == LoopEnd && after.deEnergized == mach.deEnergized)
      && (parks && !f.retractComplete ==>
            && t.spindleStop == NO_SPINDLE_STOP && t.suspend == f.(retractComplete := true, restartRetract := false)
            && after.deEnergized && after.place == LoopEnd && t.exec == s.exec)
      && (parks && f.retractComplete && s.state == Sleep ==> t == s && after.place == Asleep)
      && (parks && f.retractComplete && s.state == SafetyDoor ==>
            && t == s.(suspend := f.(doorAjar := f.doorAjar && !closed))
            && (after.place == SpindleRestore <==> f.initiateRestore)
            && (after.place == LoopEnd <==> !f.initiateRestore))
  {
  }

  // ---------------------------------------------------------------- a hold in motion is executed

  /** While the tool moves, or its stop waits: every suspended state decelerates, and so does every
      motion that is being cancelled. */
  ghost predicate Executes(s: Sys, inMotion: bool) {
    inMotion && (Suspended(s.state) || s.suspend.motionCancel || s.suspend.jogCancel) ==> s.executeHold
  }

  /** Any hold command in motion starts the deceleration, or finds it started. */
  lemma HoldExecutes(s: Sys, x: Exec, m: bool)
    requires MotionFits(s, m) && Executes(s, m)
    ensures Executes(HoldCommands(s, x), m)
    ensures m && Holding(x) ==> HoldCommands(s, x).executeHold
  {
  }

  lemma StartExecutes(s: Sys, x: Exec, hasBlock: bool, m: bool)
    requires MotionFits(s, m) && Executes(s, m)
    ensures Executes(StartCommand(s, x, hasBlock), m)
    ensures m ==> StartCommand(s, x, hasBlock).(exec := s.exec) == s
    ensures StartCommand(s, x, hasBlock).state == Cycle && s.state != Cycle
      ==> StartCommand(s, x, hasBlock).suspend == NOT_SUSPENDED
  {
  }

  /** The stop of a motion completes the hold, or ends the motion: in the state of the hold it is
      complete; otherwise the system is idle. */
  lemma StopCompletes(s: Sys, x: Exec)
    requires MotionFits(s, true) && Executes(s, true) && x.cycleStop
    ensures var t := StopCommand(s, x);
      && (if Suspended(t.state) then t.suspend.holdComplete else t.state == Idle && t.suspend == NOT_SUSPENDED)
      && (Suspended(s.state) && !s.suspend.jogCancel ==> t.state == s.state && !t.executeHold)
      && (Suspended(t.state) <==> s.suspend.doorAjar || (Suspended(s.state) && !s.suspend.jogCancel))
  {
  }

  /** A cycle or a jog is in motion. */
  ghost predicate Runs(s: Sys, inMotion: bool) {
    s.state == Cycle || s.state == Jog ==> inMotion
  }

  ghost predicate HoldOk(mach: Machine) {
    MotionOk(mach) && Executes(mach.sys, InMotion(mach)) && Runs(mach.sys, InMotion(mach))
  }

  /** A cycle is left by a hold or a stop, and entered by a start, which sets the stepper going. */
  lemma PassRuns(mach: Machine, hasBlock: bool, toggled: bool)
    requires MotionHeld(mach) && Executes(mach.sys, InMotion(mach)) && Runs(mach.sys, InMotion(mach))
    ensures Runs(Run(mach, hasBlock, toggled).sys, InMotion(Run(mach, hasBlock, toggled)))
  {
    var s, x := mach.sys, mach.sys.exec;
    var h := HoldCommands(s, x);
    var t := StartCommand(h, x, hasBlock);
    HoldState(s, x);
    HoldKeepsMotion(s, x, InMotion(mach));
    StartKeepsMotion(h, x, hasBlock, InMotion(mach));
    StartTaken(h, x, hasBlock);
    StopUntouched(t, x);
    HoldExecutes(s, x, InMotion(mach));
    StartExecutes(h, x, hasBlock, InMotion(mach));
    if x.cycleStop {
      StopCompletes(t, x);
    }
    ToggleKeeps(StopCommand(t, x), toggled);
    hide HoldCommands, StartCommand, StopCommand, SpindleStopToggled, MotionFits, ResumesHere, Executes;
  }

  /** A pass through protocol_exec_rt_system. */
  lemma PassExecutes(mach: Machine, hasBlock: bool, toggled: bool)
    requires MotionHeld(mach) && Executes(mach.sys, InMotion(mach))
    ensures var after := Run(mach, hasBlock, toggled);
      && Executes(after.sys, InMotion(after))
      && (InMotion(mach) && Holding(mach.sys.exec) && !mach.sys.exec.cycleStop ==> after.sys.executeHold)
      && (mach.sys.exec.cycleStop ==>
            if Suspended(after.sys.state) then after.sys.suspend.holdComplete
            else after.sys.state == Idle && after.sys.suspend == NOT_SUSPENDED)
  {
    var s, x, m := mach.sys, mach.sys.exec, InMotion(mach);
    var h := HoldCommands(s, x);
    var t := StartCommand(h, x, hasBlock);
    var u := StopCommand(t, x);
    HoldKeepsMotion(s, x, m);
    HoldExecutes(s, x, m);
    StartKeepsMotion(h, x, hasBlock, m);
    StartExecutes(h, x, hasBlock, m);
    StopKeepsMotion(t, x, m);
    ToggleKeeps(u, toggled);
    StopUntouched(t, x);
    if x.cycleStop {
      StopCompletes(t, x);
    }
    hide HoldCommands, StartCommand, StopCommand, SpindleStopToggled, MotionFits, Holding, ResumesHere;
  }

  lemma StopUntouched(s: Sys, x: Exec)
    ensures !x.cycleStop ==> StopCommand(s, x) == s
  {
  }

  /** In motion, a pass that handles no stop leaves the state the hold commands ask for. */
  lemma PassState(mach: Machine, hasBlock: bool, toggled: bool)
    requires MotionHeld(mach) && Executes(mach.sys, InMotion(mach)) && InMotion(mach) && !mach.sys.exec.cycleStop
    ensures var s, x := mach.sys, mach.sys.exec;
      Run(mach, hasBlock, toggled).sys.state ==
        if x.sleep || s.state == Sleep then Sleep
        else if x.safetyDoor && !CancelsJog(s) then SafetyDoor
        else if x.feedHold && s.state != Jog && s.state != SafetyDoor then Hold
        else s.state
  {
    var s, x := mach.sys, mach.sys.exec;
    var h := HoldCommands(s, x);
    HoldState(s, x);
    HoldKeepsMotion(s, x, true);
    HoldExecutes(s, x, true);
    StartExecutes(h, x, hasBlock, true);
    StopUntouched(StartCommand(h, x, hasBlock), x);
    ToggleKeeps(StartCommand(h, x, hasBlock), toggled);
    hide HoldCommands, StartCommand, StopCommand, SpindleStopToggled, ResumesHere, CancelsJog, Executes;
  }

  lemma StepExecutes(mach: Machine, e: Event, setup: Setup)
    requires HoldOk(mach) && Can(mach, e)
    ensures HoldOk(Next(mach, e, setup))
  {
    StepKeepsMotion(mach, e, setup);
    match e
    case Raise(start, feedHold, door, cancel, sleep) =>
    case Stop =>
    case Realtime(hasBlock, toggled) =>
      hide Run, Executes, Runs, MotionFits;
      PassExecutes(mach, hasBlock, toggled);
      PassRuns(mach, hasBlock, toggled);
      ReturnedIs(Run(mach, hasBlock, toggled), mach.place);
      hide Returned;
    case Loop(closed) =>
      ContinuedExecutes(mach, closed, setup);
      hide Continued, Executes, Runs, MotionFits;
    case DelayOver =>
    case _ =>
      hide MotionFits;
  }

  lemma ReturnedIs(mach: Machine, from: Place)
    ensures Returned(mach, from).sys == mach.sys && Returned(mach, from).moving == mach.moving
  {
  }

  lemma ContinuedExecutes(mach: Machine, closed: bool, setup: Setup)
    requires HoldOk(mach)
    ensures var after := Continued(mach, closed, setup);
      Executes(after.sys, InMotion(after)) && Runs(after.sys, InMotion(after))
  {
    if mach.place == LoopHead {
      RoundExecutes(mach, closed, setup);
    } else if mach.place == RestoreEnd {
      RestoreExecutes(mach);
    }
    hide Round, RestoreEnded, Executes, AfterTask, Runs;
  }

  lemma RestoreExecutes(mach: Machine)
    requires HoldOk(mach)
    ensures var after := RestoreEnded(mach);
      Executes(after.sys, InMotion(after)) && Runs(after.sys, InMotion(after))
  {
    hide MotionOk;
  }

  lemma RoundExecutes(mach: Machine, closed: bool, setup: Setup)
    requires HoldOk(mach)
    ensures var after := Round(mach, closed, setup);
      Executes(after.sys, InMotion(after)) && Runs(after.sys, InMotion(after))
  {
    SpindleKeepsRest(mach.sys, setup);
    ParkedSysIs(mach.sys, closed);
    hide SpindleRound, ParkedSys, ParkedPlace;
  }
}
