/** The chain of suspend flags, restores that end after they were called off, and the door. */
module RealtimeChain {
  import opened RealtimeSpec
  import opened RealtimeSafety

  // ---------------------------------------------------------------- the chain of suspend flags

  /** Restore complete implies restore initiated implies retracted implies hold complete. */
  ghost predicate Chained(f: Suspend) {
    && (f.restoreComplete ==> f.initiateRestore) && (f.initiateRestore ==> f.retractComplete)
    && (f.retractComplete ==> f.holdComplete)
  }

  /** What always holds: the chain without its first link. */
  ghost predicate ChainFits(s: Sys) {
    var f := s.suspend;
    && (f.initiateRestore ==> f.retractComplete) && (f.retractComplete ==> f.holdComplete)
    && (f.retractComplete || f.restartRetract ==> s.state == SafetyDoor || s.state == Sleep)
    && (f.initiateRestore && s.state == SafetyDoor ==> !f.doorAjar)
    && !(f.restartRetract && f.retractComplete) && !(f.restartRetract && f.restoreComplete)
    && (f.jogCancel ==> (s.state == Jog || s.state == Sleep) && !f.holdComplete)
    && (s.state == Jog ==> !f.holdComplete)
    && (s.state == Alarm || s.state == CheckMode ==> f == NOT_SUSPENDED)
  }

  /** No command sets restore complete, and none touches restore initiated while it is set. */
  ghost predicate KeepsComplete(s: Sys, t: Sys) {
    t.suspend.restoreComplete ==> s.suspend.restoreComplete && t.suspend.initiateRestore == s.suspend.initiateRestore
  }

  lemma HoldStagesKeepChain(s: Sys, x: Exec)
    requires ChainFits(s) && s.state != Alarm && s.state != CheckMode
    ensures ChainFits(Decelerated(s, x)) && Decelerated(s, x).state == s.state && KeepsComplete(s, Decelerated(s, x))
    ensures ChainFits(Cancelled(s, x)) && Cancelled(s, x).state == s.state && KeepsComplete(s, Cancelled(s, x))
    ensures ChainFits(FeedHeld(s, x)) && (FeedHeld(s, x).state == s.state || FeedHeld(s, x).state == Hold)
    ensures KeepsComplete(s, FeedHeld(s, x))
  {
  }

  lemma DoorKeepsChain(s: Sys, x: Exec)
    requires ChainFits(s)
    ensures s.state != Alarm && s.state != CheckMode
      ==> ChainFits(DoorOpened(s, x)) && KeepsComplete(s, DoorOpened(s, x))
    ensures ChainFits(Slept(s, x)) && KeepsComplete(s, Slept(s, x))
  {
  }

  lemma HeldKeepsChain(s: Sys, x: Exec)
    requires ChainFits(s)
    ensures ChainFits(Held(s, x)) && KeepsComplete(s, Held(s, x))
  {
    if s.state != Alarm && s.state != CheckMode {
      var a := Decelerated(s, x);
      var b := Cancelled(a, x);
      HoldStagesKeepChain(s, x);
      HoldStagesKeepChain(a, x);
      HoldStagesKeepChain(b, x);
      DoorKeepsChain(FeedHeld(b, x), x);
    }
    hide Decelerated, Cancelled, FeedHeld, DoorOpened, Slept, ChainFits;
  }

  lemma HoldKeepsChain(s: Sys, x: Exec)
    requires ChainFits(s)
    ensures ChainFits(HoldCommands(s, x)) && KeepsComplete(s, HoldCommands(s, x))
  {
    HeldKeepsChain(s, x);
    DoorKeepsChain(Held(s, x), x);
    hide Held, DoorOpened, Slept;
  }

  lemma StartKeepsChain(s: Sys, x: Exec, hasBlock: bool)
    requires ChainFits(s)
    ensures ChainFits(StartCommand(s, x, hasBlock)) && KeepsComplete(s, StartCommand(s, x, hasBlock))
  {
  }

  lemma StopKeepsChain(s: Sys, x: Exec)
    requires ChainFits(s)
    ensures ChainFits(StopCommand(s, x)) && KeepsComplete(s, StopCommand(s, x))
  {
  }

  lemma ExecutedKeepsChain(s: Sys, hasBlock: bool, toggled: bool)
    requires ChainFits(s)
    ensures ChainFits(Executed(s, hasBlock, toggled)) && KeepsComplete(s, Executed(s, hasBlock, toggled))
  {
    var x := s.exec;
    var h := HoldCommands(s, x);
    var t := StartCommand(h, x, hasBlock);
    HoldKeepsChain(s, x);
    StartKeepsChain(h, x, hasBlock);
    StopKeepsChain(t, x);
    ToggleKeeps(StopCommand(t, x), toggled);
    hide HoldCommands, StartCommand, StopCommand, SpindleStopToggled;
  }

  // ---------------------------------------------------------------- restores

  /** Restore complete was set by a restore that was initiated, unless it is stale. */
  ghost predicate CompleteFits(mach: Machine) {
    mach.sys.suspend.restoreComplete ==> (mach.sys.suspend.initiateRestore <==> !mach.stale)
  }

  /** Nothing is retracted or restored any more. */
  ghost predicate CalledOff(s: Sys) {
    var f := s.suspend;
    && !f.initiateRestore && !f.restartRetract && !f.retractComplete && !f.restoreComplete
    && s.state != Alarm && s.state != CheckMode
  }

  /** A restore is initiated, or about to be repeated. */
  ghost predicate Restoring(s: Sys) {
    && (s.suspend.initiateRestore || s.suspend.restartRetract) && s.suspend.holdComplete
    && (s.state == SafetyDoor || s.state == Sleep)
  }

  /** The restore tasks run for a restore that goes on, unless a cycle start has resumed the program:
      then it is called off, and stays so. */
  ghost predicate RestoreFits(mach: Machine) {
    if InRestore(mach.place) then if mach.resumed then CalledOff(mach.sys) else Restoring(mach.sys)
    else !mach.resumed
  }

  ghost predicate ChainOk(mach: Machine) {
    && ChainFits(mach.sys) && CompleteFits(mach) && RestoreFits(mach)
    && (mach.place == MainLoop ==> mach.sys.suspend == NOT_SUSPENDED)
  }

  /** A restore that ends although it is not initiated any more. */
  predicate LateRestore(mach: Machine, e: Event) {
    && e.Loop? && mach.place == RestoreEnd
    && !mach.sys.suspend.restartRetract && !mach.sys.suspend.initiateRestore
  }

  /** A restore that runs to its end is late exactly when a cycle start resumed the program in one of
      its delays. */
  lemma LateExactlyWhenResumed(mach: Machine, e: Event)
    requires ChainOk(mach) && e.Loop? && mach.place == RestoreEnd
    ensures LateRestore(mach, e) <==> mach.resumed
  {
  }

  /** In the door state a hold command starts the retract again when the door opens during a restore.
      Beyond that it only notes an open door and a cancelled motion. */
  lemma HoldInDoor(s: Sys, x: Exec)
    requires ChainFits(s) && s.state == SafetyDoor
    ensures var f, again := s.suspend, x.safetyDoor && s.suspend.initiateRestore;
      var t := HoldCommands(s, x);
      && t.state == (if x.sleep then Sleep else SafetyDoor)
      && t.suspend == Suspend(f.holdComplete, f.restartRetract || again, f.retractComplete && !again,
                              f.initiateRestore && !again, f.restoreComplete && !again,
                              f.doorAjar || x.safetyDoor, f.motionCancel || x.motionCancel, false)
      && t.executeHold == s.executeHold && t.spindleStop == s.spindleStop
  {
  }

  lemma HoldInSleep(s: Sys, x: Exec)
    requires ChainFits(s) && s.state == Sleep && s.suspend.holdComplete
    ensures var t, f := HoldCommands(s, x), s.suspend;
      t.state == Sleep && t.suspend.(doorAjar := f.doorAjar, motionCancel := f.motionCancel) == f
  {
  }

  lemma HoldInRestore(s: Sys, x: Exec)
    requires ChainFits(s) && Restoring(s)
    ensures Restoring(HoldCommands(s, x))
    ensures var t := HoldCommands(s, x);
      t.state == SafetyDoor && Resumes(t, x) ==> s.state == SafetyDoor && Resumes(s, x) && !x.sleep
  {
    hide HoldCommands, ChainFits;
    if s.state == SafetyDoor {
      HoldInDoor(s, x);
    } else {
      HoldInSleep(s, x);
    }
  }

  lemma StartInRestore(s: Sys, x: Exec, hasBlock: bool)
    requires ChainFits(s) && Restoring(s)
    ensures !(s.state == SafetyDoor && Resumes(s, x)) ==> Restoring(StartCommand(s, x, hasBlock))
  {
  }

  lemma StopInRestore(s: Sys, x: Exec)
    requires ChainFits(s) && Restoring(s)
    ensures Restoring(StopCommand(s, x))
  {
  }

  /** A restore goes on through a pass, unless it is resumed there. */
  lemma RestoreGoesOn(s: Sys, hasBlock: bool, toggled: bool)
    requires ChainFits(s) && Restoring(s) && !(s.state == SafetyDoor && Resumes(s, s.exec) && !s.exec.sleep)
    ensures Restoring(Executed(s, hasBlock, toggled))
  {
    hide HoldCommands, StartCommand, StopCommand, SpindleStopToggled, ChainFits, Resumes;
    var x := s.exec;
    var h := HoldCommands(s, x);
    var t := StartCommand(h, x, hasBlock);
    HoldKeepsChain(s, x);
    HoldInRestore(s, x);
    StartKeepsChain(h, x, hasBlock);
    StartInRestore(h, x, hasBlock);
    StopInRestore(t, x);
    ToggleKeeps(StopCommand(t, x), toggled);
  }

  lemma ResumeCallsOff(s: Sys, hasBlock: bool, toggled: bool)
    requires ChainFits(s) && s.state == SafetyDoor && Resumes(s, s.exec) && !s.exec.sleep
    ensures CalledOff(Executed(s, hasBlock, toggled))
  {
    hide HoldCommands, SpindleStopToggled;
    var x := s.exec;
    var h := HoldCommands(s, x);
    HoldInDoor(s, x);
    var t := StartCommand(h, x, hasBlock);
    assert t.suspend == NOT_SUSPENDED && (t.state == Idle || t.state == Cycle);
    ToggleKeeps(StopCommand(t, x), toggled);
    hide StartCommand;
  }

  lemma StagesStayCalledOff(s: Sys, x: Exec)
    requires CalledOff(s)
    ensures CalledOff(Decelerated(s, x)) && CalledOff(Cancelled(s, x)) && CalledOff(FeedHeld(s, x))
    ensures CalledOff(DoorOpened(s, x)) && CalledOff(Slept(s, x))
  {
  }

  lemma HoldStaysCalledOff(s: Sys, x: Exec)
    requires CalledOff(s)
    ensures CalledOff(HoldCommands(s, x))
  {
    var a := Decelerated(s, x);
    var b := Cancelled(a, x);
    var c := FeedHeld(b, x);
    StagesStayCalledOff(s, x);
    StagesStayCalledOff(a, x);
    StagesStayCalledOff(b, x);
    StagesStayCalledOff(c, x);
    StagesStayCalledOff(DoorOpened(c, x), x);
    hide Decelerated, Cancelled, FeedHeld, DoorOpened, Slept;
  }

  lemma StaysCalledOff(s: Sys, hasBlock: bool, toggled: bool)
    requires CalledOff(s)
    ensures CalledOff(Executed(s, hasBlock, toggled))
  {
    hide HoldCommands, SpindleStopToggled;
    var x := s.exec;
    var h := HoldCommands(s, x);
    HoldStaysCalledOff(s, x);
    var t := StartCommand(h, x, hasBlock);
    assert CalledOff(t);
    ToggleKeeps(StopCommand(t, x), toggled);
    hide StartCommand;
  }

  lemma RealtimeKeepsChain(mach: Machine, hasBlock: bool, toggled: bool)
    requires ChainOk(mach) && Can(mach, Realtime(hasBlock, toggled))
    ensures ChainOk(Returned(Run(mach, hasBlock, toggled), mach.place))
  {
    RunIs(mach, hasBlock, toggled);
    hide Run, Executed, ChainFits, Restoring, CalledOff, ResumesHere;
    var s := mach.sys;
    ExecutedKeepsChain(s, hasBlock, toggled);
    if InRestore(mach.place) {
      if mach.resumed {
        StaysCalledOff(s, hasBlock, toggled);
      } else {
        PassInRestore(mach, hasBlock, toggled);
      }
    } else {
      ResumesInDelays(mach);
    }
  }

  lemma RunIs(mach: Machine, hasBlock: bool, toggled: bool)
    ensures var after := Run(mach, hasBlock, toggled);
      && after.sys == Executed(mach.sys, hasBlock, toggled) && after.place == mach.place
      && after.resumed == (mach.resumed || ResumesHere(mach)) && after.stale == mach.stale
  {
    hide Executed, ResumesHere;
  }

  lemma ResumesInDelays(mach: Machine)
    ensures ResumesHere(mach) ==> InRestore(mach.place)
  {
  }

  lemma PassInRestore(mach: Machine, hasBlock: bool, toggled: bool)
    requires ChainFits(mach.sys) && Restoring(mach.sys) && (mach.place == SpindleDelay || mach.place == CoolantDelay)
    ensures var t := Executed(mach.sys, hasBlock, toggled);
      if ResumesHere(mach) then CalledOff(t) else Restoring(t)
  {
    hide Executed, ChainFits, Restoring, CalledOff, Resumes;
    if ResumesHere(mach) {
      ResumeCallsOff(mach.sys, hasBlock, toggled);
    } else {
      RestoreGoesOn(mach.sys, hasBlock, toggled);
    }
  }

  lemma ParkedKeepsChain(mach: Machine, closed: bool)
    requires ChainOk(mach) && mach.sys.suspend.holdComplete && (mach.sys.state == SafetyDoor || mach.sys.state == Sleep)
    requires mach.place == LoopHead
    ensures ChainOk(Parked(mach, closed))
  {
    ParkedSysIs(mach.sys, closed);
    hide ParkedSys;
  }

  lemma RoundKeepsChain(mach: Machine, closed: bool, setup: Setup)
    requires ChainOk(mach) && mach.place == LoopHead
    ensures ChainOk(Round(mach, closed, setup))
  {
    SpindleKeepsRest(mach.sys, setup);
    hide SpindleRound;
    if Parks(mach.sys) {
      ParkedKeepsChain(mach, closed);
    }
    hide Parked, ParkedSys, ParkedPlace;
  }

  lemma EndKeepsChain(mach: Machine)
    requires ChainOk(mach) && mach.place == RestoreEnd
    ensures ChainOk(RestoreEnded(mach))
  {
  }

  lemma ContinuedKeepsChain(mach: Machine, closed: bool, setup: Setup)
    requires ChainOk(mach) && Can(mach, Loop(closed))
    ensures ChainOk(Continued(mach, closed, setup))
  {
    if mach.place == LoopHead {
      RoundKeepsChain(mach, closed, setup);
    } else if mach.place == RestoreEnd {
      EndKeepsChain(mach);
    }
    hide Round, RestoreEnded, AfterTask, ChainFits;
  }

  /** Every step keeps the chain but for its first link, and what can break that. */
  lemma StepKeepsChain(mach: Machine, e: Event, setup: Setup)
    requires ChainOk(mach) && Can(mach, e)
    ensures ChainOk(Next(mach, e, setup))
  {
    match e
    case Raise(start, feedHold, door, cancel, sleep) =>
      hide Raised;
    case Stop =>
    case Realtime(hasBlock, toggled) =>
      hide Run, ChainFits, Returned;
      RealtimeKeepsChain(mach, hasBlock, toggled);
    case Loop(closed) =>
      hide Continued, ChainFits;
      ContinuedKeepsChain(mach, closed, setup);
    case DelayOver =>
    case _ =>
  }

  /** The chain holds exactly when restore complete is not stale. */
  lemma ChainedExactlyWhen(mach: Machine)
    requires ChainOk(mach)
    ensures Chained(mach.sys.suspend) <==> !(mach.sys.suspend.restoreComplete && mach.stale)
  {
  }
}
