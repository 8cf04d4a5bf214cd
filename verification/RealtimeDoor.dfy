/** The safety door state is left only in order, unless restore complete is stale. */
module RealtimeDoor {
  import opened RealtimeSpec
  import opened RealtimeSafety
  import opened RealtimeChain

  /** What has happened since the door was last reported open. */
  ghost predicate DoorOk(mach: Machine) {
    var f := mach.sys.suspend;
    mach.sys.state == SafetyDoor ==>
      && (f.retractComplete ==> mach.deEnergized)
      && (!f.doorAjar ==> mach.doorClosed && f.retractComplete)
      && (f.restoreComplete && !mach.stale ==> mach.restored && mach.deEnergized && mach.doorClosed)
      && (f.restoreComplete && mach.stale && f.retractComplete ==> !mach.restored)
  }

  /** The machine was de-energized, then the door was seen closed, then a restore was carried out. */
  predicate InOrder(mach: Machine) {
    mach.deEnergized && mach.doorClosed && mach.restored
  }

  lemma StartInDoor(s: Sys, x: Exec, hasBlock: bool)
    requires ChainFits(s) && (s.state == SafetyDoor || s.state == Sleep)
    ensures var t := StartCommand(s, x, hasBlock);
      if s.state == SafetyDoor && Resumes(s, x) then t.suspend == NOT_SUSPENDED && (t.state == Cycle || t.state == Idle)
      else t.state == s.state && t.suspend.(initiateRestore := s.suspend.initiateRestore) == s.suspend
  {
  }

  lemma StopInDoor(s: Sys, x: Exec)
    requires ChainFits(s)
    ensures var t := StopCommand(s, x);
      && (s.state == SafetyDoor ==>
          t.state == SafetyDoor
          && t.suspend.(holdComplete := s.suspend.holdComplete) == s.suspend)
      && (t.state == SafetyDoor && s.state != SafetyDoor ==>
            s.suspend.doorAjar && t.suspend.doorAjar && !t.suspend.retractComplete)
      && (s.state == Sleep && !s.suspend.jogCancel ==> t.state == Sleep)
  {
  }

  /** A pass in the door state: a door that opens again during a restore starts the retract again; a
      cycle start that is not blocked resumes the program. */
  lemma PassInDoor(s: Sys, hasBlock: bool, toggled: bool)
    requires ChainFits(s) && s.state == SafetyDoor
    ensures var t, f, x := Executed(s, hasBlock, toggled), s.suspend, s.exec;
      var again := x.safetyDoor && f.initiateRestore;
      && (t.state == SafetyDoor ==>
            && t.suspend.doorAjar == (f.doorAjar || x.safetyDoor)
              && t.suspend.retractComplete == (f.retractComplete && !again)
            && t.suspend.restoreComplete == (f.restoreComplete && !again))
      && (t.state == Cycle || t.state == Idle ==> f.restoreComplete && !f.doorAjar)
  {
    hide HoldCommands, StartCommand, StopCommand, SpindleStopToggled, ChainFits;
    var x := s.exec;
    var h := HoldCommands(s, x);
    var t := StartCommand(h, x, hasBlock);
    HoldKeepsChain(s, x);
    HoldInDoor(s, x);
    StartKeepsChain(h, x, hasBlock);
    StartInDoor(h, x, hasBlock);
    StopInDoor(t, x);
    ToggleKeeps(StopCommand(t, x), toggled);
  }

  lemma RunInDoor(mach: Machine, hasBlock: bool, toggled: bool)
    requires ChainOk(mach) && DoorOk(mach) && mach.sys.state == SafetyDoor
    ensures DoorOk(Run(mach, hasBlock, toggled))
    ensures var state := Run(mach, hasBlock, toggled).sys.state;
      state == Cycle || state == Idle ==>
        && mach.sys.suspend.holdComplete && mach.deEnergized && mach.doorClosed && mach.sys.suspend.restoreComplete
        && (mach.restored <==> !mach.stale)
  {
    PassInDoor(mach.sys, hasBlock, toggled);
    hide Executed, ResumesHere, RestoreFits;
  }

  /** From another state the door state is entered with the door ajar and nothing done. */
  lemma RunIntoDoor(mach: Machine, hasBlock: bool, toggled: bool)
    requires ChainOk(mach) && mach.sys.state != SafetyDoor
    ensures DoorOk(Run(mach, hasBlock, toggled))
  {
    if Executed(mach.sys, hasBlock, toggled).state == SafetyDoor {
      PassIntoDoor(mach.sys, hasBlock, toggled);
    }
    ExecutedKeepsChain(mach.sys, hasBlock, toggled);
    hide Executed, ResumesHere, RestoreFits;
  }

  lemma PassIntoDoor(s: Sys, hasBlock: bool, toggled: bool)
    requires ChainFits(s) && s.state != SafetyDoor && Executed(s, hasBlock, toggled).state == SafetyDoor
    ensures var f := Executed(s, hasBlock, toggled).suspend;
      f.doorAjar && !f.retractComplete
  {
    hide HoldCommands, StartCommand, StopCommand, SpindleStopToggled, ChainFits;
    var x := s.exec;
    var h := HoldCommands(s, x);
    var t := StartCommand(h, x, hasBlock);
    HoldKeepsChain(s, x);
    if h.state == SafetyDoor {
      HoldIntoDoor(s, x);
      StartInDoor(h, x, hasBlock);
    } else {
      StartOutside(h, x, hasBlock);
    }
    StartKeepsChain(h, x, hasBlock);
    StopInDoor(t, x);
    ToggleKeeps(StopCommand(t, x), toggled);
  }

  lemma HoldIntoDoor(s: Sys, x: Exec)
    requires ChainFits(s) && s.state != SafetyDoor && HoldCommands(s, x).state == SafetyDoor
    ensures HoldCommands(s, x).suspend.doorAjar && !HoldCommands(s, x).suspend.retractComplete
  {
    HeldIntoDoor(s, x);
    hide Held;
  }

  lemma HeldIntoDoor(s: Sys, x: Exec)
    requires ChainFits(s) && s.state != SafetyDoor && Held(s, x).state == SafetyDoor
    ensures Held(s, x).suspend.doorAjar && !Held(s, x).suspend.retractComplete
  {
  }

  lemma StartOutside(s: Sys, x: Exec, hasBlock: bool)
    requires s.state != SafetyDoor
    ensures StartCommand(s, x, hasBlock).state != SafetyDoor
  {
  }

  lemma EndKeepsDoor(mach: Machine)
    requires ChainOk(mach) && DoorOk(mach) && mach.place == RestoreEnd
    ensures DoorOk(RestoreEnded(mach)) && RestoreEnded(mach).sys.state == mach.sys.state
  {
  }

  lemma RoundKeepsDoor(mach: Machine, closed: bool, setup: Setup)
    requires ChainOk(mach) && DoorOk(mach) && mach.place == LoopHead
    ensures DoorOk(Round(mach, closed, setup)) && Round(mach, closed, setup).sys.state == mach.sys.state
  {
    SpindleKeepsRest(mach.sys, setup);
    ParkedSysIs(mach.sys, closed);
    hide SpindleRound, ParkedSys, ParkedPlace, RestoreFits;
  }

  lemma ContinuedKeepsDoor(mach: Machine, closed: bool, setup: Setup)
    requires ChainOk(mach) && DoorOk(mach) && Can(mach, Loop(closed))
    ensures DoorOk(Continued(mach, closed, setup)) && Continued(mach, closed, setup).sys.state == mach.sys.state
  {
    if mach.place == LoopHead {
      RoundKeepsDoor(mach, closed, setup);
    } else if mach.place == RestoreEnd {
      EndKeepsDoor(mach);
    }
    hide Round, RestoreEnded, AfterTask, ChainOk;
  }

  /** A step from the door state to a cycle, or to idle, finds the hold complete, the machine
      de-energized and the door closed; a restore was carried out since, exactly when restore complete
      is not stale. */
  lemma StepKeepsDoor(mach: Machine, e: Event, setup: Setup)
    requires ChainOk(mach) && DoorOk(mach) && Can(mach, e)
    ensures DoorOk(Next(mach, e, setup))
    ensures var state := Next(mach, e, setup).sys.state;
      mach.sys.state == SafetyDoor && (state == Cycle || state == Idle) ==>
        && mach.sys.suspend.holdComplete && mach.deEnergized && mach.doorClosed && mach.sys.suspend.restoreComplete
        && (mach.restored <==> !mach.stale)
  {
    match e
    case Realtime(hasBlock, toggled) =>
      hide Run, ChainOk, DoorOk;
      ReturnedKeepsDoor(Run(mach, hasBlock, toggled), mach.place);
      if mach.sys.state == SafetyDoor {
        RunInDoor(mach, hasBlock, toggled);
      } else {
        RunIntoDoor(mach, hasBlock, toggled);
      }
      hide Returned;
    case Loop(closed) =>
      hide Continued, ChainOk, DoorOk;
      ContinuedKeepsDoor(mach, closed, setup);
    case _ =>
      OtherKeepsDoor(mach, e, setup);
      hide Next, ChainOk, DoorOk;
  }

  lemma ReturnedKeepsDoor(mach: Machine, from: Place)
    ensures DoorOk(Returned(mach, from)) <==> DoorOk(mach)
    ensures Returned(mach, from).sys == mach.sys
  {
  }

  lemma OtherKeepsDoor(mach: Machine, e: Event, setup: Setup)
    requires DoorOk(mach) && Can(mach, e) && !e.Realtime? && !e.Loop?
    ensures DoorOk(Next(mach, e, setup))
    ensures mach.sys.state == SafetyDoor ==> Next(mach, e, setup).sys.state == SafetyDoor
  {
    hide Raised;
  }
}
