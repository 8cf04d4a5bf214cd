/** The realtime protocol as a transition system: states, suspend flags, and what one pass through
    protocol_exec_rt_system does with the flags raised since the last. */
module RealtimeSpec {

  datatype State = Idle | Alarm | CheckMode | Cycle | Hold | Jog | SafetyDoor | Sleep

  /** The bits of sys.suspend. */
  datatype Suspend = Suspend(
    holdComplete: bool, restartRetract: bool, retractComplete: bool, initiateRestore: bool,
    restoreComplete: bool, doorAjar: bool, motionCancel: bool, jogCancel: bool)

  const NOT_SUSPENDED := Suspend(false, false, false, false, false, false, false, false)

  /** The bits of sys_rt_exec_state that move the state machine. */
  datatype Exec = Exec(
    cycleStart: bool, cycleStop: bool, feedHold: bool, safetyDoor: bool, motionCancel: bool, sleep: bool)

  /** The bits of sys.spindle_stop_ovr. */
  datatype SpindleStop = SpindleStop(enabled: bool, initiate: bool, restore: bool, restoreCycle: bool)

  const NO_SPINDLE_STOP := SpindleStop(false, false, false, false)

  datatype Sys = Sys(
    state: State, suspend: Suspend, executeHold: bool, exec: Exec, spindleStop: SpindleStop)

  predicate Holding(x: Exec) {
    x.motionCancel || x.feedHold || x.safetyDoor || x.sleep
  }

  // ---------------------------------------------------------------- hold commands

  /** A cycle or jog is decelerated, unless that is under way. */
  function Decelerated(s: Sys, x: Exec): Sys {
    if (s.state == Cycle || s.state == Jog) && !s.suspend.motionCancel && !s.suspend.jogCancel then
      s.(executeHold := true, suspend := s.suspend.(jogCancel := s.state == Jog && !x.sleep))
    else if s.state == Idle then s.(suspend := NOT_SUSPENDED.(holdComplete := true))
    else s
  }

  function Cancelled(s: Sys, x: Exec): Sys {
    if x.motionCancel && s.state != Jog then s.(suspend := s.suspend.(motionCancel := true)) else s
  }

  function FeedHeld(s: Sys, x: Exec): Sys {
    if x.feedHold && s.state != SafetyDoor && s.state != Jog && s.state != Sleep then s.(state := Hold) else s
  }

  /** The safety door opens: during a restore the retract starts again. */
  function DoorOpened(s: Sys, x: Exec): Sys {
    if !x.safetyDoor then s
    else if s.suspend.jogCancel then s.(suspend := s.suspend.(doorAjar := true))
    else
      var again := s.state == SafetyDoor && s.suspend.initiateRestore;
      var f := if again then s.suspend.(retractComplete := false, initiateRestore := false, restoreComplete := false,
                                        restartRetract := true)
               else s.suspend;
      s.(state := if s.state == Sleep then Sleep else SafetyDoor, suspend := f.(doorAjar := true))
  }

  function Slept(s: Sys, x: Exec): Sys {
    if !x.sleep then s
    else if s.state == Alarm then s.(state := Sleep,
                                     suspend := s.suspend.(retractComplete := true, holdComplete := true))
    else s.(state := Sleep)
  }

  function Held(s: Sys, x: Exec): Sys {
    if s.state == Alarm || s.state == CheckMode then s
    else DoorOpened(FeedHeld(Cancelled(Decelerated(s, x), x), x), x)
  }

  function HoldCommands(s: Sys, x: Exec): Sys {
    if Holding(x)
    then var t := Slept(Held(s, x), x);
         t.(exec := t.exec.(motionCancel := false, feedHold := false, safetyDoor := false, sleep := false))
    else s
  }

  // ---------------------------------------------------------------- cycle start and cycle stop

  /** A cycle start with the door closed: resume when restored, restore when retracted. */
  function DoorResumed(s: Sys): Sys {
    if s.state == SafetyDoor && !s.suspend.doorAjar then
      if s.suspend.restoreComplete then s.(state := Idle)
      else if s.suspend.retractComplete then s.(suspend := s.suspend.(initiateRestore := true))
      else s
    else s
  }

  function Launched(s: Sys, hasBlock: bool): Sys {
    if s.state == Idle || (s.state == Hold && s.suspend.holdComplete) then
      if s.state == Hold && s.spindleStop != NO_SPINDLE_STOP
        then s.(spindleStop := s.spindleStop.(restoreCycle := true))
      else s.(executeHold := false, suspend := NOT_SUSPENDED,
              state := if hasBlock && !s.suspend.motionCancel then Cycle else Idle)
    else s
  }

  function StartCommand(s: Sys, x: Exec, hasBlock: bool): Sys {
    if !x.cycleStart then s
    else
      var t := if x.feedHold || x.motionCancel || x.safetyDoor then s else Launched(DoorResumed(s), hasBlock);
      t.(exec := t.exec.(cycleStart := false))
  }

  /** The stepper has stopped: a hold is complete, or a motion has come to its end. */
  function StopCommand(s: Sys, x: Exec): Sys {
    if !x.cycleStop then s
    else
      var t :=
        if (s.state == Hold || s.state == SafetyDoor || s.state == Sleep) && !s.suspend.jogCancel then
          s.(suspend := if s.executeHold then s.suspend.(holdComplete := true) else s.suspend, executeHold := false)
        else
          var u := if s.suspend.jogCancel then s.(executeHold := false) else s;
          if u.suspend.doorAjar then u.(state := SafetyDoor,
                                        suspend := u.suspend.(jogCancel := false, holdComplete := true))
          else u.(state := Idle, suspend := NOT_SUSPENDED);
      t.(exec := t.exec.(cycleStop := false))
  }

  /** EXEC_SPINDLE_OVR_STOP, in a feed hold only. */
  function SpindleStopToggled(s: Sys, toggled: bool): Sys {
    if toggled && s.state == Hold then
      if s.spindleStop == NO_SPINDLE_STOP then s.(spindleStop := NO_SPINDLE_STOP.(initiate := true))
      else if s.spindleStop.enabled then s.(spindleStop := s.spindleStop.(restore := true))
      else s
    else s
  }

  /** protocol_exec_rt_system.  The flags are read once, at its start. */
  function Executed(s: Sys, hasBlock: bool, toggled: bool): Sys {
    var x := s.exec;
    SpindleStopToggled(StopCommand(StartCommand(HoldCommands(s, x), x, hasBlock), x), toggled)
  }

  // ---------------------------------------------------------------- the suspend loop

  /** Where the main program stands. */
  datatype Place =
    MainLoop | LoopHead | LoopEnd | SpindleRestore | SpindleDelay | CoolantRestore | CoolantDelay | RestoreEnd | Asleep

  /** gc_state and settings that a restore looks at; they do not change while suspended. */
  datatype Setup = Setup(spindleOn: bool, coolantOn: bool, laser: bool)

  /** `moving`: the stepper is running.  The rest is history, for the statements about runs. */
  datatype Machine = Machine(
    sys: Sys, place: Place, moving: bool,
    deEnergized: bool,      // spindle and coolant went off since the door state was entered or entered anew
    doorClosed: bool,       // the door was seen closed since it was last reported open
    restored: bool,         // and after both of these a restore was carried out to its end
    resumed: bool,          // a cycle start has resumed the program in a delay of the restore under way
    stale: bool)            // the last restore that ended had been called off before

  const START := Machine(Sys(Idle, NOT_SUSPENDED, false, Exec(false, false, false, false, false, false),
                             NO_SPINDLE_STOP),
                         MainLoop, false, false, false, false, false, false)

  predicate InRestore(p: Place) {
    p == SpindleRestore || p == SpindleDelay || p == CoolantRestore || p == CoolantDelay || p == RestoreEnd
  }

  /** Spindle and coolant go off, or the safety door is looked at: a closed door is ready to resume. */
  function ParkedSys(s: Sys, closed: bool): Sys {
    if !s.suspend.retractComplete then
      s.(spindleStop := NO_SPINDLE_STOP, suspend := s.suspend.(restartRetract := false, retractComplete := true))
    else if s.state != Sleep && closed then s.(suspend := s.suspend.(doorAjar := false))
    else s
  }

  function ParkedPlace(s: Sys): Place {
    if !s.suspend.retractComplete then LoopEnd
    else if s.state == Sleep then Asleep
    else if s.suspend.initiateRestore then SpindleRestore
    else LoopEnd
  }

  /** The hold is complete in a door or sleep state. */
  function Parked(mach: Machine, closed: bool): Machine {
    var retracts := !mach.sys.suspend.retractComplete;
    var checks := closed && !retracts && mach.sys.state != Sleep;
    mach.(sys := ParkedSys(mach.sys, closed), place := ParkedPlace(mach.sys),
          deEnergized := mach.deEnergized || retracts, doorClosed := mach.doorClosed || checks,
          restored := mach.restored && !retracts && (mach.doorClosed || !checks))
  }

  predicate Parks(s: Sys) {
    s.suspend.holdComplete && (s.state == SafetyDoor || s.state == Sleep)
  }

  function RoundSys(s: Sys, closed: bool, setup: Setup): Sys {
    if Parks(s) then ParkedSys(s, closed) else if s.suspend.holdComplete then SpindleRound(s, setup) else s
  }

  function RoundPlace(s: Sys): Place {
    if s.suspend == NOT_SUSPENDED then MainLoop else if Parks(s) then ParkedPlace(s) else LoopEnd
  }

  /** One round of the suspend loop up to its call of protocol_exec_rt_system, or up to the restore
      tasks.  `closed` is the door switch. */
  function Round(mach: Machine, closed: bool, setup: Setup): (after: Machine)
    ensures after.sys == RoundSys(mach.sys, closed, setup) && after.place == RoundPlace(mach.sys)
    ensures after.resumed == mach.resumed && after.stale == mach.stale
  {
    if Parks(mach.sys) then Parked(mach, closed)
    else mach.(sys := RoundSys(mach.sys, closed, setup), place := RoundPlace(mach.sys))
  }

  /** The feed hold manager: spindle stop overrides. */
  function SpindleRound(s: Sys, setup: Setup): Sys {
    if s.spindleStop.initiate then
      s.(spindleStop := if setup.spindleOn then NO_SPINDLE_STOP.(enabled := true) else NO_SPINDLE_STOP)
    else if s.spindleStop.restore || s.spindleStop.restoreCycle then
      s.(spindleStop := NO_SPINDLE_STOP, exec := s.exec.(cycleStart := s.exec.cycleStart || s.spindleStop.restoreCycle))
    else s
  }

  /** The end of the restore tasks: unless the door has opened again the program is resumed. */
  function RestoreEnded(mach: Machine): Machine {
    if mach.sys.suspend.restartRetract then mach.(place := LoopEnd, resumed := false)
    else mach.(sys := mach.sys.(suspend := mach.sys.suspend.(restoreComplete := true),
                                exec := mach.sys.exec.(cycleStart := true)),
               restored := true, stale := !mach.sys.suspend.initiateRestore, place := LoopEnd, resumed := false)
  }

  // ---------------------------------------------------------------- events

  datatype Event =
    | Raise(start: bool, feedHold: bool, door: bool, cancel: bool, sleep: bool)  // serial or pin interrupts set flags
    | Stop                                          // the stepper runs out of segments and raises cycle stop
    | Realtime(hasBlock: bool, toggled: bool)       // the main program calls protocol_exec_rt_system
    | Loop(closed: bool)                            // it goes on with the suspend loop
    | DelayOver                                     // a restart delay ends
    | StartJog | EnterCheck | RaiseAlarm | Unlock   // main program commands while idle

  ghost predicate Can(mach: Machine, e: Event) {
    match e
    case Raise(_, _, _, _, _) => true
    case Stop => mach.moving
    case Realtime(_, _) => mach.place == MainLoop || mach.place == LoopEnd || mach.place == SpindleDelay
      || mach.place == CoolantDelay || mach.place == Asleep
    case Loop(_) => mach.place == LoopHead || mach.place == SpindleRestore || mach.place == CoolantRestore
      || mach.place == RestoreEnd
    case DelayOver => mach.place == SpindleDelay || mach.place == CoolantDelay
    case StartJog => mach.place == MainLoop && mach.sys.state == Idle
    case EnterCheck => mach.place == MainLoop && mach.sys.state == Idle
    case RaiseAlarm => mach.place == MainLoop && mach.sys.state == Idle
    case Unlock => mach.place == MainLoop && mach.sys.state == Alarm
  }

  /** A cycle start that is not blocked by a hold command resumes a restored door state. */
  predicate Resumes(s: Sys, x: Exec) {
    && x.cycleStart && !x.feedHold && !x.motionCancel && !x.safetyDoor
    && s.suspend.restoreComplete && !s.suspend.doorAjar
  }

  /** It resumes the program inside a restart delay: possible when the restore was complete already
      and its automatic cycle start was blocked by a hold command. */
  predicate ResumesHere(mach: Machine) {
    && (mach.place == SpindleDelay || mach.place == CoolantDelay)
    && mach.sys.state == SafetyDoor && Resumes(mach.sys, mach.sys.exec) && !mach.sys.exec.sleep
  }

  /** What a pass through protocol_exec_rt_system means for stepper and history. */
  function Run(mach: Machine, hasBlock: bool, toggled: bool): Machine {
    var s, t := mach.sys, Executed(mach.sys, hasBlock, toggled);
    var ajar := s.exec.safetyDoor && s.state != Alarm && s.state != CheckMode;
    var entered := t.state == SafetyDoor && s.state != SafetyDoor;
    var again := ajar && s.state == SafetyDoor && s.suspend.initiateRestore;
    mach.(sys := t,
       moving := mach.moving || (t.state == Cycle && s.state != Cycle),
       deEnergized := mach.deEnergized && !again && !entered,
       doorClosed := mach.doorClosed && !ajar && !entered,
       restored := mach.restored && !ajar && !entered,
       resumed := mach.resumed || ResumesHere(mach))
  }

  /** Interrupts raise flags. */
  function Raised(x: Exec, start: bool, feedHold: bool, door: bool, cancel: bool, sleep: bool): Exec {
    x.(cycleStart := x.cycleStart || start, feedHold := x.feedHold || feedHold, safetyDoor := x.safetyDoor || door,
       motionCancel := x.motionCancel || cancel, sleep := x.sleep || sleep)
  }

  /** Where protocol_exec_rt_system returns to. */
  function Returned(mach: Machine, from: Place): Machine {
    if from == MainLoop then mach.(place := if mach.sys.suspend == NOT_SUSPENDED then MainLoop else LoopHead)
    else if from == LoopEnd then mach.(place := LoopHead)
    else mach
  }

  /** The suspend loop goes on: a round, or one of the restore tasks. */
  function Continued(mach: Machine, closed: bool, setup: Setup): Machine {
    if mach.place == LoopHead then Round(mach, closed, setup)
    else if mach.place == RestoreEnd then RestoreEnded(mach)
    else mach.(place := AfterTask(mach.place, mach.sys.suspend.restartRetract, setup))
  }

  /** Spindle and coolant are restored with a delay each, unless the door has opened again. */
  function AfterTask(p: Place, restart: bool, setup: Setup): (q: Place)
    ensures p == SpindleRestore ==> q == SpindleDelay || q == CoolantRestore
    ensures p != SpindleRestore ==> q == CoolantDelay || q == RestoreEnd
  {
    if p == SpindleRestore then if setup.spindleOn && !restart && !setup.laser then SpindleDelay else CoolantRestore
    else if setup.coolantOn && !restart then CoolantDelay else RestoreEnd
  }

  function Commanded(s: Sys, e: Event): Sys
    requires e.StartJog? || e.EnterCheck? || e.RaiseAlarm? || e.Unlock?
  {
    s.(state := match e case StartJog => Jog case EnterCheck => CheckMode case RaiseAlarm => Alarm case Unlock => Idle)
  }

  function Next(mach: Machine, e: Event, setup: Setup): Machine {
    match e
    case Raise(start, feedHold, door, cancel, sleep) =>
      mach.(sys := mach.sys.(exec := Raised(mach.sys.exec, start, feedHold, door, cancel, sleep)))
    case Stop => mach.(moving := false, sys := mach.sys.(exec := mach.sys.exec.(cycleStop := true)))
    case Realtime(hasBlock, toggled) => Returned(Run(mach, hasBlock, toggled), mach.place)
    case Loop(closed) => Continued(mach, closed, setup)
    case DelayOver => mach.(place := if mach.place == SpindleDelay then CoolantRestore else RestoreEnd)
    case _ => mach.(sys := Commanded(mach.sys, e), moving := mach.moving || e.StartJog?)
  }
}
