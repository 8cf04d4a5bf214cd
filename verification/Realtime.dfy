/** The realtime protocol as the program runs it, on the fields of the sys struct. */
module Realtime {
  import opened RealtimeSpec

  class Realtime {
    var state: State
    var suspend: Suspend
    var executeHold: bool       // STEP_CONTROL_EXECUTE_HOLD
    var exec: Exec              // sys_rt_exec_state
    var spindleStop: SpindleStop

    constructor ()
      ensures System() == START.sys
    {
      state, suspend, executeHold, spindleStop := Idle, NOT_SUSPENDED, false, NO_SPINDLE_STOP;
      exec := Exec(false, false, false, false, false, false);
    }

    ghost function System(): Sys
      reads this
    {
      Sys(state, suspend, executeHold, exec, spindleStop)
    }

    /** Motion cancel, feed hold, safety door and sleep, where holds are allowed. */
    method Hold(rt: Exec)
      requires state != Alarm && state != CheckMode
      modifies this`state, this`suspend, this`executeHold
      ensures System() == Held(old(System()), rt)
    {
      if state == Cycle || state == Jog {
        if !(suspend.motionCancel || suspend.jogCancel) {
          executeHold := true;
          if state == Jog {
            if !rt.sleep {
              suspend := suspend.(jogCancel := true);
            }
          }
        }
      }
      if state == Idle {
        suspend := NOT_SUSPENDED.(holdComplete := true);
      }
      assert System() == Decelerated(old(System()), rt);
      label decelerated:
      if rt.motionCancel {
        if state != Jog {
          suspend := suspend.(motionCancel := true);
        }
      }
      if rt.feedHold {
        if state != SafetyDoor && state != Jog && state != Sleep {
          state := State.Hold;
        }
      }
      assert System() == FeedHeld(Cancelled(old@decelerated(System()), rt), rt);
      OpenDoor(rt);
    }

    method OpenDoor(rt: Exec)
      modifies this`state, this`suspend
      ensures System() == DoorOpened(old(System()), rt)
    {
      if rt.safetyDoor {
        if !suspend.jogCancel {
          if state == SafetyDoor {
            if suspend.initiateRestore {
              suspend := suspend.(retractComplete := false, initiateRestore := false, restoreComplete := false);
              suspend := suspend.(restartRetract := true);
            }
          }
          if state != Sleep {
            state := SafetyDoor;
          }
        }
        suspend := suspend.(doorAjar := true);
      }
    }

    method Start(rt: Exec, hasBlock: bool)
      modifies this`state, this`suspend, this`executeHold, this`exec, this`spindleStop
      ensures System() == StartCommand(old(System()), rt, hasBlock)
    {
      if rt.cycleStart {
        if !(rt.feedHold || rt.motionCancel || rt.safetyDoor) {
          if state == SafetyDoor && !suspend.doorAjar {
            if suspend.restoreComplete {
              state := Idle;
            } else if suspend.retractComplete {
              suspend := suspend.(initiateRestore := true);
            }
          }
          assert System() == DoorResumed(old(System()));
          if state == Idle || (state == State.Hold && suspend.holdComplete) {
            if state == State.Hold && spindleStop != NO_SPINDLE_STOP {
              spindleStop := spindleStop.(restoreCycle := true);
            } else {
              executeHold := false;
              if hasBlock && !suspend.motionCancel {
                suspend := NOT_SUSPENDED;
                state := Cycle;
              } else {
                suspend := NOT_SUSPENDED;
                state := Idle;
              }
            }
          }
        }
        exec := exec.(cycleStart := false);
      }
    }

    method Stop(rt: Exec)
      modifies this`state, this`suspend, this`executeHold, this`exec
      ensures System() == StopCommand(old(System()), rt)
    {
      if rt.cycleStop {
        if (state == State.Hold || state == SafetyDoor || state == Sleep) && !suspend.jogCancel {
          if executeHold {
            suspend := suspend.(holdComplete := true);
          }
          executeHold := false;
        } else {
          if suspend.jogCancel {
            executeHold := false;
          }
          if suspend.doorAjar {
            suspend := suspend.(jogCancel := false);
            suspend := suspend.(holdComplete := true);
            state := SafetyDoor;
          } else {
            suspend := NOT_SUSPENDED;
            state := Idle;
          }
        }
        exec := exec.(cycleStop := false);
      }
    }

    /** All hold commands. */
    method HoldAll(rt: Exec)
      modifies this`state, this`suspend, this`executeHold, this`exec
      ensures System() == HoldCommands(old(System()), rt)
    {
      HeldNowhere(System(), rt);
      hide Held;
      if rt.motionCancel || rt.feedHold || rt.safetyDoor || rt.sleep {
        if state != Alarm && state != CheckMode {
          Hold(rt);
        }
        assert System() == Held(old(System()), rt);
        if rt.sleep {
          if state == Alarm {
            suspend := suspend.(retractComplete := true, holdComplete := true);
          }
          state := Sleep;
        }
        exec := exec.(motionCancel := false, feedHold := false, safetyDoor := false, sleep := false);
      }
    }

    /** protocol_exec_rt_system.  `hasBlock`: a block is queued; `toggled`: the spindle stop override
        was requested. */
    method ExecRtSystem(hasBlock: bool, toggled: bool)
      modifies this
      ensures System() == Executed(old(System()), hasBlock, toggled)
    {
      hide HoldCommands, StartCommand, StopCommand;
      var rt := exec;
      HoldAll(rt);
      Start(rt, hasBlock);
      Stop(rt);
      if toggled {
        if state == State.Hold {
          if spindleStop == NO_SPINDLE_STOP {
            spindleStop := NO_SPINDLE_STOP.(initiate := true);
          } else if spindleStop.enabled {
            spindleStop := spindleStop.(restore := true);
          }
        }
      }
    }

    /** The hold is complete in a door or sleep state: retract, or look at the door. */
    method Park(closed: bool) returns (place: Place)
      modifies this`suspend, this`spindleStop
      ensures System() == ParkedSys(old(System()), closed) && place == ParkedPlace(old(System()))
    {
      place := LoopEnd;
      if !suspend.retractComplete {
        spindleStop := NO_SPINDLE_STOP;
        suspend := suspend.(restartRetract := false);
        suspend := suspend.(retractComplete := true);
      } else {
        if state == Sleep {
          return Asleep;
        }
        if closed {
          suspend := suspend.(doorAjar := false);
        }
        if suspend.initiateRestore {
          place := SpindleRestore;
        }
      }
    }

    /** The feed hold manager. */
    method ManageSpindle(setup: Setup)
      modifies this`spindleStop, this`exec
      ensures System() == SpindleRound(old(System()), setup)
    {
      if spindleStop.initiate {
        spindleStop := if setup.spindleOn then NO_SPINDLE_STOP.(enabled := true) else NO_SPINDLE_STOP;
      } else if spindleStop.restore || spindleStop.restoreCycle {
        if spindleStop.restoreCycle {
          exec := exec.(cycleStart := true);
        }
        spindleStop := NO_SPINDLE_STOP;
      }
    }

    /** One round of protocol_exec_rt_suspend's loop, up to its last call.  `closed` is the door
        switch; the result says where the loop stands. */
    method SuspendRound(closed: bool, setup: Setup) returns (place: Place)
      modifies this
      ensures System() == RoundSys(old(System()), closed, setup) && place == RoundPlace(old(System()))
    {
      hide ParkedSys, ParkedPlace, SpindleRound;
      if suspend == NOT_SUSPENDED {
        return MainLoop;
      }
      place := LoopEnd;
      if suspend.holdComplete {
        if state == SafetyDoor || state == Sleep {
          place := Park(closed);
        } else {
          ManageSpindle(setup);
        }
      }
    }

    /** The end of the restore tasks. */
    method EndRestore(ghost mach: Machine)
      requires mach.sys == System() && mach.place == RestoreEnd
      modifies this`suspend, this`exec
      ensures System() == RestoreEnded(mach).sys
    {
      if !suspend.restartRetract {
        suspend := suspend.(restoreComplete := true);
        exec := exec.(cycleStart := true);
      }
    }
  }

  /** No hold is taken in an alarm or in check mode. */
  lemma HeldNowhere(s: Sys, x: Exec)
    ensures s.state == Alarm || s.state == CheckMode ==> Held(s, x) == s
  {
  }
}
