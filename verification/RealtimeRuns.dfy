/** Every run of the realtime protocol, from start-up on. */
module RealtimeRuns {
  import opened RealtimeSpec
  import opened RealtimeSafety
  import opened RealtimeHold
  import opened RealtimeChain
  import opened RealtimeDoor

  ghost predicate IsRun(states: seq<Machine>, events: seq<Event>, setup: Setup) {
    && |states| == |events| + 1 && states[0] == START
    && forall k :: 0 <= k < |events| ==> Can(states[k], events[k]) && states[k + 1] == Next(states[k], events[k], setup)
  }

  lemma StartOk()
    ensures MotionOk(START) && ChainOk(START) && DoorOk(START)
  {
  }

  lemma {:induction false} RunOk(states: seq<Machine>, events: seq<Event>, setup: Setup, k: nat)
    requires IsRun(states, events, setup) && k < |states|
    ensures MotionOk(states[k]) && ChainOk(states[k]) && DoorOk(states[k])
  {
    hide Next, Can, MotionOk, ChainOk, DoorOk;
    if k == 0 {
      StartOk();
    } else {
      RunOk(states, events, setup, k - 1);
      StepKeepsMotion(states[k - 1], events[k - 1], setup);
      StepKeepsChain(states[k - 1], events[k - 1], setup);
      StepKeepsDoor(states[k - 1], events[k - 1], setup);
    }
  }

  /** In every run, whatever was held: a cycle is entered only when the stepper has stopped and its
      cycle stop has been handled. */
  lemma StopsBeforeReturn(states: seq<Machine>, events: seq<Event>, setup: Setup, k: nat)
    requires IsRun(states, events, setup) && k < |events|
    requires states[k].sys.state != Cycle && states[k + 1].sys.state == Cycle
    ensures !states[k].moving && !states[k].sys.exec.cycleStop
  {
    hide Next, Can, MotionOk, ChainOk, DoorOk;
    RunOk(states, events, setup, k);
    StepKeepsMotion(states[k], events[k], setup);
  }

  // ---------------------------------------------------------------- holds are executed, and end

  lemma {:induction false} RunHolds(states: seq<Machine>, events: seq<Event>, setup: Setup, k: nat)
    requires IsRun(states, events, setup) && k < |states|
    ensures HoldOk(states[k])
  {
    hide Next, Can, HoldOk;
    if k == 0 {
      StartHolds();
    } else {
      RunHolds(states, events, setup, k - 1);
      StepExecutes(states[k - 1], events[k - 1], setup);
    }
  }

  lemma StartHolds()
    ensures HoldOk(START)
  {
  }

  /** In every run, a cycle or a jog is in motion, and while the tool moves or its stop waits, a hold, an
      open door and sleep decelerate it. */
  lemma HoldIsExecuted(states: seq<Machine>, events: seq<Event>, setup: Setup, k: nat)
    requires IsRun(states, events, setup) && k < |states|
    ensures states[k].sys.state == Cycle || states[k].sys.state == Jog ==> InMotion(states[k])
    ensures InMotion(states[k]) && Suspended(states[k].sys.state) ==> states[k].sys.executeHold
  {
    hide Next, Can, MotionOk;
    RunHolds(states, events, setup, k);
  }

  /** A pass in motion takes any hold command: unless it handles the stop as well, the deceleration is on
      after it, in the state of the command that takes precedence. */
  lemma HoldIsTaken(states: seq<Machine>, events: seq<Event>, setup: Setup, k: nat)
    requires IsRun(states, events, setup) && k < |events| && events[k].Realtime?
    requires InMotion(states[k]) && Holding(states[k].sys.exec) && !states[k].sys.exec.cycleStop
    ensures var s, x, t := states[k].sys, states[k].sys.exec, states[k + 1].sys;
      t.executeHold && t.state ==
        if x.sleep || s.state == Sleep then Sleep
        else if x.safetyDoor && !CancelsJog(s) then SafetyDoor
        else if x.feedHold && s.state != Jog && s.state != SafetyDoor then Hold
        else s.state
  {
    var mach, hasBlock, toggled := states[k], events[k].hasBlock, events[k].toggled;
    RunHolds(states, events, setup, k);
    PassExecutes(mach, hasBlock, toggled);
    PassState(mach, hasBlock, toggled);
    ReturnedIs(Run(mach, hasBlock, toggled), mach.place);
    hide IsRun, Run, Returned, MotionFits, Executes, Runs, CancelsJog, Holding, Can;
    assert states[k + 1] == Returned(Run(mach, hasBlock, toggled), mach.place) by {
      NextRealtime(states, events, setup, k);
    }
  }

  lemma NextRealtime(states: seq<Machine>, events: seq<Event>, setup: Setup, k: nat)
    requires IsRun(states, events, setup) && k < |events| && events[k].Realtime?
    ensures |states| == |events| + 1
    ensures states[k + 1] == Returned(Run(states[k], events[k].hasBlock, events[k].toggled), states[k].place)
  {
    hide Run, Returned, Can;
  }

  /** The pass that handles a stop completes the hold, or leaves an idle system behind. */
  lemma StopIsHandled(states: seq<Machine>, events: seq<Event>, setup: Setup, k: nat)
    requires IsRun(states, events, setup) && k < |events| && events[k].Realtime? && states[k].sys.exec.cycleStop
    ensures var t := states[k + 1];
      && !InMotion(t)
      && if Suspended(t.sys.state) then t.sys.suspend.holdComplete
         else t.sys.state == Idle && t.sys.suspend == NOT_SUSPENDED
  {
    var mach, hasBlock, toggled := states[k], events[k].hasBlock, events[k].toggled;
    RunHolds(states, events, setup, k);
    RunHolds(states, events, setup, k + 1);
    PassExecutes(mach, hasBlock, toggled);
    NextRealtime(states, events, setup, k);
    ReturnedIs(Run(mach, hasBlock, toggled), mach.place);
    hide IsRun, Run, Returned, Executes, Runs, Can;
  }

  /** A hold that is complete is resumed by a cycle start: with the cycle if a block is queued and the
      motion was not cancelled. */
  lemma HoldIsResumed(states: seq<Machine>, events: seq<Event>, setup: Setup, k: nat)
    requires IsRun(states, events, setup) && k < |events| && events[k].Realtime? && !events[k].toggled
    requires states[k].sys.state == Hold && states[k].sys.suspend.holdComplete
    requires states[k].sys.spindleStop == NO_SPINDLE_STOP
    requires states[k].sys.exec.cycleStart && !Holding(states[k].sys.exec)
    ensures var t := states[k + 1];
      && t.sys.suspend == NOT_SUSPENDED && !t.sys.executeHold
      && if events[k].hasBlock && !states[k].sys.suspend.motionCancel then t.sys.state == Cycle && t.moving
         else t.sys.state == Idle
  {
    RunOk(states, events, setup, k);
    NextRealtime(states, events, setup, k);
    ReturnedIs(Run(states[k], events[k].hasBlock, events[k].toggled), states[k].place);
    StartTaken(states[k].sys, states[k].sys.exec, events[k].hasBlock);
    hide IsRun, Returned, ChainOk, DoorOk, StartCommand, Can, ResumesHere;
  }

  // ---------------------------------------------------------------- restores that end late

  /** Event `k` resumes the program in a restart delay. */
  ghost predicate ResumesAt(states: seq<Machine>, events: seq<Event>, k: nat)
    requires k < |events| < |states|
  {
    events[k].Realtime? && ResumesHere(states[k])
  }

  /** The restore under way in state `k` was resumed in one of its delays. */
  ghost predicate ResumedSince(states: seq<Machine>, events: seq<Event>, k: nat)
    requires k <= |events| < |states|
  {
    exists j :: 0 <= j < k && ResumesAt(states, events, j) && forall i :: j < i <= k ==> InRestore(states[i].place)
  }

  lemma StepResumed(mach: Machine, e: Event, setup: Setup)
    requires ChainOk(mach) && Can(mach, e)
    ensures Next(mach, e, setup).resumed
      <==> InRestore(Next(mach, e, setup).place) && (mach.resumed || (e.Realtime? && ResumesHere(mach)))
  {
    hide Executed, ChainFits, CompleteFits, Restoring, CalledOff, Round, RoundSys, Raised, Commanded, Resumes;
  }

  lemma ResumedStep(states: seq<Machine>, events: seq<Event>, k: nat)
    requires 0 < k <= |events| < |states| && (ResumedSince(states, events, k - 1) ==> InRestore(states[k - 1].place))
    ensures ResumedSince(states, events, k)
      <==> InRestore(states[k].place) && (ResumedSince(states, events, k - 1) || ResumesAt(states, events, k - 1))
  {
    hide InRestore, ResumesAt;
    if ResumedSince(states, events, k) {
      var j :| 0 <= j < k && ResumesAt(states, events, j) && forall i :: j < i <= k ==> InRestore(states[i].place);
      assert InRestore(states[k].place);
    }
    if InRestore(states[k].place) {
      if ResumesAt(states, events, k - 1) {
        assert forall i :: k - 1 < i <= k ==> InRestore(states[i].place);
      } else if ResumedSince(states, events, k - 1) {
        var j :| 0 <= j < k - 1 && ResumesAt(states, events, j) && forall i ::
          j < i <= k - 1
          ==> InRestore(states[i].place);
        assert forall i :: j < i <= k ==> InRestore(states[i].place);
      }
    }
  }

  lemma {:induction false} ResumedMeans(states: seq<Machine>, events: seq<Event>, setup: Setup, k: nat)
    requires IsRun(states, events, setup) && k < |states|
    ensures states[k].resumed <==> ResumedSince(states, events, k)
  {
    hide Next, Can, ResumesHere, InRestore, ChainFits, CompleteFits, Restoring, CalledOff, ResumedSince;
    if k == 0 {
      NothingResumed(states, events);
    } else {
      ResumedMeans(states, events, setup, k - 1);
      RunOk(states, events, setup, k - 1);
      StepResumed(states[k - 1], events[k - 1], setup);
      ResumedStep(states, events, k);
    }
  }

  lemma NothingResumed(states: seq<Machine>, events: seq<Event>)
    requires |events| < |states|
    ensures !ResumedSince(states, events, 0)
  {
  }

  /** Event `k` is the end of a restore that runs to its end. */
  ghost predicate EndsAt(states: seq<Machine>, events: seq<Event>, k: nat)
    requires k < |events| < |states|
  {
    events[k].Loop? && states[k].place == RestoreEnd && !states[k].sys.suspend.restartRetract
  }

  /** A restore that runs to its end is late, its initiation called off, exactly when a cycle start
      resumed the program in one of its delays. */
  lemma LateExactlyWhen(states: seq<Machine>, events: seq<Event>, setup: Setup, k: nat)
    requires IsRun(states, events, setup) && k < |events| && EndsAt(states, events, k)
    ensures LateRestore(states[k], events[k]) <==> ResumedSince(states, events, k)
  {
    hide Next, Can, ResumedSince;
    RunOk(states, events, setup, k);
    ResumedMeans(states, events, setup, k);
    LateExactlyWhenResumed(states[k], events[k]);
  }

  // ---------------------------------------------------------------- the chain

  lemma StepStale(mach: Machine, e: Event, setup: Setup)
    requires Can(mach, e)
    ensures var after := Next(mach, e, setup);
      if e.Loop? && mach.place == RestoreEnd && !mach.sys.suspend.restartRetract
      then after.stale == LateRestore(mach, e) && after.sys.suspend.restoreComplete
      else after.stale == mach.stale
  {
    hide Executed, Round, Raised, Commanded, ResumesHere;
  }

  /** No restore among the first `k` events ends after it was resumed in one of its delays. */
  ghost predicate NoneResumed(states: seq<Machine>, events: seq<Event>, k: nat)
    requires k <= |events| < |states|
  {
    forall j :: 0 <= j < k && EndsAt(states, events, j) ==> !ResumedSince(states, events, j)
  }

  lemma {:induction false} NeverStale(states: seq<Machine>, events: seq<Event>, setup: Setup, k: nat)
    requires IsRun(states, events, setup) && k < |states| && NoneResumed(states, events, k)
    ensures !states[k].stale
  {
    if k > 0 {
      hide Next, Can, LateRestore, ResumedSince;
      NeverStale(states, events, setup, k - 1);
      StepStale(states[k - 1], events[k - 1], setup);
      if EndsAt(states, events, k - 1) {
        LateExactlyWhen(states, events, setup, k - 1);
      }
    }
  }

  /** The chain restore complete, restore initiated, retracted, hold complete is kept through a whole
      run exactly when no restore in it runs to its end after a cycle start resumed the program in one
      of its delays. */
  lemma ChainKeptExactlyWhen(states: seq<Machine>, events: seq<Event>, setup: Setup)
    requires IsRun(states, events, setup)
    ensures (forall j :: 0 <= j < |states| ==> Chained(states[j].sys.suspend))
      <==> NoneResumed(states, events, |events|)
  {
    hide Next, Can, LateRestore, ResumedSince, EndsAt, Chained, ChainOk;
    if NoneResumed(states, events, |events|) {
      forall j | 0 <= j < |states|
        ensures Chained(states[j].sys.suspend)
      {
        RunOk(states, events, setup, j);
        NeverStale(states, events, setup, j);
        ChainedExactlyWhen(states[j]);
      }
    } else {
      var k :| 0 <= k < |events| && EndsAt(states, events, k) && ResumedSince(states, events, k);
      LateBreaksChain(states, events, setup, k);
      assert !Chained(states[k + 1].sys.suspend);
    }
  }

  lemma LateBreaksChain(states: seq<Machine>, events: seq<Event>, setup: Setup, k: nat)
    requires IsRun(states, events, setup) && k < |events| && EndsAt(states, events, k)
      && ResumedSince(states, events, k)
    ensures !Chained(states[k + 1].sys.suspend)
  {
    hide Next, Can, LateRestore, ResumedSince, Chained, ChainOk;
    LateExactlyWhen(states, events, setup, k);
    StepStale(states[k], events[k], setup);
    RunOk(states, events, setup, k + 1);
    ChainedExactlyWhen(states[k + 1]);
  }

  // ---------------------------------------------------------------- the door

  /** The last restore to end before state `k` was resumed in one of its delays. */
  ghost predicate LastWasResumed(states: seq<Machine>, events: seq<Event>, k: nat)
    requires k <= |events| < |states|
  {
    exists j :: 0 <= j < k && EndsAt(states, events, j) && ResumedSince(states, events, j)
      && forall i :: j < i < k ==> !EndsAt(states, events, i)
  }

  lemma LastStep(states: seq<Machine>, events: seq<Event>, k: nat)
    requires 0 < k <= |events| < |states|
    ensures LastWasResumed(states, events, k)
      <==> if EndsAt(states, events, k - 1) then ResumedSince(states, events, k - 1)
        else LastWasResumed(states, events, k - 1)
  {
    hide EndsAt, ResumedSince;
    if !EndsAt(states, events, k - 1) && LastWasResumed(states, events, k - 1) {
      var j :| 0 <= j < k - 1 && EndsAt(states, events, j) && ResumedSince(states, events, j)
        && forall i :: j < i < k - 1 ==> !EndsAt(states, events, i);
      assert forall i :: j < i < k ==> !EndsAt(states, events, i);
    }
  }

  lemma {:induction false} StaleMeans(states: seq<Machine>, events: seq<Event>, setup: Setup, k: nat)
    requires IsRun(states, events, setup) && k < |states|
    ensures states[k].stale <==> LastWasResumed(states, events, k)
  {
    hide Next, Can, LateRestore, ResumedSince, LastWasResumed;
    if k == 0 {
      NothingEnded(states, events);
    } else {
      StaleMeans(states, events, setup, k - 1);
      StepStale(states[k - 1], events[k - 1], setup);
      if EndsAt(states, events, k - 1) {
        LateExactlyWhen(states, events, setup, k - 1);
      }
      LastStep(states, events, k);
    }
  }

  lemma NothingEnded(states: seq<Machine>, events: seq<Event>)
    requires |events| < |states|
    ensures !LastWasResumed(states, events, 0)
  {
  }

  /** Door safety.  Every passage from the door state to a cycle or to idle comes after the hold is
      complete and the stepper has stopped, after the machine was de-energized and the door seen
      closed, all since the door was last reported open.  It also comes after a restore since then,
      exactly when the last restore to end was not resumed in one of its delays. */
  lemma DoorPassedInOrder(states: seq<Machine>, events: seq<Event>, setup: Setup, k: nat)
    requires IsRun(states, events, setup) && k < |events|
    requires states[k].sys.state == SafetyDoor && (states[k + 1].sys.state == Cycle || states[k + 1].sys.state == Idle)
    ensures states[k].sys.suspend.holdComplete && !states[k].moving && states[k].deEnergized && states[k].doorClosed
    ensures InOrder(states[k]) <==> !LastWasResumed(states, events, k)
  {
    hide Next, Can, ChainOk, DoorOk, LastWasResumed, Executed;
    RunOk(states, events, setup, k);
    StepKeepsDoor(states[k], events[k], setup);
    StaleMeans(states, events, setup, k);
  }
}
