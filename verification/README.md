# Verified model of the Grbl motion pipeline

This project models the part of Grbl that turns a line of g-code into motor steps, and proves what
each stage promises the next:

* **The look-ahead planner** keeps a ring of blocks and replans it with a reverse and a forward pass
  that start at a cached break point. `PlanSpec`, `PlanUpdate` and `PlanRun` hold the theory: a full
  pass is the fastest feasible plan, break points are stable, and the incremental plan agrees with the
  full one in every run of appends, partial executions, discards, holds and replans. `Ring`,
  `RingQueue` and `Planner` carry it over to the ring, updated in place.
* **Lines and limits** (`Limits`, `Corner`, `BufferLine`, `LinePlanner`, `AxisLimits`): per-axis limits,
  the circle that rounds a corner, the step counts of a line, and the rate limits every block keeps.
* **The segment generator** (`Kinematics` to `Preparation`, `PrepRuns`): velocity profiles of four
  ramps, the loop that follows them, step extraction by ceilings, feed holds, and the continuity of
  speed over whole runs.
* **The stepper** (`Bresenham`, `StepMachine`, `SegmentRings`, `Stepper`): an interrupt that consumes
  segments from a ring the main program fills, Bresenham stepping at four resolutions, and a smaller
  ring of block data. Main program and interrupt are atomic events in any order.
* **The whole** (`MotionLink`, `MotionSystem`): planner, generator and stepper run together from
  power-up on, the machine arrives where the planner believes it is, and no axis is too fast.
* **The realtime protocol** (`RealtimeSpec` to `RealtimeTrace`, `Realtime`): states, suspend flags and
  the suspend loop under every sequence of commands and interrupts.
* **Satellites**: arcs (`Rotation`, `Arc`, `ArcCenter`), the decimal reader and printer (`Decimal`),
  and the word loop of the g-code parser (`WordSpec`, `Words`, `WordRules`, `WordValues`).

Code that updates state in place is modelled by classes and loops, each proved against a value
(`Plan`, `View`, `Machine`, `Sys`, `Block`) about which the theorems are stated. Arithmetic is over
`real` and unbounded integers. Square root, cosine, sine, atan2 and pi are parameters with the
properties used: `v * v == x` with `v >= 0`; the unit circle, the addition theorem, the period, and
Taylor's theorem for angles up to 1; the angle of a point between -pi and pi. The number of axes and the sizes of the rings are
parameters: at least two planner blocks and three segments, with the stepper block ring one slot
smaller. AMASS is on; CoreXY, parking, DC motors and line numbers are compiled out.

What the proofs found where code and expectation differ:

* The chain RESTORE_COMPLETE, INITIATE_RESTORE, RETRACT_COMPLETE, HOLD_COMPLETE of suspend flags can
  break: a cycle start inside the restart delay of a repeated restore resumes the program, and the
  restore then ends with RESTORE_COMPLETE set alone (`RealtimeTrace.ChainCanBreak`). That is the only
  way: `RealtimeRuns.ChainKeptExactlyWhen` and `DoorPassedInOrder` are equivalences.
* In a hold a block can end slower than planned for the next one, also at a standstill when just the
  braking distance was left. If the segment buffer runs empty before the next block is taken over, the
  cycle stop leaves that block at its planned entry, and the resume starts at that speed instead of the
  speed the generator had (`lib/grbl/src/stepper.cpp:776`, `PrepRuns.EarlyStopJumps`). Positions are
  conserved all the same (`MotionSystem.MotionSystem.CycleStop`), and nothing else breaks the
  continuity of speed (`PrepRuns.ContinuousExactlyWhen`, `MotionSystem.MotionSystem.SpeedContinuous`).
* Reinitializing an empty buffer can move `block_buffer_planned` off the tail, against the comment at
  `lib/grbl/src/planner.cpp:107-111`: after a hold that comes too late to stop the only line before its
  end it does (`Planner.HoldPastTheEnd`). `RingQueue.PlannedStays` says exactly for which slots it does
  not, whatever earlier blocks left in them, and the next append repairs it
  (`Planner.BlockRing.Append`).
* A move along which the axis-limited rapid rate is below the minimum feed rate of 1 mm/min takes an
  axis beyond its max_rate at its nominal speed, and only such a move does
  (`AxisLimits.NominalWithinAxes`, `AxisLimits.SlowAxis`).
* An arc in inverse time mode is sent with its rate times the number of lines and without the flag, so
  the planner no longer multiplies by the length: it takes the commanded time exactly when its lines
  are 1 mm long on average, against the comment at `lib/grbl/src/motion_control.cpp:114-116`
  (`Arc.InverseTimeArc`).
* D and E words may repeat, any fraction of G49 is read as G49, and G words beyond 256 can be taken
  for others (`WordSpec.Tracked`, `WordSpec.Code`, `WordRules.FarNumber`; a number too large for
  its type is taken modulo 2^8 or 2^16).

## Model

| member | source | states |
|---|---|---|
| `PlanSpec.FullPlanOptimal` | lib/grbl/src/planner.cpp:69-99 | the full reverse-then-forward pass is a feasible plan (entries within their maxima, both acceleration inequalities at every junction, rest at the end) exactly when the tail can brake into the rest of the queue; when it cannot, no plan is feasible; and no feasible plan with the same tail entry is faster at any junction |
| `PlanSpec.BreakIsStable` | lib/grbl/src/planner.cpp:88-99 | a break point (a junction at its maximum, or one reached by strict full acceleration) keeps every entry up to it, and stays a break point, under every append |
| `PlanSpec.BreakBefore` | lib/grbl/src/planner.cpp:180-186 | the junction a strict full acceleration starts from is itself a break point |
| `PlanUpdate.PassEntryIsFwd` | lib/grbl/src/planner.cpp:134-196 | passes that start at the planned pointer, with the shortcut for blocks at their maximum, give each entry the value of the full pass from the tail |
| `PlanUpdate.RevEntryIsRev` | lib/grbl/src/planner.cpp:157-165 | the reverse pass may skip a block that sits at its maximum |
| `PlanUpdate.PassIsFull` | lib/grbl/src/planner.cpp:126-196 | a recalculation from a break point whose prefix is fully planned plans the whole queue |
| `PlanUpdate.PassEndsOnBreak` | lib/grbl/src/planner.cpp:189-193 | the planned pointer ends on a break point again |
| `PlanRun.AppendKeepsGood` | lib/grbl/src/planner.cpp:464-469 | appending and recalculating from the planned pointer keeps the plan equal to the full plan and the pointer on a break point |
| `PlanRun.ReplanIsGood` | lib/grbl/src/planner.cpp:516-522 | replanning from the current speed at the tail restores the full plan, even after a hold ran the tail slower than planned |
| `PlanRun.MovedKeepsGood` | lib/grbl/src/stepper.cpp:1093-1096 | executing a part of the tail, at any speed its acceleration and planned exit allow, keeps the rest of the plan the full plan |
| `PlanRun.FinishKeepsGood` | lib/grbl/src/planner.cpp:215-223 | discarding a finished tail, and pushing the planned pointer when it stood there, keeps the plan full |
| `PlanRun.CanStopInQueue` | lib/grbl/src/planner.cpp:142-187 | if every junction can be braked for, the squared speed at the tail is at most the sum of 2*a*d over the queue |
| `PlanRun.StepKeepsInv` | lib/grbl/src/planner.cpp:126-223 | append, partial execution, discard, hold and replanning each keep the planner invariant |
| `PlanRun.RunStaysOptimal` | lib/grbl/src/planner.cpp:126-196 | in every state of every run the queued distance is enough to stop, and unless a hold is pending the incrementally kept plan is the full plan: feasible, and the fastest feasible one from the current speed |
| `RingQueue.QueueRecalculated` | lib/grbl/src/planner.cpp:126-196 | passes that run over ring slots from the planned pointer, wrapping round, recalculate the queue seen from the tail, for every position of the queue in the ring |
| `RingQueue.ExecutedTailUntouched` | lib/grbl/src/planner.cpp:144-155 | a recalculation that starts behind the tail leaves a tail the stepper executes as it is |
| `RingQueue.FirstBlockCatchesPlanned` | lib/grbl/src/planner.cpp:169-195 | wherever in the ring the planned pointer was left, the first block of an empty buffer, which starts from rest, catches it |
| `RingQueue.PlannedStays` | lib/grbl/src/planner.cpp:169-195 | with nothing queued the passes run over all slots of the ring; they leave the planned pointer at the tail exactly when each further slot has a maximum entry above the summed reach of the slots from it on, no slot but the last is stored at its maximum, and the first is fast enough for what follows |
| `RingQueue.RestMovesPlanned` | lib/grbl/src/planner.cpp:169-195 | a slot other than the tail that still holds a block started from rest is enough to move the planned pointer |
| `RingQueue.StaysWhenSpent` | lib/grbl/src/planner.cpp:169-195 | where every slot has been executed to its end, the planned pointer stays at the tail exactly when each further slot has a positive maximum entry and none but the last is stored at it |
| `Planner.HoldPastTheEnd` | lib/grbl/src/planner.cpp:516-522 | the ring operations of a hold that comes too late to stop the only line before its end: the cycle stop then moves the planned pointer off the tail |
| `Planner.BlockRing.UpdatePlanBlockParameters` | lib/grbl/src/stepper.cpp:646-653 | the stepper is told to reload, and the executing block is entered at the current speed, exactly when a block is being prepped |
| `Planner.BlockRing.ReversePass` | lib/grbl/src/planner.cpp:134-167 | the in-place reverse loop computes the reverse pass of its window and tells the stepper exactly when the window starts at the executing tail |
| `Planner.BlockRing.ForwardPass` | lib/grbl/src/planner.cpp:169-195 | the in-place forward loop computes the forward pass of its window, and the planned pointer |
| `Planner.BlockRing.Recalculate` | lib/grbl/src/planner.cpp:126-196 | planner_recalculate on the ring, for every position of tail, head and planned pointer, including an empty buffer |
| `Planner.BlockRing.Append` | lib/grbl/src/planner.cpp:464-469 | the queue after an append is the old queue with the block, recalculated as the plan prescribes; ring order tail <= planned < head holds afterwards wherever the pointer stood in an empty ring; the stepper is told exactly when the tail is replanned |
| `Planner.BlockRing.DiscardCurrentBlock` | lib/grbl/src/planner.cpp:215-223 | the queue loses its tail and the planned pointer moves with it |
| `Planner.BlockRing.CycleReinitialize` | lib/grbl/src/planner.cpp:516-522 | the queue is fully replanned from the current speed; an empty ring stays valid, and keeps its planned pointer at the tail exactly when the passes stay |
| `Planner.BlockRing.ExecBlockExitSpeedSqr` | lib/grbl/src/planner.cpp:241-246 | the exit speed of the tail is the entry of its successor, or rest at the end of the queue |
| `Planner.NoStaleProfile` | lib/grbl/src/planner.cpp:144-155 | an append that does not tell the stepper changes neither the entry nor the exit speed of the executing block |
| `Limits.AxisCapIsLargest` | lib/grbl/src/nuts_bolts.cpp:155-165 | a value is within the cap exactly when it is at most SOME_LARGE_VALUE and keeps every axis component within its setting |
| `Limits.LimitByAxisMaximum` | lib/grbl/src/nuts_bolts.cpp:155-165 | the loop returns the largest value, up to SOME_LARGE_VALUE, that keeps every axis within its setting |
| `Limits.ToUnitVector` | lib/grbl/src/nuts_bolts.cpp:139-152 | the vector becomes a unit vector that, scaled by the returned length, is the old vector |
| `BufferLine.NominalIsLargest` | lib/grbl/src/planner.cpp:259-269 | exactly what the nominal speed is: x is at most the nominal speed if and only if it is at most the minimum feed rate of 1, or at most the programmed rate times the override that applies (rapid, feed, or none for a move flagged so) and, but for a rapid, at most the rapid rate |
| `BufferLine.NominalWithinRapidRate` | lib/grbl/src/planner.cpp:259-269 | the nominal speed is at most the axis-limited rapid rate exactly when that rate reaches the minimum feed rate and, for a rapid, its override is at most 100 percent |
| `BufferLine.RoundIsNearest` | lib/grbl/src/planner.cpp:369 | rounding yields the nearest integer, of two the one further from zero, and no other |
| `BufferLine.MaxEntryIsLeast` | lib/grbl/src/planner.cpp:274-280 | the maximum entry is the least of both squared nominal speeds and the junction limit |
| `BufferLine.JunctionSpeedSqr` | lib/grbl/src/planner.cpp:429-451 | the junction limit: none on a straight line, rest at a full reversal, otherwise the squared speed whose centripetal acceleration is what the axes allow along the bisector, on a circle that touches both lines and misses the corner by the junction deviation |
| `BufferLine.JunctionEnds` | lib/grbl/src/planner.cpp:429-437 | a line that goes straight on has no junction limit, and one that turns back starts from rest |
| `Corner.FormulaRounds` | lib/grbl/src/planner.cpp:438-451 | the half angle formula gives such a circle: its centre on the bisector, tangent to both lines |
| `Corner.OneCircle` | lib/grbl/src/planner.cpp:438-451 | and no other circle rounds the corner |
| `LinePlanner.Measure` | lib/grbl/src/planner.cpp:351-378 | the axis loop finds for every axis the step nearest to the target, measures each axis, the longest of them, and the distance vector |
| `LinePlanner.LimitLine` | lib/grbl/src/planner.cpp:383-389 | acceleration and rapid rate are the largest values their axis settings allow along the line |
| `LinePlanner.ProgrammedTime` | lib/grbl/src/planner.cpp:391-396 | a rapid is programmed as fast as its axes allow, a line in inverse time to take 1/F minutes, any other at its feed rate |
| `LinePlanner.LinePlanner.BufferLine` | lib/grbl/src/planner.cpp:315-472 | the position becomes, on every axis, the whole number of steps nearest to the target times steps per mm; if that moves it, one block is queued that carries the position there, within its limits, and the queue is replanned; otherwise nothing changes |
| `Kinematics.AcceleratingKeeps` | lib/grbl/src/stepper.cpp:935-945 | an acceleration step keeps v^2 + 2*a*d |
| `Kinematics.DeceleratingKeeps` | lib/grbl/src/stepper.cpp:964-970 | a deceleration step keeps v^2 - 2*a*d |
| `VelocityProfile.TargetIsFastest` | lib/grbl/src/stepper.cpp:814-881 | no motion that starts at the entry speed, respects acceleration and nominal speed and ends at the exit speed is faster than the target at any point of the block |
| `VelocityProfile.TargetChanges` | lib/grbl/src/stepper.cpp:814-881 | the target never changes faster than the acceleration allows, and the planned exit stays in reach of it |
| `VelocityProfile.TargetCapped` | lib/grbl/src/stepper.cpp:814-881 | the target stays at or below the nominal speed, or the entry speed while slowing down to it |
| `VelocityProfile.OnProfileMeetsTarget` | lib/grbl/src/stepper.cpp:799-882 | on every kind of profile the speed is the target speed |
| `ProfileSelection.SelectProfile` | lib/grbl/src/stepper.cpp:799-882 | the cases are exhaustive: for every followable block, held or not, the chosen breakpoints form a profile that starts at the current speed, keeps 0 <= decelerate_after <= accelerate_until <= mm where both are set, and ends at the planned exit |
| `RampStep.StepSlowing` | lib/grbl/src/stepper.cpp:920-932 | a step of the override deceleration stays on the profile |
| `RampStep.StepAccelerating` | lib/grbl/src/stepper.cpp:933-947 | an acceleration step stays on the profile, up to the peak or to cruising |
| `RampStep.StepCruising` | lib/grbl/src/stepper.cpp:948-961 | a cruising step stays on the profile, also when its time is negative |
| `RampStep.StepBraking` | lib/grbl/src/stepper.cpp:962-978 | a braking step stays on the profile and never passes its end |
| `RampStep.EndTimeIs` | lib/grbl/src/stepper.cpp:926-975 | the time to the end of a ramp is that of its mean speed, and the one in which the block acceleration makes the change of speed |
| `SegmentLength.StepPaced` | lib/grbl/src/stepper.cpp:918-978 | in a step of the profile, also one with negative time or overstated time, what is covered beyond the least distance is at most what the nominal speed makes in the time of the step |
| `SegmentGen.FollowProfile` | lib/grbl/src/stepper.cpp:909-991 | the loop ends, at the target speed of the distance it reached, either at the end of the profile with its exit speed, or after at least the distance of one step and at least one segment time; and no further beyond that distance than the nominal speed makes in one segment time |
| `RunLimits.PlanIsFollowable` | lib/grbl/src/stepper.cpp:799-882 | every plan a run can produce gives the executing block a profile: the exit is in reach and below the nominal speed |
| `RunLimits.SegmentAdvances` | lib/grbl/src/stepper.cpp:909-991 | a segment cut from the profile is a partial execution the plan allows, so |v^2 - exit^2| <= 2*a*mm holds at its end |
| `RunLimits.SegmentHolds` | lib/grbl/src/stepper.cpp:801-813 | a segment of a hold brakes at full deceleration |
| `AxisLimits.LineLimited` | lib/grbl/src/planner.cpp:383-396 | the block of a line has the largest rapid rate its axes allow along its direction; a rapid is programmed at it |
| `AxisLimits.OneDirection` | lib/grbl/src/planner.cpp:374-383 | direction and length of a block can be told from its signed steps alone |
| `AxisLimits.EventKeepsLimits` | lib/grbl/src/planner.cpp:315-472 | every queued and every loaded block stays so limited through append, load, publish and tick |
| `MotionSystem.MotionSystem.NoPointTooFast` | lib/grbl/src/planner.cpp:259-269 | with a rapid override of at most 100 percent and a rapid rate of at least the minimum feed rate, no point of an executed profile, in a hold or not, exceeds the max_rate of any axis |
| `AxisLimits.NominalWithinAxes` | lib/grbl/src/planner.cpp:259-269 | a move at its nominal speed keeps every axis within its max_rate exactly when the rapid rate along it reaches the minimum feed rate |
| `AxisLimits.SlowAxis` | lib/grbl/src/planner.cpp:259-269 | a move along an axis with max_rate 0.5 whose profile reaches twice that speed |
| `StepExtract.SegmentSteps` | lib/grbl/src/stepper.cpp:1026-1029 | the ceilings give a segment no negative step count, and at least one step once it reaches its least distance; the unprepped steps telescope |
| `StepExtract.LoadedMatches` | lib/grbl/src/stepper.cpp:764-767 | a freshly loaded block has exactly its step count to prepare |
| `PrepView.SegmentOk` | lib/grbl/src/stepper.cpp:909-1119 | cutting a segment keeps planner and generator consistent |
| `PrepView.BailOk` | lib/grbl/src/stepper.cpp:1031-1042 | a hold that ends without a step leaves block and step data as they are |
| `PrepView.TakenKeepsSteps` | lib/grbl/src/stepper.cpp:724-791 | taking a block over, or a replanned one up again, keeps the steps still to prepare, and the speed of a block under way |
| `PrepView.StartsWithoutJump` | lib/grbl/src/stepper.cpp:775-791 | a new block is started at the speed the tool has exactly when the plan agrees with that speed |
| `PrepRuns.EventKeeps` | lib/grbl/src/stepper.cpp:716-1121 | every event, the zero-step end of a hold included, keeps planner and generator consistent; only a cycle stop breaks the continuity of speed, and exactly when it comes between two blocks at a speed other than planned |
| `PrepRuns.SlowMeans` | lib/grbl/src/stepper.cpp:775-791 | in any run, the speed between two blocks differs from the planned one exactly when a block was cut to its end below the planned entry of the next, and the next has not been taken over since |
| `PrepRuns.StartsJump` | lib/grbl/src/stepper.cpp:775-791 | a block is started at another speed than the generator had exactly when no hold is on and the last block ended that slow |
| `PrepRuns.ContinuousExactlyWhen` | lib/grbl/src/stepper.cpp:716-1121 | through any run of lines, holds, stops, resumes, segments and bail-outs the speed is continuous exactly when no cycle stop comes after a block that ended slower than planned and before the next is taken over |
| `PrepRuns.EarlyStopJumps` | lib/grbl/src/stepper.cpp:775-776 | a family of runs in which the cycle stop comes between two blocks of a hold and the next block starts at its planned speed of 5: from any lower speed, from a standstill as well |
| `PrepView.StateSafe` | lib/grbl/src/stepper.cpp:716-1121 | in every consistent state the executing block is within its nominal speed, the queued distance is enough to stop from the current speed, and outside a hold the plan is the fastest feasible one |
| `Preparation.Preparation.TakeBlock` | lib/grbl/src/stepper.cpp:724-882 | loading continues at the speed the last block ended with, mid-hold as well, and computes the profile from the plan |
| `Preparation.Preparation.StoreSegment` | lib/grbl/src/stepper.cpp:1093-1119 | the distance left is written back, and a used-up block leaves the queue |
| `Preparation.Preparation.PrepareSegment` | lib/grbl/src/stepper.cpp:716-1121 | one round of st_prep_buffer takes a block over unless one is in hand, and cuts a segment or bails: these are events of the runs above; every published segment has at least one step, covers at least 1.25 steps unless its profile ends before, and at most what the nominal speed makes in 1/6000 minute beyond them; its steps come off the steps left of its block, and the block ends with all its steps prepared; it bails exactly in a hold that ends within the step under way |
| `Preparation.Preparation.StartHold` | lib/grbl/src/protocol.cpp:265-274 | a hold in a cycle makes the stepper reload the executing block from its current speed |
| `Preparation.Preparation.CycleStop` | lib/grbl/src/protocol.cpp:379-384 | the queue is replanned; a block under way goes on from the speed of the generator, and between two blocks the speed stays continuous exactly when it is the planned one |
| `Bresenham.TickCounts` | lib/grbl/src/stepper.cpp:420-430 | one tick at any level pulses an axis at most once, and counter and pulse count stay those of the progress made |
| `Bresenham.TicksAreWorth` | lib/grbl/src/stepper.cpp:1061-1068 | n steps at level l are n << l ticks worth the same progress |
| `Bresenham.WholeBlock` | lib/grbl/src/stepper.cpp:374-392 | however a block is cut and at whatever levels, every axis pulses exactly its steps and its counter returns to its start value |
| `Bresenham.NearLine` | lib/grbl/src/stepper.cpp:419-507 | at every tick the pulse count is within half a step of the ideal line |
| `StepMachine.EventKeeps` | lib/grbl/src/stepper.cpp:419-517 | append, load, publish and interrupt tick each conserve position and keep the published segments in step with their blocks |
| `StepMachine.RunConserves` | lib/grbl/src/stepper.cpp:419-517 | in every interleaving from a reset, sys_position plus the signed steps still owed is pl.position |
| `StepMachine.OwedSplits` | lib/grbl/src/stepper.cpp:1026-1029 | what is owed is what the live segments will step, plus the unprepped rest of the current block, plus the queued blocks |
| `StepMachine.DrainedRunArrives` | lib/grbl/src/planner.cpp:462 | once everything is drained both positions are equal |
| `SegmentRings.LoadSlotIsFree` | lib/grbl/src/stepper.cpp:745-761 | loading a block never overwrites a stepper block slot that a live segment refers to, although that ring is one slot smaller |
| `SegmentRings.IndexTellsBlock` | lib/grbl/src/stepper.cpp:372-380 | a change of slot index at the tail means a change of block, and no change means none; the slot holds that block's data |
| `SegmentRings.PublishedShows` | lib/grbl/src/stepper.cpp:1089-1091 | publishing adds exactly the prepared segment behind the live ones, which stay as they are |
| `SegmentRings.TickShows` | lib/grbl/src/stepper.cpp:419-517 | a tick changes the live segments only by its own tick and consumes them in order |
| `Stepper.Stepper.constructor` | lib/grbl/src/stepper.cpp:578-604 | after a reset the rings are those of an empty machine at the given position |
| `Stepper.Stepper.LoadBlock` | lib/grbl/src/stepper.cpp:742-761 | the block data goes into a free slot: the rings show the machine with one more block loaded |
| `Stepper.Stepper.WriteSegment` | lib/grbl/src/stepper.cpp:889-893 | filling the head slot is invisible to the interrupt |
| `Stepper.Stepper.PublishSegment` | lib/grbl/src/stepper.cpp:1089-1091 | moving the head makes the segment the last live one |
| `Stepper.Stepper.BeginSegment` | lib/grbl/src/stepper.cpp:354-393 | counters are set anew exactly when the block really changes |
| `Stepper.Stepper.Interrupt` | lib/grbl/src/stepper.cpp:350-521 | the interrupt makes one tick of the machine, or reports the cycle stop exactly when no segment is live |
| `MotionLink.LinkedTaken` | lib/grbl/src/stepper.cpp:732-791 | a block is loaded into the stepper exactly when it is new, not when only its profile is recomputed |
| `MotionLink.CarriesPosition` | lib/grbl/src/planner.cpp:369-377 | a block's signed steps carry pl.position from one target to the next |
| `MotionSystem.PowerUp` | lib/grbl/src/stepper.cpp:578-604 | planner, generator and stepper as a reset leaves them form a consistent system at rest with nothing queued |
| `MotionSystem.MotionSystem.Line` | lib/grbl/src/planner.cpp:315-472 | a line keeps planner, generator and stepper consistent, position conserved and every block within its rate limits; pl.position is, on every axis, the whole number of steps nearest to the target |
| `MotionSystem.MotionSystem.Prepare` | lib/grbl/src/stepper.cpp:716-1121 | a round of st_prep_buffer does, at any level its timing gives; it does nothing exactly at the end of a motion or without a block, and a segment comes in behind the others with its steps |
| `MotionSystem.MotionSystem.Interrupt` | lib/grbl/src/stepper.cpp:350-521 | so does the interrupt, between any two of them, and it reports the stop exactly when no segment is live |
| `MotionSystem.MotionSystem.StartHold` | lib/grbl/src/protocol.cpp:265-274 | so does the start of a feed hold |
| `MotionSystem.MotionSystem.CycleStop` | lib/grbl/src/protocol.cpp:379-384 | so does the cycle stop, whenever it is raised; the speed stays continuous exactly when, in the recorded run, the block after a slow end has been taken over |
| `MotionSystem.MotionSystem.SpeedContinuous` | lib/grbl/src/stepper.cpp:716-1121 | whatever the system has done since power-up, the speed was continuous throughout exactly when no cycle stop came between a slow end and the next block |
| `MotionSystem.MotionSystem.CycleStart` | lib/grbl/src/protocol.cpp:351-367 | so does the resume |
| `MotionSystem.MotionSystem.Arrives` | lib/grbl/src/planner.cpp:462 | whatever happened in whatever order, once queue and segment buffer are empty the motors stand where the planner believes they are |
| `RealtimeSafety.StepKeepsMotion` | lib/grbl/src/protocol.cpp:260-405 | every step keeps: a moving stepper or a waiting cycle stop excludes a completed hold |
| `RealtimeChain.StepKeepsChain` | lib/grbl/src/protocol.cpp:293-405 | every step keeps the order of the suspend flags relative to where the restore stands, late restores included |
| `RealtimeChain.LateExactlyWhenResumed` | lib/grbl/src/protocol.cpp:717-720 | the end of a restore finds its initiation called off exactly when the program was resumed during it |
| `RealtimeChain.ChainedExactlyWhen` | lib/grbl/src/protocol.cpp:549-723 | RESTORE_COMPLETE => INITIATE_RESTORE => RETRACT_COMPLETE => HOLD_COMPLETE holds exactly when RESTORE_COMPLETE was not left by a late restore |
| `RealtimeChain.HoldInDoor` | lib/grbl/src/protocol.cpp:260-323 | a door that opens again during a restore starts the retract again; beyond that hold commands in the door state only note an open door and a cancelled motion |
| `RealtimeDoor.StepKeepsDoor` | lib/grbl/src/protocol.cpp:334-371 | a step from the door state to a cycle or to idle finds hold, de-energizing, closed door and RESTORE_COMPLETE, and a restore since the door was open exactly when the flag is not that of a late restore |
| `RealtimeRuns.StopsBeforeReturn` | lib/grbl/src/protocol.cpp:333-405 | in every run, a cycle is entered only when the stepper has stopped and its cycle stop is handled |
| `RealtimeHold.HoldState` | lib/grbl/src/protocol.cpp:260-331 | the state any combination of hold commands leads to, by precedence: sleep, an alarm or check mode, the door unless a jog is being cancelled, and a feed hold, which neither a jog nor an open door takes |
| `RealtimeHold.HoldFlags` | lib/grbl/src/protocol.cpp:260-331 | what hold commands leave noted: an idle system has nothing to wait for, motion cancel and an open door are remembered, a jog is cancelled, the command flags are cleared |
| `RealtimeHold.NoHoldInAlarm` | lib/grbl/src/protocol.cpp:260-331 | an alarm and check mode drop every hold command but sleep, and from an alarm the system sleeps as if held and retracted |
| `RealtimeHold.HoldKeepsRestore` | lib/grbl/src/protocol.cpp:293-321 | outside the door state no hold command touches retract and restore |
| `RealtimeHold.StartTaken` | lib/grbl/src/protocol.cpp:334-371 | a cycle start that no hold command blocks runs a cycle from a system that is ready (idle, a complete hold without spindle stop, a restored closed door) if a block is queued and the motion was not cancelled, and else returns to idle; from a spindle stop it asks for the spindle, from a closed door for the restore, and otherwise changes nothing |
| `RealtimeHold.SpindleStops` | lib/grbl/src/protocol.cpp:455-466 | the spindle stop override of a hold stops a running spindle, and asked for again restores it without resuming the program |
| `RealtimeHold.SpindleOnlyInHold` | lib/grbl/src/protocol.cpp:458-465 | outside a feed hold the spindle stop override does nothing |
| `RealtimeHold.RoundParks` | lib/grbl/src/protocol.cpp:549-760 | a round of the suspend loop waits for the hold; in a door or sleep state it first de-energizes, then looks at the door unless asleep, and restores what was asked for |
| `RealtimeHold.SpindleRestored` | lib/grbl/src/protocol.cpp:725-768 | a cycle start during a spindle stop restores the spindle and is given again to a hold that is ready |
| `RealtimeHold.RestoreDelays` | lib/grbl/src/protocol.cpp:674-716 | a restart delay is waited for exactly the devices that were on, and none once the door has opened again |
| `RealtimeRuns.HoldIsExecuted` | lib/grbl/src/protocol.cpp:263-274 | in every run, while the tool moves or its stop waits, a hold, door or sleep state has STEP_CONTROL_EXECUTE_HOLD set; a cycle or jog is in motion |
| `RealtimeRuns.HoldIsTaken` | lib/grbl/src/protocol.cpp:260-331 | in every run, a pass in motion with any hold flag raised, and no stop to handle, leaves the deceleration on and the state of the command that takes precedence |
| `RealtimeRuns.StopIsHandled` | lib/grbl/src/protocol.cpp:373-405 | in every run, the pass that handles a cycle stop completes the hold, or leaves an idle system that is not suspended |
| `RealtimeRuns.HoldIsResumed` | lib/grbl/src/protocol.cpp:351-367 | in every run, a complete hold is resumed by a cycle start, with the stepper running if a block is queued and the motion was not cancelled |
| `RealtimeRuns.LateExactlyWhen` | lib/grbl/src/protocol.cpp:674-720 | in every run, a restore that runs to its end is late exactly when a cycle start resumed the program in one of its delays |
| `RealtimeRuns.ChainKeptExactlyWhen` | lib/grbl/src/protocol.cpp:549-723 | the chain holds throughout a run exactly when no restore in it runs to its end after such a resume |
| `RealtimeRuns.DoorPassedInOrder` | lib/grbl/src/protocol.cpp:334-371 | in every run SAFETY_DOOR is left for a cycle or idle only after hold, de-energizing and closed door, all since the door was last reported open, with the stepper at rest; and after a restore since then exactly when the last restore to end was not resumed in one of its delays |
| `RealtimeTrace.ChainCanBreak` | lib/grbl/src/protocol.cpp:674-720 | a run of thirty events in which such a resume leaves RESTORE_COMPLETE set alone, and the next door event is passed without a restore |
| `Realtime.Realtime.Hold` | lib/grbl/src/protocol.cpp:262-323 | the hold commands on the fields of sys are the transition the runs are about |
| `Realtime.Realtime.Start` | lib/grbl/src/protocol.cpp:333-371 | so is cycle start |
| `Realtime.Realtime.Stop` | lib/grbl/src/protocol.cpp:373-405 | so is cycle stop |
| `Realtime.Realtime.ExecRtSystem` | lib/grbl/src/protocol.cpp:217-405 | so is a whole pass |
| `Realtime.Realtime.SuspendRound` | lib/grbl/src/protocol.cpp:549-654 | so is a round of the suspend loop |
| `Realtime.Realtime.EndRestore` | lib/grbl/src/protocol.cpp:717-720 | so is the end of a restore |
| `Rotation.ApproximationNorm` | lib/grbl/src/motion_control.cpp:150-153 | one rotation scales the squared radius by 1 - theta^4/12 + theta^6/36 |
| `Rotation.ApproximationError` | lib/grbl/src/motion_control.cpp:150-153 | the approximations miss cosine and sine, together, by at most theta^4/20, for theta^2 <= 1 |
| `Rotation.StrayStep` | lib/grbl/src/motion_control.cpp:161-166 | each rotation adds at most that to the distance, relative to the radius, from the exact point |
| `Rotation.DriftBound` | lib/grbl/src/motion_control.cpp:161-176 | after at most twelve rotations r^2*(1 - theta^4) <= |r_i|^2 <= r^2, for theta^2 <= 1 |
| `Arc.Corrected` | lib/grbl/src/motion_control.cpp:99-104 | the corrected angle has the sign of the direction, is the same angle up to a full turn, and is a full turn where it is within epsilon of none |
| `Arc.AngularTravel` | lib/grbl/src/motion_control.cpp:88-104 | the travel turns the start about the centre onto the target, where both are at the same distance, in the commanded direction |
| `Arc.IntermediateLines` | lib/grbl/src/motion_control.cpp:161-188 | for theta^2 <= 1 the end of line i is within 0.6*theta^4 radii of the start turned by i*theta about the centre, and inside the circle by at most that bound; it is exactly there at every thirteenth line, and always on the helix; all lines are sent unless the system aborts |
| `Arc.Arc` | lib/grbl/src/motion_control.cpp:88-192 | the centre is the position plus the offset, the lines are those of the corrected angle cut into segments, and unless aborted the move ends with a line to the exact target |
| `Arc.InverseTimeArc` | lib/grbl/src/motion_control.cpp:113-120 | an arc in inverse time takes 1/F minutes exactly when its lines are 1 mm long on average |
| `ArcCenter.RadiusFormat` | lib/grbl/src/gcode.cpp:746-782 | an error exactly when the radius is shorter than half the travel; otherwise the centre is at distance |R| from start and target, on the side of travel that section 3.5.3.1 of NIST RS274/NGC version 3 asks for |
| `ArcCenter.CenterIsUnique` | lib/grbl/src/gcode.cpp:746-782 | there is only one such point |
| `Decimal.ReadFloat` | lib/grbl/src/nuts_bolts.cpp:34-107 | read_float returns sign and value of the longest numeral and leaves the cursor behind it; without a digit it fails and leaves the cursor |
| `Decimal.NumeralRead` | lib/grbl/src/nuts_bolts.cpp:34-107 | behind one optional sign, all digits around one optional point are read and nothing else; there is no number exactly when there is no digit, and a minus negates |
| `Decimal.ReadingError` | lib/grbl/src/nuts_bolts.cpp:56-95 | up to eight digits the value is exact; otherwise it is short of it by less than one unit of the eighth digit |
| `Decimal.LongNumeral` | lib/grbl/src/nuts_bolts.cpp:60-65 | of a longer numeral exactly the first eight digits count, at the right power of ten |
| `Decimal.DigitsDenote` | lib/grbl/src/print.cpp:148-161 | the digits printed denote the rounded number |
| `Decimal.PrintFloat` | lib/grbl/src/print.cpp:133-168 | printFloat sends sign, digits and point of the rounded number |
| `Decimal.RoundTrip` | lib/grbl/src/print.cpp:133-168 | with at most eight digits printed, reading back gives sign(n)*floor(|n|*10^d + 1/2)/10^d and the cursor just past the number |
| `Words.Parser.SwitchG` | lib/grbl/src/gcode.cpp:143-232 | the switch over G words recognizes exactly the commands of Table 4 of NIST RS274/NGC version 3 that Grbl supports, with the group, setting and refusal the table gives |
| `Words.Parser.ReadG` | lib/grbl/src/gcode.cpp:141-239 | a G word is refused for an axis conflict, for not being in the table, or for its group, in that order |
| `Words.Parser.ReadM` | lib/grbl/src/gcode.cpp:241-293 | an M word of the table is tracked in its group; any other is let through and tracked by the bit last used |
| `Words.Parser.ReadValue` | lib/grbl/src/gcode.cpp:296-335 | a value word is stored once; negative F, N, P, T, S and a T above 255 are refused |
| `Words.Parser.ParseWords` | lib/grbl/src/gcode.cpp:61-337 | the loop reads the line word by word; the program's own modes are never written |
| `WordRules.AcceptedLine` | lib/grbl/src/gcode.cpp:117-337 | an accepted line, of any length, has no two command words of one modal group, at most one axis-using command, and no repeated value letter but D and E |
| `WordRules.FoldExactly` | lib/grbl/src/gcode.cpp:141-335 | reading words from any point of a line succeeds exactly when each is legal by itself, fits what was read before, and no two of them clash |
| `WordRules.AcceptedExactlyWhen` | lib/grbl/src/gcode.cpp:117-337 | a line is accepted exactly when it is made of words, each legal by itself, and no two of them both use axes or are tracked by the same bit, where an M word from outside the table is tracked by the bit used last |
| `WordRules.AcceptedByTable` | lib/grbl/src/gcode.cpp:117-337 | without M words from outside the table that is: no two words of one modal group or of one value letter, in any order |
| `WordRules.FoldModes` | lib/grbl/src/gcode.cpp:141-293 | each group ends in the mode its one word sets, and a group without a word keeps its mode |
| `WordValues.FoldValues` | lib/grbl/src/gcode.cpp:296-335 | each value letter keeps the value of the last word with it |
| `WordValues.FoldAxes` | lib/grbl/src/gcode.cpp:154-335 | axis words and offsets are flagged exactly where the line has them, and the axis command is that of its one word that uses axes |
| `WordValues.StoredIs` | lib/grbl/src/gcode.cpp:296-319 | which letters keep their value and which only its integer part |
| `WordValues.NumberParts` | lib/grbl/src/gcode.cpp:132-134 | the integer part of a word is cut towards zero and taken modulo 2^8, the hundredths above it are rounded to the nearest and taken modulo 2^16 |
| `WordValues.AxisUsers` | lib/grbl/src/gcode.cpp:143-232 | which commands of the table use axis words, and for what |
| `WordValues.SupportedCommands` | lib/grbl/src/gcode.cpp:143-234 | the G words that are supported, fractions included, and no others |
| `WordValues.LoneGroups` | lib/grbl/src/gcode.cpp:143-232 | the groups without a mode: G40, G61 and G91.1 stand alone, and G and M words share no group |
| `WordValues.GroupsM` | lib/grbl/src/gcode.cpp:246-271 | two M words exclude each other exactly when both are program flow, spindle or coolant words |
| `WordValues.ModeNumbers` | lib/grbl/src/gcode.cpp:143-232 | the numbers of the modes the commands of the table set |
| `WordValues.StartModes` | lib/grbl/src/gcode.cpp:74-110 | a jogging line starts in G1 and G94, any other in the modes of the program |
| `WordValues.ReadFrom` | lib/grbl/src/gcode.cpp:90-115 | a jogging line is read behind its $J=, any other from its first character |
| `WordValues.WordOrNot` | lib/grbl/src/gcode.cpp:115-123 | what is no word is refused as a missing letter or a bad number, in this order, and a word hands the line on to what is behind its number |
| `WordValues.ValueRefused` | lib/grbl/src/gcode.cpp:296-335 | which reason a value word is refused for |
| `WordValues.CommandRefused` | lib/grbl/src/gcode.cpp:143-239 | which reason a G word is refused for: an axis conflict comes first, the group last |
| `WordValues.RefusalIs` | lib/grbl/src/gcode.cpp:143-235 | a fraction is no integer value where the command exists without it and takes none at all, and an unsupported command otherwise |
| `WordValues.MachineRefused` | lib/grbl/src/gcode.cpp:242-292 | an M word is refused exactly for a fraction, or for a second word of its group |
| `WordRules.SameWordsSameModes` | lib/grbl/src/gcode.cpp:117-337 | accepted lines with the same words leave the same modes, whatever the order |
| `WordRules.ReadAsWritten` | lib/grbl/src/gcode.cpp:132-134 | a G word that can be accepted is read as the number written exactly when that number is between -256 and 256 |
| `WordRules.FarNumber` | lib/grbl/src/gcode.cpp:132-134 | farther out it can be taken for another command: G16385 is read as G1 |

## Left out

- `MotionSystem.MotionSystem.Prepare`: takes the AMASS level of each segment as given. Segment timing (cycles_per_tick, dt_remainder) is not modelled, and but for the distance a segment covers nothing is claimed about elapsed time: at `lib/grbl/src/stepper.cpp:925` and `:940` it is measured from the start of the segment, so it is overstated in a segment that is stretched.
- `RampStep.StepBraking`: a hold that ends exactly where it starts divides zero by zero at `lib/grbl/src/stepper.cpp:975`; the model takes some time for it, and the code bails before it is used.
- `PrepRuns.ContinuousExactlyWhen`: the speed is the one the generator plans with. When the interrupt runs out of segments the tool stops dead; that is not a speed of the model.
- Override changes (`plan_update_velocity_profile_parameters`): after one, the shortcut at `lib/grbl/src/planner.cpp:158` can skip a block whose successor was lowered, so the plan properties are stated for runs without them.
- System motions, homing, probing, jogging, soft limits and parking beyond their calls into the planner; a jog cancel's flush of both buffers. Alarms are raised in idle only, and a reset ends a run.
- Error checking and execution of a parsed line (steps 3 and 4 of `gc_execute_line`), apart from the radius-format centre: the number of segments of an arc, and arcs whose in-plane endpoints are equal, which divide by zero.
- Fixed widths: 16-bit n_step, 32-bit steps and positions, 8-bit exponent and digit counts in `read_float`, the 13-character buffer of `printFloat`. Floating-point rounding; 0.16666667 is read as 1/6.
- Spindle and laser output in the generator and the interrupt, step pulses, direction pins and timers.
- The other step control bits: the ones kept are EXECUTE_HOLD and END_MOTION.
- EEPROM, reports, `$` commands and communication.
