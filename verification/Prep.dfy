/** The stepper's preparation state, which the planner also touches. */
module Prep {

  datatype Ramp = Accel | Cruise | Decel | DecelOverride

  /** The velocity profile of the block being prepped.  Distances are measured from its end. */
  datatype Profile = Profile(
    ramp: Ramp,             // ramp_type
    acc: real,              // accelerate_until
    dec: real,              // decelerate_after
    vmax: real,             // maximum_speed
    exit: real,             // exit_speed
    complete: real)         // mm_complete

  /** pl_block and the prep struct of the segment generator. */
  class PrepState {
    var plBlock: int              // ring index of the block being prepped, -1 when NULL
    var recalculate: bool         // PREP_FLAG_RECALCULATE
    var decelOverride: bool       // PREP_FLAG_DECEL_OVERRIDE
    var stepsRemaining: real
    var stepPerMm: real
    var reqMmIncrement: real
    var rampType: Ramp
    var mmComplete: real
    var currentSpeed: real        // speed at the end of the segment buffer
    var maximumSpeed: real
    var exitSpeed: real
    var accelerateUntil: real
    var decelerateAfter: real

    constructor ()
      ensures plBlock == -1 && !recalculate && !decelOverride && currentSpeed == 0.0 && exitSpeed == 0.0
    {
      plBlock, recalculate, decelOverride, currentSpeed := -1, false, false, 0.0;
      stepsRemaining, stepPerMm, reqMmIncrement := 0.0, 0.0, 0.0;
      rampType, mmComplete, maximumSpeed, exitSpeed, accelerateUntil, decelerateAfter := Accel, 0.0, 0.0, 0.0, 0.0, 0.0;
    }

    ghost function Shape(): Profile
      reads this
    {
      Profile(rampType, accelerateUntil, decelerateAfter, maximumSpeed, exitSpeed, mmComplete)
    }
  }
}
