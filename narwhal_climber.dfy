/**
 * The Narwhal robot's climber (`frc.robot.subsystems.narwhal.NarwhalClimber`):
 * one SparkMax in position control and a mode recording the last operation.
 * Every operation sends exactly one position reference and then sets the mode.
 */
module Narwhal {
  import opened Angles
  import opened Devices

  /** `NarwhalClimberState`. */
  datatype NarwhalClimberState = Starting | Custom | Holding | Deploying | Climbing

  /** The D-pad values the operator mapping reacts to. */
  const PovUp: int := 0
  const PovRight: int := 90

  class NarwhalClimber {
    var currentState: NarwhalClimberState
    /** The climber's SparkMax; its reference is what `climberPID.setReference` last set. */
    const climber: Device
    /** `NarwhalClimberConstants.DEPLOYED_ANGLE` and `CLIMB_ANGLE`, in degrees. */
    const deployedAngle: int
    const climbAngle: int
    /** Every position reference sent to the climber, in rotations, oldest first. */
    var references: seq<real>

    /**
     * `new NarwhalClimber()`: a configured SparkMax on `canId` (`CLIMBER_CAN_ID`) whose encoder
     * reports `sensed`, mode STARTING, no reference sent.
     */
    constructor (canId: int, deployedAngle: int, climbAngle: int, sensed: Reading)
      ensures currentState == Starting && references == []
      ensures fresh(climber) && climber.canId == canId && climber.config == ClimberConfig
      ensures climber.reference == None && climber.position == sensed.position
      ensures this.deployedAngle == deployedAngle && this.climbAngle == climbAngle
    {
      var motor := new Device(canId, sensed);
      motor.Configure(ClimberConfig);
      climber := motor;
      this.deployedAngle := deployedAngle;
      this.climbAngle := climbAngle;
      references := [];
      currentState := Starting;
    }

    /** The effect of `setReference(target, kPosition)` followed by setting the mode to `mode`. */
    twostate predicate Commanded(target: real, mode: NarwhalClimberState)
      reads this, climber
    {
      && references == old(references) + [target]
      && climber.reference == Some(target)
      && currentState == mode
      && climber.position == old(climber.position)
    }

    /** `setCurrentMotorAngle(targetAngle)`: go to `targetAngle` (degrees), in rotations; mode CUSTOM. */
    method SetCurrentMotorAngle(targetAngle: int)
      modifies this`references, this`currentState, climber`reference
      ensures Commanded(Rotations(targetAngle), Custom)
    {
      var targetAngleRotations := Rotations(targetAngle);
      climber.SetPositionReference(targetAngleRotations);
      references := references + [targetAngleRotations];
      currentState := Custom;
    }

    /** `hold`: stay at the encoder's present position; mode HOLDING. */
    method Hold()
      modifies this`references, this`currentState, climber`reference
      ensures Commanded(climber.position, Holding)
    {
      var here := climber.position;
      climber.SetPositionReference(here);
      references := references + [here];
      currentState := Holding;
    }

    /** `goToDeploy`: go to the deployed angle; the mode ends DEPLOYING because it is set after the setter's CUSTOM. */
    method GoToDeploy()
      modifies this`references, this`currentState, climber`reference
      ensures Commanded(Rotations(deployedAngle), Deploying)
    {
      SetCurrentMotorAngle(deployedAngle);
      currentState := Deploying;
    }

    /** `climb`: go to the climb angle; mode CLIMBING. */
    method Climb()
      modifies this`references, this`currentState, climber`reference
      ensures Commanded(Rotations(climbAngle), Climbing)
    {
      SetCurrentMotorAngle(climbAngle);
      currentState := Climbing;
    }

    /** `runXBoxController`: POV 0 deploys, POV 90 climbs, any other value does nothing. */
    method RunXBoxController(pov: int)
      modifies this`references, this`currentState, climber`reference
      ensures pov == PovUp ==> Commanded(Rotations(deployedAngle), Deploying)
      ensures pov == PovRight ==> Commanded(Rotations(climbAngle), Climbing)
      ensures pov != PovUp && pov != PovRight ==>
                currentState == old(currentState) && references == old(references) && climber.reference == old(climber.reference)
    {
      if pov == PovUp {
        GoToDeploy();
      }
      if pov == PovRight {
        Climb();
      }
    }
  }

  /** Holding twice leaves the climber in the same mode with the same target as holding once. */
  method HoldTwice(c: NarwhalClimber)
    modifies c`references, c`currentState, c.climber`reference
    ensures c.currentState == Holding && c.climber.reference == Some(old(c.climber.position))
    ensures c.references == old(c.references) + [old(c.climber.position), old(c.climber.position)]
  {
    c.Hold();
    ghost var once := (c.currentState, c.climber.reference);
    c.Hold();
    assert (c.currentState, c.climber.reference) == once;
  }
}
