/**
 * Vendor motor controllers (REV `SparkMax`, CTRE `TalonFX`) seen from the robot
 * code: an object with sensor readings, the last closed-loop reference it was
 * given, the configuration applied to it and how often it was disabled.
 * What the controller does with a reference (its closed loop) is not modelled;
 * sensor readings change only when the code zeroes them.
 */
module Devices {

  datatype Option<T> = None | Some(value: T)

  /**
   * The configuration objects built once in `Configs.java`, one opaque value
   * per vendor profile; `FactoryDefaults` is what a freshly created controller holds.
   */
  datatype Config =
    | FactoryDefaults
    | NeoDrivingConfig
    | KrakenX60DrivingConfig
    | KrakenX60FocDrivingConfig
    | FalconDrivingConfig
    | Neo550TurningConfig
    | FalconTurningConfig
    | ClimberConfig

  /** What the hardware reports when a controller object is created: encoder position and velocity. */
  datatype Reading = Reading(position: real, velocity: real)

  /** One motor controller and its encoder. */
  class Device {
    const canId: int
    var config: Config
    var position: real
    var velocity: real
    /** The closed-loop target in force, in the controller's own units; None once disabled. */
    var reference: Option<real>
    /** Whether the last velocity request asked for field-oriented commutation. */
    var foc: bool
    var disabledCount: nat

    /** `new SparkMax(id, ...)` / `new TalonFX(id)`: a controller that reports `sensed` and has no target. */
    constructor (canId: int, sensed: Reading)
      ensures this.canId == canId && config == FactoryDefaults
      ensures position == sensed.position && velocity == sensed.velocity
      ensures reference == None && !foc && disabledCount == 0
    {
      this.canId := canId;
      config := FactoryDefaults;
      position := sensed.position;
      velocity := sensed.velocity;
      reference := None;
      foc := false;
      disabledCount := 0;
    }

    /** `configure(...)` / `getConfigurator().apply(...)`. */
    method Configure(c: Config)
      modifies this`config
      ensures config == c
    {
      config := c;
    }

    /** `getEncoder().setPosition(p)` / `setPosition(p)`: redefine the encoder's current position. */
    method SetPosition(p: real)
      modifies this`position
      ensures position == p
    {
      position := p;
    }

    /** `disable()`: drop the closed-loop target in force. */
    method Disable()
      modifies this`reference, this`disabledCount
      ensures reference == None
      ensures disabledCount == old(disabledCount) + 1
    {
      reference := None;
      disabledCount := disabledCount + 1;
    }

    /** A position request (`setReference(p, kPosition)` / `setControl(new PositionVoltage(p))`). */
    method SetPositionReference(p: real)
      modifies this`reference
      ensures reference == Some(p)
    {
      reference := Some(p);
    }

    /** A velocity request (`setReference(v, kVelocity)` / `setControl(new VelocityVoltage(v))`). */
    method SetVelocityReference(v: real, withFoc: bool)
      modifies this`reference, this`foc
      ensures reference == Some(v) && foc == withFoc
    {
      reference := Some(v);
      foc := withFoc;
    }
  }
}
