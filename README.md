# Swerve module and Narwhal climber, modelled in Dafny

This project models two stateful controllers of a FRC robot program.

**The swerve module** (`SwerveModule`) drives one corner of a swerve chassis. It has a
driving motor of one of four variants (NEO, Kraken X60, Kraken X60 with FOC, Falcon) and
a turning motor of one of two variants (NEO 550, Falcon). Each variant has its own
controller field; the fields `activeDrivingMotor` and `activeTurningMotor` say which
controller every read and command goes to. The module can swap a variant at run
time: disable the old controller, create and configure a new one, then record the
new variant. The per-tick entry point `setState` works in three steps. It optimises
the target so that the wheel never turns more than a quarter turn. It keeps the
current heading when the optimised speed is below 0.001 m/s. It then sends one
velocity request to the driving controller and one position request, with the
mounting offset added, to the turning controller.

**The climber** (`NarwhalClimber`) is a small mode machine with the modes STARTING, CUSTOM,
HOLDING, DEPLOYING and CLIMBING. Each operation sends one position reference to the
climber's controller and sets the mode. The operator mapping looks only at the
D-pad (POV) value.

Files:

- `angles.dfy` (module `Angles`): headings as whole degrees. `Normalize` gives the canonical
  form in (-180, 180] that `Rotation2d.plus`/`minus` produce. It also has the conversions to
  rotations and radians.
- `module_states.dfy` (module `ModuleStates`): WPILib's `SwerveModuleState`/`SwerveModulePosition`
  records and the heading optimiser.
- `devices.dfy` (module `Devices`): a vendor motor controller as a small class. Its fields are
  position, velocity, the closed-loop `reference` in force, the `foc` flag, the applied `config`
  and `disabledCount`.
- `swerve_module.dfy` (module `Swerve`): the variant enumerations and the turning-unit
  conversions, corrected and as written. It also holds the corrected target of `setState` and the
  `SwerveModule` class. The class has one nullable `Device` field per variant and a `log` of every
  hardware command in issue order.
- `narwhal_climber.dfy` (module `Narwhal`): the `NarwhalClimber` class and its log of position
  references.

Modelling choices:

- Headings are integers (degrees), not floating-point radians.
- A heading read from a controller is the floor of its real-valued position. The NEO 550 reports
  in the model's heading unit, standing for the radians the robot configures. The Falcon reports
  in mechanism rotations.
- Speeds and controller quantities are Dafny `real`s, which are exact.
- Constants defined in `Constants.java` are constructor parameters, because that file is not part
  of this model. These are the default variants, the CAN ids, `DEPLOYED_ANGLE` and `CLIMB_ANGLE`.
- When a controller is created, whatever its encoder reports is passed in as a `Reading`.
- `SwerveModuleState.optimize` is WPILib library code, outside the robot code modelled here. The model
  takes this as an assumption: it is the rule the comment at its call site states, in its usual
  form. When the canonical difference between target and current heading is more than 90
  degrees, the speed is negated and the target is turned by 180 degrees.

Two points about the code that the model keeps:

- The code has no failure path when configuring a new controller during a hot swap, so the model
  has none.
- Headings are canonical in (-180, 180], the range `Rotation2d`'s atan2 form produces.

The one exception to following the code is the Falcon turning conversion. It is a defect (see
Findings). The model records it as written and uses the corrected conversion in the class.

## Model

| member | source | states |
|---|---|---|
| Angles.Normalize | src/main/java/frc/robot/subsystems/SwerveModule.java:159 | the canonical heading lies in (-180, 180] and is a whole number of turns away from its input |
| Angles.NormalizeUnique | src/main/java/frc/robot/subsystems/SwerveModule.java:159 | any heading in (-180, 180] that is a whole number of turns from `a` is the canonical form of `a` |
| Angles.NormalizeCongruent | src/main/java/frc/robot/subsystems/SwerveModule.java:159 | two headings have the same canonical form exactly when they are a whole number of turns apart |
| Angles.NormalizeSum | src/main/java/frc/robot/subsystems/SwerveModule.java:167 | adding an offset to a canonical heading and normalising gives the canonical form of the plain sum |
| Angles.NormalizeCanonical | src/main/java/frc/robot/subsystems/SwerveModule.java:159 | a heading already in (-180, 180] is its own canonical form |
| Angles.Rotations | src/main/java/frc/robot/subsystems/narwhal/NarwhalClimber.java:74 | the result times 360 is the heading in degrees (`getRotations`) |
| Angles.Radians | src/main/java/frc/robot/subsystems/SwerveModule.java:173 | the result times 180 is the heading in degrees times pi (`getRadians`) |
| ModuleStates.RotationNeeded | src/main/java/frc/robot/subsystems/SwerveModule.java:348-350 | the short-way steering distance is at most 180 degrees, and it is 0 exactly when the headings coincide modulo a turn |
| ModuleStates.Optimize | src/main/java/frc/robot/subsystems/SwerveModule.java:350 | the optimiser itself; it carries no ensures of its own: `OptimizeWithinQuarterTurn`, `OptimizePreservesMotion`, `OptimizeShortensSteering` and `OptimizeIdempotent` state its properties |
| ModuleStates.OptimizeWithinQuarterTurn | src/main/java/frc/robot/subsystems/SwerveModule.java:348-350 | for every target and current heading, the optimised heading is at most 90 degrees from the current one |
| ModuleStates.OptimizePreservesMotion | src/main/java/frc/robot/subsystems/SwerveModule.java:350 | the optimised state moves the chassis the same way: either unchanged, or the speed reversed and the heading opposite; the speed magnitude is kept |
| ModuleStates.OptimizeShortensSteering | src/main/java/frc/robot/subsystems/SwerveModule.java:348-350 | optimising never lengthens the steering motion; when the target is more than 90 degrees away, the reversed target needs 180 degrees minus the original distance, strictly less |
| ModuleStates.OptimizeIdempotent | src/main/java/frc/robot/subsystems/SwerveModule.java:350 | optimising an optimised target again against the same heading changes nothing |
| ModuleStates.OptimizeReversesFarTarget | src/main/java/frc/robot/subsystems/SwerveModule.java:350 | target 2.0 m/s at 170 degrees with the wheel at 0 degrees becomes -2.0 m/s at -10 degrees |
| Swerve.RawTurningDegrees | src/main/java/frc/robot/subsystems/SwerveModule.java:151-154 | the encoder heading is the whole degree at or just below the reading: the reading itself for the NEO 550, the reading times 360 for the Falcon (rotations) |
| Swerve.TurningSetpointOf | src/main/java/frc/robot/subsystems/SwerveModule.java:166-181 | the reference sent for heading `a` reads back, through the encoder conversion, as the canonical `a` plus the offset; `TurningRoundTrip` and `TurningSetpointBounds` state the rest |
| Swerve.DrivingConfig | src/main/java/frc/robot/subsystems/SwerveModule.java:242-260 | each driving variant's profile is a real profile, never the factory defaults or the climber's |
| Swerve.TurningConfig | src/main/java/frc/robot/subsystems/SwerveModule.java:311-315 | each turning variant's profile is a real profile, never the factory defaults or the climber's |
| Swerve.TurningActivation | src/main/java/frc/robot/subsystems/SwerveModule.java:304-321 | the activation is two commands, three for the Falcon (which is also zeroed), all addressed to the new turning controller |
| Swerve.TurningAngleOf | src/main/java/frc/robot/subsystems/SwerveModule.java:147-160 | the chassis heading of a turning reading is canonical, and adding the mounting offset back gives the encoder's heading modulo a turn |
| Swerve.TurningRoundTrip | src/main/java/frc/robot/subsystems/SwerveModule.java:147-181 | for both turning variants, a controller sitting at the reference sent for heading `a` reads back the canonical `a` (offset added on the way out, subtracted on the way in) |
| Swerve.TurningSetpointBounds | src/main/java/frc/robot/subsystems/SwerveModule.java:166-181 | the NEO 550 reference lies in (-180, 180] degrees; the Falcon reference lies in (-0.5, 0.5] rotations |
| Swerve.AsWrittenTurningAngleOf | src/main/java/frc/robot/subsystems/SwerveModule.java:147-160 | the getter as written, fall-through included; its result is canonical. `AsWrittenAgreesForNeo550`, `AsWrittenFalconIgnoresEncoder` and `AsWrittenFalconRoundTripFails` state what it computes |
| Swerve.AsWrittenTurningSetpointOf | src/main/java/frc/robot/subsystems/SwerveModule.java:166-181 | the setter as written, with the Falcon's radians-times-2-pi reference; it carries no ensures of its own: `AsWrittenAgreesForNeo550` and `AsWrittenFalconSetpointMisscaled` state its properties |
| Swerve.AsWrittenAgreesForNeo550 | src/main/java/frc/robot/subsystems/SwerveModule.java:147-181 | for the NEO 550, the code as written and the corrected conversions agree in both directions |
| Swerve.AsWrittenFalconIgnoresEncoder | src/main/java/frc/robot/subsystems/SwerveModule.java:153-156 | as written, a Falcon module reports minus the offset, whatever its encoder says |
| Swerve.AsWrittenFalconRoundTripFails | src/main/java/frc/robot/subsystems/SwerveModule.java:153-159 | as written, a Falcon module sent to 90 degrees (offset 0) that reaches its reference reports 0 degrees |
| Swerve.AsWrittenFalconSetpointMisscaled | src/main/java/frc/robot/subsystems/SwerveModule.java:173 | as written, the Falcon reference differs from the heading in rotations for every raw heading other than 0 |
| Swerve.CorrectedState | src/main/java/frc/robot/subsystems/SwerveModule.java:344-355 | the target `setState` commands; it carries no ensures of its own: `CorrectedStateCases`, `CorrectedStateWithinQuarterTurn`, `CorrectedStateKeepsMotion` and the two scenario lemmas state its properties |
| Swerve.CorrectedStateCases | src/main/java/frc/robot/subsystems/SwerveModule.java:343-355 | below 0.001 m/s the corrected target is the optimised speed at the current heading; otherwise it is exactly the optimised target. The speed test made after optimising decides like one made on the input speed |
| Swerve.CorrectedStateWithinQuarterTurn | src/main/java/frc/robot/subsystems/SwerveModule.java:348-355 | the heading `setState` commands is never more than 90 degrees from the current heading, with or without the low-speed hold |
| Swerve.CorrectedStateKeepsMotion | src/main/java/frc/robot/subsystems/SwerveModule.java:345-355 | the commanded speed is the target's or its negation; above the threshold the commanded state moves the chassis as the target does |
| Swerve.CorrectedStateHoldsSlowWheel | src/main/java/frc/robot/subsystems/SwerveModule.java:352-355 | 0.0005 m/s at 45 degrees with the wheel at 0 degrees is commanded as 0.0005 m/s at 0 degrees |
| Swerve.CorrectedStateHoldsAfterOptimizing | src/main/java/frc/robot/subsystems/SwerveModule.java:350-355 | the hold comes after optimising: 0.0005 m/s at 180 degrees with the wheel at 0 degrees is commanded as -0.0005 m/s at 0 degrees |
| Swerve.CommandedHeadingWithinQuarterTurn | src/main/java/frc/robot/subsystems/SwerveModule.java:343-361 | the turning reference `setState` sends, read back through the getter's conversion, is within 90 degrees of the heading the controller reported |
| Swerve.SlowTargetHoldsTurningPosition | src/main/java/frc/robot/subsystems/SwerveModule.java:352-359 | below 0.001 m/s the turning reference `setState` sends reads back as the heading the controller already reports, whatever the target heading |
| Swerve.CommandsTo | src/main/java/frc/robot/subsystems/SwerveModule.java:117-181 | a controller's history is never longer than the log, and every entry is a logged command addressed to that controller; its order is fixed by `CommandsToAppend` and `CommandsToOneController` |
| Swerve.CommandsToAppend | src/main/java/frc/robot/subsystems/SwerveModule.java:272-281 | for every controller, its history over two consecutive stretches of commands is its history over the first followed by its history over the second |
| Swerve.CommandsToAppendOne | src/main/java/frc/robot/subsystems/SwerveModule.java:117-141 | one more command extends the history of the controller it addresses by exactly that command and leaves every other controller's history unchanged |
| Swerve.CommandsToOneController | src/main/java/frc/robot/subsystems/SwerveModule.java:235-266 | a stretch of commands all addressed to one controller is, in full, that controller's new history and adds nothing to any other's |
| Swerve.SetStateCommandsRouted | src/main/java/frc/robot/subsystems/SwerveModule.java:357-359 | one `setState` tick adds exactly the velocity request to the active driving controller's history, exactly the position request to the active turning controller's, and nothing to any other controller's |
| Swerve.DrivingSwapCommandsRouted | src/main/java/frc/robot/subsystems/SwerveModule.java:272-281 | a driving swap adds exactly one disable to the old controller's history and the create, configure and zero to the new one's (all four, in order, when the variant is unchanged); turning controllers and other driving variants get nothing |
| Swerve.TurningSwapCommandsRouted | src/main/java/frc/robot/subsystems/SwerveModule.java:327-336 | a turning swap adds exactly one disable to the old controller's history and the activation to the new one's; driving controllers get nothing |
| Devices.Device.constructor | src/main/java/frc/robot/subsystems/SwerveModule.java:241-259 | a new controller (`new SparkMax`/`new TalonFX`) on the given CAN id reports what its encoder senses, holds the factory defaults, has no reference and was never disabled |
| Devices.Device.Configure | src/main/java/frc/robot/subsystems/SwerveModule.java:242-260 | `configure`/`apply`: the controller holds the given profile, and nothing else changes |
| Devices.Device.SetPosition | src/main/java/frc/robot/subsystems/SwerveModule.java:243-261 | `setPosition`: the encoder reads the given position, and nothing else changes |
| Devices.Device.Disable | src/main/java/frc/robot/subsystems/SwerveModule.java:215-224 | `disable`: no reference stays in force and the disable count goes up by one; nothing else changes |
| Devices.Device.SetPositionReference | src/main/java/frc/robot/subsystems/SwerveModule.java:170-178 | a position request: the reference in force is exactly the requested position, and nothing else changes |
| Devices.Device.SetVelocityReference | src/main/java/frc/robot/subsystems/SwerveModule.java:121-138 | a velocity request: the reference in force is exactly the requested velocity with the given FOC flag, and nothing else changes |
| Swerve.SwerveModule.constructor | src/main/java/frc/robot/subsystems/SwerveModule.java:59-71 | records the offset and CAN ids, and activates exactly the default variants: fresh controllers, the others null. Each new controller sits on its role's CAN id, holds its variant's profile and the sensed velocity, has no reference and a disable count of 0; the driving one has no FOC flag. The driving distance is 0; the turning controller is zeroed only for the Falcon. The log holds the two activations in order |
| Swerve.SwerveModule.GetDrivingPosition | src/main/java/frc/robot/subsystems/SwerveModule.java:79-92 | the position of the controller named by `activeDrivingMotor`, reading no other controller |
| Swerve.SwerveModule.GetDrivingVelocity | src/main/java/frc/robot/subsystems/SwerveModule.java:98-111 | the velocity of the controller named by `activeDrivingMotor`, reading no other controller |
| Swerve.SwerveModule.GetTurningAngle | src/main/java/frc/robot/subsystems/SwerveModule.java:147-160 | the active turning controller's heading minus the offset, canonical; adding the offset back gives the encoder heading modulo a turn |
| Swerve.SwerveModule.GetPosition | src/main/java/frc/robot/subsystems/SwerveModule.java:188-193 | the active driving controller's distance paired with the active turning controller's chassis heading |
| Swerve.SwerveModule.GetState | src/main/java/frc/robot/subsystems/SwerveModule.java:200-205 | the active driving controller's velocity paired with the active turning controller's chassis heading |
| Swerve.SwerveModule.GetTurningTarget | src/main/java/frc/robot/subsystems/SwerveModule.java:166-181 | the heading the active turning controller's reference stands for, read back through the getter's conversion (the current heading when no reference is in force); it is canonical |
| Swerve.SwerveModule.SetDrivingVelocity | src/main/java/frc/robot/subsystems/SwerveModule.java:117-141 | only the active driving controller changes: it gets exactly the requested velocity, with FOC exactly for the Kraken X60 FOC. Its sensors, config and disable count are unchanged. One velocity request is logged, and it enters that controller's history and no other's |
| Swerve.SwerveModule.SetTurningAngle | src/main/java/frc/robot/subsystems/SwerveModule.java:166-181 | only the active turning controller changes: its reference is the heading plus the offset in its own units. One position request is logged, and it enters that controller's history and no other's |
| Swerve.SwerveModule.DisableActiveDrivingMotor | src/main/java/frc/robot/subsystems/SwerveModule.java:210-229 | the active driving controller is disabled once (count +1, no reference left in force); its position, velocity, config and FOC flag are unchanged, and only its reference and count may change. One disable is logged |
| Swerve.SwerveModule.ActivateDrivingMotor | src/main/java/frc/robot/subsystems/SwerveModule.java:235-266 | `m`'s field holds a fresh controller on the driving CAN id, configured with `m`'s profile and zeroed. No other field changes, the controllers stay distinct, and create, configure and zero are logged in that order |
| Swerve.SwerveModule.SetDrivingMotor | src/main/java/frc/robot/subsystems/SwerveModule.java:272-281 | afterwards `activeDrivingMotor == m`. The old controller was disabled exactly once. The log shows that disable before the new controller's creation. The new controller is fresh and reads distance 0, also when `m` was already active. The new controller has no FOC flag. Only the old controller's reference and disable count are touched. The other variants' fields and the turning heading are unchanged, and no other controller's history gains a command |
| Swerve.SwerveModule.DisableActiveTurningMotor | src/main/java/frc/robot/subsystems/SwerveModule.java:286-298 | the active turning controller is disabled once (count +1, no reference left in force); its position, velocity and config are unchanged, and only its reference and count may change. One disable is logged |
| Swerve.SwerveModule.ActivateTurningMotor | src/main/java/frc/robot/subsystems/SwerveModule.java:304-321 | `t`'s field holds a fresh controller configured with `t`'s profile. Only the Falcon is zeroed; the NEO 550 keeps its absolute reading. No other field changes |
| Swerve.SwerveModule.SetTurningMotor | src/main/java/frc/robot/subsystems/SwerveModule.java:327-336 | afterwards `activeTurningMotor == t`. The old controller was disabled exactly once, and the log shows that before the new one's activation. The new controller is zeroed exactly when `t` is the Falcon and reports the sensed velocity. Only the old controller's reference and disable count are touched. The driving distance and velocity are unchanged, and no other controller's history gains a command |
| Swerve.SwerveModule.SetState | src/main/java/frc/robot/subsystems/SwerveModule.java:343-361 | exactly one velocity request to the active driving controller, then exactly one position request to the active turning controller, both computed from `CorrectedState` of the target and the pre-call heading. The turning target read back is within 90 degrees of the old heading, and equals it below 0.001 m/s. Each active controller's history grows by one command, every other controller's by none. The driving FOC flag is set exactly for the Kraken X60 FOC. Only the two references and the driving FOC flag may change: configs, disable counts and the turning controller's raw position, velocity and FOC flag are unchanged, and so are the module's position and state readings |
| Narwhal.NarwhalClimber.constructor | src/main/java/frc/robot/subsystems/narwhal/NarwhalClimber.java:41-67 | a fresh, configured controller with no reference; mode STARTING; no reference sent |
| Narwhal.NarwhalClimber.SetCurrentMotorAngle | src/main/java/frc/robot/subsystems/narwhal/NarwhalClimber.java:73-77 | exactly one reference is sent, the target angle in rotations; the mode becomes CUSTOM |
| Narwhal.NarwhalClimber.Hold | src/main/java/frc/robot/subsystems/narwhal/NarwhalClimber.java:82-87 | exactly one reference is sent, the encoder's present position; the mode becomes HOLDING |
| Narwhal.NarwhalClimber.GoToDeploy | src/main/java/frc/robot/subsystems/narwhal/NarwhalClimber.java:89-94 | exactly one reference is sent, the deployed angle in rotations; the final mode is DEPLOYING, not the setter's CUSTOM |
| Narwhal.NarwhalClimber.Climb | src/main/java/frc/robot/subsystems/narwhal/NarwhalClimber.java:99-102 | exactly one reference is sent, the climb angle in rotations; the final mode is CLIMBING |
| Narwhal.NarwhalClimber.RunXBoxController | src/main/java/frc/robot/subsystems/narwhal/NarwhalClimber.java:104-111 | POV 0 has exactly `goToDeploy`'s effect and POV 90 exactly `climb`'s. Any other POV leaves the mode, the references and the controller's target unchanged |
| Narwhal.HoldTwice | src/main/java/frc/robot/subsystems/narwhal/NarwhalClimber.java:82-87 | with the encoder unchanged, a second `hold` leaves the mode and target as the first left them; the only difference is a second logged reference |

## Left out

- Vendor controller internals: the closed loop, what `configure`/`apply` do with a profile, the
  SparkMax reset/persist modes. A controller is a record of readings, reference, FOC flag,
  config and disable count. Its readings change only when the code zeroes them.
- `Configs.java`: each profile is one opaque `Config` value per variant.
- `NarwhalElevatorState.java`: it is a bare enumeration with no operations.
- `Constants.java`, `frc.robot.util.DrivingMotor`/`TurningMotor` and `NarwhalClimberState` are not
  part of this model. The enumerations are restated from their uses, and the constants are
  constructor parameters.
- Floating point and `Rotation2d` trigonometry: headings are whole degrees. A controller's reading
  is rounded down to a whole degree when it becomes a heading.
- The exact WPILib `SwerveModuleState.optimize`: replaced by the rule stated above, an assumption
  of the model.
- NaN or infinite targets cannot occur with Dafny reals.
- Communication failures of hardware commands: the code neither detects nor reports them.
- Phoenix's default for `EnableFOC` on a fresh `VelocityVoltage`: `foc` records only what the code
  sets explicitly (true for the Kraken X60 FOC).
- The debug `System.out.println` calls.
- `SubsystemBase` scheduling and the empty `periodic`/`simulationPeriodic`.
- XboxController input other than the POV value. `runXBoxController` calls `getPOV()` twice; the
  model reads the value once, so a POV change between the two calls is not modelled.
- The source's `default` branches of switches over the variant enumerations cannot be reached,
  except the turning getter's (see Findings). `getDrivingPosition` and `getDrivingVelocity`
  return 0 there; the model's matches are exhaustive without them.
- Copying the caller's `SwerveModuleState` (:344-346) is built in: Dafny datatypes are values, so
  the caller's target cannot be modified.

## Findings

| source | as written | input that shows it | evidently intended | confidence | as-written member | corrected member |
|---|---|---|---|---|---|---|
| src/main/java/frc/robot/subsystems/SwerveModule.java:153-156 | the FALCON case has no `break`, so it falls into `default`, which replaces the raw angle with 0. The FALCON assignment at :154 is also a unit mismatch: it passes the Falcon's position, which is in mechanism rotations (the continuous wrap configured at `Configs.java`:191 works in rotations), to the radians constructor, so adding only the `break` would read 0.25 rotations as about 14.3 degrees | Falcon turning motor, offset 0, controller at the reference sent for 90 degrees: the getter reports 0 degrees | the raw angle is the Falcon's position converted from rotations (times 360 degrees), and the offset is subtracted from it as for the NEO 550; `TurningAngleOf` corrects both the fall-through and the unit | high; not executed | Swerve.AsWrittenFalconRoundTripFails | Swerve.TurningRoundTrip |
| src/main/java/frc/robot/subsystems/SwerveModule.java:173 | the Falcon reference is the heading in radians multiplied by 2 pi | heading 90 degrees, offset 0: the reference is pi squared (about 9.87) rotations instead of 0.25 | the heading in rotations, radians divided by 2 pi (`getRotations`) | high; not executed | Swerve.AsWrittenFalconSetpointMisscaled | Swerve.TurningSetpointBounds |
