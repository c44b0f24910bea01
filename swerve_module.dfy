/**
 * One swerve module (`frc.robot.subsystems.SwerveModule`): a driving motor and a
 * turning motor, each of one of several vendor variants, one of which per role
 * is active; every read and command goes to the active variant's controller,
 * and the active variant can be swapped while the robot runs.
 *
 * Headings are whole degrees (see module Angles). The NEO 550's absolute
 * encoder, which the robot configures to report radians, here reports the
 * model's heading unit; the Falcon's mechanism position is in rotations.
 */
module Swerve {
  import opened Angles
  import opened Devices
  import opened ModuleStates

  /** `frc.robot.util.DrivingMotor`. */
  datatype DrivingMotor = Neo | KrakenX60 | KrakenX60Foc | Falcon

  /** `frc.robot.util.TurningMotor`. */
  datatype TurningMotor = Neo550 | Falcon

  /** A role together with the variant filling it: names one of the module's controller fields. */
  datatype Slot = Drive(driving: DrivingMotor) | Turn(turning: TurningMotor)

  /** The hardware commands the module issues, in the order it issues them. */
  datatype Command =
    | Disabled(slot: Slot)
    | Created(slot: Slot, canId: int)
    | Configured(slot: Slot, config: Config)
    | Zeroed(slot: Slot)
    | VelocityRequested(slot: Slot, velocity: real, foc: bool)
    | PositionRequested(slot: Slot, position: real)

  /** The commands of `log` addressed to the controller in `slot`, in issue order: that controller's history. */
  function CommandsTo(log: seq<Command>, slot: Slot): (r: seq<Command>)
    ensures |r| <= |log|
    ensures forall i :: 0 <= i < |r| ==> r[i].slot == slot && r[i] in log
  {
    if log == [] then []
    else (if log[0].slot == slot then [log[0]] else []) + CommandsTo(log[1..], slot)
  }

  /** A controller's history over two stretches of the log is its history over each, in order. */
  lemma {:induction false} CommandsToAppend(a: seq<Command>, b: seq<Command>, slot: Slot)
    ensures CommandsTo(a + b, slot) == CommandsTo(a, slot) + CommandsTo(b, slot)
  {
    if a == [] {
      assert a + b == b;
    } else {
      assert (a + b)[1..] == a[1..] + b;
      CommandsToAppend(a[1..], b, slot);
    }
  }

  /** Appending one command adds it to the history of the controller it addresses and to no other. */
  lemma CommandsToAppendOne(log: seq<Command>, c: Command, slot: Slot)
    ensures CommandsTo(log + [c], slot) == CommandsTo(log, slot) + (if c.slot == slot then [c] else [])
  {
    CommandsToAppend(log, [c], slot);
    CommandsToOneController([c], c.slot, slot);
  }

  /** A stretch of commands all addressed to `target` is the whole history of `target` and nothing of any other. */
  lemma {:induction false} CommandsToOneController(cs: seq<Command>, target: Slot, slot: Slot)
    requires forall i :: 0 <= i < |cs| ==> cs[i].slot == target
    ensures CommandsTo(cs, slot) == if slot == target then cs else []
  {
    if cs != [] {
      CommandsToOneController(cs[1..], target, slot);
    }
  }

  /** The commands `activateTurningMotor(t)` issues on CAN id `canId`: only the Falcon is zeroed. */
  function TurningActivation(t: TurningMotor, canId: int): (r: seq<Command>)
    ensures |r| == if t == TurningMotor.Falcon then 3 else 2
    ensures forall i :: 0 <= i < |r| ==> r[i].slot == Turn(t)
  {
    [Created(Turn(t), canId), Configured(Turn(t), TurningConfig(t))]
      + (if t == TurningMotor.Falcon then [Zeroed(Turn(t))] else [])
  }

  /**
   * One `setState` tick: the active driving controller's history gains exactly the velocity request,
   * the active turning controller's exactly the position request, and no other controller's anything.
   */
  lemma SetStateCommandsRouted(log: seq<Command>, m: DrivingMotor, t: TurningMotor, v: real, foc: bool, p: real, slot: Slot)
    ensures CommandsTo(log + [VelocityRequested(Drive(m), v, foc), PositionRequested(Turn(t), p)], slot) ==
            CommandsTo(log, slot) + (if slot == Drive(m) then [VelocityRequested(Drive(m), v, foc)]
                                     else if slot == Turn(t) then [PositionRequested(Turn(t), p)]
                                     else [])
  {
    var tick := [VelocityRequested(Drive(m), v, foc), PositionRequested(Turn(t), p)];
    CommandsToAppend(log, tick, slot);
    assert tick[1..][1..] == [];
  }

  /**
   * One driving swap from `previous` to `m`: the previous controller's history gains exactly one disable (and,
   * when `m == previous`, the new controller's creation after it); no turning or other driving controller
   * is addressed.
   */
  lemma DrivingSwapCommandsRouted(log: seq<Command>, previous: DrivingMotor, m: DrivingMotor, canId: int, slot: Slot)
    ensures var swap := [Disabled(Drive(previous)), Created(Drive(m), canId), Configured(Drive(m), DrivingConfig(m)), Zeroed(Drive(m))];
            CommandsTo(log + swap, slot) ==
            CommandsTo(log, slot) + (if slot == Drive(previous) && slot == Drive(m) then swap
                                     else if slot == Drive(previous) then [Disabled(Drive(previous))]
                                     else if slot == Drive(m) then swap[1..]
                                     else [])
  {
    var swap := [Disabled(Drive(previous)), Created(Drive(m), canId), Configured(Drive(m), DrivingConfig(m)), Zeroed(Drive(m))];
    CommandsToAppend(log, swap, slot);
    var rest := swap[1..];
    assert CommandsTo(swap, slot) == (if slot == Drive(previous) then [swap[0]] else []) + CommandsTo(rest, slot);
    CommandsToOneController(rest, Drive(m), slot);
  }

  /** One turning swap from `previous` to `t`: as for driving, only the two turning controllers involved are addressed. */
  lemma TurningSwapCommandsRouted(log: seq<Command>, previous: TurningMotor, t: TurningMotor, canId: int, slot: Slot)
    ensures var activation := TurningActivation(t, canId);
            CommandsTo(log + [Disabled(Turn(previous))] + activation, slot) ==
            CommandsTo(log, slot) + (if slot == Turn(previous) && slot == Turn(t) then [Disabled(Turn(previous))] + activation
                                     else if slot == Turn(previous) then [Disabled(Turn(previous))]
                                     else if slot == Turn(t) then activation
                                     else [])
  {
    var activation := TurningActivation(t, canId);
    CommandsToAppendOne(log, Disabled(Turn(previous)), slot);
    CommandsToAppend(log + [Disabled(Turn(previous))], activation, slot);
    CommandsToOneController(activation, Turn(t), slot);
  }

  /** Below this speed (m/s) `setState` keeps the wheel's heading. */
  const Epsilon: real := 0.001

  /** The configuration `activateDrivingMotor` applies to each driving variant. */
  function DrivingConfig(m: DrivingMotor): (r: Config)
    ensures r != FactoryDefaults && r != ClimberConfig
  {
    match m
    case Neo => NeoDrivingConfig
    case KrakenX60 => KrakenX60DrivingConfig
    case KrakenX60Foc => KrakenX60FocDrivingConfig
    case Falcon => FalconDrivingConfig
  }

  /** The configuration `activateTurningMotor` applies to each turning variant. */
  function TurningConfig(t: TurningMotor): (r: Config)
    ensures r != FactoryDefaults && r != ClimberConfig
  {
    match t
    case Neo550 => Neo550TurningConfig
    case Falcon => FalconTurningConfig
  }

  /** The encoder heading, in degrees, that a turning controller's position reading stands for. */
  function RawTurningDegrees(t: TurningMotor, position: real): (r: int)
    ensures t == TurningMotor.Neo550 ==> r as real <= position < r as real + 1.0
    ensures t == TurningMotor.Falcon ==> r as real <= position * FullTurn as real < r as real + 1.0
  {
    match t
    case Neo550 => position.Floor
    case Falcon => (position * FullTurn as real).Floor
  }

  /** `getTurningAngle` for variant `t`: the chassis-relative heading of a controller reading `position`. */
  function TurningAngleOf(t: TurningMotor, position: real, offset: int): (r: int)
    ensures -HalfTurn < r <= HalfTurn
    ensures SameHeading(r + offset, RawTurningDegrees(t, position))
  {
    var r := Normalize(RawTurningDegrees(t, position) - offset);
    assert (RawTurningDegrees(t, position) - offset) - r == RawTurningDegrees(t, position) - (r + offset);
    r
  }

  /** `setTurningAngle` for variant `t`: the position reference sent for chassis heading `angle`. */
  function TurningSetpointOf(t: TurningMotor, angle: int, offset: int): (r: real)
    ensures RawTurningDegrees(t, r) == Normalize(angle + offset)
  {
    var raw := Normalize(angle + offset);
    match t
    case Neo550 => raw as real
    case Falcon => Rotations(raw)
  }

  /** A turning controller that has reached its reference reads back the heading it was sent. */
  lemma TurningRoundTrip(t: TurningMotor, angle: int, offset: int)
    ensures TurningAngleOf(t, TurningSetpointOf(t, angle, offset), offset) == Normalize(angle)
  {
    var raw := Normalize(angle + offset);
    assert RawTurningDegrees(t, TurningSetpointOf(t, angle, offset)) == raw;
    NormalizeSum(angle + offset, -offset);
  }

  /** The turning reference for a heading lies within half a turn of the mounting offset. */
  lemma TurningSetpointBounds(t: TurningMotor, angle: int, offset: int)
    ensures t == TurningMotor.Neo550 ==> -HalfTurn as real < TurningSetpointOf(t, angle, offset) <= HalfTurn as real
    ensures t == TurningMotor.Falcon ==> -0.5 < TurningSetpointOf(t, angle, offset) <= 0.5
  {
  }

  // ---------------------------------------------------------------------------
  // The Falcon turning path as the robot code writes it.
  // ---------------------------------------------------------------------------

  /** `getTurningAngle` as written: the FALCON case falls through into `default`, which discards the reading. */
  function AsWrittenTurningAngleOf(t: TurningMotor, position: real, offset: int): (r: int)
    ensures -HalfTurn < r <= HalfTurn
  {
    var raw := match t
      case Neo550 => position.Floor
      case Falcon => 0;
    Normalize(raw - offset)
  }

  /** `setTurningAngle` as written: the FALCON reference is the radian heading multiplied by 2 pi. */
  function AsWrittenTurningSetpointOf(t: TurningMotor, angle: int, offset: int): (r: real)
  {
    var raw := Normalize(angle + offset);
    match t
    case Neo550 => raw as real
    case Falcon => Radians(raw) * (2.0 * Pi)
  }

  /** For the NEO 550 the code as written and the corrected conversions agree. */
  lemma AsWrittenAgreesForNeo550(position: real, angle: int, offset: int)
    ensures AsWrittenTurningAngleOf(TurningMotor.Neo550, position, offset) == TurningAngleOf(TurningMotor.Neo550, position, offset)
    ensures AsWrittenTurningSetpointOf(TurningMotor.Neo550, angle, offset) == TurningSetpointOf(TurningMotor.Neo550, angle, offset)
  {
  }

  /** As written, a FALCON module reports the same heading whatever its encoder says. */
  lemma AsWrittenFalconIgnoresEncoder(position: real, offset: int)
    ensures AsWrittenTurningAngleOf(TurningMotor.Falcon, position, offset) == Normalize(-offset)
  {
  }

  /** As written, a FALCON module sent to 90 degrees (no offset) that gets there still reports 0. */
  lemma AsWrittenFalconRoundTripFails()
    ensures AsWrittenTurningAngleOf(TurningMotor.Falcon, AsWrittenTurningSetpointOf(TurningMotor.Falcon, 90, 0), 0) == 0
    ensures Normalize(90) == 90
  {
  }

  /** As written, every FALCON reference off the zero heading differs from the heading in rotations. */
  lemma AsWrittenFalconSetpointMisscaled(angle: int, offset: int)
    requires Normalize(angle + offset) != 0
    ensures AsWrittenTurningSetpointOf(TurningMotor.Falcon, angle, offset) != TurningSetpointOf(TurningMotor.Falcon, angle, offset)
  {
    var n := Normalize(angle + offset) as real;
    var asWritten := n * Pi / HalfTurn as real * (2.0 * Pi);
    var intended := n / FullTurn as real;
    assert asWritten == n * (Pi * Pi / 90.0);
    assert intended == n * (1.0 / 360.0);
    assert Pi * Pi / 90.0 - 1.0 / 360.0 > 0.0;
    assert asWritten - intended == n * (Pi * Pi / 90.0 - 1.0 / 360.0);
  }

  // ---------------------------------------------------------------------------
  // The corrected target of `setState`.
  // ---------------------------------------------------------------------------

  /** The target `setState` commands: optimised, then with the heading held when the speed is near zero. */
  function CorrectedState(target: ModuleState, current: int): (r: ModuleState)
  {
    var optimized := Optimize(target, current);
    if -Epsilon < optimized.speed < Epsilon then ModuleState(optimized.speed, current) else optimized
  }

  /** Whether either step applies is decided by the target's speed: optimising never changes its magnitude. */
  lemma CorrectedStateCases(target: ModuleState, current: int)
    ensures -Epsilon < target.speed < Epsilon ==>
      CorrectedState(target, current) == ModuleState(Optimize(target, current).speed, current)
    ensures !(-Epsilon < target.speed < Epsilon) ==>
      CorrectedState(target, current) == Optimize(target, current)
  {
    OptimizePreservesMotion(target, current);
  }

  /** The commanded heading is never more than a quarter turn from the current one. */
  lemma CorrectedStateWithinQuarterTurn(target: ModuleState, current: int)
    ensures RotationNeeded(CorrectedState(target, current).angle, current) <= QuarterTurn
  {
    OptimizeWithinQuarterTurn(target, current);
  }

  /** The commanded speed is the target's or its reverse, and the motion is the target's unless the heading was held. */
  lemma CorrectedStateKeepsMotion(target: ModuleState, current: int)
    ensures CorrectedState(target, current).speed == target.speed || CorrectedState(target, current).speed == -target.speed
    ensures !(-Epsilon < target.speed < Epsilon) ==> SameMotion(CorrectedState(target, current), target)
  {
    OptimizePreservesMotion(target, current);
  }

  /** 0.0005 m/s at 45 degrees with the wheel at 0 degrees: the wheel stays at 0 degrees. */
  lemma CorrectedStateHoldsSlowWheel()
    ensures CorrectedState(ModuleState(0.0005, 45), 0) == ModuleState(0.0005, 0)
  {
  }

  /** The hold comes after optimising: a slow target behind the wheel keeps the heading and reverses the speed. */
  lemma CorrectedStateHoldsAfterOptimizing()
    ensures CorrectedState(ModuleState(0.0005, 180), 0) == ModuleState(-0.0005, 0)
  {
    assert Normalize(180) == 180;
    assert Normalize(360) == 0;
  }

  /** Read through the getter, the heading `setState` sends a turning controller is within a quarter turn of its current one. */
  lemma CommandedHeadingWithinQuarterTurn(t: TurningMotor, position: real, offset: int, target: ModuleState)
    ensures var current := TurningAngleOf(t, position, offset);
            var sent := TurningSetpointOf(t, CorrectedState(target, current).angle, offset);
            RotationNeeded(TurningAngleOf(t, sent, offset), current) <= QuarterTurn
  {
    var current := TurningAngleOf(t, position, offset);
    var a := CorrectedState(target, current).angle;
    CorrectedStateWithinQuarterTurn(target, current);
    TurningRoundTrip(t, a, offset);
    NormalizeSum(a, -current);
  }

  /** Below the speed threshold `setState` sends a turning controller back to the heading it already reports. */
  lemma SlowTargetHoldsTurningPosition(t: TurningMotor, position: real, offset: int, target: ModuleState)
    requires -Epsilon < target.speed < Epsilon
    ensures var current := TurningAngleOf(t, position, offset);
            var sent := TurningSetpointOf(t, CorrectedState(target, current).angle, offset);
            TurningAngleOf(t, sent, offset) == current
  {
    var current := TurningAngleOf(t, position, offset);
    CorrectedStateCases(target, current);
    TurningRoundTrip(t, current, offset);
    NormalizeCanonical(current);
  }

  // ---------------------------------------------------------------------------
  // The module.
  // ---------------------------------------------------------------------------

  /** No controller object occupies two entries of `ds`. */
  ghost predicate DistinctControllers(ds: seq<Device?>)
  {
    forall i, j :: 0 <= i < j < |ds| && ds[i] != null ==> ds[i] != ds[j]
  }

  /** Installing a controller that no entry holds keeps the entries distinct. */
  lemma InstallKeepsDistinct(ds: seq<Device?>, k: nat, d: Device)
    requires DistinctControllers(ds) && k < |ds|
    requires forall i :: 0 <= i < |ds| ==> ds[i] != d
    ensures DistinctControllers(ds[k := d])
  {
  }

  class SwerveModule {
    // Driving controllers, one field per variant; null until first activated.
    var drivingNeo: Device?
    var drivingKrakenX60: Device?
    var drivingKrakenX60Foc: Device?
    var drivingFalcon: Device?

    // Turning controllers.
    var turningNeo550: Device?
    var turningFalcon: Device?

    /** Mounting offset of the module relative to the chassis, in degrees. */
    const moduleAngularOffset: int
    const drivingCanId: int
    const turningCanId: int

    var activeDrivingMotor: DrivingMotor
    var activeTurningMotor: TurningMotor

    /** Every hardware command issued so far. */
    var log: seq<Command>

    /** The controller field for driving variant `m`. */
    function DrivingDevice(m: DrivingMotor): (d: Device?)
      reads this`drivingNeo, this`drivingKrakenX60, this`drivingKrakenX60Foc, this`drivingFalcon
    {
      match m
      case Neo => drivingNeo
      case KrakenX60 => drivingKrakenX60
      case KrakenX60Foc => drivingKrakenX60Foc
      case Falcon => drivingFalcon
    }

    /** The controller field for turning variant `t`. */
    function TurningDevice(t: TurningMotor): (d: Device?)
      reads this`turningNeo550, this`turningFalcon
    {
      match t
      case Neo550 => turningNeo550
      case Falcon => turningFalcon
    }

    /** Where each variant's controller sits in `Devices()`. */
    static function DrivingIndex(m: DrivingMotor): nat
    {
      match m
      case Neo => 0
      case KrakenX60 => 1
      case KrakenX60Foc => 2
      case Falcon => 3
    }

    static function TurningIndex(t: TurningMotor): nat
    {
      match t
      case Neo550 => 4
      case Falcon => 5
    }

    ghost function Devices(): seq<Device?>
      reads this`drivingNeo, this`drivingKrakenX60, this`drivingKrakenX60Foc, this`drivingFalcon, this`turningNeo550, this`turningFalcon
    {
      [drivingNeo, drivingKrakenX60, drivingKrakenX60Foc, drivingFalcon, turningNeo550, turningFalcon]
    }

    /** No controller object fills two fields. */
    ghost predicate Distinct()
      reads this`drivingNeo, this`drivingKrakenX60, this`drivingKrakenX60Foc, this`drivingFalcon, this`turningNeo550, this`turningFalcon
    {
      DistinctControllers(Devices())
    }

    /** Each role has a controller for its active variant, and controllers are not shared. */
    ghost predicate Valid()
      reads this`drivingNeo, this`drivingKrakenX60, this`drivingKrakenX60Foc, this`drivingFalcon, this`turningNeo550, this`turningFalcon
      reads this`activeDrivingMotor, this`activeTurningMotor
    {
      && Distinct()
      && DrivingDevice(activeDrivingMotor) != null
      && TurningDevice(activeTurningMotor) != null
    }

    /**
     * `new SwerveModule(drivingCANID, turningCANID, moduleAngularOffset)`: activates the default
     * variants (`DriveConstants.DEFAULT_DRIVING_MOTOR` / `DEFAULT_TURNING_MOTOR`, given here as
     * parameters); `drivingSensed` and `turningSensed` are what the new controllers' encoders report.
     */
    constructor (drivingCanId: int, turningCanId: int, moduleAngularOffset: int,
                 defaultDriving: DrivingMotor, defaultTurning: TurningMotor,
                 drivingSensed: Reading, turningSensed: Reading)
      ensures Valid()
      ensures this.drivingCanId == drivingCanId && this.turningCanId == turningCanId
      ensures this.moduleAngularOffset == moduleAngularOffset
      ensures activeDrivingMotor == defaultDriving && activeTurningMotor == defaultTurning
      ensures forall m :: m != defaultDriving ==> DrivingDevice(m) == null
      ensures forall t :: t != defaultTurning ==> TurningDevice(t) == null
      ensures fresh(DrivingDevice(defaultDriving)) && fresh(TurningDevice(defaultTurning))
      ensures GetDrivingPosition() == 0.0
      ensures var d := DrivingDevice(defaultDriving);
              d.canId == drivingCanId && d.config == DrivingConfig(defaultDriving) && d.velocity == drivingSensed.velocity
              && d.reference == None && !d.foc && d.disabledCount == 0
      ensures var u := TurningDevice(defaultTurning);
              u.canId == turningCanId && u.config == TurningConfig(defaultTurning) && u.velocity == turningSensed.velocity
              && u.reference == None && u.disabledCount == 0
      ensures TurningDevice(defaultTurning).position ==
              (if defaultTurning == TurningMotor.Falcon then 0.0 else turningSensed.position)
      ensures log == [Created(Drive(defaultDriving), drivingCanId),
                      Configured(Drive(defaultDriving), DrivingConfig(defaultDriving)),
                      Zeroed(Drive(defaultDriving))]
                     + TurningActivation(defaultTurning, turningCanId)
    {
      this.moduleAngularOffset := moduleAngularOffset;
      this.drivingCanId := drivingCanId;
      this.turningCanId := turningCanId;
      activeDrivingMotor := defaultDriving;
      activeTurningMotor := defaultTurning;
      drivingNeo, drivingKrakenX60, drivingKrakenX60Foc, drivingFalcon := null, null, null, null;
      turningNeo550, turningFalcon := null, null;
      log := [];
      new;
      ActivateDrivingMotor(activeDrivingMotor, drivingSensed);
      ActivateTurningMotor(activeTurningMotor, turningSensed);
    }

    /** `getDrivingPosition`: the active driving controller's position, in metres. */
    function GetDrivingPosition(): (p: real)
      requires Valid()
      reads this, DrivingDevice(activeDrivingMotor)
      ensures p == DrivingDevice(activeDrivingMotor).position
    {
      match activeDrivingMotor
      case Neo => drivingNeo.position
      case KrakenX60 => drivingKrakenX60.position
      case KrakenX60Foc => drivingKrakenX60Foc.position
      case Falcon => drivingFalcon.position
    }

    /** `getDrivingVelocity`: the active driving controller's velocity, in metres per second. */
    function GetDrivingVelocity(): (v: real)
      requires Valid()
      reads this, DrivingDevice(activeDrivingMotor)
      ensures v == DrivingDevice(activeDrivingMotor).velocity
    {
      match activeDrivingMotor
      case Neo => drivingNeo.velocity
      case KrakenX60 => drivingKrakenX60.velocity
      case KrakenX60Foc => drivingKrakenX60Foc.velocity
      case Falcon => drivingFalcon.velocity
    }

    /** `getTurningAngle`: the active turning controller's heading minus the mounting offset, canonical. */
    function GetTurningAngle(): (a: int)
      requires Valid()
      reads this, TurningDevice(activeTurningMotor)
      ensures -HalfTurn < a <= HalfTurn
      ensures a == TurningAngleOf(activeTurningMotor, TurningDevice(activeTurningMotor).position, moduleAngularOffset)
      ensures SameHeading(a + moduleAngularOffset, RawTurningDegrees(activeTurningMotor, TurningDevice(activeTurningMotor).position))
    {
      match activeTurningMotor
      case Neo550 => TurningAngleOf(TurningMotor.Neo550, turningNeo550.position, moduleAngularOffset)
      case Falcon => TurningAngleOf(TurningMotor.Falcon, turningFalcon.position, moduleAngularOffset)
    }

    /** `getPosition`: distance of the active driving controller, heading of the active turning controller. */
    function GetPosition(): (p: ModulePosition)
      requires Valid()
      reads this, DrivingDevice(activeDrivingMotor), TurningDevice(activeTurningMotor)
      ensures p.distance == DrivingDevice(activeDrivingMotor).position
      ensures p.angle == TurningAngleOf(activeTurningMotor, TurningDevice(activeTurningMotor).position, moduleAngularOffset)
    {
      ModulePosition(GetDrivingPosition(), GetTurningAngle())
    }

    /** `getState`: velocity of the active driving controller, heading of the active turning controller. */
    function GetState(): (s: ModuleState)
      requires Valid()
      reads this, DrivingDevice(activeDrivingMotor), TurningDevice(activeTurningMotor)
      ensures s.speed == DrivingDevice(activeDrivingMotor).velocity
      ensures s.angle == TurningAngleOf(activeTurningMotor, TurningDevice(activeTurningMotor).position, moduleAngularOffset)
    {
      ModuleState(GetDrivingVelocity(), GetTurningAngle())
    }

    /** `setDrivingVelocity`: a velocity request to the active driving controller, with FOC only on the Kraken X60 FOC. */
    method SetDrivingVelocity(velocity: real)
      requires Valid()
      modifies this`log, DrivingDevice(activeDrivingMotor)`reference, DrivingDevice(activeDrivingMotor)`foc
      ensures Valid()
      ensures DrivingDevice(activeDrivingMotor).reference == Some(velocity)
      ensures DrivingDevice(activeDrivingMotor).foc == (activeDrivingMotor == KrakenX60Foc)
      ensures DrivingDevice(activeDrivingMotor).position == old(DrivingDevice(activeDrivingMotor).position)
      ensures DrivingDevice(activeDrivingMotor).velocity == old(DrivingDevice(activeDrivingMotor).velocity)
      ensures DrivingDevice(activeDrivingMotor).disabledCount == old(DrivingDevice(activeDrivingMotor).disabledCount)
      ensures DrivingDevice(activeDrivingMotor).config == old(DrivingDevice(activeDrivingMotor).config)
      ensures log == old(log) + [VelocityRequested(Drive(activeDrivingMotor), velocity, activeDrivingMotor == KrakenX60Foc)]
      ensures forall slot :: CommandsTo(log, slot) == old(CommandsTo(log, slot)) +
                (if slot == Drive(activeDrivingMotor) then [VelocityRequested(slot, velocity, activeDrivingMotor == KrakenX60Foc)] else [])
    {
      match activeDrivingMotor {
      case Neo => drivingNeo.SetVelocityReference(velocity, false);
      case KrakenX60 => drivingKrakenX60.SetVelocityReference(velocity, false);
      case KrakenX60Foc => drivingKrakenX60Foc.SetVelocityReference(velocity, true);
      case Falcon => drivingFalcon.SetVelocityReference(velocity, false);
      }
      log := log + [VelocityRequested(Drive(activeDrivingMotor), velocity, activeDrivingMotor == KrakenX60Foc)];
      forall slot: Slot
        ensures CommandsTo(log, slot) == CommandsTo(old(log), slot) +
                (if slot == Drive(activeDrivingMotor) then [VelocityRequested(slot, velocity, activeDrivingMotor == KrakenX60Foc)] else [])
      {
        var c := VelocityRequested(Drive(activeDrivingMotor), velocity, activeDrivingMotor == KrakenX60Foc);
        assert log == old(log) + [c];
        CommandsToAppendOne(old(log), c, slot);
        assert CommandsTo(log, slot) == CommandsTo(old(log), slot) + (if c.slot == slot then [c] else []);
      }
    }

    /** `setTurningAngle`: a position request for chassis heading `angle` plus the mounting offset. */
    method SetTurningAngle(angle: int)
      requires Valid()
      modifies this`log, TurningDevice(activeTurningMotor)`reference
      ensures Valid()
      ensures TurningDevice(activeTurningMotor).reference ==
              Some(TurningSetpointOf(activeTurningMotor, angle, moduleAngularOffset))
      ensures TurningDevice(activeTurningMotor).position == old(TurningDevice(activeTurningMotor).position)
      ensures TurningDevice(activeTurningMotor).velocity == old(TurningDevice(activeTurningMotor).velocity)
      ensures TurningDevice(activeTurningMotor).disabledCount == old(TurningDevice(activeTurningMotor).disabledCount)
      ensures TurningDevice(activeTurningMotor).config == old(TurningDevice(activeTurningMotor).config)
      ensures log == old(log) + [PositionRequested(Turn(activeTurningMotor),
                                                   TurningSetpointOf(activeTurningMotor, angle, moduleAngularOffset))]
      ensures forall slot :: CommandsTo(log, slot) == old(CommandsTo(log, slot)) +
                (if slot == Turn(activeTurningMotor)
                 then [PositionRequested(slot, TurningSetpointOf(activeTurningMotor, angle, moduleAngularOffset))] else [])
    {
      var rawAngle := Normalize(angle + moduleAngularOffset);
      var request: real;
      match activeTurningMotor {
      case Neo550 =>
        request := rawAngle as real;
        turningNeo550.SetPositionReference(request);
      case Falcon =>
        request := Rotations(rawAngle);
        turningFalcon.SetPositionReference(request);
      }
      log := log + [PositionRequested(Turn(activeTurningMotor), request)];
      forall slot: Slot
        ensures CommandsTo(log, slot) == CommandsTo(old(log), slot) +
                (if slot == Turn(activeTurningMotor) then [PositionRequested(slot, request)] else [])
      {
        var c := PositionRequested(Turn(activeTurningMotor), request);
        assert log == old(log) + [c];
        CommandsToAppendOne(old(log), c, slot);
      }
    }

    /** `disableActiveDrivingMotor`. */
    method DisableActiveDrivingMotor()
      requires Valid()
      modifies this`log, DrivingDevice(activeDrivingMotor)`reference, DrivingDevice(activeDrivingMotor)`disabledCount
      ensures Valid()
      ensures DrivingDevice(activeDrivingMotor).disabledCount == old(DrivingDevice(activeDrivingMotor).disabledCount) + 1
      ensures DrivingDevice(activeDrivingMotor).reference == None
      ensures DrivingDevice(activeDrivingMotor).position == old(DrivingDevice(activeDrivingMotor).position)
      ensures DrivingDevice(activeDrivingMotor).velocity == old(DrivingDevice(activeDrivingMotor).velocity)
      ensures DrivingDevice(activeDrivingMotor).config == old(DrivingDevice(activeDrivingMotor).config)
      ensures DrivingDevice(activeDrivingMotor).foc == old(DrivingDevice(activeDrivingMotor).foc)
      ensures log == old(log) + [Disabled(Drive(activeDrivingMotor))]
    {
      match activeDrivingMotor {
      case Neo => drivingNeo.Disable();
      case KrakenX60 => drivingKrakenX60.Disable();
      case KrakenX60Foc => drivingKrakenX60Foc.Disable();
      case Falcon => drivingFalcon.Disable();
      }
      log := log + [Disabled(Drive(activeDrivingMotor))];
    }

    /** `activateDrivingMotor(m)`: a new controller for `m`, configured and zeroed, in `m`'s field. */
    method ActivateDrivingMotor(m: DrivingMotor, sensed: Reading)
      requires Distinct()
      modifies this`drivingNeo, this`drivingKrakenX60, this`drivingKrakenX60Foc, this`drivingFalcon, this`log
      ensures Distinct()
      ensures fresh(DrivingDevice(m))
      ensures DrivingDevice(m).canId == drivingCanId && DrivingDevice(m).config == DrivingConfig(m)
      ensures DrivingDevice(m).position == 0.0 && DrivingDevice(m).velocity == sensed.velocity
      ensures DrivingDevice(m).reference == None && !DrivingDevice(m).foc && DrivingDevice(m).disabledCount == 0
      ensures forall k :: k != m ==> DrivingDevice(k) == old(DrivingDevice(k))
      ensures log == old(log) + [Created(Drive(m), drivingCanId), Configured(Drive(m), DrivingConfig(m)), Zeroed(Drive(m))]
    {
      ghost var before := Devices();
      var device := new Device(drivingCanId, sensed);
      device.Configure(DrivingConfig(m));
      device.SetPosition(0.0);
      match m {
      case Neo => drivingNeo := device;
      case KrakenX60 => drivingKrakenX60 := device;
      case KrakenX60Foc => drivingKrakenX60Foc := device;
      case Falcon => drivingFalcon := device;
      }
      InstallKeepsDistinct(before, DrivingIndex(m), device);
      assert Devices() == before[DrivingIndex(m) := device];
      log := log + [Created(Drive(m), drivingCanId), Configured(Drive(m), DrivingConfig(m)), Zeroed(Drive(m))];
    }

    /**
     * `setDrivingMotor(m)`: disable the active driving controller, activate `m`, then record `m` as
     * active. Activation always makes a fresh, zeroed controller, so even re-selecting the active
     * variant restarts the driving distance at 0.
     */
    method SetDrivingMotor(m: DrivingMotor, sensed: Reading)
      requires Valid()
      modifies this`drivingNeo, this`drivingKrakenX60, this`drivingKrakenX60Foc, this`drivingFalcon
      modifies this`activeDrivingMotor, this`log
      modifies DrivingDevice(activeDrivingMotor)`reference, DrivingDevice(activeDrivingMotor)`disabledCount
      ensures Valid()
      ensures activeDrivingMotor == m
      ensures old(DrivingDevice(activeDrivingMotor)).disabledCount == old(DrivingDevice(activeDrivingMotor).disabledCount) + 1
      ensures old(DrivingDevice(activeDrivingMotor)).reference == None
      ensures fresh(DrivingDevice(m))
      ensures DrivingDevice(m).canId == drivingCanId && DrivingDevice(m).config == DrivingConfig(m)
      ensures DrivingDevice(m).velocity == sensed.velocity
      ensures DrivingDevice(m).reference == None && !DrivingDevice(m).foc && DrivingDevice(m).disabledCount == 0
      ensures GetDrivingPosition() == 0.0
      ensures GetTurningAngle() == old(GetTurningAngle())
      ensures forall k :: k != m ==> DrivingDevice(k) == old(DrivingDevice(k))
      ensures log == old(log) + [Disabled(Drive(old(activeDrivingMotor))), Created(Drive(m), drivingCanId),
                                 Configured(Drive(m), DrivingConfig(m)), Zeroed(Drive(m))]
      ensures CommandsTo(log, Drive(old(activeDrivingMotor))) ==
              old(CommandsTo(log, Drive(activeDrivingMotor))) + [Disabled(Drive(old(activeDrivingMotor)))]
                + (if m == old(activeDrivingMotor)
                   then [Created(Drive(m), drivingCanId), Configured(Drive(m), DrivingConfig(m)), Zeroed(Drive(m))] else [])
      ensures forall slot :: slot != Drive(m) && slot != Drive(old(activeDrivingMotor)) ==>
                CommandsTo(log, slot) == old(CommandsTo(log, slot))
    {
      assert Devices()[DrivingIndex(activeDrivingMotor)] != Devices()[TurningIndex(activeTurningMotor)];
      DisableActiveDrivingMotor();
      ActivateDrivingMotor(m, sensed);
      activeDrivingMotor := m;
      forall slot: Slot
        ensures var swap := [Disabled(Drive(old(activeDrivingMotor))), Created(Drive(m), drivingCanId),
                             Configured(Drive(m), DrivingConfig(m)), Zeroed(Drive(m))];
                CommandsTo(log, slot) ==
                CommandsTo(old(log), slot) + (if slot == Drive(old(activeDrivingMotor)) && slot == Drive(m) then swap
                                              else if slot == Drive(old(activeDrivingMotor)) then [Disabled(Drive(old(activeDrivingMotor)))]
                                              else if slot == Drive(m) then swap[1..]
                                              else [])
      {
        assert log == old(log) + [Disabled(Drive(old(activeDrivingMotor))), Created(Drive(m), drivingCanId),
                                  Configured(Drive(m), DrivingConfig(m)), Zeroed(Drive(m))];
        DrivingSwapCommandsRouted(old(log), old(activeDrivingMotor), m, drivingCanId, slot);
      }
    }

    /** `disableActiveTurningMotor`. */
    method DisableActiveTurningMotor()
      requires Valid()
      modifies this`log, TurningDevice(activeTurningMotor)`reference, TurningDevice(activeTurningMotor)`disabledCount
      ensures Valid()
      ensures TurningDevice(activeTurningMotor).disabledCount == old(TurningDevice(activeTurningMotor).disabledCount) + 1
      ensures TurningDevice(activeTurningMotor).reference == None
      ensures TurningDevice(activeTurningMotor).position == old(TurningDevice(activeTurningMotor).position)
      ensures TurningDevice(activeTurningMotor).velocity == old(TurningDevice(activeTurningMotor).velocity)
      ensures TurningDevice(activeTurningMotor).config == old(TurningDevice(activeTurningMotor).config)
      ensures log == old(log) + [Disabled(Turn(activeTurningMotor))]
    {
      match activeTurningMotor {
      case Neo550 => turningNeo550.Disable();
      case Falcon => turningFalcon.Disable();
      }
      log := log + [Disabled(Turn(activeTurningMotor))];
    }

    /** `activateTurningMotor(t)`: a new configured controller for `t`; only the Falcon's position is zeroed. */
    method ActivateTurningMotor(t: TurningMotor, sensed: Reading)
      requires Distinct()
      modifies this`turningNeo550, this`turningFalcon, this`log
      ensures Distinct()
      ensures fresh(TurningDevice(t))
      ensures TurningDevice(t).canId == turningCanId && TurningDevice(t).config == TurningConfig(t)
      ensures TurningDevice(t).position == (if t == TurningMotor.Falcon then 0.0 else sensed.position)
      ensures TurningDevice(t).velocity == sensed.velocity
      ensures TurningDevice(t).reference == None && TurningDevice(t).disabledCount == 0
      ensures forall k :: k != t ==> TurningDevice(k) == old(TurningDevice(k))
      ensures log == old(log) + TurningActivation(t, turningCanId)
    {
      ghost var before := Devices();
      var device := new Device(turningCanId, sensed);
      device.Configure(TurningConfig(t));
      match t {
      case Neo550 =>
        turningNeo550 := device;
      case Falcon =>
        device.SetPosition(0.0);
        turningFalcon := device;
      }
      InstallKeepsDistinct(before, TurningIndex(t), device);
      assert Devices() == before[TurningIndex(t) := device];
      log := log + TurningActivation(t, turningCanId);
    }

    /** `setTurningMotor(t)`: disable the active turning controller, activate `t`, then record `t` as active. */
    method SetTurningMotor(t: TurningMotor, sensed: Reading)
      requires Valid()
      modifies this`turningNeo550, this`turningFalcon
      modifies this`activeTurningMotor, this`log
      modifies TurningDevice(activeTurningMotor)`reference, TurningDevice(activeTurningMotor)`disabledCount
      ensures Valid()
      ensures activeTurningMotor == t
      ensures old(TurningDevice(activeTurningMotor)).disabledCount == old(TurningDevice(activeTurningMotor).disabledCount) + 1
      ensures old(TurningDevice(activeTurningMotor)).reference == None
      ensures fresh(TurningDevice(t))
      ensures TurningDevice(t).canId == turningCanId && TurningDevice(t).config == TurningConfig(t)
      ensures TurningDevice(t).position == (if t == TurningMotor.Falcon then 0.0 else sensed.position)
      ensures TurningDevice(t).velocity == sensed.velocity
      ensures TurningDevice(t).reference == None && TurningDevice(t).disabledCount == 0
      ensures forall k :: k != t ==> TurningDevice(k) == old(TurningDevice(k))
      ensures GetDrivingPosition() == old(GetDrivingPosition()) && GetDrivingVelocity() == old(GetDrivingVelocity())
      ensures log == old(log) + [Disabled(Turn(old(activeTurningMotor)))] + TurningActivation(t, turningCanId)
      ensures CommandsTo(log, Turn(old(activeTurningMotor))) ==
              old(CommandsTo(log, Turn(activeTurningMotor))) + [Disabled(Turn(old(activeTurningMotor)))]
                + (if t == old(activeTurningMotor) then TurningActivation(t, turningCanId) else [])
      ensures forall slot :: slot != Turn(t) && slot != Turn(old(activeTurningMotor)) ==>
                CommandsTo(log, slot) == old(CommandsTo(log, slot))
    {
      assert Devices()[DrivingIndex(activeDrivingMotor)] != Devices()[TurningIndex(activeTurningMotor)];
      DisableActiveTurningMotor();
      ActivateTurningMotor(t, sensed);
      activeTurningMotor := t;
      forall slot: Slot
        ensures var activation := TurningActivation(t, turningCanId);
                CommandsTo(log, slot) ==
                CommandsTo(old(log), slot) + (if slot == Turn(old(activeTurningMotor)) && slot == Turn(t) then [Disabled(Turn(t))] + activation
                                              else if slot == Turn(old(activeTurningMotor)) then [Disabled(Turn(old(activeTurningMotor)))]
                                              else if slot == Turn(t) then activation
                                              else [])
      {
        assert log == old(log) + [Disabled(Turn(old(activeTurningMotor)))] + TurningActivation(t, turningCanId);
        TurningSwapCommandsRouted(old(log), old(activeTurningMotor), t, turningCanId, slot);
      }
    }

    /**
     * `setState(state)`: optimise a copy of `state` against the current heading, hold the heading
     * when the optimised speed is below `Epsilon`, then send one velocity request to the driving
     * controller followed by one position request to the turning controller.
     */
    method SetState(state: ModuleState)
      requires Valid()
      modifies this`log, DrivingDevice(activeDrivingMotor)`reference, DrivingDevice(activeDrivingMotor)`foc
      modifies TurningDevice(activeTurningMotor)`reference
      ensures Valid()
      ensures var c := CorrectedState(state, old(GetTurningAngle()));
              && DrivingDevice(activeDrivingMotor).reference == Some(c.speed)
              && TurningDevice(activeTurningMotor).reference ==
                 Some(TurningSetpointOf(activeTurningMotor, c.angle, moduleAngularOffset))
              && log == old(log) + [VelocityRequested(Drive(activeDrivingMotor), c.speed, activeDrivingMotor == KrakenX60Foc),
                                    PositionRequested(Turn(activeTurningMotor),
                                                      TurningSetpointOf(activeTurningMotor, c.angle, moduleAngularOffset))]
      ensures forall slot :: slot != Drive(activeDrivingMotor) && slot != Turn(activeTurningMotor) ==>
                CommandsTo(log, slot) == old(CommandsTo(log, slot))
      ensures |CommandsTo(log, Drive(activeDrivingMotor))| == |old(CommandsTo(log, Drive(activeDrivingMotor)))| + 1
      ensures |CommandsTo(log, Turn(activeTurningMotor))| == |old(CommandsTo(log, Turn(activeTurningMotor)))| + 1
      ensures RotationNeeded(GetTurningTarget(), old(GetTurningAngle())) <= QuarterTurn
      ensures -Epsilon < state.speed < Epsilon ==> GetTurningTarget() == old(GetTurningAngle())
      ensures DrivingDevice(activeDrivingMotor).foc == (activeDrivingMotor == KrakenX60Foc)
      ensures GetPosition() == old(GetPosition()) && GetState() == old(GetState())
      ensures var d, u := DrivingDevice(activeDrivingMotor), TurningDevice(activeTurningMotor);
              && d.config == old(d.config) && d.disabledCount == old(d.disabledCount)
              && u.config == old(u.config) && u.disabledCount == old(u.disabledCount)
              && u.position == old(u.position) && u.velocity == old(u.velocity) && u.foc == old(u.foc)
    {
      ghost var current := GetTurningAngle();
      assert Devices()[DrivingIndex(activeDrivingMotor)] != Devices()[TurningIndex(activeTurningMotor)];
      var correctedDesiredState := ModuleState(state.speed, state.angle);
      correctedDesiredState := Optimize(correctedDesiredState, GetPosition().angle);
      if -Epsilon < correctedDesiredState.speed < Epsilon {
        correctedDesiredState := correctedDesiredState.(angle := GetPosition().angle);
      }
      assert correctedDesiredState == CorrectedState(state, current);
      SetDrivingVelocity(correctedDesiredState.speed);
      SetTurningAngle(correctedDesiredState.angle);
      forall slot: Slot
        ensures CommandsTo(log, slot) ==
                CommandsTo(old(log), slot) + (if slot == Drive(activeDrivingMotor)
                                              then [VelocityRequested(slot, correctedDesiredState.speed, activeDrivingMotor == KrakenX60Foc)]
                                              else if slot == Turn(activeTurningMotor)
                                              then [PositionRequested(slot, TurningSetpointOf(activeTurningMotor, correctedDesiredState.angle, moduleAngularOffset))]
                                              else [])
      {
        assert log == old(log) + [VelocityRequested(Drive(activeDrivingMotor), correctedDesiredState.speed, activeDrivingMotor == KrakenX60Foc),
                                  PositionRequested(Turn(activeTurningMotor),
                                                    TurningSetpointOf(activeTurningMotor, correctedDesiredState.angle, moduleAngularOffset))];
        SetStateCommandsRouted(old(log), activeDrivingMotor, activeTurningMotor, correctedDesiredState.speed,
                               activeDrivingMotor == KrakenX60Foc,
                               TurningSetpointOf(activeTurningMotor, correctedDesiredState.angle, moduleAngularOffset), slot);
      }
      CommandedHeadingWithinQuarterTurn(activeTurningMotor, old(TurningDevice(activeTurningMotor).position),
                                        moduleAngularOffset, state);
      if -Epsilon < state.speed < Epsilon {
        SlowTargetHoldsTurningPosition(activeTurningMotor, old(TurningDevice(activeTurningMotor).position),
                                       moduleAngularOffset, state);
      }
    }

    /** The chassis heading the active turning controller is being driven to, read back through the getter's conversion. */
    ghost function GetTurningTarget(): (r: int)
      requires Valid()
      reads this, TurningDevice(activeTurningMotor)
      ensures -HalfTurn < r <= HalfTurn
    {
      match TurningDevice(activeTurningMotor).reference
      case Some(p) => TurningAngleOf(activeTurningMotor, p, moduleAngularOffset)
      case None => GetTurningAngle()
    }
  }
}
