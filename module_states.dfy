/**
 * WPILib's per-module kinematic records and the heading optimiser that
 * `SwerveModule.setState` applies to its target.
 *
 * `SwerveModuleState.optimize` is a WPILib library method, outside the robot code
 * modelled here; what is modelled is the rule stated beside its call in the robot
 * code (never rotate a wheel by more than a quarter turn), realised the usual
 * way: when the canonical difference between target and current heading
 * exceeds 90 degrees, reverse the wheel and aim it at the opposite heading.
 */
module ModuleStates {
  import opened Angles

  /** A wheel's speed (metres per second, signed) and heading (degrees). */
  datatype ModuleState = ModuleState(speed: real, angle: int)

  /** A wheel's travelled distance (metres) and heading (degrees). */
  datatype ModulePosition = ModulePosition(distance: real, angle: int)

  /** The largest steering motion the optimiser ever asks for, in degrees. */
  const QuarterTurn: int := 90

  /** How far, in degrees, a wheel at `current` must turn to face `target` by the short way. */
  function RotationNeeded(target: int, current: int): (r: nat)
    ensures r <= HalfTurn
    ensures r == 0 <==> SameHeading(target, current)
  {
    NormalizeCongruent(target - current, 0);
    var d := Normalize(target - current);
    if d < 0 then -d else d
  }

  /** Two states that move the chassis the same way: equal, or reversed speed at the opposite heading. */
  predicate SameMotion(a: ModuleState, b: ModuleState)
  {
    || (a.speed == b.speed && SameHeading(a.angle, b.angle))
    || (a.speed == -b.speed && SameHeading(a.angle, b.angle + HalfTurn))
  }

  /** `SwerveModuleState.optimize(currentAngle)`, as the rule above states it. */
  function Optimize(s: ModuleState, current: int): (r: ModuleState)
  {
    if RotationNeeded(s.angle, current) > QuarterTurn
    then ModuleState(-s.speed, Normalize(s.angle + HalfTurn))
    else s
  }

  /** The optimised target never needs more than a quarter turn from the current heading. */
  lemma OptimizeWithinQuarterTurn(s: ModuleState, current: int)
    ensures RotationNeeded(Optimize(s, current).angle, current) <= QuarterTurn
  {
    var d := Normalize(s.angle - current);
    if RotationNeeded(s.angle, current) > QuarterTurn {
      var flipped := Normalize(s.angle + HalfTurn);
      NormalizeSum(s.angle + HalfTurn, -current);
      NormalizeSum(s.angle - current, HalfTurn);
      assert Normalize(flipped - current) == Normalize(d + HalfTurn);
      if d > 0 {
        NormalizeUnique(d + HalfTurn, d - HalfTurn);
      } else {
        NormalizeCanonical(d + HalfTurn);
      }
    }
  }

  /** Optimising changes how the wheel gets there, not where the chassis goes. */
  lemma OptimizePreservesMotion(s: ModuleState, current: int)
    ensures SameMotion(Optimize(s, current), s)
    ensures Optimize(s, current).speed == s.speed || Optimize(s, current).speed == -s.speed
  {
    var r := Optimize(s, current);
    if r != s {
      var k := (s.angle + HalfTurn - r.angle) / FullTurn;
      assert s.angle + HalfTurn - r.angle == FullTurn * k;
      assert r.angle - (s.angle + HalfTurn) == FullTurn * -k;
    }
  }

  /**
   * Optimising never lengthens the steering motion, and a reversal strictly shortens it:
   * the flipped heading is the supplement of the original distance.
   */
  lemma OptimizeShortensSteering(s: ModuleState, current: int)
    ensures RotationNeeded(Optimize(s, current).angle, current) <= RotationNeeded(s.angle, current)
    ensures RotationNeeded(s.angle, current) > QuarterTurn ==>
              RotationNeeded(Optimize(s, current).angle, current) == HalfTurn - RotationNeeded(s.angle, current)
              < RotationNeeded(s.angle, current)
  {
    if RotationNeeded(s.angle, current) > QuarterTurn {
      var d := Normalize(s.angle - current);
      NormalizeSum(s.angle + HalfTurn, -current);
      NormalizeSum(s.angle - current, HalfTurn);
      if d > 0 {
        NormalizeUnique(d + HalfTurn, d - HalfTurn);
      } else {
        NormalizeCanonical(d + HalfTurn);
      }
    }
  }

  /** A target that is already optimised for the current heading is left alone. */
  lemma OptimizeIdempotent(s: ModuleState, current: int)
    ensures Optimize(Optimize(s, current), current) == Optimize(s, current)
  {
    OptimizeWithinQuarterTurn(s, current);
  }

  /** Target 2.0 m/s at 170 degrees with the wheel at 0 degrees: drive backwards at -10 degrees. */
  lemma OptimizeReversesFarTarget()
    ensures Optimize(ModuleState(2.0, 170), 0) == ModuleState(-2.0, -10)
  {
    assert Normalize(170) == 170;
    assert Normalize(350) == -10;
  }
}
