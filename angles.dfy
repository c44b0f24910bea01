/**
 * Headings as whole degrees.
 *
 * The robot code carries headings as WPILib `Rotation2d` values in radians.
 * This model uses integer degrees instead: `Normalize` plays the part of the
 * canonical form that `Rotation2d.plus` and `Rotation2d.minus` produce (a
 * heading in (-180, 180]), and the conversions to radians and rotations are
 * written out where a vendor device expects those units.
 */
module Angles {

  /** A full turn and a half turn, in degrees. */
  const FullTurn: int := 360
  const HalfTurn: int := 180

  /** `Math.PI` as the source reads it (a double, hence a rational). */
  const Pi: real := 3.141592653589793

  /** The canonical representative of heading `a`: in (-180, 180] and a whole number of turns away from `a`. */
  function Normalize(a: int): (r: int)
    ensures -HalfTurn < r <= HalfTurn
    ensures (a - r) % FullTurn == 0
  {
    var m := a % FullTurn;
    if m > HalfTurn then m - FullTurn else m
  }

  /** Two headings a whole number of turns apart. */
  predicate SameHeading(a: int, b: int)
  {
    (a - b) % FullTurn == 0
  }

  /** Normalize picks the one and only canonical heading congruent to `a`. */
  lemma NormalizeUnique(a: int, r: int)
    requires -HalfTurn < r <= HalfTurn
    requires SameHeading(a, r)
    ensures Normalize(a) == r
  {
    var n := Normalize(a);
    var k1 := (a - r) / FullTurn;
    var k2 := (a - n) / FullTurn;
    assert a - r == FullTurn * k1;
    assert a - n == FullTurn * k2;
    assert n - r == FullTurn * (k1 - k2);
  }

  /** Headings a whole number of turns apart have the same canonical form, and conversely. */
  lemma NormalizeCongruent(a: int, b: int)
    ensures Normalize(a) == Normalize(b) <==> SameHeading(a, b)
  {
    var na, nb := Normalize(a), Normalize(b);
    var ka, kb := (a - na) / FullTurn, (b - nb) / FullTurn;
    assert a - na == FullTurn * ka;
    assert b - nb == FullTurn * kb;
    if SameHeading(a, b) {
      var k := (a - b) / FullTurn;
      assert a - b == FullTurn * k;
      assert a - nb == FullTurn * (k + kb);
      NormalizeUnique(a, nb);
    }
    if na == nb {
      assert a - b == FullTurn * (ka - kb);
    }
  }

  /** Normalising one summand first does not change the canonical sum (`Rotation2d.plus` of a canonical heading). */
  lemma NormalizeSum(a: int, b: int)
    ensures Normalize(Normalize(a) + b) == Normalize(a + b)
  {
    var na := Normalize(a);
    var k := (a - na) / FullTurn;
    assert a - na == FullTurn * k;
    assert (a + b) - (na + b) == FullTurn * k;
    NormalizeCongruent(na + b, a + b);
  }

  /** A canonical heading is its own canonical form. */
  lemma NormalizeCanonical(a: int)
    requires -HalfTurn < a <= HalfTurn
    ensures Normalize(a) == a
  {
    NormalizeUnique(a, a);
  }

  /** `Rotation2d.getRotations` of a heading given in degrees. */
  function Rotations(degrees: int): (r: real)
    ensures r * FullTurn as real == degrees as real
  {
    degrees as real / FullTurn as real
  }

  /** `Rotation2d.getRadians` of a heading given in degrees. */
  function Radians(degrees: int): (r: real)
    ensures r * HalfTurn as real == degrees as real * Pi
  {
    degrees as real * Pi / HalfTurn as real
  }
}
