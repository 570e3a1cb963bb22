/**
 * The parts of <math.h> and of common/components/units.h that the orbit code uses.
 * cos, sin and sqrt are not defined here: a `MathLib` carries them as values, and the
 * predicates below state the laws a lemma may rely on. PI is defined in units.h, which is
 * not part of this model; it is left as an unspecified positive real, because no property
 * depends on its digits.
 */
module CMath {
  /** The positive reals. */
  type PosReal = r: real | r > 0.0 witness 1.0

  const PI: PosReal
  const TWOPI: real := 2.0 * PI

  /** The library functions the orbit code calls, over reals. */
  datatype MathLib = MathLib(cos: real -> real, sin: real -> real, sqrt: real -> real)

  /** -1 <= cos x <= 1. */
  ghost predicate CosBounded(m: MathLib)
  {
    forall x :: -1.0 <= m.cos(x) <= 1.0
  }

  /** sin² x + cos² x == 1. */
  ghost predicate Pythagorean(m: MathLib)
  {
    forall x :: m.sin(x) * m.sin(x) + m.cos(x) * m.cos(x) == 1.0
  }

  /** cos and sin repeat after 2π. */
  ghost predicate TrigPeriodic(m: MathLib)
  {
    && (forall x :: m.cos(x + TWOPI) == m.cos(x))
    && (forall x :: m.sin(x + TWOPI) == m.sin(x))
  }

  /** sqrt x is the non-negative square root of x, for x >= 0. */
  ghost predicate SqrtLaw(m: MathLib)
  {
    forall x | x >= 0.0 :: m.sqrt(x) >= 0.0 && m.sqrt(x) * m.sqrt(x) == x
  }

  /** C's truncating conversion of a real to an integer: toward zero. */
  function Trunc(x: real): (n: int)
    ensures x >= 0.0 ==> n as real <= x < n as real + 1.0
    ensures x < 0.0 ==> n as real - 1.0 < x <= n as real
  {
    if x >= 0.0 then x.Floor else -((-x).Floor)
  }

  /**
   * fmod(x, 360): the remainder of x / 360 with the quotient truncated toward zero,
   * so it has the sign of x.
   */
  function FMod360(x: real): (r: real)
    ensures x >= 0.0 ==> 0.0 <= r < 360.0
    ensures x < 0.0 ==> -360.0 < r <= 0.0
    ensures ((x - r) / 360.0).Floor as real == (x - r) / 360.0
  {
    var n := Trunc(x / 360.0);
    var r := x - 360.0 * n as real;
    assert (x - r) / 360.0 == n as real;
    r
  }

  /** fmod(x, 360) does not change when whole turns are added to a non-negative x. */
  lemma FModTurns(x: real, k: nat)
    requires x >= 0.0
    ensures FMod360(x + 360.0 * k as real) == FMod360(x)
  {
    var y := x / 360.0;
    assert (x + 360.0 * k as real) / 360.0 == y + k as real;
    assert (y + k as real).Floor == y.Floor + k;
  }

  /** fmod(x, 360) == x for 0 <= x < 360. */
  lemma FModSmall(x: real)
    requires 0.0 <= x < 360.0
    ensures FMod360(x) == x
  {
    assert (x / 360.0).Floor == 0;
  }
}
