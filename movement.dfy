/**
 * Orbits and kinematics of common/components/movement.h. The structs that the free
 * functions update through references (Kinematics, Orbit) are classes; the value types
 * (glm::vec3, Vec2, PolarCoordinate) are datatypes; the pure conversions are functions.
 * Floats and doubles are reals.
 */
module Movement {
  import opened Entities
  import opened CMath
  import Glm

  /** The orbit's point in its plane. */
  datatype Vec2 = Vec2(x: real, y: real)

  /** A radius and an angle in degrees. */
  datatype PolarCoordinate = PolarCoordinate(r: real, theta: real)

  class Kinematics {
    var postion: Glm.Vec3
    var velocity: Glm.Vec3
    var topspeed: real

    /** The member initialisers: at rest at the origin, top speed 10. */
    constructor ()
      ensures postion == Glm.Vec3(0.0, 0.0, 0.0) && velocity == Glm.Vec3(0.0, 0.0, 0.0) && topspeed == 10.0
    {
      postion := Glm.Vec3(0.0, 0.0, 0.0);
      velocity := Glm.Vec3(0.0, 0.0, 0.0);
      topspeed := 10.0;
    }
  }

  /** The orbit of a body; angles in degrees, the semi-major axis in astronomical units. */
  class Orbit {
    var gravitationalparameter: real
    var theta: real
    var semiMajorAxis: real
    var eccentricity: real
    var angularvelocity: real
    var argument: real
    var period: real
    var referenceBody: Option<Entity>

    /**
     * The five-argument constructor. angularvelocity and period are left uninitialised
     * by the source, so nothing is promised about them; there is no reference body.
     */
    constructor (trueAnomaly: real, semiMajorAxis: real, eccentricity: real, argument: real, gravparam: real)
      ensures this.theta == trueAnomaly && this.semiMajorAxis == semiMajorAxis
      ensures this.eccentricity == eccentricity && this.argument == argument
      ensures this.gravitationalparameter == gravparam && this.referenceBody == None
    {
      this.theta := trueAnomaly;
      this.semiMajorAxis := semiMajorAxis;
      this.eccentricity := eccentricity;
      this.argument := argument;
      this.gravitationalparameter := gravparam;
      this.referenceBody := None;
    }
  }

  /** updateOrbit: advance the true anomaly by one step; theta is not reduced mod 360. */
  method UpdateOrbit(orb: Orbit) returns (r: Orbit)
    modifies orb`theta
    ensures orb.theta == old(orb.theta) + orb.angularvelocity
    ensures r == orb
  {
    orb.theta := orb.theta + orb.angularvelocity;
    r := orb;
  }

  /** updatePos(Kinematics&): one step at the current velocity. */
  method UpdatePos(objkin: Kinematics)
    modifies objkin`postion
    ensures objkin.postion == Glm.Plus(old(objkin.postion), objkin.velocity)
  {
    objkin.postion := Glm.Plus(objkin.postion, objkin.velocity);
  }

  // ---------------------------------------------------------------------------
  // findPeriod

  /** TWOPI * sqrt(a³ / μ): the orbital period, in years, by Kepler's third law. */
  function KeplerPeriod(m: MathLib, a: real, mu: real): (p: real)
    requires SqrtLaw(m) && a > 0.0 && mu > 0.0
    ensures p > 0.0
    ensures p * p * mu == TWOPI * TWOPI * (a * a * a)
  {
    var q := a * a * a / mu;
    assert q > 0.0 by {
      assert a * a > 0.0;
      assert a * a * a > 0.0;
    }
    var s := m.sqrt(q);
    assert s >= 0.0 && s * s == q;
    assert s > 0.0;
    var p := TWOPI * s;
    assert p * p == TWOPI * TWOPI * (s * s);
    assert q * mu == a * a * a;
    p
  }

  /** 360 * (1 / (period * 365)): degrees per day for a period in years. */
  function DailyAngle(period: real): (w: real)
    requires period > 0.0
    ensures w > 0.0
    ensures w * period * 365.0 == 360.0
  {
    var days := period * 365.0;
    var w := 360.0 * (1.0 / days);
    assert w * days == 360.0;
    w
  }

  /** findPeriod: the period from a and μ, then the angular velocity from the period. */
  method FindPeriod(m: MathLib, orb: Orbit)
    requires SqrtLaw(m) && orb.semiMajorAxis > 0.0 && orb.gravitationalparameter > 0.0
    modifies orb`period, orb`angularvelocity
    ensures orb.period == KeplerPeriod(m, orb.semiMajorAxis, orb.gravitationalparameter)
    ensures orb.angularvelocity == DailyAngle(orb.period)
  {
    var a, mu := orb.semiMajorAxis, orb.gravitationalparameter;
    var period := TWOPI * m.sqrt(a * a * a / mu);
    KeplerPeriodFormula(m, a, mu);
    assert period == KeplerPeriod(m, a, mu);
    orb.period := period;
    orb.angularvelocity := 360.0 * (1.0 / (orb.period * 365.0));
  }

  /** KeplerPeriod is the expression findPeriod assigns. */
  lemma KeplerPeriodFormula(m: MathLib, a: real, mu: real)
    requires SqrtLaw(m) && a > 0.0 && mu > 0.0
    ensures KeplerPeriod(m, a, mu) == TWOPI * m.sqrt(a * a * a / mu)
  {
  }

  /**
   * After findPeriod one full orbit is period * 365 steps of updateOrbit: the angular
   * velocity times that count is exactly 360 degrees.
   */
  lemma FullTurnPerPeriod(m: MathLib, a: real, mu: real)
    requires SqrtLaw(m) && a > 0.0 && mu > 0.0
    ensures DailyAngle(KeplerPeriod(m, a, mu)) * (KeplerPeriod(m, a, mu) * 365.0) == 360.0
  {
    var p := KeplerPeriod(m, a, mu);
    var w := DailyAngle(p);
    assert w * p * 365.0 == 360.0;
    assert w * (p * 365.0) == w * p * 365.0;
  }

  // ---------------------------------------------------------------------------
  // Angles

  /** toRadian: theta degrees are theta * PI / 180 radians. */
  function ToRadian(theta: real): (r: real)
    ensures r * 180.0 == theta * PI
  {
    theta * (PI / 180.0)
  }

  /** toDegree: theta radians are theta * 180 / PI degrees. */
  function ToDegree(theta: real): (r: real)
    ensures r * PI == theta * 180.0
  {
    theta * (180.0 / PI)
  }

  /** The two conversions are inverse to each other. */
  lemma AngleRoundTrip(d: real)
    ensures ToDegree(ToRadian(d)) == d
    ensures ToRadian(ToDegree(d)) == d
  {
    assert (PI / 180.0) * (180.0 / PI) == 1.0;
  }

  /** The conversions of test/components/orbittest.cpp. */
  lemma AngleTable()
    ensures ToRadian(90.0) == PI / 2.0 && ToRadian(180.0) == PI && ToRadian(360.0) == 2.0 * PI
    ensures ToRadian(30.0) == PI / 6.0 && ToRadian(60.0) == PI / 3.0 && ToRadian(45.0) == PI / 4.0
    ensures ToDegree(PI / 6.0) == 30.0 && ToDegree(PI / 4.0) == 45.0 && ToDegree(PI / 3.0) == 60.0
    ensures ToDegree(PI / 2.0) == 90.0 && ToDegree(PI) == 180.0 && ToDegree(PI * 2.0) == 360.0
  {
  }

  /** A whole turn of degrees is TWOPI radians. */
  lemma RadianTurn(theta: real)
    ensures ToRadian(theta + 360.0) == ToRadian(theta) + TWOPI
  {
  }

  // ---------------------------------------------------------------------------
  // Positions

  /**
   * toVec2(PolarCoordinate): (r cos θ, r sin θ) with θ in degrees. With sin² + cos² = 1 the
   * Cartesian point lies at distance r from the origin.
   */
  function ToVec2(m: MathLib, coordinate: PolarCoordinate): (v: Vec2)
    ensures Pythagorean(m) ==> v.x * v.x + v.y * v.y == coordinate.r * coordinate.r
  {
    var r, t := coordinate.r, ToRadian(coordinate.theta);
    var c, s := m.cos(t), m.sin(t);
    assert Pythagorean(m) ==> (r * c) * (r * c) + (r * s) * (r * s) == r * r by {
      if Pythagorean(m) {
        assert s * s + c * c == 1.0;
        assert (r * c) * (r * c) + (r * s) * (r * s) == r * r * (c * c + s * s);
      }
    }
    Vec2(r * c, r * s)
  }

  /** Adding 360 degrees to the angle gives the same point. */
  lemma ToVec2Turn(m: MathLib, r: real, theta: real)
    requires TrigPeriodic(m)
    ensures ToVec2(m, PolarCoordinate(r, theta + 360.0)) == ToVec2(m, PolarCoordinate(r, theta))
  {
    RadianTurn(theta);
    assert m.cos(ToRadian(theta) + TWOPI) == m.cos(ToRadian(theta));
    assert m.sin(ToRadian(theta) + TWOPI) == m.sin(ToRadian(theta));
  }

  /** For |e| < 1 and |c| <= 1, d = 1 - e c is positive, and between 1 - e and 1 + e when e >= 0. */
  lemma DenominatorBounds(e: real, c: real, d: real)
    requires -1.0 < e < 1.0 && -1.0 <= c <= 1.0 && d == 1.0 - e * c
    ensures d > 0.0
    ensures e >= 0.0 ==> 1.0 - e <= d <= 1.0 + e
  {
    if e >= 0.0 {
      MulLeft(e, c, 1.0);
      MulLeft(e, -1.0, c);
      assert -e <= e * c <= e;
    } else {
      MulLeft(-e, c, 1.0);
      MulLeft(-e, -1.0, c);
      assert e <= e * c <= -e;
    }
  }

  /**
   * 1 - e cos(toRadian(angle)): the denominator of the conic radius, where
   * toPolarCoordinate passes theta mod 360 + argument as the angle.
   */
  function Denominator(m: MathLib, eccentricity: real, angle: real): (d: real)
    requires CosBounded(m) && -1.0 < eccentricity < 1.0
    ensures d > 0.0
    ensures eccentricity >= 0.0 ==> 1.0 - eccentricity <= d <= 1.0 + eccentricity
  {
    DenominatorBounds(eccentricity, m.cos(ToRadian(angle)), 1.0 - eccentricity * m.cos(ToRadian(angle)));
    1.0 - eccentricity * m.cos(ToRadian(angle))
  }

  /**
   * toPolarCoordinate: the conic radius a(1 - e²) / (1 - e cos(theta mod 360 + argument))
   * and the angle theta mod 360, which leaves the argument out.
   */
  function ToPolarCoordinate(m: MathLib, orb: Orbit): (p: PolarCoordinate)
    requires CosBounded(m) && -1.0 < orb.eccentricity < 1.0
    reads orb`semiMajorAxis, orb`eccentricity, orb`theta, orb`argument
    ensures p.theta == FMod360(orb.theta)
    ensures orb.theta >= 0.0 ==> 0.0 <= p.theta < 360.0
    ensures orb.eccentricity == 0.0 ==> p.r == orb.semiMajorAxis
    ensures p.r * Denominator(m, orb.eccentricity, FMod360(orb.theta) + orb.argument)
              == orb.semiMajorAxis * (1.0 - orb.eccentricity * orb.eccentricity)
  {
    var d := Denominator(m, orb.eccentricity, FMod360(orb.theta) + orb.argument);
    var r := orb.semiMajorAxis * (1.0 - orb.eccentricity * orb.eccentricity) / d;
    PolarCoordinate(r, FMod360(orb.theta))
  }

  lemma MulLeft(k: real, x: real, y: real)
    requires k >= 0.0 && x <= y
    ensures k * x <= k * y
  {
    assert k * y - k * x == k * (y - x);
  }

  lemma MulStrict(k: real, x: real, y: real)
    requires k > 0.0 && x < y
    ensures x * k < y * k
  {
    assert y * k - x * k == k * (y - x);
  }

  /** A divisor between p > 0 and q keeps a * p * q / d between a * p and a * q. */
  lemma ConicBounds(a: real, p: real, q: real, d: real, r: real)
    requires a >= 0.0 && 0.0 < p <= d <= q
    requires r * d == a * p * q
    ensures a * p <= r <= a * q
  {
    var lo, hi := a * p, a * q;
    MulLeft(a, 0.0, p);
    MulLeft(a, 0.0, q);
    assert r * d == lo * q == hi * p;
    MulLeft(lo, d, q);
    MulLeft(hi, p, d);
    if r < lo {
      MulStrict(d, r, lo);
    }
    if r > hi {
      MulStrict(d, hi, r);
    }
  }

  /** The radius stays between the periapsis a(1 - e) and the apoapsis a(1 + e). */
  lemma Apsides(m: MathLib, orb: Orbit)
    requires CosBounded(m) && 0.0 <= orb.eccentricity < 1.0 && orb.semiMajorAxis >= 0.0
    ensures var r := ToPolarCoordinate(m, orb).r;
            orb.semiMajorAxis * (1.0 - orb.eccentricity) <= r <= orb.semiMajorAxis * (1.0 + orb.eccentricity)
  {
    var a, e := orb.semiMajorAxis, orb.eccentricity;
    var d := Denominator(m, e, FMod360(orb.theta) + orb.argument);
    var r := ToPolarCoordinate(m, orb).r;
    var p, q := 1.0 - e, 1.0 + e;
    assert a * (1.0 - e * e) == a * p * q;
    ConicBounds(a, p, q, d, r);
  }

  /** toVec2(Orbit): the point lies at the conic radius from the focus at the origin. */
  function ToVec2Orbit(m: MathLib, orb: Orbit): (v: Vec2)
    requires CosBounded(m) && -1.0 < orb.eccentricity < 1.0
    reads orb`semiMajorAxis, orb`eccentricity, orb`theta, orb`argument
    ensures Pythagorean(m) ==>
      v.x * v.x + v.y * v.y == ToPolarCoordinate(m, orb).r * ToPolarCoordinate(m, orb).r
  {
    ToVec2(m, ToPolarCoordinate(m, orb))
  }

  /**
   * Two orbits that differ only by whole turns of a non-negative true anomaly give the
   * same point, whatever the semi-major axis and argument, for any eccentricity -1 < e < 1.
   */
  lemma ToVec2OrbitTurns(m: MathLib, o1: Orbit, o2: Orbit, k: nat)
    requires CosBounded(m) && -1.0 < o1.eccentricity < 1.0
    requires o2.semiMajorAxis == o1.semiMajorAxis && o2.eccentricity == o1.eccentricity
    requires o2.argument == o1.argument && o1.theta >= 0.0 && o2.theta == o1.theta + 360.0 * k as real
    ensures ToVec2Orbit(m, o2) == ToVec2Orbit(m, o1)
  {
    FModTurns(o1.theta, k);
    assert ToPolarCoordinate(m, o2) == ToPolarCoordinate(m, o1);
  }

  /** A circular orbit draws a circle of radius a around the origin. */
  lemma CircularOrbit(m: MathLib, orb: Orbit)
    requires CosBounded(m) && Pythagorean(m) && orb.eccentricity == 0.0
    ensures var v := ToVec2Orbit(m, orb);
            v.x * v.x + v.y * v.y == orb.semiMajorAxis * orb.semiMajorAxis
  {
  }

  /** CalculateObjectPos: the orbit's point in the x-z plane, divided by 0.01. */
  function CalculateObjectPos(m: MathLib, orbit: Orbit): (pos: Glm.Vec3)
    requires CosBounded(m) && -1.0 < orbit.eccentricity < 1.0
    reads orbit`semiMajorAxis, orbit`eccentricity, orbit`theta, orbit`argument
    ensures pos.y == 0.0
    ensures pos.x == 100.0 * ToVec2Orbit(m, orbit).x && pos.z == 100.0 * ToVec2Orbit(m, orbit).y
  {
    var divider := 0.01;
    var vec := ToVec2Orbit(m, orbit);
    Glm.Vec3(vec.x / divider, 0.0, vec.y / divider)
  }

  /** A circular orbit is drawn with radius 100 a in the x-z plane. */
  lemma CircularObjectPos(m: MathLib, orbit: Orbit)
    requires CosBounded(m) && Pythagorean(m) && orbit.eccentricity == 0.0
    ensures var pos := CalculateObjectPos(m, orbit);
            pos.x * pos.x + pos.z * pos.z == (100.0 * orbit.semiMajorAxis) * (100.0 * orbit.semiMajorAxis)
  {
    CircularOrbit(m, orbit);
    var v := ToVec2Orbit(m, orbit);
    var pos := CalculateObjectPos(m, orbit);
    assert pos.x * pos.x + pos.z * pos.z == 10000.0 * (v.x * v.x + v.y * v.y);
  }

  /** updatePos(Kinematics&, Orbit&): place the body on its orbit and return the new position. */
  method UpdatePosFromOrbit(m: MathLib, objkin: Kinematics, orb: Orbit) returns (pos: Glm.Vec3)
    requires CosBounded(m) && -1.0 < orb.eccentricity < 1.0
    modifies objkin`postion
    ensures pos == objkin.postion == CalculateObjectPos(m, orb)
  {
    objkin.postion := CalculateObjectPos(m, orb);
    pos := objkin.postion;
  }
}
