/**
 * The attitude estimator of WonderPy/core/wwSensors.py (class `Attitude`):
 * a complementary filter that blends a gyro-integrated prediction of
 * (roll, pitch) with the angles implied by the gravity vector.
 *
 * Angles are kept in radians over the reals. The transcendental functions
 * of Python's `math` module are not given values: every operation takes a
 * `MathLib` whose members stand for them, so that nothing here depends on
 * what they compute.
 */
module AttitudeFilter {

  /** Stand-ins for math.sqrt, math.sin, math.cos, math.tan, math.asin and math.atan2. */
  datatype MathLib = MathLib(
    sqrt: real -> real,
    sin: real -> real,
    cos: real -> real,
    tan: real -> real,
    asin: real -> real,
    atan2: (real, real) -> real)

  const DYNAMIC_GAIN: real := 0.05
  const STATIC_GAIN: real := 0.5
  const DYN_STAT_THRESHOLD: real := 0.05
  /** Below this accelerometer magnitude the reading is treated as degenerate. */
  const MIN_MAGNITUDE: real := 0.01
  /** Upper bound the argument of asin is clamped to. */
  const ASIN_LIMIT: real := 0.99
  /** The value of math.pi. */
  const PI: real := 3.141592653589793

  function Abs(x: real): real { if x < 0.0 then -x else x }

  /** A filter state or a pair of derived angles, in radians. */
  datatype Angles = Angles(roll: real, pitch: real)

  /** The arguments of one `update` call: a time step, an acceleration (g) and an angular rate (rad/s). */
  datatype Sample = Sample(dt: real, ax: real, ay: real, az: real, gx: real, gy: real, gz: real)

  function Magnitude(m: MathLib, s: Sample): real
  {
    m.sqrt(s.ax * s.ax + s.ay * s.ay + s.az * s.az)
  }

  /** `min(ax/mag, 0.99)`: clamped from above only. */
  function AsinArgument(ax: real, mag: real): (r: real)
    requires mag != 0.0
    ensures r <= ASIN_LIMIT && r <= ax / mag
    ensures ax / mag <= ASIN_LIMIT ==> r == ax / mag
    ensures ASIN_LIMIT < ax / mag ==> r == ASIN_LIMIT
  {
    var q := ax / mag;
    if ASIN_LIMIT < q then ASIN_LIMIT else q
  }

  /** The roll and pitch implied by the acceleration vector whose magnitude is `mag`. */
  function AccelAngles(m: MathLib, s: Sample, mag: real): Angles
  {
    if Abs(mag) < MIN_MAGNITUDE then Angles(0.0, 0.0)
    else Angles(m.atan2(s.ay / mag, s.az / mag), m.asin(AsinArgument(s.ax, mag)))
  }

  /** Static gain exactly when the magnitude is strictly within the threshold of 1 g. */
  function Gain(mag: real): (g: real)
    ensures g == STATIC_GAIN <==> Abs(mag - 1.0) < DYN_STAT_THRESHOLD
    ensures g == DYNAMIC_GAIN <==> !(Abs(mag - 1.0) < DYN_STAT_THRESHOLD)
    ensures 0.0 < g < 1.0
  {
    if Abs(mag - 1.0) < DYN_STAT_THRESHOLD then STATIC_GAIN else DYNAMIC_GAIN
  }

  /** The gyro-integrated prediction from the current state. */
  function Predicted(m: MathLib, a: Angles, s: Sample): Angles
  {
    var rollDot := s.gx + s.gy * m.sin(a.roll) * m.tan(a.pitch) + s.gz * m.cos(a.roll) * m.tan(a.pitch);
    var pitchDot := s.gy * m.cos(a.roll) - s.gz * m.sin(a.roll);
    Angles(a.roll + rollDot * s.dt, a.pitch + pitchDot * s.dt)
  }

  /**
   * The linear blend `plus + gain*(target - plus)`: the distance to the
   * target shrinks by the factor 1 - gain, and for a gain in [0, 1] the
   * result lies between the prediction and the target.
   */
  function Blend(plus: real, gain: real, target: real): (r: real)
    ensures r - target == (1.0 - gain) * (plus - target)
    ensures 0.0 <= gain <= 1.0 && plus <= target ==> plus <= r <= target
    ensures 0.0 <= gain <= 1.0 && target <= plus ==> target <= r <= plus
  {
    var d := target - plus;
    BlendIdentity(plus, gain, target);
    if 0.0 <= gain <= 1.0 then
      ScaledBetween(gain, d);
      plus + gain * d
    else
      plus + gain * d
  }

  /** Moving a fraction `gain` of the way to the target leaves the fraction `1 - gain` of the distance. */
  lemma BlendIdentity(plus: real, gain: real, target: real)
    ensures plus + gain * (target - plus) - target == (1.0 - gain) * (plus - target)
  {
    assert gain * (target - plus) == gain * target - gain * plus;
    assert (1.0 - gain) * (plus - target) == plus - target - gain * plus + gain * target;
  }

  /** A fraction in [0, 1] of a quantity lies between zero and that quantity. */
  lemma ScaledBetween(g: real, d: real)
    requires 0.0 <= g <= 1.0
    ensures d >= 0.0 ==> 0.0 <= g * d <= d
    ensures d <= 0.0 ==> d <= g * d <= 0.0
  {
    if d >= 0.0 {
      ProductNonNegative(g, d);
      ProductNonNegative(1.0 - g, d);
    } else {
      ProductNonNegative(g, -d);
      ProductNonNegative(1.0 - g, -d);
    }
  }

  lemma SquareNonNegative(x: real)
    ensures x * x >= 0.0
  {
    if x >= 0.0 {
      ProductNonNegative(x, x);
    } else {
      ProductNonNegative(-x, -x);
    }
  }

  lemma ProductNegative(a: real, b: real)
    requires a < 0.0 && b > 0.0
    ensures a * b < 0.0
  {
  }

  lemma ProductNonNegative(a: real, b: real)
    requires a >= 0.0 && b >= 0.0
    ensures a * b >= 0.0
  {
  }

  /** The state after one `update` call. */
  function Step(m: MathLib, a: Angles, s: Sample): Angles
  {
    var mag := Magnitude(m, s);
    var accel := AccelAngles(m, s, mag);
    var plus := Predicted(m, a, s);
    var gain := Gain(mag);
    Angles(Blend(plus.roll, gain, accel.roll), Blend(plus.pitch, gain, accel.pitch))
  }

  /** Radians to degrees, as the `roll` and `pitch` properties convert. */
  function Degrees(rad: real): (deg: real)
    ensures deg * PI == rad * 180.0
  {
    rad * 180.0 / PI
  }

  /** Degrees to radians, as the gyroscope readings are converted before an update. */
  function Radians(deg: real): (rad: real)
    ensures rad * 180.0 == deg * PI
  {
    deg * PI / 180.0
  }

  lemma DegreesOfRadians(deg: real)
    ensures Degrees(Radians(deg)) == deg
  {
  }

  /** A degenerate reading yields zero accelerometer angles, whatever its direction. */
  lemma DegenerateIgnoresDirection(m: MathLib, s: Sample, t: Sample)
    requires Abs(Magnitude(m, s)) < MIN_MAGNITUDE && Abs(Magnitude(m, t)) < MIN_MAGNITUDE
    ensures AccelAngles(m, s, Magnitude(m, s)) == Angles(0.0, 0.0)
    ensures AccelAngles(m, s, Magnitude(m, s)) == AccelAngles(m, t, Magnitude(m, t))
  {
  }

  /**
   * On a degenerate reading the dynamic gain applies (the magnitude is far
   * from 1 g), so the prediction is pulled towards zero by 5%.
   */
  lemma DegenerateStep(m: MathLib, a: Angles, s: Sample)
    requires Abs(Magnitude(m, s)) < MIN_MAGNITUDE
    ensures Step(m, a, s).roll == 0.95 * Predicted(m, a, s).roll
    ensures Step(m, a, s).pitch == 0.95 * Predicted(m, a, s).pitch
  {
    assert Gain(Magnitude(m, s)) == DYNAMIC_GAIN;
  }

  /** The threshold edges 0.95 g and 1.05 g pick the dynamic gain; 1 g picks the static one. */
  lemma GainThresholdEdges()
    ensures Gain(0.95) == DYNAMIC_GAIN && Gain(1.05) == DYNAMIC_GAIN
    ensures Gain(1.0) == STATIC_GAIN
  {
  }

  /**
   * The asin argument is clamped at the top only, but when `mag` is a true
   * square root of the squared norm it can never fall below -1, so it always
   * lies in asin's domain.
   */
  lemma AsinArgumentInDomain(ax: real, ay: real, az: real, mag: real)
    requires mag > 0.0 && mag * mag == ax * ax + ay * ay + az * az
    ensures -1.0 <= AsinArgument(ax, mag) <= ASIN_LIMIT
  {
    SquareNonNegative(ay);
    SquareNonNegative(az);
    assert ax * ax <= mag * mag;
    if ax + mag < 0.0 {
      ProductNegative(ax + mag, mag - ax);
      assert false;
    }
    var q := ax / mag;
    assert q * mag == ax;
    if q < -1.0 {
      ProductNegative(q + 1.0, mag);
      assert false;
    }
  }

  /**
   * With a true square root and asin, atan2 ranging over [-pi/2, pi/2] and
   * [-pi, pi], the accelerometer angles lie in those ranges.
   */
  lemma AccelAnglesInRange(m: MathLib, s: Sample)
    requires Magnitude(m, s) >= 0.0
    requires Magnitude(m, s) * Magnitude(m, s) == s.ax * s.ax + s.ay * s.ay + s.az * s.az
    requires forall x :: -1.0 <= x <= 1.0 ==> -PI / 2.0 <= m.asin(x) <= PI / 2.0
    requires forall y, x :: -PI <= m.atan2(y, x) <= PI
    ensures -PI <= AccelAngles(m, s, Magnitude(m, s)).roll <= PI
    ensures -PI / 2.0 <= AccelAngles(m, s, Magnitude(m, s)).pitch <= PI / 2.0
  {
    var mag := Magnitude(m, s);
    if !(Abs(mag) < MIN_MAGNITUDE) {
      AsinArgumentInDomain(s.ax, s.ay, s.az, mag);
    }
  }

  /**
   * Gravity-aligned and not rotating, starting from (0, 0): the state stays
   * (0, 0), given the textbook values of sqrt, asin and atan2 at these points.
   */
  lemma AtRestStaysLevel(m: MathLib, dt: real)
    requires m.sqrt(1.0) == 1.0 && m.asin(0.0) == 0.0 && m.atan2(0.0, 1.0) == 0.0
    ensures Step(m, Angles(0.0, 0.0), Sample(dt, 0.0, 0.0, 1.0, 0.0, 0.0, 0.0)) == Angles(0.0, 0.0)
  {
    var s := Sample(dt, 0.0, 0.0, 1.0, 0.0, 0.0, 0.0);
    assert s.ax * s.ax + s.ay * s.ay + s.az * s.az == 1.0;
    assert Magnitude(m, s) == 1.0;
    assert AsinArgument(0.0, 1.0) == 0.0;
  }

  /** The estimator state: roll and pitch in radians, as `_roll` and `_pitch`. */
  class Attitude {
    var roll: real
    var pitch: real

    function State(): Angles
      reads this
    {
      Angles(roll, pitch)
    }

    constructor()
      ensures State() == Angles(0.0, 0.0)
    {
      roll := 0.0;
      pitch := 0.0;
    }

    /** One filter update; the not-a-number check that follows it in the source is not modelled. */
    method Update(m: MathLib, dt: real, accelX: real, accelY: real, accelZ: real,
                  omegaX: real, omegaY: real, omegaZ: real)
      modifies this
      ensures State() == Step(m, old(State()), Sample(dt, accelX, accelY, accelZ, omegaX, omegaY, omegaZ))
    {
      var s := Sample(dt, accelX, accelY, accelZ, omegaX, omegaY, omegaZ);
      var accelMag := Magnitude(m, s);
      var accel := AccelAngles(m, s, accelMag);
      var plus := Predicted(m, State(), s);
      var gain := Gain(accelMag);
      pitch := Blend(plus.pitch, gain, accel.pitch);
      roll := Blend(plus.roll, gain, accel.roll);
    }

    /** The `roll` property: the roll in degrees. */
    function RollDegrees(): (deg: real)
      reads this
      ensures deg * PI == roll * 180.0
    {
      Degrees(roll)
    }

    /** The `pitch` property: the pitch in degrees. */
    function PitchDegrees(): (deg: real)
      reads this
      ensures deg * PI == pitch * 180.0
    {
      Degrees(pitch)
    }
  }
}
