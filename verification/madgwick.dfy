/**
 * The orientation filter of the firmware (embedded/src/handler/madgwick.rs): a
 * Madgwick-style gradient-descent fusion of gyroscope rates and the
 * accelerometer's gravity direction into a quaternion.
 *
 * The `f32` arithmetic is modelled over `real`.  The fast inverse square root
 * of the firmware is a bit-level approximation; here it is the parameter
 * `invSqrt`, and the only fact the proofs use about it is
 * `invSqrt(x) * invSqrt(x) * x == 1` for the `x > 0` at hand (`ExactAt`).
 * The out-parameter helpers of the firmware are functions returning the
 * values they would have written.
 */
module Madgwick {
  import opened Common

  /** q0 + q1 i + q2 j + q3 k. */
  datatype Quat = Quat(q0: real, q1: real, q2: real, q3: real) {
    /** Component `n`, in the order q0, q1, q2, q3. */
    function At(n: nat): real
      requires n < 4
    {
      match n
      case 0 => q0
      case 1 => q1
      case 2 => q2
      case 3 => q3
    }
  }

  const Identity: Quat := Quat(1.0, 0.0, 0.0, 0.0)
  const Zero4: Quat := Quat(0.0, 0.0, 0.0, 0.0)

  /** Settings of `Estimated::default`. */
  const DefaultGain: real := 0.1
  const DefaultDt: real := 1.0 / 512.0

  /** The degree-to-radian factor written in `update_imu`: a rounding of pi/180. */
  const DegToRad: real := 0.0174533

  /** Twice the reference direction of gravity handed to the gradient step: (0, 0, 2). */
  const GravityRef2: Vec3 := Vec3(0.0, 0.0, 2.0)

  function Add4(a: Quat, b: Quat): Quat {
    Quat(a.q0 + b.q0, a.q1 + b.q1, a.q2 + b.q2, a.q3 + b.q3)
  }

  function Sub4(a: Quat, b: Quat): Quat {
    Quat(a.q0 - b.q0, a.q1 - b.q1, a.q2 - b.q2, a.q3 - b.q3)
  }

  function Scale4(k: real, a: Quat): Quat {
    Quat(k * a.q0, k * a.q1, k * a.q2, k * a.q3)
  }

  function NormSq4(q: Quat): real {
    q.q0 * q.q0 + q.q1 * q.q1 + q.q2 * q.q2 + q.q3 * q.q3
  }

  /** The Hamilton product, the reference the filter's formulas are checked against. */
  function Mul(a: Quat, b: Quat): Quat {
    Quat(a.q0 * b.q0 - a.q1 * b.q1 - a.q2 * b.q2 - a.q3 * b.q3,
         a.q0 * b.q1 + a.q1 * b.q0 + a.q2 * b.q3 - a.q3 * b.q2,
         a.q0 * b.q2 - a.q1 * b.q3 + a.q2 * b.q0 + a.q3 * b.q1,
         a.q0 * b.q3 + a.q1 * b.q2 - a.q2 * b.q1 + a.q3 * b.q0)
  }

  function Conj(q: Quat): Quat {
    Quat(q.q0, -q.q1, -q.q2, -q.q3)
  }

  /** The pure quaternion (0, v). */
  function Pure(v: Vec3): Quat {
    Quat(0.0, v.x, v.y, v.z)
  }

  function VecPart(q: Quat): Vec3 {
    Vec3(q.q1, q.q2, q.q3)
  }

  /** The unit vector along axis `i` of quaternion space. */
  function Basis(i: nat): Quat
    requires i < 4
  {
    match i
    case 0 => Quat(1.0, 0.0, 0.0, 0.0)
    case 1 => Quat(0.0, 1.0, 0.0, 0.0)
    case 2 => Quat(0.0, 0.0, 1.0, 0.0)
    case 3 => Quat(0.0, 0.0, 0.0, 1.0)
  }

  /** The inverse square root is exact at `x`. */
  predicate ExactAt(invSqrt: real -> real, x: real) {
    invSqrt(x) * invSqrt(x) * x == 1.0
  }

  /**
   * `normalize3d`: `v` times the inverse square root of its squared length,
   * so the direction is kept and the squared length is scaled by the square
   * of that factor.
   */
  function Normalize3(invSqrt: real -> real, v: Vec3): (r: Vec3)
    ensures r == Scale3(invSqrt(Dot3(v, v)), v)
    ensures Dot3(r, r) == invSqrt(Dot3(v, v)) * invSqrt(Dot3(v, v)) * Dot3(v, v)
  {
    var k := invSqrt(Dot3(v, v));
    assert Dot3(Scale3(k, v), Scale3(k, v)) == k * k * Dot3(v, v);
    Scale3(k, v)
  }

  /** `normalize4d`: `q` times one factor, which scales the squared norm by its square. */
  function Normalize4(invSqrt: real -> real, q: Quat): (r: Quat)
    ensures r == Scale4(invSqrt(NormSq4(q)), q)
    ensures NormSq4(r) == invSqrt(NormSq4(q)) * invSqrt(NormSq4(q)) * NormSq4(q)
  {
    var k := invSqrt(NormSq4(q));
    assert NormSq4(Scale4(k, q)) == k * k * NormSq4(q);
    Scale4(k, q)
  }

  /** With an exact inverse square root, `normalize3d` yields a unit vector. */
  lemma Normalize3IsUnit(invSqrt: real -> real, v: Vec3)
    requires Dot3(v, v) > 0.0 && ExactAt(invSqrt, Dot3(v, v))
    ensures Dot3(Normalize3(invSqrt, v), Normalize3(invSqrt, v)) == 1.0
  {
  }

  /** With an exact inverse square root, `normalize4d` yields a unit quaternion. */
  lemma Normalize4IsUnit(invSqrt: real -> real, q: Quat)
    requires NormSq4(q) > 0.0 && ExactAt(invSqrt, NormSq4(q))
    ensures NormSq4(Normalize4(invSqrt, q)) == 1.0
  {
  }

  /** Normalising the zero quaternion leaves it zero, whatever `invSqrt(0)` is. */
  lemma Normalize4OfZero(invSqrt: real -> real)
    ensures Normalize4(invSqrt, Zero4) == Zero4
  {
  }

  /**
   * `rotate_and_scalevector`: for the doubled direction `d2`, half of `d2`
   * expressed in the sensor frame of the orientation `q`.
   */
  function RotateAndScaleVector(q: Quat, d2: Vec3): Vec3 {
    Vec3(d2.x * (0.5 - q.q2 * q.q2 - q.q3 * q.q3)
           + d2.y * (q.q0 * q.q3 + q.q1 * q.q2)
           + d2.z * (q.q1 * q.q3 - q.q0 * q.q2),
         d2.x * (q.q1 * q.q2 - q.q0 * q.q3)
           + d2.y * (0.5 - q.q1 * q.q1 - q.q3 * q.q3)
           + d2.z * (q.q0 * q.q1 + q.q2 * q.q3),
         d2.x * (q.q0 * q.q2 + q.q1 * q.q3)
           + d2.y * (q.q2 * q.q3 - q.q0 * q.q1)
           + d2.z * (0.5 - q.q1 * q.q1 - q.q2 * q.q2))
  }

  /** At the identity orientation the doubled gravity reference (0, 0, 2) comes out as (0, 0, 1). */
  lemma RotateGravityAtIdentity()
    ensures RotateAndScaleVector(Identity, GravityRef2) == Vec3(0.0, 0.0, 1.0)
  {
  }

  /** The residual `f` of the gradient step: the rotated reference minus the measurement. */
  function Residual(q: Quat, d2: Vec3, m: Vec3): Vec3 {
    Sub3(RotateAndScaleVector(q, d2), m)
  }

  /**
   * The change of the rotated reference along axis `i` of quaternion space,
   * by a central difference; the rotated reference is quadratic in `q`, so
   * this is its exact partial derivative.
   */
  function Partial(q: Quat, d2: Vec3, i: nat): Vec3
    requires i < 4
  {
    Scale3(0.5, Sub3(RotateAndScaleVector(Add4(q, Basis(i)), d2),
                     RotateAndScaleVector(Sub4(q, Basis(i)), d2)))
  }

  /**
   * The accumulation of `add_gradient_descent_step`: `s` plus J^T f, with
   * the coefficients of J as the firmware writes them.
   */
  function AddGradient(q: Quat, d2: Vec3, f: Vec3, s: Quat): Quat {
    Quat(s.q0 + (d2.y * q.q3 - d2.z * q.q2) * f.x
              + (-d2.x * q.q3 + d2.z * q.q1) * f.y
              + (d2.x * q.q2 - d2.y * q.q1) * f.z,
         s.q1 + (d2.y * q.q2 + d2.z * q.q3) * f.x
              + (d2.x * q.q2 - 2.0 * d2.y * q.q1 + d2.z * q.q0) * f.y
              + (d2.x * q.q3 - d2.y * q.q0 - 2.0 * d2.z * q.q1) * f.z,
         s.q2 + (-2.0 * d2.x * q.q2 + d2.y * q.q1 - d2.z * q.q0) * f.x
              + (d2.x * q.q1 + d2.z * q.q3) * f.y
              + (d2.x * q.q0 + d2.y * q.q3 - 2.0 * d2.z * q.q2) * f.z,
         s.q3 + (-2.0 * d2.x * q.q3 + d2.y * q.q0 + d2.z * q.q1) * f.x
              + (-d2.x * q.q0 - 2.0 * d2.y * q.q3 + d2.z * q.q2) * f.y
              + (d2.x * q.q1 + d2.y * q.q2) * f.z)
  }

  /** `add_gradient_descent_step`: the residual of `q` against `m`, accumulated into `s`. */
  function GradientStep(q: Quat, d2: Vec3, m: Vec3, s: Quat): Quat {
    AddGradient(q, d2, Residual(q, d2, m), s)
  }

  /** A zero residual adds nothing, whatever the orientation. */
  lemma AddGradientOfZero(q: Quat, d2: Vec3, s: Quat)
    ensures AddGradient(q, d2, Zero3, s) == s
  {
  }

  /** When the rotated reference already equals the measurement, the step adds nothing. */
  lemma GradientStepAtAgreement(q: Quat, d2: Vec3, m: Vec3, s: Quat)
    requires RotateAndScaleVector(q, d2) == m
    ensures GradientStep(q, d2, m, s) == s
  {
    assert Residual(q, d2, m) == Zero3;
    AddGradientOfZero(q, d2, s);
  }

  /** `orientation_change_from_gyro`: the quaternion derivative from the body rates `g` (rad/s). */
  function OrientationChangeFromGyro(q: Quat, g: Vec3): Quat {
    Quat(0.5 * (-q.q1 * g.x - q.q2 * g.y - q.q3 * g.z),
         0.5 * (q.q0 * g.x + q.q2 * g.z - q.q3 * g.y),
         0.5 * (q.q0 * g.y - q.q1 * g.z + q.q3 * g.x),
         0.5 * (q.q0 * g.z + q.q1 * g.y - q.q2 * g.x))
  }

  /** Quaternion kinematics: the derivative is q (0, g) / 2. */
  lemma GyroChangeIsKinematics(q: Quat, g: Vec3)
    ensures OrientationChangeFromGyro(q, g) == Scale4(0.5, Mul(q, Pure(g)))
  {
  }

  /** Without rotation the orientation does not change. */
  lemma GyroChangeOfZeroRate(q: Quat)
    ensures OrientationChangeFromGyro(q, Zero3) == Zero4
  {
  }

  /**
   * The guard of `update_imu`, as written: it tests the x axis of the
   * accelerometer three times and neither y nor z.
   */
  predicate CorrectionApplies(a: Vec3) {
    !(a.x == 0.0 && a.x == 0.0 && a.x == 0.0)
  }

  /** The guard lets the correction run exactly when the x acceleration is non-zero. */
  lemma CorrectionAppliesIffAxNonZero(a: Vec3)
    ensures CorrectionApplies(a) <==> a.x != 0.0
  {
  }

  /** The normalised gradient the accelerometer pulls the derivative back with. */
  function Correction(invSqrt: real -> real, q: Quat, a: Vec3): Quat {
    Normalize4(invSqrt, GradientStep(q, GravityRef2, Normalize3(invSqrt, a), Zero4))
  }

  /** The gyro rates of `update_imu`, converted from degrees to radians per second. */
  function Radians(g: Vec3): Vec3 {
    Vec3(g.x * DegToRad, g.y * DegToRad, g.z * DegToRad)
  }

  /** The quaternion derivative after the accelerometer correction, when the guard admits it. */
  function Derivative(invSqrt: real -> real, q: Quat, gain: real, a: Vec3, g: Vec3): Quat {
    var qDot := OrientationChangeFromGyro(q, Radians(g));
    if CorrectionApplies(a) then Sub4(qDot, Scale4(gain, Correction(invSqrt, q, a))) else qDot
  }

  /** One Euler step: `q + d dt`. */
  function Advance(q: Quat, d: Quat, dt: real): Quat {
    Quat(q.q0 + d.q0 * dt, q.q1 + d.q1 * dt, q.q2 + d.q2 * dt, q.q3 + d.q3 * dt)
  }

  /** `r` is the Euler step from `q` along `d`. */
  lemma AdvanceOf(q: Quat, d: Quat, dt: real, r0: real, r1: real, r2: real, r3: real)
    requires r0 == q.q0 + d.q0 * dt && r1 == q.q1 + d.q1 * dt
    requires r2 == q.q2 + d.q2 * dt && r3 == q.q3 + d.q3 * dt
    ensures Quat(r0, r1, r2, r3) == Advance(q, d, dt)
  {
  }

  /** One `update_imu`: `a` in any unit, `g` in degrees per second. */
  function ImuStep(invSqrt: real -> real, q: Quat, gain: real, dt: real, a: Vec3, g: Vec3): Quat {
    Normalize4(invSqrt, Advance(q, Derivative(invSqrt, q, gain, a, g), dt))
  }

  /** Pure gyro integration: q + dt q (0, g) / 2, renormalised. */
  function GyroIntegration(invSqrt: real -> real, q: Quat, dt: real, g: Vec3): Quat {
    Normalize4(invSqrt, Advance(q, Scale4(0.5, Mul(q, Pure(Radians(g)))), dt))
  }

  /** Without the correction, the step integrates the kinematic derivative q (0, g) / 2. */
  lemma UncorrectedStepIsGyroIntegration(invSqrt: real -> real, q: Quat, gain: real, dt: real, a: Vec3, g: Vec3)
    requires Derivative(invSqrt, q, gain, a, g) == OrientationChangeFromGyro(q, Radians(g))
    ensures ImuStep(invSqrt, q, gain, dt, a, g) == GyroIntegration(invSqrt, q, dt, g)
  {
    GyroChangeIsKinematics(q, Radians(g));
  }

  /**
   * With a zero x acceleration the update is pure gyro integration, whatever
   * the y and z accelerations are (even a vertical gravity reading).
   */
  lemma ImuStepWithZeroAx(invSqrt: real -> real, q: Quat, gain: real, dt: real, a: Vec3, g: Vec3)
    requires a.x == 0.0
    ensures ImuStep(invSqrt, q, gain, dt, a, g) == GyroIntegration(invSqrt, q, dt, g)
  {
    UncorrectedStepIsGyroIntegration(invSqrt, q, gain, dt, a, g);
  }

  /** When the correction is the zero quaternion, the derivative is the gyro's alone. */
  lemma DerivativeWithoutCorrection(invSqrt: real -> real, q: Quat, gain: real, a: Vec3, g: Vec3)
    requires Correction(invSqrt, q, a) == Zero4
    ensures Derivative(invSqrt, q, gain, a, g) == OrientationChangeFromGyro(q, Radians(g))
  {
  }

  /**
   * When the accelerometer reading points exactly where the estimate expects
   * gravity, the correction vanishes and the update is pure gyro integration.
   */
  lemma ImuStepWithAgreeingGravity(invSqrt: real -> real, q: Quat, gain: real, dt: real, a: Vec3, g: Vec3)
    requires RotateAndScaleVector(q, GravityRef2) == Normalize3(invSqrt, a)
    ensures ImuStep(invSqrt, q, gain, dt, a, g) == GyroIntegration(invSqrt, q, dt, g)
  {
    GradientStepAtAgreement(q, GravityRef2, Normalize3(invSqrt, a), Zero4);
    Normalize4OfZero(invSqrt);
    DerivativeWithoutCorrection(invSqrt, q, gain, a, g);
    UncorrectedStepIsGyroIntegration(invSqrt, q, gain, dt, a, g);
  }

  /** With an exact inverse square root the update ends on a unit quaternion. */
  lemma ImuStepIsUnit(invSqrt: real -> real, q: Quat, gain: real, dt: real, a: Vec3, g: Vec3)
    requires var p := Advance(q, Derivative(invSqrt, q, gain, a, g), dt);
      NormSq4(p) > 0.0 && ExactAt(invSqrt, NormSq4(p))
    ensures NormSq4(ImuStep(invSqrt, q, gain, dt, a, g)) == 1.0
  {
    Normalize4IsUnit(invSqrt, Advance(q, Derivative(invSqrt, q, gain, a, g), dt));
  }

  /** The only positive real whose square is 1 is 1 itself. */
  lemma PositiveRootOfOne(k: real)
    requires k * k * 1.0 == 1.0 && k > 0.0
    ensures k == 1.0
  {
  }

  /**
   * Without rotation and with the x acceleration zero, every unit orientation
   * is kept: gravity measured exactly along z never corrects a tilted
   * estimate, because the guard only looks at x.
   */
  lemma UnitQuaternionKeptAtRest(invSqrt: real -> real, q: Quat, gain: real, dt: real, a: Vec3)
    requires NormSq4(q) == 1.0 && a.x == 0.0 && ExactAt(invSqrt, 1.0) && invSqrt(1.0) > 0.0
    ensures ImuStep(invSqrt, q, gain, dt, a, Zero3) == q
  {
    PositiveRootOfOne(invSqrt(1.0));
    ImuStepWithZeroAx(invSqrt, q, gain, dt, a, Zero3);
    assert Radians(Zero3) == Zero3;
    assert Scale4(0.5, Mul(q, Pure(Zero3))) == Zero4;
    assert Advance(q, Zero4, dt) == q;
  }

  /** The filter state (`Estimated`): gain, orientation and sample period. */
  class Estimated {
    var gain: real
    var q0: real
    var q1: real
    var q2: real
    var q3: real
    var dt: real

    function Q(): Quat
      reads this
    {
      Quat(q0, q1, q2, q3)
    }

    /** `Estimated::default`. */
    constructor Default()
      ensures gain == DefaultGain && Q() == Identity && dt == DefaultDt
    {
      gain, q0, q1, q2, q3, dt := DefaultGain, 1.0, 0.0, 0.0, 0.0, DefaultDt;
    }

    /** `Estimated::new`: the default orientation with the given gain and period 1/freq. */
    constructor (gain: real, freq: real)
      requires freq != 0.0
      ensures this.gain == gain && Q() == Identity && dt == 1.0 / freq
    {
      this.gain, q0, q1, q2, q3, dt := gain, 1.0, 0.0, 0.0, 0.0, 1.0 / freq;
    }

    function GetQ0(): real reads this { q0 }
    function GetQ1(): real reads this { q1 }
    function GetQ2(): real reads this { q2 }
    function GetQ3(): real reads this { q3 }

    /** `get_q`: component `n` for n in 0..3, an error for every other index. */
    function GetQ(n: int): (r: Result<real>)
      reads this
      ensures r.Ok? <==> 0 <= n < 4
      ensures r.Ok? ==> r.value == Q().At(n)
    {
      match n
      case 0 => Ok(GetQ0())
      case 1 => Ok(GetQ1())
      case 2 => Ok(GetQ2())
      case 3 => Ok(GetQ3())
      case _ => Err
    }

    /**
     * The first part of `update_imu`: the quaternion derivative from the gyro
     * rates, pulled back along the normalised gradient when the guard admits
     * the accelerometer.
     */
    method DerivativeFromSensors(invSqrt: real -> real, aX: real, aY: real, aZ: real, gX: real, gY: real, gZ: real)
      returns (qDot1: real, qDot2: real, qDot3: real, qDot4: real)
      ensures Quat(qDot1, qDot2, qDot3, qDot4) == Derivative(invSqrt, Q(), gain, Vec3(aX, aY, aZ), Vec3(gX, gY, gZ))
    {
      var ax, ay, az := aX, aY, aZ;
      var s0, s1, s2, s3 := 0.0, 0.0, 0.0, 0.0;

      // degrees per second to radians per second
      var gx, gy, gz := gX * DegToRad, gY * DegToRad, gZ * DegToRad;

      var change := OrientationChangeFromGyro(Q(), Vec3(gx, gy, gz));
      qDot1, qDot2, qDot3, qDot4 := change.q0, change.q1, change.q2, change.q3;

      if !(ax == 0.0 && ax == 0.0 && ax == 0.0) {
        var unit := Normalize3(invSqrt, Vec3(ax, ay, az));
        ax, ay, az := unit.x, unit.y, unit.z;

        var s := GradientStep(Q(), GravityRef2, Vec3(ax, ay, az), Quat(s0, s1, s2, s3));
        s := Normalize4(invSqrt, s);
        s0, s1, s2, s3 := s.q0, s.q1, s.q2, s.q3;

        qDot1 := qDot1 - gain * s0;
        qDot2 := qDot2 - gain * s1;
        qDot3 := qDot3 - gain * s2;
        qDot4 := qDot4 - gain * s3;
      }
    }

    /**
     * The second part of `update_imu`: one explicit Euler step of the
     * quaternion along the derivative, field by field.
     */
    method Integrate(qDot1: real, qDot2: real, qDot3: real, qDot4: real)
      modifies this
      ensures Q() == Advance(old(Q()), Quat(qDot1, qDot2, qDot3, qDot4), dt)
      ensures gain == old(gain) && dt == old(dt)
    {
      ghost var q := Q();
      q0 := q0 + qDot1 * dt;
      q1 := q1 + qDot2 * dt;
      q2 := q2 + qDot3 * dt;
      q3 := q3 + qDot4 * dt;
      AdvanceOf(q, Quat(qDot1, qDot2, qDot3, qDot4), dt, q0, q1, q2, q3);
    }

    /**
     * `update_imu`: advance the orientation by one sample period.  Only the
     * quaternion changes; gain and period stay.
     */
    method UpdateImu(invSqrt: real -> real, aX: real, aY: real, aZ: real, gX: real, gY: real, gZ: real)
      modifies this
      ensures Q() == ImuStep(invSqrt, old(Q()), gain, dt, Vec3(aX, aY, aZ), Vec3(gX, gY, gZ))
      ensures gain == old(gain) && dt == old(dt)
    {
      var qDot1, qDot2, qDot3, qDot4 := DerivativeFromSensors(invSqrt, aX, aY, aZ, gX, gY, gZ);
      Integrate(qDot1, qDot2, qDot3, qDot4);

      var n := Normalize4(invSqrt, Q());
      q0, q1, q2, q3 := n.q0, n.q1, n.q2, n.q3;
    }
  }
}
