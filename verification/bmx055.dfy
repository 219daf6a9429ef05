/**
 * The BMX055 driver: decoding the accelerometer and gyroscope registers,
 * the gyro bias calibration, and the per-tick update that feeds the
 * orientation filter.
 *
 * The firmware computes the decoded counts in `f32`, but every intermediate
 * value is an integer below 65536 and therefore exact; the counts are
 * modelled over `int` and the scaled readings over `real`.  The I2C bus is
 * replaced by the outcome of each `write_read` transaction: the six register
 * bytes, or a failure.
 */
module Bmx055 {
  import opened Common
  import opened Madgwick

  /** A `u8` register value. */
  type U8 = x: int | 0 <= x < 256

  /** The six data registers read from address 0x02 on: x, y, z as (lsb, msb). */
  type Registers = s: seq<U8> | |s| == 6 witness [0, 0, 0, 0, 0, 0]

  /** m/s^2 per count: 9.80665 m/s^2 times 0.00098 g per count. */
  const AccCoef: real := 0.0096105
  /** deg/s per count: full scale 125 deg/s over 32768 counts. */
  const GyrCoef: real := 0.003815

  // ---------------------------------------------------------------------
  // Accelerometer: 12-bit two's complement, left-justified in two bytes.
  // ---------------------------------------------------------------------

  /** `b & 0xF0`: the byte with its low nibble cleared. */
  function HighNibble(b: U8): (r: U8)
    ensures r % 16 == 0 && r <= b < r + 16
  {
    b - b % 16
  }

  /** The unsigned 12-bit field: the msb and the high nibble of the lsb. */
  function AccRaw(lo: U8, hi: U8): (r: int)
    ensures 0 <= r < 4096
    ensures 16 * r == hi * 256 + HighNibble(lo)
  {
    (hi * 256 + HighNibble(lo)) / 16
  }

  /** The signed count of one accelerometer axis. */
  function AccCount(lo: U8, hi: U8): (v: int)
    ensures -2048 <= v < 2048
    ensures (v - AccRaw(lo, hi)) % 4096 == 0
    ensures v < 0 <==> AccRaw(lo, hi) >= 2048
  {
    var r := AccRaw(lo, hi);
    if r > 2047 then r - 4096 else r
  }

  /** The register pair a sensor holding count `v` reports (low nibble zero). */
  function AccBytes(v: int): (b: (U8, U8))
    requires -2048 <= v < 2048
    ensures b.0 % 16 == 0
  {
    var w := (v % 4096) * 16;
    (w % 256, w / 256)
  }

  /** Every count in range survives packing into registers and decoding. */
  lemma AccCountOfAccBytes(v: int)
    requires -2048 <= v < 2048
    ensures AccCount(AccBytes(v).0, AccBytes(v).1) == v
  {
    var u := v % 4096;
    var (lo, hi) := AccBytes(v);
    assert HighNibble(lo) == lo;
    assert hi * 256 + lo == u * 16;
    assert AccRaw(lo, hi) == u;
  }

  /** Decoding and re-packing gives back the registers, up to the unused low nibble. */
  lemma AccBytesOfAccCount(lo: U8, hi: U8)
    ensures AccBytes(AccCount(lo, hi)) == (HighNibble(lo), hi)
  {
    var r := AccRaw(lo, hi);
    assert AccCount(lo, hi) % 4096 == r;
    Split256(r * 16, hi, HighNibble(lo));
  }

  lemma Split256(w: int, hi: int, lo: int)
    requires 0 <= lo < 256 && w == hi * 256 + lo
    ensures w / 256 == hi && w % 256 == lo
  {
  }

  /** The four low bits of the lsb carry no information. */
  lemma AccCountIgnoresLowNibble(lo: U8, hi: U8)
    ensures AccCount(lo, hi) == AccCount(HighNibble(lo), hi)
  {
  }

  /** One accelerometer axis in m/s^2, within the +-2 g range. */
  function AccAxis(lo: U8, hi: U8): (a: real)
    ensures -2048.0 * AccCoef <= a <= 2047.0 * AccCoef
    ensures a == 0.0 <==> AccCount(lo, hi) == 0
  {
    AccCount(lo, hi) as real * AccCoef
  }

  /** The three accelerometer axes of a successful transaction. */
  function AccReading(d: Registers): Vec3 {
    Vec3(AccAxis(d[0], d[1]), AccAxis(d[2], d[3]), AccAxis(d[4], d[5]))
  }

  // ---------------------------------------------------------------------
  // Gyroscope: 16-bit two's complement in two bytes.
  // ---------------------------------------------------------------------

  /** The unsigned 16-bit field. */
  function GyrRaw(lo: U8, hi: U8): (r: int)
    ensures 0 <= r < 65536
    ensures r % 256 == lo && r / 256 == hi
  {
    hi * 256 + lo
  }

  /** The signed count of one gyroscope axis. */
  function GyrCount(lo: U8, hi: U8): (v: int)
    ensures -32768 <= v < 32768
    ensures (v - GyrRaw(lo, hi)) % 65536 == 0
    ensures v < 0 <==> hi >= 128
  {
    var r := GyrRaw(lo, hi);
    if r > 32767 then r - 65536 else r
  }

  /** The register pair a sensor holding count `v` reports. */
  function GyrBytes(v: int): (b: (U8, U8))
    requires -32768 <= v < 32768
  {
    var u := v % 65536;
    (u % 256, u / 256)
  }

  /** Every count in range survives packing and decoding ... */
  lemma GyrCountOfGyrBytes(v: int)
    requires -32768 <= v < 32768
    ensures GyrCount(GyrBytes(v).0, GyrBytes(v).1) == v
  {
    assert GyrRaw(GyrBytes(v).0, GyrBytes(v).1) == v % 65536;
  }

  /** ... and every register pair survives decoding and packing: a bijection. */
  lemma GyrBytesOfGyrCount(lo: U8, hi: U8)
    ensures GyrBytes(GyrCount(lo, hi)) == (lo, hi)
  {
    assert GyrCount(lo, hi) % 65536 == GyrRaw(lo, hi);
  }

  /** One gyroscope axis in deg/s, within the +-125 deg/s range. */
  function GyrAxis(lo: U8, hi: U8): (g: real)
    ensures -32768.0 * GyrCoef <= g <= 32767.0 * GyrCoef
    ensures g == 0.0 <==> lo == 0 && hi == 0
  {
    GyrCount(lo, hi) as real * GyrCoef
  }

  /** The three gyroscope axes of a successful transaction. */
  function GyrReading(d: Registers): Vec3 {
    Vec3(GyrAxis(d[0], d[1]), GyrAxis(d[2], d[3]), GyrAxis(d[4], d[5]))
  }

  // ---------------------------------------------------------------------
  // What the driver's fields hold after a sequence of transactions.
  // ---------------------------------------------------------------------

  /** After one transaction: the new reading, or the previous one kept. */
  function NextAcc(prev: Vec3, t: Result<Registers>): (r: Vec3)
    ensures t.Err? ==> r == prev
  {
    if t.Ok? then AccReading(t.value) else prev
  }

  function NextGyr(prev: Vec3, t: Result<Registers>): (r: Vec3)
    ensures t.Err? ==> r == prev
  {
    if t.Ok? then GyrReading(t.value) else prev
  }

  /** The gyro fields after the transactions `ts`, starting from `g0`. */
  function GyrAfter(g0: Vec3, ts: seq<Result<Registers>>): Vec3
    decreases |ts|
  {
    if ts == [] then g0 else NextGyr(GyrAfter(g0, ts[..|ts| - 1]), ts[|ts| - 1])
  }

  /** The sum of the gyro fields after each of the transactions `ts`. */
  function GyrSum(g0: Vec3, ts: seq<Result<Registers>>): Vec3
    decreases |ts|
  {
    if ts == [] then Zero3 else Add3(GyrSum(g0, ts[..|ts| - 1]), GyrAfter(g0, ts))
  }

  /** The bias calibration computes: the mean of the gyro fields over `ts`. */
  function GyroBias(g0: Vec3, ts: seq<Result<Registers>>): Vec3
    requires |ts| > 0
  {
    var n := |ts| as real;
    var sum := GyrSum(g0, ts);
    Vec3(sum.x / n, sum.y / n, sum.z / n)
  }

  /** `count` identical successful samples sum to `count` times the reading. */
  lemma {:induction false} GyrSumOfConstant(g0: Vec3, d: Registers, ts: seq<Result<Registers>>)
    requires forall i :: 0 <= i < |ts| ==> ts[i] == Ok(d)
    ensures ts != [] ==> GyrAfter(g0, ts) == GyrReading(d)
    ensures GyrSum(g0, ts) == Scale3(|ts| as real, GyrReading(d))
  {
    if ts != [] {
      var prefix := ts[..|ts| - 1];
      assert forall i :: 0 <= i < |prefix| ==> prefix[i] == ts[i];
      GyrSumOfConstant(g0, d, prefix);
      var r := GyrReading(d);
      assert GyrAfter(g0, ts) == r;
      ScaleSucc((|ts| - 1) as real, r);
    }
  }

  lemma ScaleSucc(k: real, r: Vec3)
    ensures Add3(Scale3(k, r), r) == Scale3(k + 1.0, r)
  {
  }

  lemma MeanOfScaled(n: real, r: Vec3, sum: Vec3)
    requires n > 0.0 && sum == Scale3(n, r)
    ensures Vec3(sum.x / n, sum.y / n, sum.z / n) == r
  {
  }

  /** A sensor at rest that always answers calibrates to its own reading ... */
  lemma BiasOfConstantSamples(g0: Vec3, d: Registers, ts: seq<Result<Registers>>)
    requires |ts| > 0
    requires forall i :: 0 <= i < |ts| ==> ts[i] == Ok(d)
    ensures GyroBias(g0, ts) == GyrReading(d)
  {
    GyrSumOfConstant(g0, d, ts);
    MeanOfScaled(|ts| as real, GyrReading(d), GyrSum(g0, ts));
  }

  /** ... so a later identical sample compensates to zero on every axis. */
  lemma CompensatedConstantIsZero(g0: Vec3, d: Registers, ts: seq<Result<Registers>>)
    requires |ts| > 0
    requires forall i :: 0 <= i < |ts| ==> ts[i] == Ok(d)
    ensures Sub3(GyrReading(d), GyroBias(g0, ts)) == Zero3
  {
    BiasOfConstantSamples(g0, d, ts);
  }

  /** The gyro fields after one `update`: measured (or kept), then compensated. */
  function UpdatedGyr(prev: Vec3, bias: Vec3, t: Result<Registers>): Vec3 {
    Sub3(NextGyr(prev, t), bias)
  }

  /**
   * `update` stores the compensated rate back into the gyro fields, so when
   * the next gyro transaction fails the bias is subtracted a second time.
   */
  lemma FailedGyrReadSubtractsBiasTwice(prev: Vec3, bias: Vec3, d: Registers)
    ensures UpdatedGyr(UpdatedGyr(prev, bias, Ok(d)), bias, Err)
         == Sub3(GyrReading(d), Scale3(2.0, bias))
    ensures (UpdatedGyr(UpdatedGyr(prev, bias, Ok(d)), bias, Err) == UpdatedGyr(prev, bias, Ok(d)))
         <==> bias == Zero3
  {
  }

  // ---------------------------------------------------------------------
  // The driver.
  // ---------------------------------------------------------------------

  /** `IMU`: the latest readings, the gyro bias and the orientation filter. */
  class Imu {
    var xAcc: real
    var yAcc: real
    var zAcc: real
    var xGyr: real
    var yGyr: real
    var zGyr: real
    var xGyrInit: real
    var yGyrInit: real
    var zGyrInit: real
    const imuData: Estimated

    function Acc(): Vec3 reads this { Vec3(xAcc, yAcc, zAcc) }
    function Gyr(): Vec3 reads this { Vec3(xGyr, yGyr, zGyr) }
    function Bias(): Vec3 reads this { Vec3(xGyrInit, yGyrInit, zGyrInit) }

    /** `new`: all readings and the bias zero, a fresh filter at rest. */
    constructor (gain: real, freq: real)
      requires freq != 0.0
      ensures Acc() == Zero3 && Gyr() == Zero3 && Bias() == Zero3
      ensures fresh(imuData)
      ensures imuData.Q() == Identity && imuData.gain == gain && imuData.dt == 1.0 / freq
    {
      xAcc, yAcc, zAcc := 0.0, 0.0, 0.0;
      xGyr, yGyr, zGyr := 0.0, 0.0, 0.0;
      xGyrInit, yGyrInit, zGyrInit := 0.0, 0.0, 0.0;
      imuData := new Estimated(gain, freq);
    }

    /** `measure_acc`: decode a successful transaction, keep the readings otherwise. */
    method MeasureAcc(t: Result<Registers>)
      modifies this
      ensures Acc() == NextAcc(old(Acc()), t)
      ensures Gyr() == old(Gyr()) && Bias() == old(Bias())
    {
      if t.Ok? {
        var data := t.value;
        AccAsReal(data[0], data[1]);
        AccAsReal(data[2], data[3]);
        AccAsReal(data[4], data[5]);
        xAcc := ((data[1] as real) * 256.0 + HighNibble(data[0]) as real) / 16.0;
        if xAcc > 2047.0 {
          xAcc := xAcc - 4096.0;
        }
        yAcc := ((data[3] as real) * 256.0 + HighNibble(data[2]) as real) / 16.0;
        if yAcc > 2047.0 {
          yAcc := yAcc - 4096.0;
        }
        zAcc := ((data[5] as real) * 256.0 + HighNibble(data[4]) as real) / 16.0;
        if zAcc > 2047.0 {
          zAcc := zAcc - 4096.0;
        }
        xAcc := xAcc * AccCoef;
        yAcc := yAcc * AccCoef;
        zAcc := zAcc * AccCoef;
      }
    }

    /** `measure_gyr`: decode a successful transaction, keep the readings otherwise. */
    method MeasureGyr(t: Result<Registers>)
      modifies this
      ensures Gyr() == NextGyr(old(Gyr()), t)
      ensures Acc() == old(Acc()) && Bias() == old(Bias())
    {
      if t.Ok? {
        var data := t.value;
        xGyr := (data[1] as real) * 256.0 + data[0] as real;
        if xGyr > 32767.0 {
          xGyr := xGyr - 65536.0;
        }
        yGyr := (data[3] as real) * 256.0 + data[2] as real;
        if yGyr > 32767.0 {
          yGyr := yGyr - 65536.0;
        }
        zGyr := (data[5] as real) * 256.0 + data[4] as real;
        if zGyr > 32767.0 {
          zGyr := zGyr - 65536.0;
        }
        xGyr := xGyr * GyrCoef;
        yGyr := yGyr * GyrCoef;
        zGyr := zGyr * GyrCoef;
      }
    }

    /**
     * The calibration part of `initialize`: one gyro transaction per sample,
     * the running sums, then their mean as the bias.
     */
    method Initialize(ts: seq<Result<Registers>>)
      requires |ts| > 0
      modifies this
      ensures Bias() == GyroBias(old(Gyr()), ts)
      ensures Gyr() == GyrAfter(old(Gyr()), ts)
      ensures Acc() == old(Acc())
    {
      ghost var g0 := Gyr();
      var offsetX, offsetY, offsetZ := 0.0, 0.0, 0.0;
      for i := 0 to |ts|
        invariant Gyr() == GyrAfter(g0, ts[..i])
        invariant Vec3(offsetX, offsetY, offsetZ) == GyrSum(g0, ts[..i])
        invariant Acc() == old(Acc()) && Bias() == old(Bias())
      {
        MeasureGyr(ts[i]);
        assert ts[..i + 1][..i] == ts[..i];
        offsetX := offsetX + xGyr;
        offsetY := offsetY + yGyr;
        offsetZ := offsetZ + zGyr;
      }
      assert ts[..|ts|] == ts;
      var count := |ts| as real;
      offsetX := offsetX / count;
      offsetY := offsetY / count;
      offsetZ := offsetZ / count;
      xGyrInit, yGyrInit, zGyrInit := offsetX, offsetY, offsetZ;
    }

    /** `compensate_gyr`: subtract the bias from the gyro fields, nothing else. */
    method CompensateGyr()
      modifies this
      ensures Gyr() == Sub3(old(Gyr()), Bias())
      ensures Acc() == old(Acc()) && Bias() == old(Bias())
    {
      xGyr := xGyr - xGyrInit;
      yGyr := yGyr - yGyrInit;
      zGyr := zGyr - zGyrInit;
    }

    /**
     * `update`: measure the accelerometer, measure the gyroscope, compensate
     * the gyro bias, and feed exactly those values to the filter.
     */
    method Update(invSqrt: real -> real, accT: Result<Registers>, gyrT: Result<Registers>)
      modifies this, imuData
      ensures Bias() == old(Bias())
      ensures Acc() == NextAcc(old(Acc()), accT)
      ensures Gyr() == UpdatedGyr(old(Gyr()), Bias(), gyrT)
      ensures imuData.Q() == ImuStep(invSqrt, old(imuData.Q()), imuData.gain, imuData.dt, Acc(), Gyr())
      ensures imuData.gain == old(imuData.gain) && imuData.dt == old(imuData.dt)
    {
      MeasureAcc(accT);
      MeasureGyr(gyrT);
      CompensateGyr();
      imuData.UpdateImu(invSqrt, xAcc, yAcc, zAcc, xGyr, yGyr, zGyr);
    }
  }

  /** The `f32` path of the accelerometer decode gives the integer count. */
  lemma AccAsReal(lo: U8, hi: U8)
    ensures var r := ((hi as real) * 256.0 + HighNibble(lo) as real) / 16.0;
      (if r > 2047.0 then r - 4096.0 else r) == AccCount(lo, hi) as real
  {
    var n := AccRaw(lo, hi);
    assert (hi as real) * 256.0 + HighNibble(lo) as real == (16 * n) as real;
  }
}
