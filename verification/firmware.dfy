/**
 * The firmware's entry point and its 100 Hz timer interrupt.
 *
 * The three slots shared with the interrupt (timer, UART transmitter,
 * devices) are plain `Option` values of a single-threaded model; the
 * critical section around them and all peripheral set-up are left out.
 */
module Firmware {
  import opened Common
  import opened Float32
  import opened Madgwick
  import opened Bmx055
  import opened Potentio
  import opened Serial

  /** Sample rate of the timer interrupt and of the filter, in hertz. */
  const Clock: nat := 100
  /** Gyro samples averaged into the bias at start-up. */
  const InitCountImu: nat := 1000
  /** ADC conversions averaged into the elbow offset at start-up. */
  const InitCountAdc: nat := 100
  /** The two bytes that open every frame. */
  const Header: seq<Byte> := [0xE0, 0xE0]
  /** The filter gain the IMU is built with. */
  const FilterGain: real := 0.1

  /** `Timer<TIM2>`: only its time-out flag is modelled. */
  class Timer {
    var pending: bool

    constructor ()
      ensures !pending
    {
      pending := false;
    }

    /** `clear_interrupt(Event::TimeOut)`. */
    method ClearInterrupt()
      modifies this
      ensures !pending
    {
      pending := false;
    }
  }

  /** `Devices`: the IMU driver and the elbow potentiometer. */
  class Devices {
    const imu: Imu
    const elbow: Potentiometer

    constructor (imu: Imu, elbow: Potentiometer)
      ensures this.imu == imu && this.elbow == elbow
    {
      this.imu := imu;
      this.elbow := elbow;
    }
  }

  /** One telemetry frame: header, the quaternion, the elbow angle. */
  function Frame(c: FloatCodec, q: Quat, angle: real): (r: seq<Byte>)
    ensures |r| == 22
  {
    Header + QuaternionBytes(c, q) + ToLeBytes(c, angle)
  }

  /** The frame's layout: bytes 0-1 header, 2-17 quaternion, 18-21 angle, nothing else. */
  lemma FrameLayout(c: FloatCodec, q: Quat, angle: real)
    ensures Frame(c, q, angle)[..2] == Header
    ensures Frame(c, q, angle)[2..18] == QuaternionBytes(c, q)
    ensures Frame(c, q, angle)[18..] == ToLeBytes(c, angle)
  {
    var h, p, a := Header, QuaternionBytes(c, q), ToLeBytes(c, angle);
    assert Frame(c, q, angle) == h + p + a;
    assert (h + p + a)[..2] == h;
    assert (h + p + a)[2..18] == p;
    assert (h + p + a)[18..] == a;
  }

  /**
   * The body of `TIM2` once all three slots are filled: update the IMU, read
   * the elbow angle (0.0 on error), send the quaternion frame, then the
   * angle's bytes.
   */
  method Service(tx: Tx, d: Devices, invSqrt: real -> real, c: FloatCodec,
                 accT: Result<Registers>, gyrT: Result<Registers>, adc: AdcSample)
    modifies tx, d.imu, d.imu.imuData
    ensures d.imu.Bias() == old(d.imu.Bias())
    ensures d.imu.imuData.gain == old(d.imu.imuData.gain) && d.imu.imuData.dt == old(d.imu.imuData.dt)
    ensures d.imu.Acc() == NextAcc(old(d.imu.Acc()), accT)
    ensures d.imu.Gyr() == UpdatedGyr(old(d.imu.Gyr()), d.imu.Bias(), gyrT)
    ensures d.imu.imuData.Q() == ImuStep(invSqrt, old(d.imu.imuData.Q()), d.imu.imuData.gain, d.imu.imuData.dt, d.imu.Acc(), d.imu.Gyr())
    ensures tx.sent == old(tx.sent) + Frame(c, d.imu.imuData.Q(), Angle(d.elbow.init, adc))
  {
    d.imu.Update(invSqrt, accT, gyrT);
    var reading := d.elbow.ReadRad(adc);
    var angle := match reading
      case Ok(value) => value
      case Err => 0.0;
    SendFrame(tx, c, d.imu.imuData, angle);
  }

  /** The two transmissions of `TIM2`: the quaternion frame, then the bare angle bytes. */
  method SendFrame(tx: Tx, c: FloatCodec, estimate: Estimated, angle: real)
    modifies tx
    ensures tx.sent == old(tx.sent) + Frame(c, estimate.Q(), angle)
  {
    ghost var before, payload := tx.sent, QuaternionBytes(c, estimate.Q());
    TransmitQuaternion(tx, c, estimate, Header);
    var bytes := ToLeBytes(c, angle);
    TransmitBase(tx, bytes);
    AppendFrame(before, Header, payload, bytes);
  }

  lemma AppendFrame(s: seq<Byte>, h: seq<Byte>, p: seq<Byte>, a: seq<Byte>)
    ensures s + h + p + a == s + (h + p + a)
  {
  }

  /** The objects a tick may change. */
  function TickFootprint(timer: Option<Timer>, uart: Option<Tx>, dev: Option<Devices>): set<object> {
    (if timer.Some? then {timer.value as object} else {})
    + (if uart.Some? then {uart.value as object} else {})
    + (if dev.Some? then {dev.value.imu as object, dev.value.imu.imuData} else {})
  }

  /**
   * `TIM2`: with the timer present, clear its flag; with the transmitter and
   * the devices present as well, update the IMU, read the elbow angle (0.0
   * on error) and send the frame built from the updated quaternion.
   */
  method Tick(timer: Option<Timer>, uart: Option<Tx>, dev: Option<Devices>,
              invSqrt: real -> real, c: FloatCodec,
              accT: Result<Registers>, gyrT: Result<Registers>, adc: AdcSample)
    modifies TickFootprint(timer, uart, dev)
    ensures timer.Some? ==> !timer.value.pending
    ensures uart.Some? && !(timer.Some? && dev.Some?) ==> uart.value.sent == old(uart.value.sent)
    ensures dev.Some? && !(timer.Some? && uart.Some?) ==>
      unchanged(dev.value.imu) && unchanged(dev.value.imu.imuData)
    ensures timer.Some? && uart.Some? && dev.Some? ==>
      var imu := dev.value.imu;
      && imu.Bias() == old(imu.Bias())
      && imu.imuData.gain == old(imu.imuData.gain) && imu.imuData.dt == old(imu.imuData.dt)
      && imu.Acc() == NextAcc(old(imu.Acc()), accT)
      && imu.Gyr() == UpdatedGyr(old(imu.Gyr()), imu.Bias(), gyrT)
      && imu.imuData.Q() == ImuStep(invSqrt, old(imu.imuData.Q()), imu.imuData.gain, imu.imuData.dt, imu.Acc(), imu.Gyr())
      && uart.value.sent == old(uart.value.sent) + Frame(c, imu.imuData.Q(), Angle(dev.value.elbow.init, adc))
  {
    if timer.Some? {
      timer.value.ClearInterrupt();
      if uart.Some? {
        if dev.Some? {
          Service(uart.value, dev.value, invSqrt, c, accT, gyrT, adc);
        }
      }
    }
  }

  /**
   * The start-up part of `main`: build the IMU with gain 0.1 at 100 Hz and
   * the potentiometer, calibrate both, and fill the shared slots.
   */
  method Boot(imuTs: seq<Result<Registers>>, adc: seq<AdcSample>)
    returns (timer: Option<Timer>, uart: Option<Tx>, dev: Option<Devices>)
    requires |imuTs| == InitCountImu && |adc| == InitCountAdc
    ensures timer.Some? && uart.Some? && dev.Some?
    ensures !timer.value.pending && uart.value.sent == []
    ensures dev.value.imu.imuData.Q() == Identity
    ensures dev.value.imu.imuData.gain == FilterGain && dev.value.imu.imuData.dt == 1.0 / 100.0
    ensures dev.value.imu.Bias() == GyroBias(Zero3, imuTs) && dev.value.imu.Acc() == Zero3
    ensures dev.value.imu.Gyr() == GyrAfter(Zero3, imuTs)
    ensures dev.value.elbow.init == Mean(adc)
    ensures fresh(timer.value) && fresh(uart.value) && fresh(dev.value)
    ensures fresh(dev.value.imu) && fresh(dev.value.imu.imuData) && fresh(dev.value.elbow)
  {
    var tx := new Tx();
    var bmx055 := new Imu(FilterGain, Clock as real);
    var elbow := new Potentiometer();
    bmx055.Initialize(imuTs);
    var _ := elbow.Initialize(adc);
    var timerInterrupt := new Timer();
    var devices := new Devices(bmx055, elbow);
    timer, uart, dev := Some(timerInterrupt), Some(tx), Some(devices);
  }
}
