/**
 * The elbow potentiometer: an ADC channel whose offset is calibrated at
 * start-up and whose readings are converted to a joint angle in radians.
 *
 * ADC conversions are the samples handed to each operation; `f32`
 * arithmetic is modelled over `real`.
 */
module Potentio {
  import opened Common

  /** One ADC conversion (`u16`). */
  type AdcSample = x: int | 0 <= x < 65536

  /** Degrees of joint rotation per ADC count. */
  const PotentioGain: real := 1.0 / 15.0
  /** `core::f32::consts::PI`, the single-precision value of pi. */
  const Pi: real := 3.1415927410125732
  const DegToRad: real := Pi / 180.0

  /** The sum of the samples. */
  function Sum(s: seq<AdcSample>): int
    decreases |s|
  {
    if s == [] then 0 else Sum(s[..|s| - 1]) + s[|s| - 1]
  }

  /** The arithmetic mean of the samples. */
  function Mean(s: seq<AdcSample>): real
    requires |s| > 0
  {
    Sum(s) as real / |s| as real
  }

  lemma {:induction false} SumBounds(s: seq<AdcSample>, lo: int, hi: int)
    requires forall i :: 0 <= i < |s| ==> lo <= s[i] <= hi
    ensures |s| * lo <= Sum(s) <= |s| * hi
  {
    if s != [] {
      var prefix := s[..|s| - 1];
      assert forall i :: 0 <= i < |prefix| ==> prefix[i] == s[i];
      SumBounds(prefix, lo, hi);
      assert |s| * lo == |prefix| * lo + lo && |s| * hi == |prefix| * hi + hi;
    }
  }

  /** The offset lies between the smallest and the largest sample. */
  lemma MeanBounds(s: seq<AdcSample>, lo: int, hi: int)
    requires |s| > 0
    requires forall i :: 0 <= i < |s| ==> lo <= s[i] <= hi
    ensures lo as real <= Mean(s) <= hi as real
  {
    SumBounds(s, lo, hi);
    CastBounds(|s|, lo, hi, Sum(s));
    DivBounds(|s| as real, lo as real, hi as real, Sum(s) as real);
  }

  lemma CastBounds(n: int, lo: int, hi: int, x: int)
    requires n * lo <= x <= n * hi
    ensures (n as real) * (lo as real) <= x as real <= (n as real) * (hi as real)
  {
  }

  lemma DivBounds(n: real, lo: real, hi: real, x: real)
    requires n > 0.0 && n * lo <= x <= n * hi
    ensures lo <= x / n <= hi
  {
  }

  /** A joint at rest calibrates to exactly its reading. */
  lemma MeanOfConstant(s: seq<AdcSample>, c: AdcSample)
    requires |s| > 0
    requires forall i :: 0 <= i < |s| ==> s[i] == c
    ensures Mean(s) == c as real
  {
    MeanBounds(s, c, c);
  }

  /** The joint angle in radians of a conversion, relative to the offset. */
  function Angle(init: real, raw: AdcSample): real {
    (raw as real - init) * PotentioGain * DegToRad
  }

  /** The conversion a given angle comes from: the inverse of `Angle`. */
  function RawOfAngle(init: real, angle: real): real {
    angle / (PotentioGain * DegToRad) + init
  }

  /** `Angle` loses nothing: the conversion is recovered from the angle. */
  lemma RawOfAngleOfAngle(init: real, raw: AdcSample)
    ensures RawOfAngle(init, Angle(init, raw)) == raw as real
  {
    var k := PotentioGain * DegToRad;
    assert Angle(init, raw) == (raw as real - init) * k;
  }

  /** The angle is zero exactly when the conversion equals the offset. */
  lemma AngleZeroIffAtOffset(init: real, raw: AdcSample)
    ensures Angle(init, raw) == 0.0 <==> raw as real == init
  {
    var k := PotentioGain * DegToRad;
    assert k > 0.0;
    assert Angle(init, raw) == (raw as real - init) * k;
  }

  /** The angle grows strictly with the conversion; the offset only shifts it. */
  lemma AngleMonotone(init: real, a: AdcSample, b: AdcSample)
    ensures a <= b ==> Angle(init, a) <= Angle(init, b)
    ensures a < b ==> Angle(init, a) < Angle(init, b)
  {
    var k := PotentioGain * DegToRad;
    assert k > 0.0;
    assert Angle(init, b) - Angle(init, a) == (b - a) as real * k;
  }

  /** `Potentiometer`: the ADC channel and its offset. */
  class Potentiometer {
    var init: real

    /** `new`: the offset starts at zero. */
    constructor ()
      ensures init == 0.0
    {
      init := 0.0;
    }

    /** `initialize`: the offset becomes the mean of the conversions; never fails. */
    method Initialize(samples: seq<AdcSample>) returns (r: Result<()>)
      requires |samples| > 0
      modifies this
      ensures r.Ok?
      ensures init == Mean(samples)
    {
      var initTmp := 0.0;
      for i := 0 to |samples|
        invariant initTmp == Sum(samples[..i]) as real
      {
        assert samples[..i + 1][..i] == samples[..i];
        initTmp := initTmp + samples[i] as real;
      }
      assert samples[..|samples|] == samples;
      initTmp := initTmp / |samples| as real;
      init := initTmp;
      return Ok(());
    }

    /** `read_rad`: the angle of one conversion; never fails, leaves the offset. */
    method ReadRad(sample: AdcSample) returns (r: Result<real>)
      ensures r.Ok? && r.value == Angle(init, sample)
    {
      var result := sample as real;
      return Ok((result - init) * PotentioGain * DegToRad);
    }
  }
}
