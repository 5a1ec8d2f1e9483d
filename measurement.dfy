/**
 * Decoding of the sensor's output registers and their conversion to physical units.
 * Each channel is a 16-bit two's-complement value sent high byte first; conversions are
 * stated over exact reals.
 */
module Measurement {
  import opened Bits

  predicate IsInt16(v: int) {
    -32768 <= v <= 32767
  }

  /** `struct.unpack(">h", bytes([hi, lo]))[0]`: the big-endian signed 16-bit value of a byte pair. */
  function DecodeInt16(hi: byte, lo: byte): (v: int)
    ensures IsInt16(v)
    ensures (v - (hi * 256 + lo)) % 65536 == 0
    ensures v < 0 <==> hi >= 0x80
  {
    var unsigned := hi * 256 + lo;
    if hi >= 0x80 then unsigned - 65536 else unsigned
  }

  /** The two bytes, high first, that a 16-bit two's-complement register holds for `v`. */
  function EncodeInt16(v: int): (bytes: seq<byte>)
    requires IsInt16(v)
    ensures |bytes| == 2
  {
    var unsigned := if v < 0 then v + 65536 else v;
    [unsigned / 256, unsigned % 256]
  }

  /** Encoding then decoding gives back every 16-bit value. */
  lemma DecodeEncode(v: int)
    requires IsInt16(v)
    ensures DecodeInt16(EncodeInt16(v)[0], EncodeInt16(v)[1]) == v
  {
  }

  /** Decoding then encoding gives back every byte pair: the decoding loses nothing. */
  lemma EncodeDecode(hi: byte, lo: byte)
    ensures EncodeInt16(DecodeInt16(hi, lo)) == [hi, lo]
  {
  }

  /** The three axes of one accelerometer or gyroscope sample, in raw counts. */
  datatype Axes = Axes(x: int, y: int, z: int)

  predicate IsSample(a: Axes) {
    IsInt16(a.x) && IsInt16(a.y) && IsInt16(a.z)
  }

  /** The six-byte burst `data[0:2], data[2:4], data[4:6]` decoded as X, Y and Z. */
  function DecodeAxes(data: seq<byte>): (a: Axes)
    requires |data| == 6
    ensures IsSample(a)
  {
    Axes(DecodeInt16(data[0], data[1]), DecodeInt16(data[2], data[3]), DecodeInt16(data[4], data[5]))
  }

  /** The six-byte register image of a sample, X first. */
  function EncodeAxes(a: Axes): (data: seq<byte>)
    requires IsSample(a)
    ensures |data| == 6
  {
    EncodeInt16(a.x) + EncodeInt16(a.y) + EncodeInt16(a.z)
  }

  /** Every sample is recovered from its six-byte image. */
  lemma AxesRoundTrip(a: Axes)
    requires IsSample(a)
    ensures DecodeAxes(EncodeAxes(a)) == a
  {
  }

  /** Every six-byte burst is the image of the sample decoded from it. */
  lemma BurstRoundTrip(data: seq<byte>)
    requires |data| == 6
    ensures EncodeAxes(DecodeAxes(data)) == data
  {
  }

  /** Full-scale counts: a raw reading of -32768 stands for minus the configured full scale. */
  const FULL_SCALE_COUNTS: real := 32768.0

  /** `raw / 32768.0 * scale`: a raw reading in the physical unit of a channel with full scale `scale`. */
  function ToPhysical(raw: int, scale: real): real {
    raw as real / FULL_SCALE_COUNTS * scale
  }

  /** A fraction in [-1, 1) of a positive scale lies in [-scale, scale). */
  lemma FractionTimesScale(f: real, scale: real)
    requires -1.0 <= f < 1.0 && scale > 0.0
    ensures -scale <= f * scale < scale
  {
    var below := 1.0 - f;
    assert below * scale > 0.0;
    var above := f + 1.0;
    assert above * scale >= 0.0;
  }

  /** A 16-bit reading converts into [-scale, scale), and the most negative reading gives exactly -scale. */
  lemma ToPhysicalRange(raw: int, scale: real)
    requires IsInt16(raw) && scale > 0.0
    ensures -scale <= ToPhysical(raw, scale) < scale
    ensures raw == -32768 ==> ToPhysical(raw, scale) == -scale
    ensures raw == 32767 ==> ToPhysical(raw, scale) == scale - scale / FULL_SCALE_COUNTS
  {
    FractionTimesScale(raw as real / FULL_SCALE_COUNTS, scale);
  }

  /** The conversion can be undone: the raw reading is recovered from the physical value and the scale. */
  lemma ToPhysicalInverse(raw: int, scale: real)
    requires scale != 0.0
    ensures ToPhysical(raw, scale) * FULL_SCALE_COUNTS / scale == raw as real
  {
  }

  /** A larger reading never gives a smaller physical value when the full scale is positive. */
  lemma ToPhysicalMonotone(r1: int, r2: int, scale: real)
    requires r1 < r2 && scale > 0.0
    ensures ToPhysical(r1, scale) < ToPhysical(r2, scale)
  {
    assert (r2 - r1) as real / FULL_SCALE_COUNTS * scale > 0.0;
  }

  /** Sensitivity of the die temperature sensor, in counts per degree Celsius. */
  const TEMP_SENSITIVITY: real := 132.48
  /** Temperature at a raw reading of zero, in degrees Celsius. */
  const TEMP_OFFSET: real := 25.0

  /** `raw / 132.48 + 25.0`: a raw temperature reading in degrees Celsius. */
  function Celsius(raw: int): real {
    raw as real / TEMP_SENSITIVITY + TEMP_OFFSET
  }

  /** A zero reading is 25 degrees, and the conversion is strictly increasing. */
  lemma CelsiusCalibration(r1: int, r2: int)
    ensures Celsius(0) == 25.0
    ensures r1 < r2 <==> Celsius(r1) < Celsius(r2)
  {
  }

  /** The raw reading is recovered from the temperature. */
  lemma CelsiusInverse(raw: int)
    ensures (Celsius(raw) - TEMP_OFFSET) * TEMP_SENSITIVITY == raw as real
  {
  }

  /** A sample in physical units. */
  datatype Vector3 = Vector3(x: real, y: real, z: real)

  /**
   * Every axis of a sample converted with the same full scale: each axis of a 16-bit sample lies
   * in [-scale, scale) when the scale is positive, and the most negative reading is exactly -scale.
   */
  function ScaleAxes(a: Axes, scale: real): (v: Vector3)
    ensures IsSample(a) && scale > 0.0 ==>
      -scale <= v.x < scale && -scale <= v.y < scale && -scale <= v.z < scale
    ensures a.x == -32768 ==> v.x == -scale
    ensures a.y == -32768 ==> v.y == -scale
    ensures a.z == -32768 ==> v.z == -scale
  {
    var v := Vector3(ToPhysical(a.x, scale), ToPhysical(a.y, scale), ToPhysical(a.z, scale));
    if IsSample(a) && scale > 0.0 then
      ToPhysicalRange(a.x, scale);
      ToPhysicalRange(a.y, scale);
      ToPhysicalRange(a.z, scale);
      v
    else
      v
  }
}
